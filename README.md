# Chat bot command resolver and filler limiter, in Dafny

A model of the decision logic of a Twitch/YouTube chat bot. A chat line goes
to one of two handlers, depending on whether it starts with `!`:

- `processChat` gets plain chat. It counts messages and, once enough
  messages and enough time have passed, sends one "filler" line: a random
  quote, compliment or timer message.
- `processCommand` gets a `!command`. It resolves the command word:
  - first against two stored dictionaries of reply templates: the
    restricted "broadcaster" tier and the general tier;
  - then against the built-in verbs (`time`, `compliment`, `quote`,
    `promote`, the command-management grammar, `addquote`/`addtimer`/
    `addcompliment` and `define`).

  Management commands edit the dictionaries. The text files behind quotes,
  compliments and timer messages are read as lines and appended to.

The model covers:

- **Current bot:** the handlers in index.ts, the resolver and limiter in
  utils/ChatProcessor.ts, and the file store in utils/Commands.ts.
- **Legacy bot (src/index.ts):** an earlier self-contained bot with
  different rules. Broadcaster-tier edits are unconditional, the general
  tier is searched first, and there is a 20-message limiter with streamer
  shout-outs.
- **utils/TwitchAPI.ts:** the arithmetic of the video-offset link.
- **utils/TextToSpeech.ts:** the quoting of a message into a PowerShell
  command line.

Modules, one per source file:

| module | file | models |
|---|---|---|
| `Text` | text.dfy | the JavaScript string operations used throughout: `split`/`join` on one character, `replaceAll` of one character, `indexOf`/`includes`/`replace` of the first occurrence, `startsWith`, `toLowerCase` |
| `Random` | random.dfy | `arr[Math.floor(Math.random() * arr.length)]`, with `Math.random()` as a parameter in [0, 1) |
| `Commands` | commands.dfy | utils/Commands.ts: text files as lines; the presence test and add/edit/remove on a dictionary; class `Files`, the files on disk, which each operation rewrites |
| `ChatProcessor` | chat_processor.dfy | utils/ChatProcessor.ts: `ProcessCommandSpec`, the resolver as a function of the files; the `ProcessCommand` method, proved equal to it; the limiter as `ChatStep` and class `ChatCounters`; `SendChatResponse` |
| `ChatEvents` | chat_events.dfy | index.ts: classifying a line, splitting `!command rest`, the badge loop, the YouTube flags, and the redemption announcement |
| `LegacyBot` | legacy_bot.dfy | src/index.ts: `OnCommandSpec` and `ChatStep`, with class `Bot` holding the module-level state |
| `TwitchApi` | twitch_api.dfy | `convertSecondsToHMS` and the offset of `getVODTimestamp` |
| `TextToSpeech` | text_to_speech.dfy | `escapeTextForPowershell` and the command line `textToSpeech` builds |

The imperative code keeps an imperative form:

- Each class holds the state the source keeps at module level, or on disk.
- Each class method is proved equal to a specification function.
- The properties themselves are lemmas about those functions.

The following are parameters:

- the clock (`now`, `localtime`);
- `Math.random()`;
- the answers of HTTP endpoints (`clip`);
- the contents of the files when the bot starts.

### Behaviour of the code worth knowing

- **A permitted restricted command does not stop the cascade.** After the
  restricted reply the general tier and the built-ins are still tried, so a
  name stored in both tiers sends two replies (`RestrictedFallsThrough`).
- **Failure replies.** Failed add, edit and delete requests reply
  `Failed to <verb> command "!<name>"`, and an unknown mode replies
  `Operation of modifying command failed`.
- **Presence test.** A stored name counts as present only when its template
  is non-empty (JavaScript truthiness, `EmptyTemplateIsAbsent`).
- **`!compliment` reply.** utils/ChatProcessor.ts sends it without the
  message id.
- **Thresholds are fixed constants.** They are 5 messages / 5 minutes in
  utils/ChatProcessor.ts and 20 messages / 5 minutes in src/index.ts.
- **Excluded accounts in the legacy bot** still add to the message count
  (`ExcludedUsersStillCount`).
- **`convert` is commented out** in utils/ChatProcessor.ts and is not a
  verb here.

## Model

| member | source | states |
|---|---|---|
| `Text.Split` | utils/Commands.ts:10 | `split` yields at least one piece and no piece holds the separator |
| `Text.Join` | utils/Commands.ts:19-20 | definition of `array.join(sep)`: the pieces with one separator between neighbours; its properties are `Text.JoinOfSplit` and `Text.SplitOfJoin` |
| `Text.SplitLength` | utils/Commands.ts:10 | a split has one more piece than the text has separators |
| `Text.JoinOfSplit` | utils/Commands.ts:8-10 | joining the pieces of a split with the same separator gives the text back |
| `Text.SplitOfJoin` | utils/Commands.ts:19-22 | splitting a join gives the pieces back when no piece holds the separator |
| `Text.RemoveAll` | utils/Commands.ts:9 | `replaceAll("\r", "")` leaves no `\r` and shortens the text by the number of `\r` removed |
| `Text.IndexOf` | src/index.ts:282-283 | `indexOf` finds exactly the first occurrence, and `None` means no occurrence at all |
| `Text.ReplaceFirst` | utils/ChatProcessor.ts:51-52 | definition of `s.replace(pat, rep)` with a string pattern: the first occurrence found by `Text.IndexOf` is replaced, and without one the text is returned as it is; its properties are `Text.ReplaceAfterPrefix`, `ChatProcessor.SubstituteBoth` and `LegacyBot.NormalizeRemovesFirstBang` |
| `Text.ReplaceAfterPrefix` | utils/ChatProcessor.ts:51-52 | `replace` rewrites the first occurrence of the pattern, the one right after a prefix that cannot start it |
| `Text.ToLower` | utils/ChatProcessor.ts:103-104 | `toLowerCase` keeps the length and maps every character by the ASCII case rule |
| `Text.FirstWord` | utils/ChatProcessor.ts:50 | `message.split(" ")[0]` is the text up to the first space: it holds no space and is either the whole message or followed by a space in it |
| `Random.RandomIndex` | utils/ChatProcessor.ts:305-306 | `Math.floor(Math.random() * n)` is a valid index for n > 0 |
| `Random.Draw` | utils/ChatProcessor.ts:302-309 | a random line is a line of the corpus |
| `Random.DrawReachesEveryLine` | utils/ChatProcessor.ts:313 | every line of a corpus is drawn for some value of `Math.random()` |
| `Commands.GetTextFileContent` | utils/Commands.ts:5-11 | a text file reads as at least one line, and no line holds `\r` or `\n` |
| `Commands.JoinLines` | utils/Commands.ts:19-20 | definition of the text `writeToTextFile` writes: the lines joined by newlines; its properties are `Commands.TextRoundTrip` and `Commands.ReadWriteDropsCarriageReturns` |
| `Commands.LineCount` | utils/Commands.ts:5-11 | a file reads as one line more than it has newlines |
| `Commands.TextRoundTrip` | utils/Commands.ts:19-22 | writing lines and reading them back gives the same lines when no line holds a line break |
| `Commands.ReadWriteDropsCarriageReturns` | utils/Commands.ts:5-22 | reading a file and writing it back only drops its carriage returns |
| `Commands.AppendLine` | utils/Commands.ts:32-40 | definition of the text after `addToTextFile`: read the lines, push the new one, join them again; its property is `Commands.AppendLineReadsBack` |
| `Commands.AppendLineReadsBack` | utils/Commands.ts:32-40 | after `addToTextFile` the file reads as the old lines plus the new one |
| `Commands.Present` | utils/Commands.ts:50 | definition of the truthiness test `json[name]`: the name is a key and its template is not ""; its properties are `Commands.Add`, `Commands.Edit`, `Commands.Remove` and `Commands.EmptyTemplateIsAbsent` |
| `Commands.Add` | utils/Commands.ts:43-59 | add succeeds iff the name is not truthily present; on success the name maps to the template and nothing else changes; on failure nothing changes |
| `Commands.Edit` | utils/Commands.ts:78-94 | edit succeeds iff the name is present; it then overwrites only that name; on failure nothing changes |
| `Commands.Remove` | utils/Commands.ts:61-76 | remove succeeds iff the name is present; it then removes exactly that name; on failure nothing changes |
| `Commands.AddThenRemoveRestores` | utils/Commands.ts:43-76 | adding a fresh name with a non-empty template succeeds, and removing it again restores the dictionary |
| `Commands.SecondAddFails` | utils/Commands.ts:50-52 | once an add stored a non-empty template, a second add of that name fails and changes nothing |
| `Commands.SecondRemoveFails` | utils/Commands.ts:67-69 | a second remove of a name fails |
| `Commands.EmptyTemplateIsAbsent` | utils/Commands.ts:50 | a name stored with "" is treated as absent by add, edit and remove |
| `Commands.Files.constructor` | utils/Commands.ts:14-16 | the files start with the given contents |
| `Commands.Files.WriteToTextFile` | utils/Commands.ts:19-22 | only the named text file changes, to the lines joined by newlines |
| `Commands.Files.WriteToCommandsFile` | utils/Commands.ts:24-29 | only the named JSON file changes, to the given dictionary |
| `Commands.Files.AddToTextFile` | utils/Commands.ts:32-40 | always reports success; the file gains the line at its end and the other files are unchanged |
| `Commands.Files.AddCommand` | utils/Commands.ts:43-59 | result and new files are those of `Add` on the named dictionary |
| `Commands.Files.RemoveCommand` | utils/Commands.ts:61-76 | result and new files are those of `Remove` on the named dictionary |
| `Commands.Files.EditCommand` | utils/Commands.ts:78-94 | result and new files are those of `Edit` on the named dictionary |
| `ChatProcessor.SendChatResponse` | utils/ChatProcessor.ts:275-300 | YouTube uses the YouTube action; Twitch uses the reply action iff the message id is truthy, otherwise the plain action; any other source sends nothing; the response is passed unchanged |
| `ChatProcessor.Substitute` | utils/ChatProcessor.ts:49-52 | definition of the reply for a stored template: the first `{user}` becomes `@user`, then the first `{mention}` the first word of the message; its properties are `ChatProcessor.SubstituteWithoutPlaceholders` and `ChatProcessor.SubstituteBoth` |
| `ChatProcessor.SubstituteWithoutPlaceholders` | utils/ChatProcessor.ts:49-52 | a template without `{user}` or `{mention}` is sent as stored |
| `ChatProcessor.SubstituteBoth` | utils/ChatProcessor.ts:49-52 | in `a{user}b{mention}c`, only the first `{user}` becomes `@user` and only the first `{mention}` the first word of the message: the tail `c` is kept as it is, whatever placeholders it holds |
| `ChatProcessor.ParseModify` | utils/ChatProcessor.ts:102-109 | definition of the management grammar: mode, name and template from the words of the message, or none when it has one word; its properties are `ChatProcessor.ParseModifyNeedsName`, `ChatProcessor.ParseModifyParts` and `ChatProcessor.AddRequestParses` |
| `ChatProcessor.ParseModifyNeedsName` | utils/ChatProcessor.ts:102-104 | the management grammar finds no name (the source throws) exactly when the message has no space |
| `ChatProcessor.ParseModifyParts` | utils/ChatProcessor.ts:102-109 | `mode name template` parses to the lower-cased mode, the normalised name and the template verbatim |
| `ChatProcessor.AddRequestParses` | utils/ChatProcessor.ts:102-113 | `add name template` parses to an add request |
| `ChatProcessor.NormalizeName` | utils/ChatProcessor.ts:104-109 | the stored name is the lower-cased typed name without one leading `!` |
| `ChatProcessor.ProcessCommandSpec` | utils/ChatProcessor.ts:28-55 | definition of `processCommand` on the files: the permission test, the restricted tier, then `GeneralSpec`; its properties are `ChatProcessor.NoPermissionStops`, `ChatProcessor.OnlyModeratorsChangeFiles`, `ChatProcessor.RestrictedFallsThrough`, `ChatProcessor.StoredCommandShadowsBuiltins`, `ChatProcessor.UnknownCommandIsSilent` and `ChatProcessor.ManagementTouchesOneTier`, and `ChatProcessor.ProcessCommand` performs it |
| `ChatProcessor.GeneralSpec` | utils/ChatProcessor.ts:57-226 | definition of the general tier and the built-in verbs in source order; its properties are `ChatProcessor.StoredCommandShadowsBuiltins`, `ChatProcessor.UnknownCommandIsSilent` and `ChatProcessor.ManagementAddsCommand`, and `ChatProcessor.ProcessGeneral` performs it |
| `ChatProcessor.ModifySpec` | utils/ChatProcessor.ts:92-110 | definition of the management branch: the tier named by the verb, then the parsed request, or nothing for a one-word message; its property is `ChatProcessor.ModifyTouchesOneTier`, and `ChatProcessor.ModifyCommand` performs it |
| `ChatProcessor.ApplyModifySpec` | utils/ChatProcessor.ts:111-175 | definition of one management request by mode; its properties are `ChatProcessor.ApplyTouchesOneEntry`, `ChatProcessor.ManagementAddRefused`, `ChatProcessor.ManagementEditReplies`, `ChatProcessor.ManagementDeleteReplies` and `ChatProcessor.UnknownModeFails`, and `ChatProcessor.ApplyModify` performs it |
| `ChatProcessor.NoPermissionStops` | utils/ChatProcessor.ts:40-47 | a restricted command without mod or broadcaster flags gets only the refusal, and the files are unchanged |
| `ChatProcessor.OnlyModeratorsChangeFiles` | utils/ChatProcessor.ts:92-95 | a caller without mod or broadcaster flags never changes any file |
| `ChatProcessor.RestrictedFallsThrough` | utils/ChatProcessor.ts:48-67 | a permitted restricted command also goes through the general tier: a name in both tiers sends both templates, restricted first |
| `ChatProcessor.StoredCommandShadowsBuiltins` | utils/ChatProcessor.ts:61-68 | a stored general command shadows every built-in verb, the management verbs included |
| `ChatProcessor.UnknownCommandIsSilent` | utils/ChatProcessor.ts:28-226 | an unknown `!word` sends nothing and changes nothing |
| `ChatProcessor.ManagementTouchesOneTier` | utils/ChatProcessor.ts:92-175 | a management verb changes only the tier it names, only the named entry, and never a text file |
| `ChatProcessor.ModifyTouchesOneTier` | utils/ChatProcessor.ts:96-175 | the management branch changes only its own dictionary, and only the named entry |
| `ChatProcessor.ApplyTouchesOneEntry` | utils/ChatProcessor.ts:111-175 | add, edit and delete requests rewrite only the named entry of one dictionary |
| `ChatProcessor.ManagementAddsCommand` | utils/ChatProcessor.ts:113-125 | a moderator's `!cmd add name template` with a fresh name stores it in the general tier and confirms |
| `ChatProcessor.ManagementAddRefused` | utils/ChatProcessor.ts:113-132 | an add request for a present name replies "Failed to add" and changes nothing |
| `ChatProcessor.ManagementEditReplies` | utils/ChatProcessor.ts:133-152 | an edit request confirms and overwrites a present name; for an absent name it replies "Failed to edit" and changes nothing |
| `ChatProcessor.ManagementDeleteReplies` | utils/ChatProcessor.ts:153-168 | a `delete`/`remove`/`rm` request confirms and removes a present name; for an absent name it replies "Failed to delete" and changes nothing |
| `ChatProcessor.UnknownModeFails` | utils/ChatProcessor.ts:169-175 | any other mode replies "Operation of modifying command failed" and changes nothing |
| `ChatProcessor.ProcessCommand` | utils/ChatProcessor.ts:28-55 | the effects and the new files are those of `ProcessCommandSpec` on the files before |
| `ChatProcessor.ProcessGeneral` | utils/ChatProcessor.ts:57-226 | the effects and the new files are those of `GeneralSpec` on the files before |
| `ChatProcessor.ModifyCommand` | utils/ChatProcessor.ts:92-110 | the management branch performed on the files sends the effects and leaves the files that `ModifySpec` gives for the files before |
| `ChatProcessor.ApplyModify` | utils/ChatProcessor.ts:111-175 | one parsed request performed on the files agrees with `ApplyModifySpec` |
| `ChatProcessor.ChatStep` | utils/ChatProcessor.ts:228-272 | definition of the counters after one chat message; its properties are `ChatProcessor.IgnoredMessagesChangeNothing`, `ChatProcessor.CountedMessageStep` and the `Fillers*` run lemmas, and `ChatProcessor.ChatCounters.ProcessChat` performs it |
| `ChatProcessor.IgnoredMessagesChangeNothing` | utils/ChatProcessor.ts:233-244 | excluded accounts and YouTube chat neither fire nor move the counters |
| `ChatProcessor.CountedMessageStep` | utils/ChatProcessor.ts:246-272 | a counted message fires iff count >= 5 and 5 minutes have passed; firing resets the count to 0 and the timestamp to the clock read after the filler is sent; otherwise the count grows by one and the timestamp stays |
| `ChatProcessor.FiresAtThresholdExample` | utils/ChatProcessor.ts:246-269 | count 5 with a timestamp 300001 ms old fires and resets the count |
| `ChatProcessor.FillersAfterCooldown` | utils/ChatProcessor.ts:246-249 | every filler of a run fires at least 5 minutes after the starting timestamp |
| `ChatProcessor.FillersSpacedApart` | utils/ChatProcessor.ts:246-269 | consecutive fillers are at least 5 minutes apart |
| `ChatProcessor.FillersBoundedByTraffic` | utils/ChatProcessor.ts:246-272 | 6 × fillers + final count <= counted messages + starting count |
| `ChatProcessor.FillerEffect` | utils/ChatProcessor.ts:250-266 | a filler is a reply to the same source with a line of the quotes, compliments or timer messages; only a compliment carries the message id |
| `ChatProcessor.ChatCounters.constructor` | utils/ChatProcessor.ts:23-24 | the counters start at (0, load time) |
| `ChatProcessor.ChatCounters.ProcessChat` | utils/ChatProcessor.ts:228-273 | the new counters are `ChatStep` of the old ones, with the test against the first clock reading and the reset to the second; one filler is sent exactly when `Fires` holds |
| `ChatEvents.SplitCommandLine` | index.ts:28-29 | the command word holds no space; the line is `!` + command, then a space and the message when it has a space, and no message otherwise |
| `ChatEvents.TwitchFlags` | index.ts:36-47 | `broadcaster` is set iff a broadcaster badge is present, and `mod` iff a moderator badge is present |
| `ChatEvents.OnTwitchChatMessage` | index.ts:16-50 | a line goes to processChat iff it does not start with `!`; otherwise to processCommand with the split line and the badge flags; the source is lower-cased and the message id kept |
| `ChatEvents.OnYouTubeMessage` | index.ts:52-75 | as for Twitch, with no message id and flags taken from owner/moderator status |
| `ChatEvents.Deliver` | index.ts:24-49 | plain chat moves only the counters, and a command changes only the files, as the resolver specifies |
| `ChatEvents.RedemptionSpeech` | index.ts:6-14 | the command line for a redemption starts with the synthesizer call, and its literal, read by the ASCII-quote rule, is exactly "<user> redeemed <title>" |
| `TextToSpeech.EscapeTextForPowershell` | utils/TextToSpeech.ts:4-6 | definition of `escapeTextForPowershell`: every `'` doubled, every other character kept; its properties are `TextToSpeech.EscapeCounts`, `TextToSpeech.EscapeKeepsOtherCharacters`, `TextToSpeech.EscapeWithoutQuotes` and `TextToSpeech.EscapedTextReadsBack` |
| `TextToSpeech.EscapeCounts` | utils/TextToSpeech.ts:4-6 | escaping adds one character per quote and doubles the number of quotes |
| `TextToSpeech.EscapeKeepsOtherCharacters` | utils/TextToSpeech.ts:4-6 | apart from the quotes, the escaped text is the original text in order |
| `TextToSpeech.EscapeWithoutQuotes` | utils/TextToSpeech.ts:4-6 | a text without quotes is unchanged |
| `TextToSpeech.EscapedTextReadsBack` | utils/TextToSpeech.ts:4-13 | an escaped text followed by a closing quote reads back as exactly that text, and the literal ends at that quote |
| `TextToSpeech.SpeechCommand` | utils/TextToSpeech.ts:8-13 | the command starts with the synthesizer call, and the quoted literal, read by the ASCII-quote rule, is exactly the message, followed by `)` |
| `TextToSpeech.TypographicQuoteNotDoubled` | utils/TextToSpeech.ts:4-6 | a typographic apostrophe (U+2019) passes through escaping unchanged |
| `TwitchApi.NatToString` | utils/TwitchAPI.ts:54 | a non-negative number is written as decimal digits without a leading zero |
| `TwitchApi.NatToStringValue` | utils/TwitchAPI.ts:54 | the digits read back as the number |
| `TwitchApi.IntToString` | utils/TwitchAPI.ts:54 | a number is written with a leading `-` iff it is negative |
| `TwitchApi.JsRemainder` | utils/TwitchAPI.ts:51-52 | JavaScript `%` is the remainder of truncated division and takes the sign of the dividend |
| `TwitchApi.SplitSeconds` | utils/TwitchAPI.ts:49-53 | for seconds >= 0, hours, minutes < 60 and seconds < 60 add up to the input |
| `TwitchApi.ConvertSecondsToHMS` | utils/TwitchAPI.ts:49-55 | definition of `convertSecondsToHMS`: the parts of `SplitSeconds` written as `<h>h<m>m<s>s`; its properties are `TwitchApi.HmsReadsBack` and `TwitchApi.NegativeOffsetIsMalformed` |
| `TwitchApi.ReadNumerals` | utils/TwitchAPI.ts:54 | three numerals with units `h`, `m`, `s` read as the seconds they denote |
| `TwitchApi.HmsReadsBack` | utils/TwitchAPI.ts:49-55 | `convertSecondsToHMS` of a non-negative count reads back as that count |
| `TwitchApi.NegativeOffsetIsMalformed` | utils/TwitchAPI.ts:49-55 | a negative count is written with a minus sign and does not read as an offset |
| `TwitchApi.SecondsAgo` | utils/TwitchAPI.ts:73-76 | the offset is the whole seconds elapsed since the video started, less 3 |
| `TwitchApi.VodTimestamp` | utils/TwitchAPI.ts:73-80 | definition of the link `getVODTimestamp` returns: the URL, `?t=` and the offset; its property is `TwitchApi.VodTimestampPointsBack` |
| `TwitchApi.VodTimestampPointsBack` | utils/TwitchAPI.ts:73-80 | once 3 s have passed, the link is the URL + `?t=`, and the offset reads back as the seconds computed |
| `LegacyBot.Substitute` | src/index.ts:198-205 | definition of the reply for a stored template: the first `{user}` becomes `@user`, then the first `{user2}` the first word of the message; its property is `LegacyBot.SubstituteBoth` |
| `LegacyBot.SubstituteBoth` | src/index.ts:198-205 | in `a{user}b{user2}c`, only the first `{user}` becomes `@user` and only the first `{user2}` the first word of the message: the tail `c` is kept as it is, whatever placeholders it holds |
| `LegacyBot.NormalizeName` | src/index.ts:281-284 | definition of the name cleanup: with a `!`, `replace("!", "")`, otherwise the name as typed; its properties are `LegacyBot.NormalizeRemovesFirstBang` and `LegacyBot.NormalizeKeepsPlainNames` |
| `LegacyBot.NormalizeRemovesFirstBang` | src/index.ts:281-284 | the first `!`, wherever it is, is removed from a typed name, and later ones stay |
| `LegacyBot.NormalizeKeepsPlainNames` | src/index.ts:281-284 | a name without `!` is kept as typed |
| `LegacyBot.RunEnd` | src/index.ts:244 | the end of the run of non-space characters |
| `LegacyBot.FirstMention` | src/index.ts:244 | the start of the first `@` followed by a non-space, and `None` iff there is none |
| `LegacyBot.ComplimentTarget` | src/index.ts:240-246 | `@user` when the message has no `@`; "" when no `@` precedes a non-space; otherwise the whole first `@word` of the message, up to the next whitespace |
| `LegacyBot.OnCommandSpec` | src/index.ts:190-216 | definition of `onCommand`: the general tier, then the broadcaster tier for `broadcaster` or `mod`, then `BuiltinSpec`; its properties are `LegacyBot.GeneralTierFirst`, `LegacyBot.BroadcasterTierForFlaggedCallers`, `LegacyBot.RestrictedTierNeedsFlags`, `LegacyBot.DictionariesNeedFlags` and `LegacyBot.ModeratorsOnlyAdd`, and `LegacyBot.Bot.OnCommand` performs it |
| `LegacyBot.BuiltinSpec` | src/index.ts:217-270 | definition of the built-in verbs `time`, `promote`, `compliment`, `quote` and `so` in source order, then `ManagementSpec`; `LegacyBot.ComplimentTarget` and `Random.Draw` state what `compliment` and `quote` send |
| `LegacyBot.ManagementSpec` | src/index.ts:271-463 | definition of the management verbs and `!clip` in source order; its property is `LegacyBot.ManagementWithoutBroadcaster`, and `LegacyBot.Bot.Manage` performs it |
| `LegacyBot.AddGeneral` | src/index.ts:271-306 | definition of `!command add`; its properties are `LegacyBot.AddGeneralOnlyAdds` and `LegacyBot.AddingPresentNameRefused`, and `LegacyBot.Bot.HandleAdd` performs it |
| `LegacyBot.EditGeneral` | src/index.ts:307-342 | definition of `!command edit`; its property is `LegacyBot.EditingAbsentNameRefused`, and `LegacyBot.Bot.HandleEdit` performs it |
| `LegacyBot.DeleteGeneral` | src/index.ts:343-377 | definition of `!command delete`; its property is `LegacyBot.DeletingAbsentNameRefused`, and `LegacyBot.Bot.HandleDelete` performs it |
| `LegacyBot.SetBroadcaster` | src/index.ts:378-431 | definition of `!bcmd add` and `!bcmd edit`; its property is `LegacyBot.BroadcasterAddOverwrites`, and `LegacyBot.Bot.HandleBroadcasterSet` performs it |
| `LegacyBot.DeleteBroadcaster` | src/index.ts:432-457 | definition of `!bcmd delete`; its property is `LegacyBot.BroadcasterDeleteAlwaysSucceeds`, and `LegacyBot.Bot.HandleBroadcasterDelete` performs it |
| `LegacyBot.GeneralTierFirst` | src/index.ts:197-205 | a name in the general tier gets its reply, whatever the caller's flags and the broadcaster tier hold, and nothing changes |
| `LegacyBot.BroadcasterTierForFlaggedCallers` | src/index.ts:206-216 | a name only in the broadcaster tier gets its reply for a caller with `broadcaster` or `mod`, ahead of every built-in verb, and nothing changes |
| `LegacyBot.ManagementWithoutBroadcaster` | src/index.ts:271-457 | without `broadcaster`, the management branches do not depend on the broadcaster tier's contents and leave it unchanged; the general tier only gains names and every present command keeps its reply |
| `LegacyBot.AddGeneralOnlyAdds` | src/index.ts:286-298 | `!command add` leaves the broadcaster tier unchanged, does not depend on its contents, and keeps every present command and its reply |
| `LegacyBot.RestrictedTierNeedsFlags` | src/index.ts:206-216 | without `broadcaster` or `mod`, the broadcaster tier is invisible: the outcome is the one with that tier empty, and it stays unchanged |
| `LegacyBot.DictionariesNeedFlags` | src/index.ts:271-457 | without `broadcaster` or `moderator` no dictionary changes |
| `LegacyBot.ModeratorsOnlyAdd` | src/index.ts:271-306 | without `broadcaster`, the broadcaster tier never changes and no present command loses its reply |
| `LegacyBot.AddingPresentNameRefused` | src/index.ts:286-295 | adding a present name is refused with the "already exists" line and changes nothing |
| `LegacyBot.EditingAbsentNameRefused` | src/index.ts:308-330 | editing an absent name is refused with the "doesn't exist" line and changes nothing |
| `LegacyBot.DeletingAbsentNameRefused` | src/index.ts:344-365 | deleting an absent name is refused with the "doesn't exist" line and changes nothing |
| `LegacyBot.BroadcasterDeleteAlwaysSucceeds` | src/index.ts:432-457 | deleting a broadcaster command reports success whether or not the name exists |
| `LegacyBot.BroadcasterAddOverwrites` | src/index.ts:379-404 | `!bcmd add` sets the name whether or not it is present, overwriting a present reply, leaves the general tier alone and sends the success line |
| `LegacyBot.ActivateTimerMessages` | src/index.ts:467-495 | the filler is `@user` + a compliment, a quote, or a timer message |
| `LegacyBot.EveryAutoResponseReachable` | src/index.ts:52 | each of the three kinds is drawn for some value of `Math.random()` |
| `LegacyBot.ChatStep` | src/index.ts:502-532 | definition of the chat state after one message: the shout-out flag and the counters; its properties are `LegacyBot.ExcludedUsersStillCount`, `LegacyBot.ShoutoutOnce` and the `Fillers*` run lemmas, and `LegacyBot.Bot.OnChat` performs it |
| `LegacyBot.ChatEffects` | src/index.ts:502-532 | definition of the effects of one chat message: the due shout-out, then the filler; its properties are `LegacyBot.ExcludedUsersStillCount` and `LegacyBot.ShoutoutsWereDue`, and `LegacyBot.Bot.OnChat` performs it |
| `LegacyBot.ExcludedUsersStillCount` | src/index.ts:517-531 | an excluded account never gets a filler, yet its message adds one to the count |
| `LegacyBot.ShoutoutsWereDue` | src/index.ts:509-515 | every shout-out of a run goes to a listed streamer not yet shouted out at the start |
| `LegacyBot.ShoutoutOnce` | src/index.ts:509-515 | no streamer (compared lower-cased) is shouted out twice |
| `LegacyBot.FillersAfterCooldown` | src/index.ts:519-528 | every filler of a run is sent at least 5 minutes after the starting timestamp |
| `LegacyBot.FillersSpacedApart` | src/index.ts:519-528 | consecutive fillers are at least 5 minutes apart |
| `LegacyBot.FillersBoundedByTraffic` | src/index.ts:497-531 | 21 × fillers + final count <= messages + starting count |
| `LegacyBot.BuildStreamers` | src/index.ts:74-78 | the keys are exactly the lower-cased listed names, each waiting for its shout-out |
| `LegacyBot.Bot.constructor` | src/index.ts:22-78 | the corpora are the files split into lines; the dictionaries are as stored; the counters start at (0, load time); the streamers are listed |
| `LegacyBot.Bot.SetCommand` | src/index.ts:149-157 | `addCommand`/`editCommand` set the name unconditionally; nothing else changes |
| `LegacyBot.Bot.DeleteCommand` | src/index.ts:159-162 | `deleteCommand` removes the name unconditionally |
| `LegacyBot.Bot.SetBroadcasterCommand` | src/index.ts:165-179 | the broadcaster-tier add/edit set the name unconditionally |
| `LegacyBot.Bot.DeleteBroadcasterCommand` | src/index.ts:181-187 | the broadcaster-tier delete removes the name unconditionally |
| `LegacyBot.Bot.OnCommand` | src/index.ts:190-464 | the effects and the new dictionaries are those of `OnCommandSpec`; the chat state is unchanged |
| `LegacyBot.Bot.Manage` | src/index.ts:271-463 | the management branches and `!clip` agree with `ManagementSpec` |
| `LegacyBot.Bot.HandleAdd` | src/index.ts:271-306 | agrees with `AddGeneral` |
| `LegacyBot.Bot.HandleEdit` | src/index.ts:307-342 | agrees with `EditGeneral` |
| `LegacyBot.Bot.HandleDelete` | src/index.ts:343-377 | agrees with `DeleteGeneral` |
| `LegacyBot.Bot.HandleBroadcasterSet` | src/index.ts:378-431 | agrees with `SetBroadcaster` |
| `LegacyBot.Bot.HandleBroadcasterDelete` | src/index.ts:432-457 | agrees with `DeleteBroadcaster` |
| `LegacyBot.Bot.OnChat` | src/index.ts:502-532 | the new chat state is `ChatStep` of the old one; the effects are the shout-out, then the filler when `Fires` holds |

## Left out

- HTTP and process calls are left out: the streaming-broker actions, the
  Discord webhook, the dictionary lookup, the Twitch user/channel/clip/video
  requests, `exec` and `say`. Each appears only as an effect or as a
  parameter.
- Reading and writing files is left out. `Files` and the `Bot` constructor
  take the contents as values. `JSON.parse`/`JSON.stringify` are treated as
  an exact round trip, and the error path for a malformed or missing file is
  not modelled.
- Concurrency is left out: handlers are awaited one at a time. Several
  writes and calls are not awaited in the source, and each is taken as
  completed in order:
  - `Bun.write` in `writeToTextFile` and `writeToCommandsFile`
    (utils/Commands.ts:21 and :28), so every file write;
  - `writeToCommandsFile` in `removeCommand`;
  - the definition lookup;
  - the 3-second `setTimeout` before a shout-out.
- `LegacyBot.Bot.OnChat`: the handler reads `Date.now()` twice, for the
  test (src/index.ts:524) and for the reset (src/index.ts:528). The model
  passes one `now` for both reads.
- `LegacyBot.ChatStep`: takes the one `now` of `LegacyBot.Bot.OnChat`, so
  the reset timestamp is the clock reading the test used.
- Badges are modelled as their names, and the ComfyJS `flags` object is
  taken as given.
- In src/index.ts the management branches read `words[1]` of a one-word
  message, which throws. The model then does nothing: no effect and no
  change.
- `ChatProcessor.ModifySpec`: a one-word management message makes
  `breakdownString[1].toLowerCase()` throw (utils/ChatProcessor.ts:104), and
  the handler's promise is rejected. The model gives no effect and no
  change, and does not model the rejection.
- `ChatProcessor.ChatCounters.ProcessChat`: the two readings of `Date.now()`
  (utils/ChatProcessor.ts:248 and :269) are two parameters, `now` and
  `resetNow`. The run lemmas `FillersAfterCooldown` and `FillersSpacedApart`
  assume that the second reading is not earlier than the first
  (`ClockForward`); a wall clock set back between them is not covered.
- `Commands.Present`: JavaScript objects inherit keys such as
  `constructor`, `toString` and `__proto__`, so in the source `json[name]`
  is truthy for those names even when the file does not define them
  (utils/Commands.ts:50, src/index.ts:198, src/index.ts:510). For example,
  `addCommand("constructor", …)` fails in the source. The model treats
  such names as absent unless the dictionary holds them. The legacy bot's
  tier lookups use the same predicate, and `LegacyBot.ShoutoutDue` reads the
  streamer list the same way.
- `Text.ToLower`: only ASCII letters are lower-cased, because full Unicode
  case mapping is out of scope.
- `Text.ReplaceFirst`: the `$` patterns a JavaScript replacement string may
  hold are not interpreted. The replacement is inserted literally.
- `TextToSpeech.SpeechCommand`: only the single-quoted literal is
  described, and only by the ASCII-quote rule. Two things are not modelled,
  so the spoken text is not promised for every message:
  - PowerShell also ends a single-quoted literal at U+2018 to U+201B, which
    `escapeTextForPowershell` does not double. A name like "don’t" closes
    the literal early (`TypographicQuoteNotDoubled`).
  - `exec` (utils/TextToSpeech.ts:13) passes the line through cmd.exe
    first, which treats `&`, `|`, `<`, `>` and `^` specially. A reward
    title such as "Hydrate & Stretch" is not spoken as written.
- Numbers are mathematical integers. Timestamps and counters are `int`, so
  floating-point effects of very large values are not modelled.
- utils/Convert.ts, utils/Define.ts, utils/DiscordWebHook.ts and
  utils/SBClient.ts are not part of this model. They are pass-through
  calls, and `convert` is commented out in the resolver.
- Profile-picture lookup in utils/TwitchAPI.ts is an HTTP call and is not
  part of this model.
