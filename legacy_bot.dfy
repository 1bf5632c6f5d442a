/**
 * The earlier, self-contained bot of src/index.ts.
 *
 * The same ideas as the current resolver, with different rules: stored
 * commands are looked up before any built-in verb, the general tier wins
 * over the broadcaster tier, the placeholders are `{user}` and `{user2}`,
 * broadcaster-tier edits are unconditional, the filler limiter waits for 20
 * messages and counts excluded accounts too, and listed streamers get one
 * shout-out the first time they chat.
 *
 * `OnCommandSpec` and `ChatStep` state one handler call as a function of
 * the state before it; the `Bot` class holds the module-level state and its
 * handlers are proved to agree with them.
 */
module LegacyBot {

  import opened Wrappers
  import opened Text
  import opened Random
  import Commands

  const GeneralVerbs: seq<string> := ["command", "cmd"]
  const BroadcasterVerbs: seq<string> := ["broadcastercommand", "bcmd", "mcmd", "modcommand"]
  const DeleteModes: seq<string> := ["remove", "delete", "del"]

  /** Accounts whose chat never triggers a filler (compared lower-cased). */
  const ExcludedUsers: seq<string> := ["ryandotts", "streamelements", "ryanpython"]

  const MESSAGE_LIMIT: int := 20
  const TIME_LIMIT: int := 5 * 60 * 1000

  const PromotionPrefix: string := "<@&1038436118816903210> \n# <https://www.twitch.tv/RyanPython>\n"

  /**
   * The chat library's flags as this handler reads them: `broadcaster`,
   * `mod`, and `moderator`, which only the `!command add` gate consults.
   */
  datatype Flags = Flags(broadcaster: bool, mod: bool, moderator: bool)

  /**
   * What a handler asks the outside world to do: say a line in the channel,
   * post to the Discord webhook, or shout out a streamer.
   */
  datatype Effect =
    | Say(text: string)
    | PromotionWebhook(content: string)
    | Shoutout(username: string)

  // ----- placeholders and names -----

  /**
   * The reply for a stored template: the first `{user}` becomes `@user`,
   * then the first `{user2}` becomes the first word of the message.
   */
  function Substitute(template: string, user: string, message: string): string
  {
    ReplaceFirst(ReplaceFirst(template, "{user}", "@" + user), "{user2}", FirstWord(message))
  }

  /**
   * Only the first `{user}` and the first `{user2}` after it are replaced: the
   * tail `c` is kept as it is, whatever placeholders it holds.
   */
  lemma SubstituteBoth(a: string, b: string, c: string, user: string, message: string)
    requires '{' !in a && '{' !in b && '{' !in user
    ensures Substitute(a + "{user}" + b + "{user2}" + c, user, message)
      == a + "@" + user + b + FirstWord(message) + c
  {
    ReplaceWithMention(a, "{user}", b + "{user2}" + c, user);
    assert a + "{user}" + (b + "{user2}" + c) == a + "{user}" + b + "{user2}" + c;
    assert a + "@" + user + (b + "{user2}" + c) == a + "@" + user + b + "{user2}" + c;
    ReplaceAfterPrefix(a + "@" + user + b, "{user2}", c, FirstWord(message));
  }

  /** The name of a managed command: its first `!`, wherever it is, removed. */
  function NormalizeName(name: string): string
  {
    if Includes(name, "!") then ReplaceFirst(name, "!", "") else name
  }

  /** The first `!` goes, even in the middle of a name; later ones stay. */
  lemma NormalizeRemovesFirstBang(p: string, q: string)
    requires '!' !in p
    ensures NormalizeName(p + "!" + q) == p + q
  {
    var s := p + "!" + q;
    FirstOccurrenceAfterPrefix(s, "!", p);
    assert s[..|p|] == p && s[|p| + 1..] == q;
  }

  /** A name without `!` is kept as it is. */
  lemma NormalizeKeepsPlainNames(name: string)
    requires '!' !in name
    ensures NormalizeName(name) == name
  {
    forall j: nat ensures !OccursAt(name, "!", j) {
      if j < |name| {
        assert name[j..j + 1][0] == name[j];
      }
    }
  }

  // ----- the compliment target -----

  /** The characters JavaScript's `\s` matches. */
  predicate IsJsSpace(c: char)
  {
    c == '\t' || c == '\n' || c == '\U{000B}' || c == '\U{000C}' || c == '\r' || c == ' '
    || c == '\U{00A0}' || c == '\U{1680}' || ('\U{2000}' <= c <= '\U{200A}')
    || c == '\U{2028}' || c == '\U{2029}' || c == '\U{202F}' || c == '\U{205F}'
    || c == '\U{3000}' || c == '\U{FEFF}'
  }

  /** `@[^\s]+` matches at `i`: an `@` followed by at least one non-space. */
  predicate MentionAt(s: string, i: nat)
  {
    i + 1 < |s| && s[i] == '@' && !IsJsSpace(s[i + 1])
  }

  predicate FirstMentionAt(s: string, i: nat)
  {
    MentionAt(s, i) && forall j: nat :: j < i ==> !MentionAt(s, j)
  }

  /** The end of the run of non-space characters starting at `i`. */
  function RunEnd(s: string, i: nat): (j: nat)
    requires i <= |s|
    ensures i <= j <= |s|
    ensures forall k :: i <= k < j ==> !IsJsSpace(s[k])
    ensures j < |s| ==> IsJsSpace(s[j])
    decreases |s| - i
  {
    if i == |s| || IsJsSpace(s[i]) then i else RunEnd(s, i + 1)
  }

  function MentionFrom(s: string, from: nat): (r: Option<nat>)
    requires from <= |s|
    ensures r.Some? ==> from <= r.value && MentionAt(s, r.value)
    ensures r.Some? ==> forall j: nat :: from <= j < r.value ==> !MentionAt(s, j)
    ensures r.None? ==> forall j: nat :: from <= j ==> !MentionAt(s, j)
    decreases |s| - from
  {
    if MentionAt(s, from) then Some(from)
    else if from + 1 >= |s| then None
    else MentionFrom(s, from + 1)
  }

  /** Where the first match of `/(@[^\s]+)/g` starts. */
  function FirstMention(s: string): (r: Option<nat>)
    ensures forall i: nat :: FirstMentionAt(s, i) <==> r == Some(i)
    ensures r.None? <==> forall j: nat :: !MentionAt(s, j)
  {
    MentionFrom(s, 0)
  }

  /**
   * Who `!compliment` addresses: `@user` when the message has no `@`;
   * otherwise the first `@word` of the message, or "" when no `@` is
   * followed by a non-space.
   */
  function ComplimentTarget(user: string, message: string): (target: string)
    ensures '@' !in message ==> target == "@" + user
    ensures '@' in message && (forall j: nat :: !MentionAt(message, j)) ==> target == ""
    ensures forall i: nat :: '@' in message && FirstMentionAt(message, i) ==>
      StartsWith(message[i..], target) && |target| >= 2 && target[0] == '@'
      && (forall k :: 0 <= k < |target| ==> !IsJsSpace(target[k]))
      && (i + |target| == |message| || IsJsSpace(message[i + |target|]))
  {
    if '@' !in message then "@" + user
    else
      match FirstMention(message)
      case None => ""
      case Some(i) => message[i..RunEnd(message, i + 1)]
  }

  // ----- the command handler as a function -----

  /** The two command dictionaries. */
  datatype Tiers = Tiers(commands: map<string, string>, broadcasterCommands: map<string, string>)

  /** What one `!command` does: the effects and the dictionaries after it. */
  datatype CommandOutcome = CommandOutcome(effects: seq<Effect>, tiers: Tiers)

  function SayOnly(text: string, t: Tiers): CommandOutcome
  {
    CommandOutcome([Say(text)], t)
  }

  /**
   * `!command add <name> <reply...>`: refused when the name is already
   * present. Without a name the source throws before doing anything.
   */
  function AddGeneral(t: Tiers, user: string, words: seq<string>): CommandOutcome
  {
    if |words| < 2 then CommandOutcome([], t)
    else
      var name := NormalizeName(words[1]);
      if Commands.Present(t.commands, name) then
        SayOnly(user + " command '" + name + "' already exists! Please use the edit command instead.", t)
      else
        SayOnly(user + " command '" + name + "' added successfully!",
                t.(commands := t.commands[name := Join(words[2..], ' ')]))
  }

  /** `!command edit <name> <reply...>`: refused when the name is absent. */
  function EditGeneral(t: Tiers, user: string, words: seq<string>): CommandOutcome
  {
    if |words| < 2 then CommandOutcome([], t)
    else
      var name := NormalizeName(words[1]);
      if !Commands.Present(t.commands, name) then
        SayOnly(user + " command '" + name + "' doesn't exist! Please use the add command instead.", t)
      else
        SayOnly(user + " command '" + name + "' edited successfully!",
                t.(commands := t.commands[name := Join(words[2..], ' ')]))
  }

  /** `!command delete <name>`: refused when the name is absent. */
  function DeleteGeneral(t: Tiers, user: string, words: seq<string>): CommandOutcome
  {
    if |words| < 2 then CommandOutcome([], t)
    else
      var name := NormalizeName(words[1]);
      if !Commands.Present(t.commands, name) then
        SayOnly(user + " command '" + name + "' doesn't exist!", t)
      else
        SayOnly(user + " command '" + name + "' deleted successfully!",
                t.(commands := t.commands - {name}))
  }

  /** `!bcmd add` and `!bcmd edit`: the name is set whether or not it exists. */
  function SetBroadcaster(t: Tiers, user: string, words: seq<string>, verb: string): CommandOutcome
  {
    if |words| < 2 then CommandOutcome([], t)
    else
      var name := NormalizeName(words[1]);
      SayOnly(user + " broadcaster command '" + name + "' " + verb + " successfully!",
              t.(broadcasterCommands := t.broadcasterCommands[name := Join(words[2..], ' ')]))
  }

  /** `!bcmd delete`: the name is removed whether or not it exists. */
  function DeleteBroadcaster(t: Tiers, user: string, words: seq<string>): CommandOutcome
  {
    if |words| < 2 then CommandOutcome([], t)
    else
      var name := NormalizeName(words[1]);
      SayOnly(user + " broadcaster command '" + name + "' deleted successfully!",
              t.(broadcasterCommands := t.broadcasterCommands - {name}))
  }

  /**
   * onCommand: the general tier, then the broadcaster tier for callers with
   * `broadcaster` or `mod`, then the built-in verbs in source order; the
   * first branch whose guard holds decides, and no branch means silence.
   * `localtime` is the clock formatted as `toLocaleTimeString` does, `clip`
   * what the clip endpoint answers, `rand` the value of `Math.random()`.
   */
  function OnCommandSpec(t: Tiers, user: string, command: string, message: string, flags: Flags,
                         localtime: string, clip: string, compliments: seq<string>, quotes: seq<string>,
                         rand: real): CommandOutcome
    requires |compliments| > 0 && |quotes| > 0 && 0.0 <= rand < 1.0
  {
    if Commands.Present(t.commands, command) then
      SayOnly(Substitute(t.commands[command], user, message), t)
    else if Commands.Present(t.broadcasterCommands, command) && (flags.broadcaster || flags.mod) then
      SayOnly(Substitute(t.broadcasterCommands[command], user, message), t)
    else
      BuiltinSpec(t, user, command, message, flags, localtime, clip, compliments, quotes, rand)
  }

  /** The built-in verbs of onCommand, in source order. */
  function BuiltinSpec(t: Tiers, user: string, command: string, message: string, flags: Flags,
                       localtime: string, clip: string, compliments: seq<string>, quotes: seq<string>,
                       rand: real): CommandOutcome
    requires |compliments| > 0 && |quotes| > 0 && 0.0 <= rand < 1.0
  {
    var words := Split(message, ' ');
    var mode := words[0];
    if command == "time" then
      SayOnly(user + " it is currently " + localtime, t)
    else if command == "promote" && flags.broadcaster then
      CommandOutcome([PromotionWebhook(PromotionPrefix + message), Say(user + " promotion successful!")], t)
    else if command == "compliment" then
      SayOnly(ComplimentTarget(user, message) + " " + Draw(compliments, rand), t)
    else if command == "quote" then
      SayOnly(Draw(quotes, rand), t)
    else if command == "so" && (flags.broadcaster || flags.mod) then
      CommandOutcome([Shoutout(ReplaceFirst(mode, "@", ""))], t)
    else ManagementSpec(t, user, command, words, flags, clip)
  }

  /** The command-management verbs and `!clip`. */
  function ManagementSpec(t: Tiers, user: string, command: string, words: seq<string>, flags: Flags,
                          clip: string): CommandOutcome
    requires |words| >= 1
  {
    var mode := words[0];
    if command in GeneralVerbs && mode == "add" && (flags.broadcaster || flags.moderator) then
      AddGeneral(t, user, words)
    else if command in GeneralVerbs && mode == "edit" && flags.broadcaster then
      EditGeneral(t, user, words)
    else if command in GeneralVerbs && mode in DeleteModes && flags.broadcaster then
      DeleteGeneral(t, user, words)
    else if command in BroadcasterVerbs && mode == "add" && flags.broadcaster then
      SetBroadcaster(t, user, words, "added")
    else if command in BroadcasterVerbs && mode == "edit" && flags.broadcaster then
      SetBroadcaster(t, user, words, "edited")
    else if command in BroadcasterVerbs && mode in DeleteModes && flags.broadcaster then
      DeleteBroadcaster(t, user, words)
    else if command == "clip" && flags.broadcaster then
      SayOnly("@" + user + " " + clip, t)
    else CommandOutcome([], t)
  }

  // ----- what the handler guarantees -----

  /**
   * Without `broadcaster`, the management verbs never touch the broadcaster
   * tier and never read it, and the general tier can only gain names.
   */
  lemma ManagementWithoutBroadcaster(t: Tiers, bc: map<string, string>, user: string, command: string,
                                     words: seq<string>, flags: Flags, clip: string)
    requires |words| >= 1 && !flags.broadcaster
    ensures var o := ManagementSpec(t, user, command, words, flags, clip);
      var other := ManagementSpec(t.(broadcasterCommands := bc), user, command, words, flags, clip);
      o.effects == other.effects && o.tiers.commands == other.tiers.commands
      && o.tiers.broadcasterCommands == t.broadcasterCommands
      && t.commands.Keys <= o.tiers.commands.Keys
      && forall name :: Commands.Present(t.commands, name) ==> o.tiers.commands[name] == t.commands[name]
  {
    var other := t.(broadcasterCommands := bc);
    if command in GeneralVerbs && words[0] == "add" && flags.moderator {
      assert ManagementSpec(t, user, command, words, flags, clip) == AddGeneral(t, user, words);
      assert ManagementSpec(other, user, command, words, flags, clip) == AddGeneral(other, user, words);
      AddGeneralOnlyAdds(t, bc, user, words);
    } else {
      assert ManagementSpec(t, user, command, words, flags, clip) == CommandOutcome([], t);
      assert ManagementSpec(other, user, command, words, flags, clip) == CommandOutcome([], other);
    }
  }

  lemma AddGeneralOnlyAdds(t: Tiers, bc: map<string, string>, user: string, words: seq<string>)
    ensures var o := AddGeneral(t, user, words);
      var other := AddGeneral(t.(broadcasterCommands := bc), user, words);
      o.effects == other.effects && o.tiers.commands == other.tiers.commands
      && o.tiers.broadcasterCommands == t.broadcasterCommands
      && t.commands.Keys <= o.tiers.commands.Keys
      && forall name :: Commands.Present(t.commands, name) ==> o.tiers.commands[name] == t.commands[name]
  {
    if |words| >= 2 {
      var name := NormalizeName(words[1]);
      if !Commands.Present(t.commands, name) {
        var added := t.commands[name := Join(words[2..], ' ')];
        assert AddGeneral(t, user, words).tiers.commands == added;
        forall k | Commands.Present(t.commands, k) ensures added[k] == t.commands[k] {
          assert k != name;
        }
      }
    }
  }

  /**
   * The broadcaster tier is invisible to callers without `broadcaster` or
   * `mod`: they get the effects and the general tier they would get with
   * that tier empty, and it is left as it was.
   */
  lemma RestrictedTierNeedsFlags(t: Tiers, user: string, command: string, message: string, flags: Flags,
                                 localtime: string, clip: string, compliments: seq<string>,
                                 quotes: seq<string>, rand: real)
    requires |compliments| > 0 && |quotes| > 0 && 0.0 <= rand < 1.0
    requires !flags.broadcaster && !flags.mod
    ensures var o := OnCommandSpec(t, user, command, message, flags, localtime, clip, compliments, quotes, rand);
      var hidden := OnCommandSpec(t.(broadcasterCommands := map[]), user, command, message, flags,
                                  localtime, clip, compliments, quotes, rand);
      o.effects == hidden.effects && o.tiers.commands == hidden.tiers.commands
      && o.tiers.broadcasterCommands == t.broadcasterCommands
  {
    ManagementWithoutBroadcaster(t, map[], user, command, Split(message, ' '), flags, clip);
  }

  /**
   * The general tier is looked up first: a name present there gets its
   * reply, whatever the caller's flags and whatever the broadcaster tier
   * holds, and nothing changes.
   */
  lemma GeneralTierFirst(t: Tiers, user: string, command: string, message: string, flags: Flags,
                         localtime: string, clip: string, compliments: seq<string>,
                         quotes: seq<string>, rand: real)
    requires |compliments| > 0 && |quotes| > 0 && 0.0 <= rand < 1.0
    requires Commands.Present(t.commands, command)
    ensures OnCommandSpec(t, user, command, message, flags, localtime, clip, compliments, quotes, rand)
      == CommandOutcome([Say(Substitute(t.commands[command], user, message))], t)
  {
  }

  /**
   * A name absent from the general tier but present in the broadcaster tier
   * gets the broadcaster reply when the caller has `broadcaster` or `mod`,
   * ahead of every built-in verb, and nothing changes.
   */
  lemma BroadcasterTierForFlaggedCallers(t: Tiers, user: string, command: string, message: string,
                                         flags: Flags, localtime: string, clip: string,
                                         compliments: seq<string>, quotes: seq<string>, rand: real)
    requires |compliments| > 0 && |quotes| > 0 && 0.0 <= rand < 1.0
    requires !Commands.Present(t.commands, command) && Commands.Present(t.broadcasterCommands, command)
    requires flags.broadcaster || flags.mod
    ensures OnCommandSpec(t, user, command, message, flags, localtime, clip, compliments, quotes, rand)
      == CommandOutcome([Say(Substitute(t.broadcasterCommands[command], user, message))], t)
  {
  }

  /**
   * `!bcmd add` sets the name whether or not it is present: a present
   * broadcaster command is overwritten with the new reply, and the success
   * line is sent either way.
   */
  lemma BroadcasterAddOverwrites(t: Tiers, user: string, command: string, message: string,
                                 flags: Flags, localtime: string, clip: string,
                                 compliments: seq<string>, quotes: seq<string>, rand: real)
    requires |compliments| > 0 && |quotes| > 0 && 0.0 <= rand < 1.0
    requires command in BroadcasterVerbs && flags.broadcaster
    requires !Commands.Present(t.commands, command) && !Commands.Present(t.broadcasterCommands, command)
    requires var words := Split(message, ' ');
      words[0] == "add" && |words| >= 2
    ensures var words := Split(message, ' ');
      var name := NormalizeName(words[1]);
      var o := OnCommandSpec(t, user, command, message, flags, localtime, clip, compliments, quotes, rand);
      o.effects == [Say(user + " broadcaster command '" + name + "' added successfully!")]
      && o.tiers.commands == t.commands
      && o.tiers.broadcasterCommands == t.broadcasterCommands[name := Join(words[2..], ' ')]
  {
    var words := Split(message, ' ');
    var name := NormalizeName(words[1]);
    assert command !in GeneralVerbs;
    var sb := SetBroadcaster(t, user, words, "added");
    var lead := user + " broadcaster command '" + name;
    assert lead + "' " + "added" + " successfully!" == lead + "' added successfully!";
    assert ManagementSpec(t, user, command, words, flags, clip) == sb;
    assert BuiltinSpec(t, user, command, message, flags, localtime, clip, compliments, quotes, rand) == sb;
    assert OnCommandSpec(t, user, command, message, flags, localtime, clip, compliments, quotes, rand) == sb;
  }

  /** Only a caller with `broadcaster` or `moderator` can change a dictionary. */
  lemma DictionariesNeedFlags(t: Tiers, user: string, command: string, message: string, flags: Flags,
                              localtime: string, clip: string, compliments: seq<string>,
                              quotes: seq<string>, rand: real)
    requires |compliments| > 0 && |quotes| > 0 && 0.0 <= rand < 1.0
    requires !flags.broadcaster && !flags.moderator
    ensures OnCommandSpec(t, user, command, message, flags, localtime, clip, compliments, quotes, rand).tiers == t
  {
  }

  /**
   * Without `broadcaster`, the broadcaster tier never changes, and the
   * general tier can only gain names: every present command keeps its reply.
   */
  lemma ModeratorsOnlyAdd(t: Tiers, user: string, command: string, message: string, flags: Flags,
                          localtime: string, clip: string, compliments: seq<string>,
                          quotes: seq<string>, rand: real)
    requires |compliments| > 0 && |quotes| > 0 && 0.0 <= rand < 1.0
    requires !flags.broadcaster
    ensures var o := OnCommandSpec(t, user, command, message, flags, localtime, clip, compliments, quotes, rand);
      o.tiers.broadcasterCommands == t.broadcasterCommands
      && t.commands.Keys <= o.tiers.commands.Keys
      && forall name :: Commands.Present(t.commands, name) ==> o.tiers.commands[name] == t.commands[name]
  {
    ManagementWithoutBroadcaster(t, t.broadcasterCommands, user, command, Split(message, ' '), flags, clip);
  }

  /** Adding a name that is present is refused and changes nothing. */
  lemma AddingPresentNameRefused(t: Tiers, user: string, command: string, message: string, flags: Flags,
                                 localtime: string, clip: string, compliments: seq<string>,
                                 quotes: seq<string>, rand: real)
    requires |compliments| > 0 && |quotes| > 0 && 0.0 <= rand < 1.0
    requires command in GeneralVerbs && (flags.broadcaster || flags.moderator)
    requires !Commands.Present(t.commands, command) && !Commands.Present(t.broadcasterCommands, command)
    requires var words := Split(message, ' ');
      words[0] == "add" && |words| >= 2 && Commands.Present(t.commands, NormalizeName(words[1]))
    ensures var o := OnCommandSpec(t, user, command, message, flags, localtime, clip, compliments, quotes, rand);
      o.tiers == t
      && o.effects == [Say(user + " command '" + NormalizeName(Split(message, ' ')[1])
                           + "' already exists! Please use the edit command instead.")]
  {
  }

  /** Editing an absent name is refused with the "doesn't exist" line and changes nothing. */
  lemma EditingAbsentNameRefused(t: Tiers, user: string, command: string, message: string, flags: Flags,
                                 localtime: string, clip: string, compliments: seq<string>,
                                 quotes: seq<string>, rand: real)
    requires |compliments| > 0 && |quotes| > 0 && 0.0 <= rand < 1.0
    requires command in GeneralVerbs && flags.broadcaster
    requires !Commands.Present(t.commands, command) && !Commands.Present(t.broadcasterCommands, command)
    requires var words := Split(message, ' ');
      words[0] == "edit" && |words| >= 2 && !Commands.Present(t.commands, NormalizeName(words[1]))
    ensures var o := OnCommandSpec(t, user, command, message, flags, localtime, clip, compliments, quotes, rand);
      o.tiers == t
      && o.effects == [Say(user + " command '" + NormalizeName(Split(message, ' ')[1])
                           + "' doesn't exist! Please use the add command instead.")]
  {
  }

  /** Deleting an absent name is refused with the "doesn't exist" line and changes nothing. */
  lemma DeletingAbsentNameRefused(t: Tiers, user: string, command: string, message: string, flags: Flags,
                                  localtime: string, clip: string, compliments: seq<string>,
                                  quotes: seq<string>, rand: real)
    requires |compliments| > 0 && |quotes| > 0 && 0.0 <= rand < 1.0
    requires command in GeneralVerbs && flags.broadcaster
    requires !Commands.Present(t.commands, command) && !Commands.Present(t.broadcasterCommands, command)
    requires var words := Split(message, ' ');
      words[0] in DeleteModes && |words| >= 2 && !Commands.Present(t.commands, NormalizeName(words[1]))
    ensures var o := OnCommandSpec(t, user, command, message, flags, localtime, clip, compliments, quotes, rand);
      o.tiers == t
      && o.effects == [Say(user + " command '" + NormalizeName(Split(message, ' ')[1]) + "' doesn't exist!")]
  {
    var words := Split(message, ' ');
    assert words[0] != "add" && words[0] != "edit";
  }

  /**
   * Deleting a broadcaster command reports success whether or not the name
   * exists; an absent name leaves the dictionaries as they were.
   */
  lemma BroadcasterDeleteAlwaysSucceeds(t: Tiers, user: string, command: string, message: string,
                                        flags: Flags, localtime: string, clip: string,
                                        compliments: seq<string>, quotes: seq<string>, rand: real)
    requires |compliments| > 0 && |quotes| > 0 && 0.0 <= rand < 1.0
    requires command in BroadcasterVerbs && flags.broadcaster
    requires !Commands.Present(t.commands, command) && !Commands.Present(t.broadcasterCommands, command)
    requires var words := Split(message, ' ');
      words[0] in DeleteModes && |words| >= 2
    ensures var name := NormalizeName(Split(message, ' ')[1]);
      var o := OnCommandSpec(t, user, command, message, flags, localtime, clip, compliments, quotes, rand);
      o.effects == [Say(user + " broadcaster command '" + name + "' deleted successfully!")]
      && o.tiers.commands == t.commands
      && o.tiers.broadcasterCommands == t.broadcasterCommands - {name}
      && (name !in t.broadcasterCommands ==> o.tiers == t)
  {
    var words := Split(message, ' ');
    assert words[0] != "add" && words[0] != "edit";
    assert command !in GeneralVerbs;
    assert ManagementSpec(t, user, command, words, flags, clip) == DeleteBroadcaster(t, user, words);
    assert OnCommandSpec(t, user, command, message, flags, localtime, clip, compliments, quotes, rand)
      == ManagementSpec(t, user, command, words, flags, clip);
  }

  // ----- the filler chosen by activateTimerMessages -----

  datatype AutoResponse = ComplimentResponse | QuoteResponse | TimerResponse

  /** `randomAutoResponse`, in source order. */
  const AutoResponses: seq<AutoResponse> := [ComplimentResponse, QuoteResponse, TimerResponse]

  /**
   * activateTimerMessages: a random kind, then a random line of that
   * corpus; a compliment is addressed to the user.
   */
  function ActivateTimerMessages(user: string, compliments: seq<string>, quotes: seq<string>,
                                 timerMessages: seq<string>, choiceRand: real, lineRand: real)
    : (text: string)
    requires |compliments| > 0 && |quotes| > 0 && |timerMessages| > 0
    requires 0.0 <= choiceRand < 1.0 && 0.0 <= lineRand < 1.0
    ensures (exists i :: 0 <= i < |compliments| && text == "@" + user + " " + compliments[i])
      || text in quotes || text in timerMessages
  {
    match AutoResponses[RandomIndex(choiceRand, |AutoResponses|)]
    case ComplimentResponse =>
      var c := Draw(compliments, lineRand);
      assert c == compliments[RandomIndex(lineRand, |compliments|)];
      "@" + user + " " + c
    case QuoteResponse => Draw(quotes, lineRand)
    case TimerResponse => Draw(timerMessages, lineRand)
  }

  /** Each kind is chosen for a third of the draws: the draw `i / 3` picks kind `i`. */
  lemma EveryAutoResponseReachable(i: nat)
    requires i < 3
    ensures AutoResponses[RandomIndex(i as real / 3.0, |AutoResponses|)] == AutoResponses[i]
  {
    assert (i as real / 3.0) * 3.0 == i as real;
  }

  // ----- the chat handler as a function -----

  /** The module-level state onChat reads and writes. */
  datatype ChatState = ChatState(streamers: map<string, bool>, messageCount: int, lastMessageTimestamp: int)

  /** The user is a listed streamer not yet shouted out. */
  predicate ShoutoutDue(streamers: map<string, bool>, user: string)
  {
    ToLower(user) in streamers && streamers[ToLower(user)]
  }

  /** A filler is sent for this message. */
  predicate Fires(s: ChatState, user: string, now: int)
  {
    ToLower(user) !in ExcludedUsers && s.messageCount >= MESSAGE_LIMIT
    && now - s.lastMessageTimestamp >= TIME_LIMIT
  }

  /**
   * The state after one chat message: a due shout-out is marked done; a
   * filler resets the counters, any other message (excluded accounts
   * included) adds one to the count.
   */
  function ChatStep(s: ChatState, user: string, now: int): ChatState
  {
    var streamers := if ShoutoutDue(s.streamers, user) then s.streamers[ToLower(user) := false] else s.streamers;
    if Fires(s, user, now) then ChatState(streamers, 0, now)
    else ChatState(streamers, s.messageCount + 1, s.lastMessageTimestamp)
  }

  /** The effects of one chat message: the scheduled shout-out, then the filler. */
  function ChatEffects(s: ChatState, user: string, now: int, filler: string): seq<Effect>
  {
    (if ShoutoutDue(s.streamers, user) then [Shoutout(user)] else [])
    + (if Fires(s, user, now) then [Say(filler)] else [])
  }

  /**
   * Excluded accounts never get a filler but still count: their message adds
   * one to the count and leaves the timestamp.
   */
  lemma ExcludedUsersStillCount(s: ChatState, user: string, now: int, filler: string)
    requires ToLower(user) in ExcludedUsers
    ensures Say(filler) !in ChatEffects(s, user, now, filler)
    ensures ChatStep(s, user, now).messageCount == s.messageCount + 1
    ensures ChatStep(s, user, now).lastMessageTimestamp == s.lastMessageTimestamp
  {
    assert !Fires(s, user, now);
  }

  /** One chat message as onChat sees it. */
  datatype ChatEvent = ChatEvent(user: string, now: int)

  function RunChat(s: ChatState, events: seq<ChatEvent>): ChatState
    decreases |events|
  {
    if events == [] then s else RunChat(ChatStep(s, events[0].user, events[0].now), events[1..])
  }

  /** The users shouted out during a run, in order. */
  function Shoutouts(s: ChatState, events: seq<ChatEvent>): seq<string>
    decreases |events|
  {
    if events == [] then []
    else
      (if ShoutoutDue(s.streamers, events[0].user) then [events[0].user] else [])
      + Shoutouts(ChatStep(s, events[0].user, events[0].now), events[1..])
  }

  /** The clock readings at which fillers are sent during a run. */
  function FireTimes(s: ChatState, events: seq<ChatEvent>): seq<int>
    decreases |events|
  {
    if events == [] then []
    else
      (if Fires(s, events[0].user, events[0].now) then [events[0].now] else [])
      + FireTimes(ChatStep(s, events[0].user, events[0].now), events[1..])
  }

  /** Every shout-out of a run goes to a streamer that was due at the start. */
  lemma {:induction false} ShoutoutsWereDue(s: ChatState, events: seq<ChatEvent>)
    ensures forall i :: 0 <= i < |Shoutouts(s, events)| ==> ShoutoutDue(s.streamers, Shoutouts(s, events)[i])
    decreases |events|
  {
    if events != [] {
      var e := events[0];
      var next := ChatStep(s, e.user, e.now);
      ShoutoutsWereDue(next, events[1..]);
      forall u | ShoutoutDue(next.streamers, u) ensures ShoutoutDue(s.streamers, u) {
      }
    }
  }

  /** No streamer is shouted out twice: after the first shout-out the flag stays false. */
  lemma {:induction false} ShoutoutOnce(s: ChatState, events: seq<ChatEvent>)
    ensures forall i, j :: 0 <= i < j < |Shoutouts(s, events)| ==>
      ToLower(Shoutouts(s, events)[i]) != ToLower(Shoutouts(s, events)[j])
    decreases |events|
  {
    if events != [] {
      var e := events[0];
      var next := ChatStep(s, e.user, e.now);
      var rest := Shoutouts(next, events[1..]);
      ShoutoutOnce(next, events[1..]);
      ShoutoutsWereDue(next, events[1..]);
      if ShoutoutDue(s.streamers, e.user) {
        assert !ShoutoutDue(next.streamers, e.user);
        forall j | 0 <= j < |rest| ensures ToLower(e.user) != ToLower(rest[j]) {
          assert ShoutoutDue(next.streamers, rest[j]);
        }
      }
    }
  }

  /** Every filler of a run is sent at least 5 minutes after the starting timestamp. */
  lemma {:induction false} FillersAfterCooldown(s: ChatState, events: seq<ChatEvent>)
    ensures forall i :: 0 <= i < |FireTimes(s, events)| ==>
      FireTimes(s, events)[i] >= s.lastMessageTimestamp + TIME_LIMIT
    decreases |events|
  {
    if events != [] {
      var e := events[0];
      var next := ChatStep(s, e.user, e.now);
      FillersAfterCooldown(next, events[1..]);
      assert next.lastMessageTimestamp >= s.lastMessageTimestamp;
    }
  }

  /** Two consecutive fillers of a run are at least 5 minutes apart. */
  lemma {:induction false} FillersSpacedApart(s: ChatState, events: seq<ChatEvent>)
    ensures forall i :: 0 <= i < |FireTimes(s, events)| - 1 ==>
      FireTimes(s, events)[i + 1] - FireTimes(s, events)[i] >= TIME_LIMIT
    decreases |events|
  {
    if events != [] {
      var e := events[0];
      var next := ChatStep(s, e.user, e.now);
      FillersSpacedApart(next, events[1..]);
      if Fires(s, e.user, e.now) {
        FillersAfterCooldown(next, events[1..]);
      }
    }
  }

  /**
   * Each filler costs twenty-one messages: over any run starting from a
   * non-negative count, 21 * fillers + final count <= messages + starting count.
   */
  lemma {:induction false} FillersBoundedByTraffic(s: ChatState, events: seq<ChatEvent>)
    requires s.messageCount >= 0
    ensures (MESSAGE_LIMIT + 1) * |FireTimes(s, events)| + RunChat(s, events).messageCount
      <= |events| + s.messageCount
    decreases |events|
  {
    if events != [] {
      var e := events[0];
      FillersBoundedByTraffic(ChatStep(s, e.user, e.now), events[1..]);
    }
  }

  // ----- start-up -----

  /** The `streamers` object: every listed name, lower-cased, waiting for its shout-out. */
  method BuildStreamers(names: seq<string>) returns (streamers: map<string, bool>)
    ensures streamers.Keys == set i | 0 <= i < |names| :: ToLower(names[i])
    ensures forall name :: name in streamers ==> streamers[name]
  {
    streamers := map[];
    for i := 0 to |names|
      invariant streamers.Keys == set j | 0 <= j < i :: ToLower(names[j])
      invariant forall name :: name in streamers ==> streamers[name]
    {
      streamers := streamers[ToLower(names[i]) := true];
    }
  }

  // ----- the bot -----

  /** The module-level state of src/index.ts and its two handlers. */
  class Bot {
    var commands: map<string, string>
    var broadcasterCommands: map<string, string>
    var streamers: map<string, bool>
    var messageCount: int
    var lastMessageTimestamp: int
    const compliments: seq<string>
    const quotes: seq<string>
    const timerMessages: seq<string>

    /** The corpora are never empty: a split yields at least one line. */
    predicate Valid()
    {
      |compliments| > 0 && |quotes| > 0 && |timerMessages| > 0
    }

    function Dictionaries(): Tiers
      reads this
    {
      Tiers(commands, broadcasterCommands)
    }

    function Chat(): ChatState
      reads this
    {
      ChatState(streamers, messageCount, lastMessageTimestamp)
    }

    /**
     * Module load: the four text files split into lines, the two command
     * dictionaries as read from their JSON files, no messages yet.
     */
    constructor (complimentsFile: string, quotesFile: string, timerMessagesFile: string,
                 streamersFile: string, storedCommands: map<string, string>,
                 storedBroadcasterCommands: map<string, string>, now: int)
      ensures Valid()
      ensures compliments == Commands.GetTextFileContent(complimentsFile)
      ensures quotes == Commands.GetTextFileContent(quotesFile)
      ensures timerMessages == Commands.GetTextFileContent(timerMessagesFile)
      ensures Dictionaries() == Tiers(storedCommands, storedBroadcasterCommands)
      ensures messageCount == 0 && lastMessageTimestamp == now
      ensures var names := Commands.GetTextFileContent(streamersFile);
        streamers.Keys == (set i | 0 <= i < |names| :: ToLower(names[i]))
        && forall name :: name in streamers ==> streamers[name]
    {
      compliments := Commands.GetTextFileContent(complimentsFile);
      quotes := Commands.GetTextFileContent(quotesFile);
      timerMessages := Commands.GetTextFileContent(timerMessagesFile);
      commands := storedCommands;
      broadcasterCommands := storedBroadcasterCommands;
      var names := Commands.GetTextFileContent(streamersFile);
      var listed := BuildStreamers(names);
      streamers := listed;
      messageCount := 0;
      lastMessageTimestamp := now;
    }

    /** addCommand / editCommand: the name is set, nothing else changes. */
    method SetCommand(command: string, reply: string)
      modifies this
      ensures Dictionaries() == old(Dictionaries()).(commands := old(commands)[command := reply])
      ensures Chat() == old(Chat())
    {
      commands := commands[command := reply];
    }

    /** deleteCommand: the name is removed, nothing else changes. */
    method DeleteCommand(command: string)
      modifies this
      ensures Dictionaries() == old(Dictionaries()).(commands := old(commands) - {command})
      ensures Chat() == old(Chat())
    {
      commands := commands - {command};
    }

    /** addBroadcasterCommand / editBroadcasterCommand. */
    method SetBroadcasterCommand(command: string, reply: string)
      modifies this
      ensures Dictionaries() == old(Dictionaries()).(broadcasterCommands := old(broadcasterCommands)[command := reply])
      ensures Chat() == old(Chat())
    {
      broadcasterCommands := broadcasterCommands[command := reply];
    }

    /** deleteBroadcasterCommand. */
    method DeleteBroadcasterCommand(command: string)
      modifies this
      ensures Dictionaries() == old(Dictionaries()).(broadcasterCommands := old(broadcasterCommands) - {command})
      ensures Chat() == old(Chat())
    {
      broadcasterCommands := broadcasterCommands - {command};
    }

    /** onCommand, performed on the dictionaries; agrees with `OnCommandSpec`. */
    method OnCommand(user: string, command: string, message: string, flags: Flags,
                     localtime: string, clip: string, rand: real)
      returns (effects: seq<Effect>)
      requires Valid() && 0.0 <= rand < 1.0
      modifies this
      ensures CommandOutcome(effects, Dictionaries())
        == OnCommandSpec(old(Dictionaries()), user, command, message, flags, localtime, clip, compliments, quotes, rand)
      ensures Chat() == old(Chat())
    {
      if Commands.Present(commands, command) {
        var reply := commands[command];
        var user2 := Split(message, ' ')[0];
        reply := ReplaceFirst(reply, "{user}", "@" + user);
        reply := ReplaceFirst(reply, "{user2}", user2);
        effects := [Say(reply)];
      } else if Commands.Present(broadcasterCommands, command) && (flags.broadcaster || flags.mod) {
        var reply := broadcasterCommands[command];
        var user2 := Split(message, ' ')[0];
        reply := ReplaceFirst(reply, "{user}", "@" + user);
        reply := ReplaceFirst(reply, "{user2}", user2);
        effects := [Say(reply)];
      } else if command == "time" {
        effects := [Say(user + " it is currently " + localtime)];
      } else if command == "promote" && flags.broadcaster {
        effects := [PromotionWebhook(PromotionPrefix + message), Say(user + " promotion successful!")];
      } else if command == "compliment" {
        var complimentUser := ComplimentTarget(user, message);
        var randomCompliment := compliments[RandomIndex(rand, |compliments|)];
        effects := [Say(complimentUser + " " + randomCompliment)];
      } else if command == "quote" {
        effects := [Say(quotes[RandomIndex(rand, |quotes|)])];
      } else if command == "so" && (flags.broadcaster || flags.mod) {
        var streamer := Split(message, ' ')[0];
        streamer := ReplaceFirst(streamer, "@", "");
        effects := [Shoutout(streamer)];
      } else {
        effects := Manage(user, command, message, flags, clip);
      }
    }

    /** The command-management branches of onCommand and `!clip`. */
    method Manage(user: string, command: string, message: string, flags: Flags, clip: string)
      returns (effects: seq<Effect>)
      modifies this
      ensures CommandOutcome(effects, Dictionaries())
        == ManagementSpec(old(Dictionaries()), user, command, Split(message, ' '), flags, clip)
      ensures Chat() == old(Chat())
    {
      var words := Split(message, ' ');
      var mode := words[0];
      if command in GeneralVerbs && mode == "add" && (flags.broadcaster || flags.moderator) {
        effects := HandleAdd(user, words);
      } else if command in GeneralVerbs && mode == "edit" && flags.broadcaster {
        effects := HandleEdit(user, words);
      } else if command in GeneralVerbs && mode in DeleteModes && flags.broadcaster {
        effects := HandleDelete(user, words);
      } else if command in BroadcasterVerbs && mode == "add" && flags.broadcaster {
        effects := HandleBroadcasterSet(user, words, "added");
      } else if command in BroadcasterVerbs && mode == "edit" && flags.broadcaster {
        effects := HandleBroadcasterSet(user, words, "edited");
      } else if command in BroadcasterVerbs && mode in DeleteModes && flags.broadcaster {
        effects := HandleBroadcasterDelete(user, words);
      } else if command == "clip" && flags.broadcaster {
        effects := [Say("@" + user + " " + clip)];
      } else {
        effects := [];
      }
    }

    /** The `!command add` branch. */
    method HandleAdd(user: string, words: seq<string>) returns (effects: seq<Effect>)
      modifies this
      ensures CommandOutcome(effects, Dictionaries()) == AddGeneral(old(Dictionaries()), user, words)
      ensures Chat() == old(Chat())
    {
      effects := [];
      if |words| < 2 {
        return;
      }
      var name := NormalizeName(words[1]);
      if Commands.Present(commands, name) {
        effects := [Say(user + " command '" + name + "' already exists! Please use the edit command instead.")];
        return;
      }
      SetCommand(name, Join(words[2..], ' '));
      effects := [Say(user + " command '" + name + "' added successfully!")];
    }

    /** The `!command edit` branch. */
    method HandleEdit(user: string, words: seq<string>) returns (effects: seq<Effect>)
      modifies this
      ensures CommandOutcome(effects, Dictionaries()) == EditGeneral(old(Dictionaries()), user, words)
      ensures Chat() == old(Chat())
    {
      effects := [];
      if |words| < 2 {
        return;
      }
      var name := NormalizeName(words[1]);
      if !Commands.Present(commands, name) {
        effects := [Say(user + " command '" + name + "' doesn't exist! Please use the add command instead.")];
        return;
      }
      SetCommand(name, Join(words[2..], ' '));
      effects := [Say(user + " command '" + name + "' edited successfully!")];
    }

    /** The `!command delete` branch. */
    method HandleDelete(user: string, words: seq<string>) returns (effects: seq<Effect>)
      modifies this
      ensures CommandOutcome(effects, Dictionaries()) == DeleteGeneral(old(Dictionaries()), user, words)
      ensures Chat() == old(Chat())
    {
      effects := [];
      if |words| < 2 {
        return;
      }
      var name := NormalizeName(words[1]);
      if !Commands.Present(commands, name) {
        effects := [Say(user + " command '" + name + "' doesn't exist!")];
        return;
      }
      DeleteCommand(name);
      effects := [Say(user + " command '" + name + "' deleted successfully!")];
    }

    /** The `!bcmd add` and `!bcmd edit` branches. */
    method HandleBroadcasterSet(user: string, words: seq<string>, verb: string) returns (effects: seq<Effect>)
      modifies this
      ensures CommandOutcome(effects, Dictionaries()) == SetBroadcaster(old(Dictionaries()), user, words, verb)
      ensures Chat() == old(Chat())
    {
      effects := [];
      if |words| < 2 {
        return;
      }
      var name := NormalizeName(words[1]);
      SetBroadcasterCommand(name, Join(words[2..], ' '));
      effects := [Say(user + " broadcaster command '" + name + "' " + verb + " successfully!")];
    }

    /** The `!bcmd delete` branch. */
    method HandleBroadcasterDelete(user: string, words: seq<string>) returns (effects: seq<Effect>)
      modifies this
      ensures CommandOutcome(effects, Dictionaries()) == DeleteBroadcaster(old(Dictionaries()), user, words)
      ensures Chat() == old(Chat())
    {
      effects := [];
      if |words| < 2 {
        return;
      }
      var name := NormalizeName(words[1]);
      DeleteBroadcasterCommand(name);
      effects := [Say(user + " broadcaster command '" + name + "' deleted successfully!")];
    }

    /**
     * onChat: shout out a listed streamer once, then count the message or
     * send a filler. `now` is the clock, `choiceRand` and `lineRand` the two
     * values of `Math.random()` a filler draws.
     */
    method OnChat(user: string, now: int, choiceRand: real, lineRand: real)
      returns (effects: seq<Effect>)
      requires Valid() && 0.0 <= choiceRand < 1.0 && 0.0 <= lineRand < 1.0
      modifies this
      ensures Chat() == ChatStep(old(Chat()), user, now)
      ensures effects == ChatEffects(old(Chat()), user, now,
        ActivateTimerMessages(user, compliments, quotes, timerMessages, choiceRand, lineRand))
      ensures Dictionaries() == old(Dictionaries())
    {
      effects := [];
      var key := ToLower(user);
      if key in streamers && streamers[key] {
        effects := [Shoutout(user)];
        streamers := streamers[key := false];
      }

      if key !in ExcludedUsers && messageCount >= MESSAGE_LIMIT && now - lastMessageTimestamp >= TIME_LIMIT {
        var filler := ActivateTimerMessages(user, compliments, quotes, timerMessages, choiceRand, lineRand);
        effects := effects + [Say(filler)];
        messageCount := 0;
        lastMessageTimestamp := now;
      } else {
        messageCount := messageCount + 1;
      }
    }
  }
}
