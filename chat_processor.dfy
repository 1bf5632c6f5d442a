/**
 * The command resolver and the filler rate limiter of utils/ChatProcessor.ts.
 *
 * `ProcessCommandSpec` states what one `!command` does as a function of the
 * files before it: the replies it sends and the files after it.
 * `ProcessCommand` performs the same cascade step by step against the
 * `Files` object and is proved to agree with it. `ChatCounters` holds the
 * two module-level counters that `processChat` updates.
 */
module ChatProcessor {

  import opened Wrappers
  import opened Text
  import opened Commands
  import opened Random

  const MCommandModify: seq<string> := ["mcmd", "modcommand"]
  const CommandModify: seq<string> := ["command", "cmd", "rcmd"]
  const TextAddVerbs: seq<string> := ["addquote", "addtimer", "addcompliment"]
  const DefineVerbs: seq<string> := ["define", "definition"]
  const DeleteModes: seq<string> := ["delete", "remove", "rm"]

  /** Every built-in verb the cascade tests after the two stored tiers. */
  const BuiltinVerbs: seq<string> :=
    ["time", "compliment", "quote", "promote"] + MCommandModify + CommandModify + TextAddVerbs + DefineVerbs

  const CHAT_MESSAGE_COUNT: int := 5
  const TIME_SINCE_LAST_MESSAGE: int := 5 * 60 * 1000

  /** Accounts whose plain chat never counts towards a filler (compared lower-cased). */
  const ExcludedUsers: seq<string> := ["ryandotts", "rythondev", "mohcitrus", "sery_bot", "kofistreambot"]

  const NoPermission: string := "You do not have permission to use that command!"
  const PromotionPrefix: string := "<@&1038436118816903210> \nhttps://rython.dev/live\n"
  const ModifyFailed: string := "Operation of modifying command failed"

  /** The streamer.bot actions that post a reply. */
  const YouTubeActionId: string := "390ff8f2-7945-4eba-be2a-a1c0e4ba535d"
  const TwitchActionId: string := "8ff809be-e269-4f06-9528-021ef58df436"
  const TwitchReplyActionId: string := "22617c2d-0ba2-4c19-9703-1b6fa62e3a4d"

  datatype Flags = Flags(broadcaster: bool, mod: bool)

  predicate HasModPerms(flags: Flags)
  {
    flags.mod || flags.broadcaster
  }

  /**
   * What handling one chat line asks the outside world to do: a call of
   * sendChatResponse, a post to the Discord webhook, or a dictionary lookup
   * whose answer is later sent with sendChatResponse.
   */
  datatype Effect =
    | Reply(response: string, source: string, msgId: Option<string>)
    | PromotionWebhook(content: string)
    | DefinitionLookup(word: string, source: string, msgId: Option<string>)

  /** A streamer.bot `doAction` call. */
  datatype Action = DoAction(actionId: string, response: string, msgId: Option<string>)

  /** `msgId` is truthy: present and not empty. */
  predicate HasMsgId(msgId: Option<string>)
  {
    msgId.Some? && msgId.value != ""
  }

  /** sendChatResponse: which action, if any, carries the reply. */
  function SendChatResponse(response: string, source: string, msgId: Option<string>): (a: Option<Action>)
    ensures source == "youtube" <==> a == Some(DoAction(YouTubeActionId, response, None))
    ensures source == "twitch" && !HasMsgId(msgId) <==> a == Some(DoAction(TwitchActionId, response, None))
    ensures source == "twitch" && HasMsgId(msgId) <==> a == Some(DoAction(TwitchReplyActionId, response, msgId))
    ensures a.None? <==> source != "youtube" && source != "twitch"
    ensures a.Some? ==> a.value.response == response
  {
    if source == "youtube" then Some(DoAction(YouTubeActionId, response, None))
    else if source == "twitch" && !HasMsgId(msgId) then Some(DoAction(TwitchActionId, response, None))
    else if source == "twitch" then Some(DoAction(TwitchReplyActionId, response, msgId))
    else None
  }

  // ----- placeholders -----

  /**
   * The reply for a stored template: the first `{user}` becomes `@user`,
   * then the first `{mention}` becomes the first word of the message.
   */
  function Substitute(template: string, user: string, message: string): string
  {
    ReplaceFirst(ReplaceFirst(template, "{user}", "@" + user), "{mention}", FirstWord(message))
  }

  /** A template without placeholders is sent as it is. */
  lemma SubstituteWithoutPlaceholders(template: string, user: string, message: string)
    requires !Includes(template, "{user}") && !Includes(template, "{mention}")
    ensures Substitute(template, user, message) == template
  {
  }

  /**
   * Only the first `{user}` and the first `{mention}` after it are replaced: the
   * tail `c` is kept as it is, whatever placeholders it holds.
   */
  lemma SubstituteBoth(a: string, b: string, c: string, user: string, message: string)
    requires '{' !in a && '{' !in b && '{' !in user
    ensures Substitute(a + "{user}" + b + "{mention}" + c, user, message)
      == a + "@" + user + b + FirstWord(message) + c
  {
    ReplaceWithMention(a, "{user}", b + "{mention}" + c, user);
    assert a + "{user}" + (b + "{mention}" + c) == a + "{user}" + b + "{mention}" + c;
    assert a + "@" + user + (b + "{mention}" + c) == a + "@" + user + b + "{mention}" + c;
    ReplaceAfterPrefix(a + "@" + user + b, "{mention}", c, FirstWord(message));
  }

  // ----- command management sub-grammar -----

  /** `!cmd <mode> <name> <template...>` after the verb. */
  datatype ModifyRequest = ModifyRequest(mode: string, name: string, output: string)

  /**
   * The words of the message: the mode lower-cased, the name lower-cased
   * without one leading `!`, the rest joined by single spaces. A message of
   * one word has no name (the source throws reading it).
   */
  function ParseModify(message: string): Option<ModifyRequest>
  {
    var parts := Split(message, ' ');
    if |parts| < 2 then None
    else
      var name := ToLower(parts[1]);
      Some(ModifyRequest(ToLower(parts[0]), if StartsWith(name, "!") then name[1..] else name, Join(parts[2..], ' ')))
  }

  /** The name is missing exactly when the message has no space. */
  lemma ParseModifyNeedsName(message: string)
    ensures ParseModify(message).None? <==> ' ' !in message
  {
    SplitLength(message, ' ');
    OccurrencesZero(message, ' ');
  }

  /** Parsing `mode name template` recovers the three parts, the template verbatim. */
  lemma ParseModifyParts(mode: string, name: string, template: string)
    requires ' ' !in mode && ' ' !in name
    ensures ParseModify(mode + " " + name + " " + template)
      == Some(ModifyRequest(ToLower(mode), NormalizeName(name), template))
  {
    var message := mode + " " + name + " " + template;
    assert message == mode + [' '] + (name + [' '] + template);
    SplitAtSeparator(mode, name + [' '] + template, ' ');
    SplitAtSeparator(name, template, ' ');
    JoinOfSplit(template, ' ');
    var parts := Split(message, ' ');
    assert parts == [mode, name] + Split(template, ' ');
    assert parts[2..] == Split(template, ' ');
  }

  /** The stored name for a typed one: lower-cased, one leading `!` removed. */
  function NormalizeName(name: string): (r: string)
    ensures |r| == |name| || |r| == |name| - 1
    ensures StartsWith(name, "!") ==> r == ToLower(name[1..])
    ensures !StartsWith(name, "!") ==> r == ToLower(name)
  {
    var lowered := ToLower(name);
    assert StartsWith(name, "!") <==> StartsWith(lowered, "!");
    if StartsWith(lowered, "!") then lowered[1..] else lowered
  }

  function Added(name: string): string { "Command \"!" + name + "\" has been added successfully!" }
  function Edited(name: string): string { "Command \"!" + name + "\" has been edited successfully!" }
  function Deleted(name: string): string { "Command \"!" + name + "\" has been deleted successfully!" }
  function FailedTo(verb: string, name: string): string { "Failed to " + verb + " command \"!" + name + "\"" }

  // ----- the resolver as a function of the files -----

  /** The replies sent and the files left by one command. */
  datatype Outcome = Outcome(effects: seq<Effect>, store: Store)

  /** The dictionary a management verb edits: `mcmd`/`modcommand` the restricted tier, the others the general tier. */
  function ModifySection(command: string): JsonFile
  {
    if command in MCommandModify then BroadcasterCommandsJson else CommandsJson
  }

  /** The management branch: parse the request, then apply it to the verb's dictionary. */
  function ModifySpec(store: Store, command: string, message: string, source: string, msgId: Option<string>): Outcome
  {
    match ParseModify(message)
    case None => Outcome([], store)
    case Some(req) => ApplyModifySpec(store, ModifySection(command), req, source, msgId)
  }

  /** One parsed add/edit/delete request applied to one dictionary, with its reply. */
  function ApplyModifySpec(store: Store, section: JsonFile, req: ModifyRequest, source: string, msgId: Option<string>): Outcome
  {
    var json := store.Json(section);
    if req.mode == "add" then
      var u := Add(json, req.name, req.output);
      Outcome([Reply(if u.ok then Added(req.name) else FailedTo("add", req.name), source, msgId)],
              store.WithJson(section, u.json))
    else if req.mode == "edit" then
      var u := Edit(json, req.name, req.output);
      Outcome([Reply(if u.ok then Edited(req.name) else FailedTo("edit", req.name), source, msgId)],
              store.WithJson(section, u.json))
    else if req.mode in DeleteModes then
      var u := Remove(json, req.name);
      Outcome([Reply(if u.ok then Deleted(req.name) else FailedTo("delete", req.name), source, msgId)],
              store.WithJson(section, u.json))
    else Outcome([Reply(ModifyFailed, source, msgId)], store)
  }

  /** The corpus and the noun for `addquote`, `addtimer` and `addcompliment`. */
  function TextSection(command: string): (TextFile, string)
  {
    if command == "addquote" then (Quotes, "quote")
    else if command == "addtimer" then (TimerMessages, "timer message")
    else (Compliments, "compliment")
  }

  /** Everything after the restricted-tier check: the general tier, then the built-in verbs. */
  function GeneralSpec(store: Store, user: string, command: string, message: string, flags: Flags,
                       source: string, msgId: Option<string>, localtime: string, rand: real): Outcome
    requires 0.0 <= rand < 1.0
  {
    var commands := store.commands;
    if Present(commands, command) then
      Outcome([Reply(Substitute(commands[command], user, message), source, msgId)], store)
    else if command == "time" then
      Outcome([Reply(user + " it is currently " + localtime, source, msgId)], store)
    else if command == "compliment" then
      Outcome([Reply(FirstWord(message) + " " + Draw(GetTextFileContent(store.compliments), rand), source, None)], store)
    else if command == "quote" then
      Outcome([Reply(Draw(GetTextFileContent(store.quotes), rand), source, msgId)], store)
    else if command == "promote" && flags.broadcaster then
      Outcome([PromotionWebhook(PromotionPrefix + message), Reply("Promotion successful!", source, msgId)], store)
    else if HasModPerms(flags) && (command in MCommandModify || command in CommandModify) then
      ModifySpec(store, command, message, source, msgId)
    else if HasModPerms(flags) && command in TextAddVerbs then
      var (section, noun) := TextSection(command);
      Outcome([Reply(noun + " has been added successfully!", source, msgId)],
              store.WithText(section, AppendLine(store.TextOf(section), message)))
    else if command in DefineVerbs then
      Outcome([DefinitionLookup(FirstWord(message), source, msgId)], store)
    else Outcome([], store)
  }

  /** processCommand: the replies and the files after one `!command`. */
  function ProcessCommandSpec(store: Store, user: string, command: string, message: string, flags: Flags,
                              source: string, msgId: Option<string>, localtime: string, rand: real): Outcome
    requires 0.0 <= rand < 1.0
  {
    var bc := store.broadcasterCommands;
    if Present(bc, command) && !HasModPerms(flags) then
      Outcome([Reply(NoPermission, source, msgId)], store)
    else
      var restricted := if Present(bc, command) then [Reply(Substitute(bc[command], user, message), source, msgId)] else [];
      var rest := GeneralSpec(store, user, command, message, flags, source, msgId, localtime, rand);
      Outcome(restricted + rest.effects, rest.store)
  }

  /** A restricted command used without permission gets only the refusal, whatever else it matches. */
  lemma NoPermissionStops(store: Store, user: string, command: string, message: string, flags: Flags,
                          source: string, msgId: Option<string>, localtime: string, rand: real)
    requires 0.0 <= rand < 1.0
    requires Present(store.broadcasterCommands, command) && !flags.mod && !flags.broadcaster
    ensures ProcessCommandSpec(store, user, command, message, flags, source, msgId, localtime, rand)
      == Outcome([Reply(NoPermission, source, msgId)], store)
  {
  }

  /** Callers without moderator or broadcaster flags never change a file. */
  lemma OnlyModeratorsChangeFiles(store: Store, user: string, command: string, message: string, flags: Flags,
                                  source: string, msgId: Option<string>, localtime: string, rand: real)
    requires 0.0 <= rand < 1.0
    requires !HasModPerms(flags)
    ensures ProcessCommandSpec(store, user, command, message, flags, source, msgId, localtime, rand).store == store
  {
  }

  /**
   * A permitted restricted command does not stop the cascade: a name stored
   * in both tiers sends both substituted templates, restricted first.
   */
  lemma RestrictedFallsThrough(store: Store, user: string, command: string, message: string, flags: Flags,
                               source: string, msgId: Option<string>, localtime: string, rand: real)
    requires 0.0 <= rand < 1.0
    requires HasModPerms(flags)
    requires Present(store.broadcasterCommands, command) && Present(store.commands, command)
    ensures ProcessCommandSpec(store, user, command, message, flags, source, msgId, localtime, rand)
      == Outcome([Reply(Substitute(store.broadcasterCommands[command], user, message), source, msgId),
                  Reply(Substitute(store.commands[command], user, message), source, msgId)], store)
  {
  }

  /** A stored general command shadows every built-in verb, the management verbs included. */
  lemma StoredCommandShadowsBuiltins(store: Store, user: string, command: string, message: string, flags: Flags,
                                     source: string, msgId: Option<string>, localtime: string, rand: real)
    requires 0.0 <= rand < 1.0
    requires !Present(store.broadcasterCommands, command) && Present(store.commands, command)
    ensures ProcessCommandSpec(store, user, command, message, flags, source, msgId, localtime, rand)
      == Outcome([Reply(Substitute(store.commands[command], user, message), source, msgId)], store)
  {
  }

  /** An unknown `!word` sends nothing and changes nothing. */
  lemma UnknownCommandIsSilent(store: Store, user: string, command: string, message: string, flags: Flags,
                               source: string, msgId: Option<string>, localtime: string, rand: real)
    requires 0.0 <= rand < 1.0
    requires !Present(store.broadcasterCommands, command) && !Present(store.commands, command)
    requires command !in BuiltinVerbs
    ensures ProcessCommandSpec(store, user, command, message, flags, source, msgId, localtime, rand)
      == Outcome([], store)
  {
  }

  /**
   * A management command changes only the tier its verb names, and only the
   * entry it names; the text files never change.
   */
  lemma ManagementTouchesOneTier(store: Store, user: string, command: string, message: string, flags: Flags,
                                 source: string, msgId: Option<string>, localtime: string, rand: real)
    requires 0.0 <= rand < 1.0
    requires !Present(store.broadcasterCommands, command) && !Present(store.commands, command)
    requires command in MCommandModify || command in CommandModify
    ensures var after := ProcessCommandSpec(store, user, command, message, flags, source, msgId, localtime, rand).store;
      && after.compliments == store.compliments && after.quotes == store.quotes
      && after.timerMessages == store.timerMessages
      && (command in MCommandModify ==> after.commands == store.commands)
      && (command in CommandModify ==> after.broadcasterCommands == store.broadcasterCommands)
      && (forall req :: ParseModify(message) == Some(req) ==>
            after.commands - {req.name} == store.commands - {req.name}
            && after.broadcasterCommands - {req.name} == store.broadcasterCommands - {req.name})
  {
    var general := GeneralSpec(store, user, command, message, flags, source, msgId, localtime, rand);
    assert ProcessCommandSpec(store, user, command, message, flags, source, msgId, localtime, rand).store == general.store;
    if HasModPerms(flags) {
      assert general == ModifySpec(store, command, message, source, msgId);
      ModifyTouchesOneTier(store, command, message, source, msgId);
    } else {
      assert general.store == store;
    }
  }

  /** The management branch rewrites at most the named entry of the tier its verb selects. */
  lemma ModifyTouchesOneTier(store: Store, command: string, message: string, source: string, msgId: Option<string>)
    ensures var after := ModifySpec(store, command, message, source, msgId).store;
      && after.compliments == store.compliments && after.quotes == store.quotes
      && after.timerMessages == store.timerMessages
      && (command in MCommandModify ==> after.commands == store.commands)
      && (command !in MCommandModify ==> after.broadcasterCommands == store.broadcasterCommands)
      && (forall req :: ParseModify(message) == Some(req) ==>
            after.commands - {req.name} == store.commands - {req.name}
            && after.broadcasterCommands - {req.name} == store.broadcasterCommands - {req.name})
  {
    match ParseModify(message)
    case None =>
    case Some(req) =>
      ApplyTouchesOneEntry(store, ModifySection(command), req, source, msgId);
  }

  /** Applying a request rewrites only the named entry of its own dictionary. */
  lemma ApplyTouchesOneEntry(store: Store, section: JsonFile, req: ModifyRequest, source: string, msgId: Option<string>)
    ensures var after := ApplyModifySpec(store, section, req, source, msgId).store;
      && after == store.WithJson(section, after.Json(section))
      && after.Json(section) - {req.name} == store.Json(section) - {req.name}
  {
    var json := store.Json(section);
    var j := if req.mode == "add" then Add(json, req.name, req.output).json
             else if req.mode == "edit" then Edit(json, req.name, req.output).json
             else if req.mode in DeleteModes then Remove(json, req.name).json
             else json;
    assert j - {req.name} == json - {req.name};
    assert ApplyModifySpec(store, section, req, source, msgId).store == store.WithJson(section, j);
  }

  /** `!cmd add <name> <template>` from a moderator stores a fresh name in the general tier. */
  lemma ManagementAddsCommand(store: Store, user: string, command: string, name: string, template: string,
                              flags: Flags, source: string, msgId: Option<string>, localtime: string, rand: real)
    requires 0.0 <= rand < 1.0
    requires HasModPerms(flags) && command in CommandModify
    requires !Present(store.broadcasterCommands, command) && !Present(store.commands, command)
    requires ' ' !in name
    requires !Present(store.commands, NormalizeName(name))
    ensures ProcessCommandSpec(store, user, command, "add " + name + " " + template, flags, source, msgId, localtime, rand)
      == Outcome([Reply(Added(NormalizeName(name)), source, msgId)],
                 store.(commands := store.commands[NormalizeName(name) := template]))
  {
    var message := "add " + name + " " + template;
    var expected := Outcome([Reply(Added(NormalizeName(name)), source, msgId)],
                            store.(commands := store.commands[NormalizeName(name) := template]));
    AddRequestParses(name, template);
    assert ApplyModifySpec(store, CommandsJson, ModifyRequest("add", NormalizeName(name), template), source, msgId) == expected;
    assert ModifySpec(store, command, message, source, msgId) == expected;
    assert GeneralSpec(store, user, command, message, flags, source, msgId, localtime, rand)
      == ModifySpec(store, command, message, source, msgId);
  }

  /**
   * An add request for a present name is refused with "Failed to add" and
   * leaves the files as they were.
   */
  lemma ManagementAddRefused(store: Store, section: JsonFile, name: string, output: string,
                             source: string, msgId: Option<string>)
    requires Present(store.Json(section), name)
    ensures ApplyModifySpec(store, section, ModifyRequest("add", name, output), source, msgId)
      == Outcome([Reply(FailedTo("add", name), source, msgId)], store)
  {
  }

  /**
   * An edit request confirms and overwrites a present name; for an absent
   * name it replies "Failed to edit" and leaves the files as they were.
   */
  lemma ManagementEditReplies(store: Store, section: JsonFile, name: string, output: string,
                              source: string, msgId: Option<string>)
    ensures var o := ApplyModifySpec(store, section, ModifyRequest("edit", name, output), source, msgId);
      && (Present(store.Json(section), name) ==>
            o == Outcome([Reply(Edited(name), source, msgId)],
                         store.WithJson(section, store.Json(section)[name := output])))
      && (!Present(store.Json(section), name) ==>
            o == Outcome([Reply(FailedTo("edit", name), source, msgId)], store))
  {
  }

  /**
   * A delete request (`delete`, `remove` or `rm`) confirms and removes a
   * present name; for an absent name it replies "Failed to delete" and
   * leaves the files as they were.
   */
  lemma ManagementDeleteReplies(store: Store, section: JsonFile, mode: string, name: string, output: string,
                                source: string, msgId: Option<string>)
    requires mode in DeleteModes
    ensures var o := ApplyModifySpec(store, section, ModifyRequest(mode, name, output), source, msgId);
      && (Present(store.Json(section), name) ==>
            o == Outcome([Reply(Deleted(name), source, msgId)],
                         store.WithJson(section, store.Json(section) - {name})))
      && (!Present(store.Json(section), name) ==>
            o == Outcome([Reply(FailedTo("delete", name), source, msgId)], store))
  {
  }

  /** Any other mode replies "Operation of modifying command failed" and changes nothing. */
  lemma UnknownModeFails(store: Store, section: JsonFile, mode: string, name: string, output: string,
                         source: string, msgId: Option<string>)
    requires mode != "add" && mode != "edit" && mode !in DeleteModes
    ensures ApplyModifySpec(store, section, ModifyRequest(mode, name, output), source, msgId)
      == Outcome([Reply("Operation of modifying command failed", source, msgId)], store)
  {
  }

  /** `add <name> <template>` parses to an add request for the normalised name. */
  lemma AddRequestParses(name: string, template: string)
    requires ' ' !in name
    ensures ParseModify("add " + name + " " + template) == Some(ModifyRequest("add", NormalizeName(name), template))
  {
    assert "add " + name + " " + template == "add" + " " + name + " " + template;
    ParseModifyParts("add", name, template);
    assert ToLower("add") == "add";
  }

  // ----- the resolver step by step -----

  /** getCompliment / getQuote: a random line of a corpus file. */
  function RandomLine(files: Files, f: TextFile, rand: real): string
    requires 0.0 <= rand < 1.0
    reads files
  {
    Draw(files.Lines(f), rand)
  }

  /** processCommand, performed against the files; agrees with `ProcessCommandSpec`. */
  method ProcessCommand(files: Files, user: string, command: string, message: string, flags: Flags,
                        source: string, msgId: Option<string>, localtime: string, rand: real)
    returns (effects: seq<Effect>)
    requires 0.0 <= rand < 1.0
    modifies files
    ensures var o := ProcessCommandSpec(old(files.Snapshot()), user, command, message, flags, source, msgId, localtime, rand);
      effects == o.effects && files.Snapshot() == o.store
  {
    var broadcasterCommands := files.GetCommands(BroadcasterCommandsJson);
    var hasModPerms := flags.mod || flags.broadcaster;

    if Present(broadcasterCommands, command) && !hasModPerms {
      effects := [Reply(NoPermission, source, msgId)];
      return;
    }
    var restricted := [];
    if Present(broadcasterCommands, command) {
      var reply := Substitute(broadcasterCommands[command], user, message);
      restricted := [Reply(reply, source, msgId)];
    }

    var more := ProcessGeneral(files, user, command, message, flags, source, msgId, localtime, rand);
    effects := restricted + more;
  }

  /** The part of processCommand after the restricted tier. */
  method ProcessGeneral(files: Files, user: string, command: string, message: string, flags: Flags,
                        source: string, msgId: Option<string>, localtime: string, rand: real)
    returns (effects: seq<Effect>)
    requires 0.0 <= rand < 1.0
    modifies files
    ensures var o := GeneralSpec(old(files.Snapshot()), user, command, message, flags, source, msgId, localtime, rand);
      effects == o.effects && files.Snapshot() == o.store
  {
    var hasModPerms := flags.mod || flags.broadcaster;
    var commands := files.GetCommands(CommandsJson);
    effects := [];

    if Present(commands, command) {
      var reply := Substitute(commands[command], user, message);
      effects := [Reply(reply, source, msgId)];
    } else if command == "time" {
      effects := [Reply(user + " it is currently " + localtime, source, msgId)];
    } else if command == "compliment" {
      var mention := Split(message, ' ')[0];
      var compliment := RandomLine(files, Compliments, rand);
      effects := [Reply(mention + " " + compliment, source, None)];
    } else if command == "quote" {
      var quote := RandomLine(files, Quotes, rand);
      effects := [Reply(quote, source, msgId)];
    } else if command == "promote" && flags.broadcaster {
      var contentOfPromotion := PromotionPrefix + message;
      effects := [PromotionWebhook(contentOfPromotion), Reply("Promotion successful!", source, msgId)];
    } else if hasModPerms && (command in MCommandModify || command in CommandModify) {
      effects := ModifyCommand(files, command, message, source, msgId);
    } else if hasModPerms && command in TextAddVerbs {
      var textSection := Compliments;
      var singularNoun := "compliment";
      if command == "addquote" {
        textSection := Quotes;
        singularNoun := "quote";
      } else if command == "addtimer" {
        textSection := TimerMessages;
        singularNoun := "timer message";
      }
      var success := files.AddToTextFile(textSection, message);
      if success {
        effects := [Reply(singularNoun + " has been added successfully!", source, msgId)];
      } else {
        effects := [Reply("Failed to add " + singularNoun + "!", source, msgId)];
      }
    } else if command in DefineVerbs {
      var word := Split(message, ' ')[0];
      effects := [DefinitionLookup(word, source, msgId)];
    }
  }

  /** The management branch of processCommand. */
  method ModifyCommand(files: Files, command: string, message: string, source: string, msgId: Option<string>)
    returns (effects: seq<Effect>)
    modifies files
    ensures var o := ModifySpec(old(files.Snapshot()), command, message, source, msgId);
      effects == o.effects && files.Snapshot() == o.store
  {
    var commandSection := CommandsJson;
    if command in MCommandModify {
      commandSection := BroadcasterCommandsJson;
    }

    var breakdownString := Split(message, ' ');
    var modifyMode := ToLower(breakdownString[0]);
    if |breakdownString| < 2 {
      // `breakdownString[1].toLowerCase()` throws: nothing is sent or written
      return [];
    }
    var commandName := ToLower(breakdownString[1]);
    var commandOutput := Join(breakdownString[2..], ' ');
    if StartsWith(commandName, "!") {
      commandName := commandName[1..];
    }
    assert ParseModify(message) == Some(ModifyRequest(modifyMode, commandName, commandOutput));
    effects := ApplyModify(files, commandSection, modifyMode, commandName, commandOutput, source, msgId);
  }

  /** The add/edit/delete switch of modifyCommand, on an already parsed request. */
  method ApplyModify(files: Files, commandSection: JsonFile, modifyMode: string, commandName: string,
                     commandOutput: string, source: string, msgId: Option<string>)
    returns (effects: seq<Effect>)
    modifies files
    ensures var o := ApplyModifySpec(old(files.Snapshot()), commandSection,
                                     ModifyRequest(modifyMode, commandName, commandOutput), source, msgId);
      effects == o.effects && files.Snapshot() == o.store
  {
    var success := false;
    if modifyMode == "add" {
      success := files.AddCommand(commandSection, commandName, commandOutput);
      effects := [Reply(if success then Added(commandName) else FailedTo("add", commandName), source, msgId)];
    } else if modifyMode == "edit" {
      success := files.EditCommand(commandSection, commandName, commandOutput);
      effects := [Reply(if success then Edited(commandName) else FailedTo("edit", commandName), source, msgId)];
    } else if modifyMode in DeleteModes {
      success := files.RemoveCommand(commandSection, commandName);
      effects := [Reply(if success then Deleted(commandName) else FailedTo("delete", commandName), source, msgId)];
    } else {
      effects := [Reply(ModifyFailed, source, msgId)];
    }
  }

  // ----- the filler rate limiter -----

  /** The two module-level counters of processChat. */
  datatype Counters = Counters(messageCount: int, lastMessageTimestamp: int)

  /** Plain chat the limiter ignores: an excluded account, or anything from YouTube. */
  predicate IsIgnored(user: string, source: string)
  {
    ToLower(user) in ExcludedUsers || source == "youtube"
  }

  /** The counter and cooldown thresholds are both reached. */
  predicate ThresholdsReached(c: Counters, now: int)
  {
    c.messageCount >= CHAT_MESSAGE_COUNT && now - c.lastMessageTimestamp >= TIME_SINCE_LAST_MESSAGE
  }

  /** A filler fires for this message. */
  predicate Fires(c: Counters, user: string, source: string, now: int)
  {
    !IsIgnored(user, source) && ThresholdsReached(c, now)
  }

  /**
   * The counters after one plain-chat message. The clock is read twice:
   * `now` for the test, and `resetNow`, after the filler has been fetched
   * and sent, for the new timestamp.
   */
  function ChatStep(c: Counters, user: string, source: string, now: int, resetNow: int): Counters
  {
    if IsIgnored(user, source) then c
    else if ThresholdsReached(c, now) then Counters(0, resetNow)
    else Counters(c.messageCount + 1, c.lastMessageTimestamp)
  }

  /** Ignored messages leave both counters alone and never fire. */
  lemma IgnoredMessagesChangeNothing(c: Counters, user: string, source: string, now: int, resetNow: int)
    requires ToLower(user) in ExcludedUsers || source == "youtube"
    ensures !Fires(c, user, source, now) && ChatStep(c, user, source, now, resetNow) == c
  {
  }

  /**
   * For a counted message: a filler fires exactly when the count has reached
   * 5 and 5 minutes have passed, and then the counters restart at 0 with the
   * second clock reading; otherwise the count grows by one and the timestamp stays.
   */
  lemma CountedMessageStep(c: Counters, user: string, source: string, now: int, resetNow: int)
    requires !IsIgnored(user, source)
    ensures Fires(c, user, source, now) <==>
      c.messageCount >= 5 && now - c.lastMessageTimestamp >= 300000
    ensures Fires(c, user, source, now) ==> ChatStep(c, user, source, now, resetNow) == Counters(0, resetNow)
    ensures !Fires(c, user, source, now) ==>
      ChatStep(c, user, source, now, resetNow) == Counters(c.messageCount + 1, c.lastMessageTimestamp)
  {
  }

  /** Count 5 and a timestamp 300001 ms old: the next counted message fires and resets. */
  lemma FiresAtThresholdExample(user: string, now: int)
    requires !IsIgnored(user, "twitch")
    ensures Fires(Counters(5, now - 300001), user, "twitch", now)
    ensures ChatStep(Counters(5, now - 300001), user, "twitch", now, now + 20) == Counters(0, now + 20)
  {
  }

  /** One plain-chat message as the limiter sees it, with its two clock readings. */
  datatype ChatEvent = ChatEvent(user: string, source: string, now: int, resetNow: int)

  /** The clock does not run backwards within one message. */
  predicate ClockForward(events: seq<ChatEvent>)
  {
    forall i :: 0 <= i < |events| ==> events[i].now <= events[i].resetNow
  }

  /** The counters after a run of messages. */
  function RunCounters(c: Counters, events: seq<ChatEvent>): Counters
    decreases |events|
  {
    if events == [] then c
    else
      var e := events[0];
      RunCounters(ChatStep(c, e.user, e.source, e.now, e.resetNow), events[1..])
  }

  /** The clock readings at which fillers fire during a run. */
  function FireTimes(c: Counters, events: seq<ChatEvent>): seq<int>
    decreases |events|
  {
    if events == [] then []
    else
      var e := events[0];
      (if Fires(c, e.user, e.source, e.now) then [e.now] else [])
        + FireTimes(ChatStep(c, e.user, e.source, e.now, e.resetNow), events[1..])
  }

  /** The number of counted (not ignored) messages in a run. */
  function Counted(events: seq<ChatEvent>): nat
    decreases |events|
  {
    if events == [] then 0
    else (if IsIgnored(events[0].user, events[0].source) then 0 else 1) + Counted(events[1..])
  }

  /** Every filler of a run fires at least 5 minutes after the starting timestamp. */
  lemma {:induction false} FillersAfterCooldown(c: Counters, events: seq<ChatEvent>)
    requires ClockForward(events)
    ensures forall i :: 0 <= i < |FireTimes(c, events)| ==>
      FireTimes(c, events)[i] >= c.lastMessageTimestamp + TIME_SINCE_LAST_MESSAGE
    decreases |events|
  {
    if events != [] {
      var e := events[0];
      var next := ChatStep(c, e.user, e.source, e.now, e.resetNow);
      FillersAfterCooldown(next, events[1..]);
      assert next.lastMessageTimestamp >= c.lastMessageTimestamp;
    }
  }

  /** Two consecutive fillers of a run are at least 5 minutes apart. */
  lemma {:induction false} FillersSpacedApart(c: Counters, events: seq<ChatEvent>)
    requires ClockForward(events)
    ensures forall i :: 0 <= i < |FireTimes(c, events)| - 1 ==>
      FireTimes(c, events)[i + 1] - FireTimes(c, events)[i] >= TIME_SINCE_LAST_MESSAGE
    decreases |events|
  {
    if events != [] {
      var e := events[0];
      var next := ChatStep(c, e.user, e.source, e.now, e.resetNow);
      FillersSpacedApart(next, events[1..]);
      if Fires(c, e.user, e.source, e.now) {
        FillersAfterCooldown(next, events[1..]);
      }
    }
  }

  /**
   * Each filler costs six counted messages: over any run starting from a
   * non-negative count, 6 * fillers + final count <= counted messages + starting count.
   */
  lemma {:induction false} FillersBoundedByTraffic(c: Counters, events: seq<ChatEvent>)
    requires c.messageCount >= 0
    ensures (CHAT_MESSAGE_COUNT + 1) * |FireTimes(c, events)| + RunCounters(c, events).messageCount
      <= Counted(events) + c.messageCount
    decreases |events|
  {
    if events != [] {
      var e := events[0];
      var next := ChatStep(c, e.user, e.source, e.now, e.resetNow);
      FillersBoundedByTraffic(next, events[1..]);
    }
  }

  /** The filler kinds, in the order of the `choices` array. */
  datatype Filler = QuoteFiller | ComplimentFiller | TimerFiller
  const FillerChoices: seq<Filler> := [QuoteFiller, ComplimentFiller, TimerFiller]

  /** The filler sent: a random kind, then a random line of its corpus. */
  function FillerEffect(store: Store, source: string, msgId: Option<string>, choiceRand: real, lineRand: real)
    : (e: Effect)
    requires 0.0 <= choiceRand < 1.0 && 0.0 <= lineRand < 1.0
    ensures e.Reply? && e.source == source
    ensures e.response in GetTextFileContent(store.quotes) || e.response in GetTextFileContent(store.compliments)
      || e.response in GetTextFileContent(store.timerMessages)
    ensures e.msgId == msgId || e.msgId == None
    ensures e.msgId != None ==> e.response in GetTextFileContent(store.compliments)
  {
    match FillerChoices[RandomIndex(choiceRand, |FillerChoices|)]
    case QuoteFiller => Reply(Draw(GetTextFileContent(store.quotes), lineRand), source, None)
    case ComplimentFiller => Reply(Draw(GetTextFileContent(store.compliments), lineRand), source, msgId)
    case TimerFiller => Reply(Draw(GetTextFileContent(store.timerMessages), lineRand), source, None)
  }

  /** The module-level state of processChat. */
  class ChatCounters {
    var messageCount: int
    var lastMessageTimestamp: int

    /** Module load: no messages yet, timestamp the load time. */
    constructor (now: int)
      ensures State() == Counters(0, now)
    {
      messageCount := 0;
      lastMessageTimestamp := now;
    }

    function State(): Counters
      reads this
    {
      Counters(messageCount, lastMessageTimestamp)
    }

    /** processChat: count a plain-chat message and maybe send one filler. */
    method ProcessChat(files: Files, user: string, source: string, msgId: Option<string>, now: int,
                       resetNow: int, choiceRand: real, lineRand: real)
      returns (effects: seq<Effect>)
      requires 0.0 <= choiceRand < 1.0 && 0.0 <= lineRand < 1.0
      modifies this
      ensures State() == ChatStep(old(State()), user, source, now, resetNow)
      ensures effects == if Fires(old(State()), user, source, now)
        then [FillerEffect(files.Snapshot(), source, msgId, choiceRand, lineRand)] else []
    {
      effects := [];
      if ToLower(user) in ExcludedUsers || source == "youtube" {
        return;
      }

      if messageCount >= CHAT_MESSAGE_COUNT && now - lastMessageTimestamp >= TIME_SINCE_LAST_MESSAGE {
        var randomChoice := FillerChoices[RandomIndex(choiceRand, |FillerChoices|)];
        if randomChoice == QuoteFiller {
          var quote := RandomLine(files, Quotes, lineRand);
          effects := [Reply(quote, source, None)];
        } else if randomChoice == ComplimentFiller {
          var compliment := RandomLine(files, Compliments, lineRand);
          effects := [Reply(compliment, source, msgId)];
        } else {
          var timerMessage := RandomLine(files, TimerMessages, lineRand);
          effects := [Reply(timerMessage, source, None)];
        }
        messageCount := 0;
        lastMessageTimestamp := resetNow;
      } else {
        messageCount := messageCount + 1;
      }
    }
  }
}
