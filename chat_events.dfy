/**
 * The event handlers of index.ts: each chat line from Twitch or YouTube is
 * either plain chat, handed to processChat, or a `!command`, split into the
 * command word and the rest of the message and handed to processCommand
 * with the sender's permission flags. A channel-point redemption is read
 * aloud.
 */
module ChatEvents {

  import opened Wrappers
  import opened Text
  import opened Commands
  import opened ChatProcessor
  import TextToSpeech

  /** A `!` line taken apart: the command word and the words after it. */
  datatype CommandLine = CommandLine(command: string, message: string)

  /**
   * `text.substring(1).split(" ")[0]` and `text.split(" ").slice(1).join(" ")`:
   * the command is the word the `!` starts, the message everything after the
   * first space; together with that space they make up the line again.
   */
  function SplitCommandLine(text: string): (c: CommandLine)
    requires StartsWith(text, "!")
    ensures ' ' !in c.command
    ensures ' ' in text ==> text == "!" + c.command + " " + c.message
    ensures ' ' !in text ==> text == "!" + c.command && c.message == ""
  {
    var afterBang := text[1..];
    var words := Split(afterBang, ' ');
    assert text == "!" + afterBang;
    assert Split(text, ' ') == [['!'] + words[0]] + words[1..];
    JoinOfSplit(afterBang, ' ');
    SplitLength(afterBang, ' ');
    OccurrencesZero(afterBang, ' ');
    CommandLine(words[0], Join(Split(text, ' ')[1..], ' '))
  }

  /** Where the handler passes a chat line. */
  datatype Dispatch =
    | ToChat(user: string, source: string, msgId: Option<string>)
    | ToCommand(user: string, command: string, message: string, flags: Flags, source: string, msgId: Option<string>)

  /** The `badges.forEach` loop: a broadcaster or a moderator badge sets the flag. */
  method TwitchFlags(badges: seq<string>) returns (flags: Flags)
    ensures flags.broadcaster <==> "broadcaster" in badges
    ensures flags.mod <==> "moderator" in badges
  {
    flags := Flags(false, false);
    for i := 0 to |badges|
      invariant flags.broadcaster <==> "broadcaster" in badges[..i]
      invariant flags.mod <==> "moderator" in badges[..i]
    {
      if badges[i] == "broadcaster" {
        flags := flags.(broadcaster := true);
      } else if badges[i] == "moderator" {
        flags := flags.(mod := true);
      }
      assert badges[..i + 1] == badges[..i] + [badges[i]];
    }
    assert badges[..|badges|] == badges;
  }

  /** The `Twitch.ChatMessage` handler; `badges` are the names of the sender's badges. */
  method OnTwitchChatMessage(eventSource: string, displayName: string, msgId: Option<string>,
                             text: string, badges: seq<string>)
    returns (d: Dispatch)
    ensures d.user == displayName && d.source == ToLower(eventSource) && d.msgId == msgId
    ensures d.ToChat? <==> !StartsWith(text, "!")
    ensures d.ToCommand? ==> CommandLine(d.command, d.message) == SplitCommandLine(text)
    ensures d.ToCommand? ==> (d.flags.broadcaster <==> "broadcaster" in badges)
    ensures d.ToCommand? ==> (d.flags.mod <==> "moderator" in badges)
  {
    var source := ToLower(eventSource);
    if !StartsWith(text, "!") {
      return ToChat(displayName, source, msgId);
    }
    var line := SplitCommandLine(text);
    var flags := TwitchFlags(badges);
    d := ToCommand(displayName, line.command, line.message, flags, source, msgId);
  }

  /**
   * The `YouTube.Message` handler: YouTube messages carry no message id, and
   * the flags come from the sender's owner and moderator status.
   */
  function OnYouTubeMessage(eventSource: string, name: string, text: string, isOwner: bool, isModerator: bool)
    : (d: Dispatch)
    ensures d.user == name && d.source == ToLower(eventSource) && d.msgId == None
    ensures d.ToChat? <==> !StartsWith(text, "!")
    ensures d.ToCommand? ==> CommandLine(d.command, d.message) == SplitCommandLine(text)
    ensures d.ToCommand? ==> d.flags == Flags(isOwner, isModerator)
  {
    var source := ToLower(eventSource);
    if !StartsWith(text, "!") then ToChat(name, source, None)
    else
      var line := SplitCommandLine(text);
      ToCommand(name, line.command, line.message, Flags(isOwner, isModerator), source, None)
  }

  /**
   * Awaiting processChat or processCommand for a dispatched line: plain chat
   * moves only the counters, a command only the files.
   */
  method Deliver(d: Dispatch, counters: ChatCounters, files: Files, now: int, resetNow: int, localtime: string,
                 rand: real, choiceRand: real, lineRand: real)
    returns (effects: seq<Effect>)
    requires 0.0 <= rand < 1.0 && 0.0 <= choiceRand < 1.0 && 0.0 <= lineRand < 1.0
    modifies counters, files
    ensures d.ToChat? ==> files.Snapshot() == old(files.Snapshot())
    ensures d.ToChat? ==> counters.State() == ChatStep(old(counters.State()), d.user, d.source, now, resetNow)
    ensures d.ToChat? ==> effects == if Fires(old(counters.State()), d.user, d.source, now)
      then [FillerEffect(files.Snapshot(), d.source, d.msgId, choiceRand, lineRand)] else []
    ensures d.ToCommand? ==> counters.State() == old(counters.State())
    ensures d.ToCommand? ==> var o := ProcessCommandSpec(old(files.Snapshot()), d.user, d.command, d.message,
      d.flags, d.source, d.msgId, localtime, rand);
      effects == o.effects && files.Snapshot() == o.store
  {
    match d
    case ToChat(user, source, msgId) =>
      effects := counters.ProcessChat(files, user, source, msgId, now, resetNow, choiceRand, lineRand);
    case ToCommand(user, command, message, flags, source, msgId) =>
      effects := ProcessCommand(files, user, command, message, flags, source, msgId, localtime, rand);
  }

  /**
   * The `Twitch.RewardRedemption` handler: the command line textToSpeech runs
   * for a redemption. Read by the ASCII-quote rule of `TextToSpeech.ReadQuoted`,
   * its literal is exactly "<user> redeemed <title>".
   */
  function RedemptionSpeech(userName: string, rewardTitle: string): (command: string)
    ensures StartsWith(command, TextToSpeech.SpeakPrefix)
    ensures TextToSpeech.ReadQuoted(command[|TextToSpeech.SpeakPrefix|..])
      == Some(TextToSpeech.Literal(userName + " redeemed " + rewardTitle, ")"))
  {
    TextToSpeech.SpeechCommand(userName + " redeemed " + rewardTitle)
  }

}
