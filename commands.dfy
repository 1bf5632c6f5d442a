/**
 * The command store and text corpus of utils/Commands.ts.
 *
 * Commands live in two JSON files, each a name -> template dictionary
 * ("commands" for everyone, "broadcaster_commands" for moderators and the
 * broadcaster). Quotes, compliments and timer messages live in three text
 * files, one entry per line. Every operation reads the whole file, changes
 * the dictionary or line list in memory and writes the whole file back.
 */
module Commands {

  import opened Text

  datatype TextFile = Compliments | Quotes | TimerMessages
  datatype JsonFile = CommandsJson | BroadcasterCommandsJson

  /** The contents of the five files. */
  datatype Store = Store(
    commands: map<string, string>,
    broadcasterCommands: map<string, string>,
    compliments: string,
    quotes: string,
    timerMessages: string)
  {
    function Json(f: JsonFile): map<string, string>
    {
      match f
      case CommandsJson => commands
      case BroadcasterCommandsJson => broadcasterCommands
    }

    function TextOf(f: TextFile): string
    {
      match f
      case Compliments => compliments
      case Quotes => quotes
      case TimerMessages => timerMessages
    }

    function WithJson(f: JsonFile, json: map<string, string>): (s: Store)
      ensures s.Json(f) == json
      ensures json == Json(f) ==> s == this
    {
      match f
      case CommandsJson => this.(commands := json)
      case BroadcasterCommandsJson => this.(broadcasterCommands := json)
    }

    function WithText(f: TextFile, contents: string): (s: Store)
      ensures s.TextOf(f) == contents
    {
      match f
      case Compliments => this.(compliments := contents)
      case Quotes => this.(quotes := contents)
      case TimerMessages => this.(timerMessages := contents)
    }
  }

  // ----- text files -----

  /** getTextFileContent: drop every carriage return, then split on newlines. */
  function GetTextFileContent(contents: string): (lines: seq<string>)
    ensures |lines| >= 1
    ensures forall i :: 0 <= i < |lines| ==> '\r' !in lines[i] && '\n' !in lines[i]
  {
    var cleaned := RemoveAll(contents, '\r');
    SplitAvoids(cleaned, '\n', '\r');
    Split(cleaned, '\n')
  }

  /** writeToTextFile: the lines joined with newlines. */
  function JoinLines(lines: seq<string>): string
  {
    Join(lines, '\n')
  }

  /** A file read back has one line more than it has newline characters. */
  lemma LineCount(contents: string)
    ensures |GetTextFileContent(contents)| == Occurrences(contents, '\n') + 1
  {
    SplitLength(RemoveAll(contents, '\r'), '\n');
    RemoveAllKeepsOccurrences(contents, '\r', '\n');
  }

  /** Writing lines and reading them back gives the same lines, when no line holds a line break. */
  lemma TextRoundTrip(lines: seq<string>)
    requires |lines| >= 1
    requires forall i :: 0 <= i < |lines| ==> '\r' !in lines[i] && '\n' !in lines[i]
    ensures GetTextFileContent(JoinLines(lines)) == lines
  {
    JoinAvoids(lines, '\n', '\r');
    RemoveAllAbsent(JoinLines(lines), '\r');
    SplitOfJoin(lines, '\n');
  }

  /** Reading then writing a file only drops its carriage returns. */
  lemma ReadWriteDropsCarriageReturns(contents: string)
    ensures JoinLines(GetTextFileContent(contents)) == RemoveAll(contents, '\r')
  {
    JoinOfSplit(RemoveAll(contents, '\r'), '\n');
  }

  /** The file contents after addToTextFile appends `line`. */
  function AppendLine(contents: string, line: string): string
  {
    JoinLines(GetTextFileContent(contents) + [line])
  }

  /** After an append the file reads back as the old lines plus the new one. */
  lemma AppendLineReadsBack(contents: string, line: string)
    requires '\r' !in line && '\n' !in line
    ensures GetTextFileContent(AppendLine(contents, line)) == GetTextFileContent(contents) + [line]
  {
    TextRoundTrip(GetTextFileContent(contents) + [line]);
  }

  // ----- command tiers -----

  /**
   * `commandsJson[name]` is truthy: the name is stored with a non-empty
   * template. A name stored with "" counts as absent.
   */
  predicate Present(json: map<string, string>, name: string)
  {
    name in json && json[name] != ""
  }

  /** The boolean a store operation returns and the dictionary it leaves. */
  datatype Update = Update(ok: bool, json: map<string, string>)

  /** addCommand on one dictionary. */
  function Add(json: map<string, string>, name: string, output: string): (u: Update)
    ensures u.ok <==> !Present(json, name)
    ensures u.ok ==> name in u.json && u.json[name] == output && u.json - {name} == json - {name}
    ensures !u.ok ==> u.json == json
  {
    if Present(json, name) then Update(false, json)
    else Update(true, json[name := output])
  }

  /** editCommand on one dictionary. */
  function Edit(json: map<string, string>, name: string, output: string): (u: Update)
    ensures u.ok <==> Present(json, name)
    ensures u.ok ==> name in u.json && u.json[name] == output && u.json - {name} == json - {name}
    ensures !u.ok ==> u.json == json
  {
    if !Present(json, name) then Update(false, json)
    else Update(true, json[name := output])
  }

  /** removeCommand on one dictionary. */
  function Remove(json: map<string, string>, name: string): (u: Update)
    ensures u.ok <==> Present(json, name)
    ensures u.ok ==> name !in u.json && u.json == json - {name}
    ensures !u.ok ==> u.json == json
  {
    if !Present(json, name) then Update(false, json)
    else Update(true, json - {name})
  }

  /** Adding a fresh name with a non-empty template and removing it restores the dictionary. */
  lemma AddThenRemoveRestores(json: map<string, string>, name: string, output: string)
    requires name !in json && output != ""
    ensures Add(json, name, output).ok
    ensures Remove(Add(json, name, output).json, name) == Update(true, json)
  {
    assert json[name := output] - {name} == json;
  }

  /** A second add of the same name fails and changes nothing, once the first stored a non-empty template. */
  lemma SecondAddFails(json: map<string, string>, name: string, output: string, other: string)
    requires output != ""
    ensures var first := Add(json, name, output);
      Add(first.json, name, other) == Update(false, first.json)
  {
  }

  /** A second remove of the same name fails. */
  lemma SecondRemoveFails(json: map<string, string>, name: string)
    ensures !Remove(Remove(json, name).json, name).ok
  {
  }

  /**
   * A name stored with the empty template behaves as absent: adding over it
   * succeeds, editing and removing it fail.
   */
  lemma EmptyTemplateIsAbsent(json: map<string, string>, name: string, output: string)
    requires name in json && json[name] == ""
    ensures Add(json, name, output).ok
    ensures !Edit(json, name, output).ok && !Remove(json, name).ok
  {
  }

  /** The files on disk, rewritten in place by each operation. */
  class Files {
    var commands: map<string, string>
    var broadcasterCommands: map<string, string>
    var compliments: string
    var quotes: string
    var timerMessages: string

    constructor (initial: Store)
      ensures Snapshot() == initial
    {
      commands := initial.commands;
      broadcasterCommands := initial.broadcasterCommands;
      compliments := initial.compliments;
      quotes := initial.quotes;
      timerMessages := initial.timerMessages;
    }

    function Snapshot(): Store
      reads this
    {
      Store(commands, broadcasterCommands, compliments, quotes, timerMessages)
    }

    /** getCommands: the dictionary stored in a JSON file. */
    function GetCommands(f: JsonFile): map<string, string>
      reads this
    {
      Snapshot().Json(f)
    }

    /** getTextFileContent: the lines of a text file. */
    function Lines(f: TextFile): seq<string>
      reads this
    {
      GetTextFileContent(Snapshot().TextOf(f))
    }

    method WriteToTextFile(f: TextFile, lines: seq<string>)
      modifies this
      ensures Snapshot() == old(Snapshot()).WithText(f, JoinLines(lines))
    {
      var output := JoinLines(lines);
      match f
      case Compliments => compliments := output;
      case Quotes => quotes := output;
      case TimerMessages => timerMessages := output;
    }

    method WriteToCommandsFile(f: JsonFile, json: map<string, string>)
      modifies this
      ensures Snapshot() == old(Snapshot()).WithJson(f, json)
    {
      match f
      case CommandsJson => commands := json;
      case BroadcasterCommandsJson => broadcasterCommands := json;
    }

    /** addToTextFile: append one line to a text file; always reports success. */
    method AddToTextFile(f: TextFile, newString: string) returns (ok: bool)
      modifies this
      ensures ok
      ensures Snapshot() == old(Snapshot()).WithText(f, AppendLine(old(Snapshot()).TextOf(f), newString))
      ensures '\r' !in newString && '\n' !in newString ==> Lines(f) == old(Lines(f)) + [newString]
    {
      var fileContentArray := Lines(f);
      fileContentArray := fileContentArray + [newString];
      WriteToTextFile(f, fileContentArray);
      if '\r' !in newString && '\n' !in newString {
        AppendLineReadsBack(old(Snapshot()).TextOf(f), newString);
      }
      ok := true;
    }

    /** addCommand: store a template under a name unless the name is present. */
    method AddCommand(f: JsonFile, commandName: string, commandOutput: string) returns (ok: bool)
      modifies this
      ensures var u := Add(old(GetCommands(f)), commandName, commandOutput);
        ok == u.ok && Snapshot() == old(Snapshot()).WithJson(f, u.json)
    {
      var commandsJson := GetCommands(f);
      if Present(commandsJson, commandName) {
        return false;
      }
      commandsJson := commandsJson[commandName := commandOutput];
      WriteToCommandsFile(f, commandsJson);
      ok := true;
    }

    /** removeCommand: delete a present name. */
    method RemoveCommand(f: JsonFile, commandName: string) returns (ok: bool)
      modifies this
      ensures var u := Remove(old(GetCommands(f)), commandName);
        ok == u.ok && Snapshot() == old(Snapshot()).WithJson(f, u.json)
    {
      var commandsJson := GetCommands(f);
      if !Present(commandsJson, commandName) {
        return false;
      }
      commandsJson := commandsJson - {commandName};
      WriteToCommandsFile(f, commandsJson);
      ok := true;
    }

    /** editCommand: overwrite the template of a present name. */
    method EditCommand(f: JsonFile, commandName: string, commandOutput: string) returns (ok: bool)
      modifies this
      ensures var u := Edit(old(GetCommands(f)), commandName, commandOutput);
        ok == u.ok && Snapshot() == old(Snapshot()).WithJson(f, u.json)
    {
      var commandsJson := GetCommands(f);
      if !Present(commandsJson, commandName) {
        return false;
      }
      commandsJson := commandsJson[commandName := commandOutput];
      WriteToCommandsFile(f, commandsJson);
      ok := true;
    }
  }
}
