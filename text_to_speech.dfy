/**
 * utils/TextToSpeech.ts: the message to speak is embedded in a PowerShell
 * single-quoted string literal, with every `'` doubled so that the message
 * cannot close the literal early. Running the command is left out; the
 * command string and the way PowerShell reads the literal back are modelled.
 */
module TextToSpeech {

  import opened Wrappers
  import opened Text

  /** `text.replace(/'/g, "''")`: every single quote doubled. */
  function EscapeTextForPowershell(text: string): string
    decreases |text|
  {
    if text == [] then []
    else (if text[0] == '\'' then "''" else [text[0]]) + EscapeTextForPowershell(text[1..])
  }

  /** The escaped text is longer by one character per quote, and holds twice as many quotes. */
  lemma {:induction false} EscapeCounts(text: string)
    ensures |EscapeTextForPowershell(text)| == |text| + Occurrences(text, '\'')
    ensures Occurrences(EscapeTextForPowershell(text), '\'') == 2 * Occurrences(text, '\'')
    decreases |text|
  {
    if text != [] {
      EscapeCounts(text[1..]);
      OccurrencesAppend(if text[0] == '\'' then "''" else [text[0]], EscapeTextForPowershell(text[1..]), '\'');
    }
  }

  /** Apart from the quotes, the escaped text is the original text, in order. */
  lemma {:induction false} EscapeKeepsOtherCharacters(text: string)
    ensures RemoveAll(EscapeTextForPowershell(text), '\'') == RemoveAll(text, '\'')
    decreases |text|
  {
    if text != [] {
      EscapeKeepsOtherCharacters(text[1..]);
      RemoveAllAppend(if text[0] == '\'' then "''" else [text[0]], EscapeTextForPowershell(text[1..]), '\'');
    }
  }

  /** A text without quotes needs no escaping. */
  lemma {:induction false} EscapeWithoutQuotes(text: string)
    requires '\'' !in text
    ensures EscapeTextForPowershell(text) == text
    decreases |text|
  {
    if text != [] {
      EscapeWithoutQuotes(text[1..]);
      assert [text[0]] + text[1..] == text;
    }
  }

  /** The text of a single-quoted literal and what follows its closing quote. */
  datatype Literal = Literal(body: string, rest: string)

  function Prepend(c: char, read: Option<Literal>): Option<Literal>
  {
    match read
    case None => None
    case Some(l) => Some(Literal([c] + l.body, l.rest))
  }

  /**
   * How PowerShell reads what follows the opening quote of a single-quoted
   * string, for the ASCII quote `'` only: `''` stands for one quote and a
   * lone `'` closes the literal; `None` when the literal is never closed.
   * PowerShell also treats the typographic quotes U+2018 to U+201B as
   * single quotes; this reader does not.
   */
  function ReadQuoted(t: string): Option<Literal>
    decreases |t|
  {
    if t == [] then None
    else if t[0] != '\'' then Prepend(t[0], ReadQuoted(t[1..]))
    else if |t| >= 2 && t[1] == '\'' then Prepend('\'', ReadQuoted(t[2..]))
    else Some(Literal([], t[1..]))
  }

  lemma ReadPlain(c: char, u: string)
    requires c != '\''
    ensures ReadQuoted([c] + u) == Prepend(c, ReadQuoted(u))
  {
    assert ([c] + u)[1..] == u;
  }

  lemma ReadDoubled(u: string)
    ensures ReadQuoted(['\'', '\''] + u) == Prepend('\'', ReadQuoted(u))
  {
    assert (['\'', '\''] + u)[2..] == u;
  }

  lemma ReadClosing(u: string)
    requires u == [] || u[0] != '\''
    ensures ReadQuoted(['\''] + u) == Some(Literal([], u))
  {
    assert (['\''] + u)[1..] == u;
  }

  /** One step of reading an escaped text back: a doubled quote. */
  lemma ReadEscapedQuote(text: string, tail: string, rest: string)
    requires text != [] && text[0] == '\''
    requires ReadQuoted(EscapeTextForPowershell(text[1..]) + tail) == Some(Literal(text[1..], rest))
    ensures ReadQuoted(EscapeTextForPowershell(text) + tail) == Some(Literal(text, rest))
  {
    var escapedRest := EscapeTextForPowershell(text[1..]);
    assert EscapeTextForPowershell(text) == ['\'', '\''] + escapedRest;
    var inner := escapedRest + tail;
    assert EscapeTextForPowershell(text) + tail == ['\'', '\''] + inner;
    ReadDoubled(inner);
    assert ['\''] + text[1..] == text;
  }

  /** One step of reading an escaped text back: any other character. */
  lemma ReadEscapedPlain(text: string, tail: string, rest: string)
    requires text != [] && text[0] != '\''
    requires ReadQuoted(EscapeTextForPowershell(text[1..]) + tail) == Some(Literal(text[1..], rest))
    ensures ReadQuoted(EscapeTextForPowershell(text) + tail) == Some(Literal(text, rest))
  {
    var c := text[0];
    var escapedRest := EscapeTextForPowershell(text[1..]);
    assert EscapeTextForPowershell(text) == [c] + escapedRest;
    var inner := escapedRest + tail;
    assert EscapeTextForPowershell(text) + tail == [c] + inner;
    ReadPlain(c, inner);
    assert [c] + text[1..] == text;
  }

  /**
   * An escaped text followed by a closing quote reads back as exactly that
   * text, and the literal ends at that quote.
   */
  lemma {:induction false} EscapedTextReadsBack(text: string, rest: string)
    requires rest == [] || rest[0] != '\''
    ensures ReadQuoted(EscapeTextForPowershell(text) + (['\''] + rest)) == Some(Literal(text, rest))
    decreases |text|
  {
    var tail := ['\''] + rest;
    if text == [] {
      assert EscapeTextForPowershell(text) + tail == tail;
      ReadClosing(rest);
    } else {
      EscapedTextReadsBack(text[1..], rest);
      if text[0] == '\'' {
        ReadEscapedQuote(text, tail, rest);
      } else {
        ReadEscapedPlain(text, tail, rest);
      }
    }
  }

  /**
   * A typographic apostrophe (U+2019) is not doubled: "don’t" is embedded
   * as it is, although PowerShell reads U+2019 as a closing single quote.
   */
  lemma TypographicQuoteNotDoubled()
    ensures EscapeTextForPowershell("don\U{2019}t") == "don\U{2019}t"
  {
    EscapeWithoutQuotes("don\U{2019}t");
  }

  /** The command line up to the opening quote of the spoken literal. */
  const SpeakPrefix := "powershell.exe Add-Type -AssemblyName System.speech; (New-Object System.Speech.Synthesis.SpeechSynthesizer).Speak('"

  /**
   * The command textToSpeech runs: read by the ASCII-quote rule of
   * `ReadQuoted`, the literal holds exactly the message, and the command
   * goes on with the `)` that closes the call.
   */
  function SpeechCommand(message: string): (command: string)
    ensures StartsWith(command, SpeakPrefix)
    ensures ReadQuoted(command[|SpeakPrefix|..]) == Some(Literal(message, ")"))
  {
    var escaped := EscapeTextForPowershell(message);
    var tail := ['\''] + ")";
    EscapedTextReadsBack(message, ")");
    assert (SpeakPrefix + (escaped + tail))[|SpeakPrefix|..] == escaped + tail;
    SpeakPrefix + (escaped + tail)
  }

}
