/**
 * The arithmetic of utils/TwitchAPI.ts: `convertSecondsToHMS`, which writes
 * a number of seconds as the `XhYmZs` offset of a Twitch video link, and the
 * offset `getVODTimestamp` computes from the clock and the start of the
 * latest video. The HTTP requests are left out; the video's URL and start
 * time and the clock are parameters.
 */
module TwitchApi {

  import opened Wrappers
  import opened Text

  predicate IsDigit(c: char)
  {
    '0' <= c <= '9'
  }

  predicate AllDigits(s: string)
  {
    forall i :: 0 <= i < |s| ==> IsDigit(s[i])
  }

  function DigitChar(d: nat): (c: char)
    requires d < 10
    ensures IsDigit(c)
  {
    ('0' as int + d) as char
  }

  /** `${n}` for a non-negative integer: its decimal digits, without leading zeros. */
  function NatToString(n: nat): (s: string)
    ensures |s| >= 1 && AllDigits(s)
    ensures s[0] == '0' <==> n == 0
    decreases n
  {
    if n < 10 then [DigitChar(n)]
    else NatToString(n / 10) + [DigitChar(n % 10)]
  }

  /** The number a string of decimal digits denotes. */
  function DigitsValue(s: string): nat
    requires AllDigits(s)
    decreases |s|
  {
    if s == [] then 0
    else DigitsValue(s[..|s| - 1]) * 10 + (s[|s| - 1] as int - '0' as int)
  }

  /** Reading the decimal digits back gives the number. */
  lemma {:induction false} NatToStringValue(n: nat)
    ensures DigitsValue(NatToString(n)) == n
    decreases n
  {
    if n >= 10 {
      NatToStringValue(n / 10);
      var s := NatToString(n);
      assert s[..|s| - 1] == NatToString(n / 10);
    }
  }

  /** `${n}` for any integer: a minus sign before the digits of a negative number. */
  function IntToString(n: int): (s: string)
    ensures |s| >= 1
    ensures s[0] == '-' <==> n < 0
  {
    if n < 0 then "-" + NatToString(-n) else NatToString(n)
  }

  /** JavaScript's integer quotient, truncated toward zero. */
  function TruncatedQuotient(a: int, b: int): int
    requires b > 0
  {
    if a >= 0 then a / b else -((-a) / b)
  }

  /** JavaScript's `a % b`: the remainder of the truncated division, with the sign of `a`. */
  function JsRemainder(a: int, b: int): (r: int)
    requires b > 0
    ensures a == TruncatedQuotient(a, b) * b + r
    ensures a >= 0 ==> 0 <= r < b
    ensures a < 0 ==> -b < r <= 0
  {
    if a >= 0 then a % b else -((-a) % b)
  }

  datatype Hms = Hms(hours: int, minutes: int, seconds: int)

  /**
   * The three fields of convertSecondsToHMS: `Math.floor(seconds / 3600)`,
   * `Math.floor((seconds % 3600) / 60)` and `seconds % 60`. For a
   * non-negative count they are the hours, minutes and seconds it is made of.
   */
  function SplitSeconds(seconds: int): (t: Hms)
    ensures seconds >= 0 ==> t.hours >= 0 && 0 <= t.minutes < 60 && 0 <= t.seconds < 60
    ensures seconds >= 0 ==> t.hours * 3600 + t.minutes * 60 + t.seconds == seconds
  {
    var hours := seconds / 3600;
    var r := JsRemainder(seconds, 3600);
    var minutes := r / 60;
    if seconds >= 0 then
      assert seconds == hours * 3600 + r;
      assert r == minutes * 60 + r % 60;
      assert seconds == (hours * 60 + minutes) * 60 + r % 60;
      assert seconds % 60 == r % 60;
      Hms(hours, minutes, JsRemainder(seconds, 60))
    else
      Hms(hours, minutes, JsRemainder(seconds, 60))
  }

  /** convertSecondsToHMS: `${hours}h${minutes}m${secondsRemainder}s`. */
  function ConvertSecondsToHMS(seconds: int): string
  {
    var t := SplitSeconds(seconds);
    IntToString(t.hours) + "h" + IntToString(t.minutes) + "m" + IntToString(t.seconds) + "s"
  }

  predicate Numeral(s: string)
  {
    |s| >= 1 && AllDigits(s)
  }

  /**
   * How an `XhYmZs` offset reads: three decimal numerals followed by `h`,
   * `m` and `s`, denoting that many seconds; `None` for any other text.
   */
  function ParseHms(t: string): Option<nat>
  {
    var byHour := Split(t, 'h');
    if |byHour| != 2 then None
    else
      var byMinute := Split(byHour[1], 'm');
      if |byMinute| != 2 then None
      else
        var h, m, rest := byHour[0], byMinute[0], byMinute[1];
        if |rest| == 0 || rest[|rest| - 1] != 's' then None
        else HmsValue(h, m, rest[..|rest| - 1])
  }

  /** The seconds denoted by three numerals of hours, minutes and seconds. */
  function HmsValue(h: string, m: string, s: string): Option<nat>
  {
    if Numeral(h) && Numeral(m) && Numeral(s) then
      Some(DigitsValue(h) * 3600 + DigitsValue(m) * 60 + DigitsValue(s))
    else None
  }

  lemma DigitsAvoid(s: string, c: char)
    requires AllDigits(s) && !IsDigit(c)
    ensures c !in s
  {
  }

  /** Three numerals, each followed by its unit, read as the seconds they denote. */
  lemma ReadNumerals(h: string, m: string, s: string)
    requires Numeral(h) && Numeral(m) && Numeral(s)
    ensures ParseHms(h + ['h'] + (m + ['m'] + (s + ['s']))) == HmsValue(h, m, s)
  {
    var afterMinute := s + ['s'];
    var afterHour := m + ['m'] + afterMinute;
    DigitsAvoid(h, 'h');
    DigitsAvoid(m, 'h');
    DigitsAvoid(s, 'h');
    DigitsAvoid(m, 'm');
    DigitsAvoid(s, 'm');
    var t := h + ['h'] + afterHour;
    SplitAtSeparator(h, afterHour, 'h');
    SplitWithoutSeparator(afterHour, 'h');
    assert Split(t, 'h') == [h, afterHour];
    SplitAtSeparator(m, afterMinute, 'm');
    SplitWithoutSeparator(afterMinute, 'm');
    assert Split(afterHour, 'm') == [m, afterMinute];
    assert afterMinute[..|afterMinute| - 1] == s;
  }

  lemma HmsValueOfNumbers(hours: nat, minutes: nat, seconds: nat)
    ensures HmsValue(NatToString(hours), NatToString(minutes), NatToString(seconds))
      == Some(hours * 3600 + minutes * 60 + seconds)
  {
    NatToStringValue(hours);
    NatToStringValue(minutes);
    NatToStringValue(seconds);
  }

  /** A non-negative offset is written so that it reads back as the same number of seconds. */
  lemma HmsReadsBack(seconds: int)
    requires seconds >= 0
    ensures ParseHms(ConvertSecondsToHMS(seconds)) == Some(seconds)
  {
    var t := SplitSeconds(seconds);
    var h, m, s := NatToString(t.hours), NatToString(t.minutes), NatToString(t.seconds);
    assert ConvertSecondsToHMS(seconds) == h + ['h'] + (m + ['m'] + (s + ['s']));
    ReadNumerals(h, m, s);
    HmsValueOfNumbers(t.hours, t.minutes, t.seconds);
  }

  /** A negative offset is written with minus signs, and does not read as an offset. */
  lemma NegativeOffsetIsMalformed(seconds: int)
    requires seconds < 0
    ensures ConvertSecondsToHMS(seconds)[0] == '-'
    ensures ParseHms(ConvertSecondsToHMS(seconds)) == None
  {
    var t := SplitSeconds(seconds);
    var text := ConvertSecondsToHMS(seconds);
    var h := IntToString(t.hours);
    assert t.hours < 0;
    assert text == h + ['h'] + (IntToString(t.minutes) + "m" + IntToString(t.seconds) + "s");
    assert 'h' !in h;
    SplitAtSeparator(h, IntToString(t.minutes) + "m" + IntToString(t.seconds) + "s", 'h');
    assert !IsDigit(Split(text, 'h')[0][0]);
  }

  /**
   * getVODTimestamp's offset: `Math.floor((now - createdAt) / 1000) - 3`,
   * the whole seconds since the video started, less three.
   */
  function SecondsAgo(nowMs: int, createdAtMs: int): (s: int)
    ensures (s + 3) * 1000 <= nowMs - createdAtMs < (s + 4) * 1000
  {
    (nowMs - createdAtMs) / 1000 - 3
  }

  /** The link getVODTimestamp returns: `${url}?t=${offset}`. */
  function VodTimestamp(vodUrl: string, nowMs: int, createdAtMs: int): string
  {
    vodUrl + "?t=" + ConvertSecondsToHMS(SecondsAgo(nowMs, createdAtMs))
  }

  /**
   * Once the video has run for three seconds, the link is the video's URL
   * with a `t` parameter that reads as the offset computed above.
   */
  lemma VodTimestampPointsBack(vodUrl: string, nowMs: int, createdAtMs: int)
    requires nowMs - createdAtMs >= 3000
    ensures StartsWith(VodTimestamp(vodUrl, nowMs, createdAtMs), vodUrl + "?t=")
    ensures ParseHms(VodTimestamp(vodUrl, nowMs, createdAtMs)[|vodUrl| + 3..]) == Some(SecondsAgo(nowMs, createdAtMs))
  {
    var offset := ConvertSecondsToHMS(SecondsAgo(nowMs, createdAtMs));
    var link := VodTimestamp(vodUrl, nowMs, createdAtMs);
    assert link == (vodUrl + "?t=") + offset;
    assert link[|vodUrl| + 3..] == offset;
    HmsReadsBack(SecondsAgo(nowMs, createdAtMs));
  }

}
