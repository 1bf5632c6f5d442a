/**
 * The random draws of the bot: `arr[Math.floor(Math.random() * arr.length)]`.
 * The value of `Math.random()` is a parameter `r` with `0 <= r < 1`.
 */
module Random {

  /** A draw in [0, 1) scales a positive length into [0, length). */
  lemma ScaledBelow(r: real, n: real)
    requires 0.0 <= r < 1.0 && n > 0.0
    ensures 0.0 <= r * n < n
  {
    var gap := 1.0 - r;
    assert gap * n > 0.0;
    assert n - r * n == gap * n;
  }

  /** Dividing by a non-zero length and scaling back gives the numerator. */
  lemma DivideThenScale(a: real, n: real)
    requires n != 0.0
    ensures (a / n) * n == a
  {
  }

  /** The floor of a real in [0, n) is a natural number below n. */
  lemma FloorBelow(x: real, n: int)
    requires 0.0 <= x < n as real
    ensures 0 <= x.Floor < n
  {
    assert x.Floor as real <= x < x.Floor as real + 1.0;
  }

  /** `Math.floor(r * n)` for a draw `r` of `Math.random()`. */
  function RandomIndex(r: real, n: nat): (i: nat)
    requires 0.0 <= r < 1.0 && n > 0
    ensures i < n
  {
    var x := r * n as real;
    ScaledBelow(r, n as real);
    FloorBelow(x, n);
    x.Floor
  }

  /** `lines[Math.floor(r * lines.length)]`. */
  function Draw(lines: seq<string>, r: real): (line: string)
    requires 0.0 <= r < 1.0 && |lines| > 0
    ensures line in lines
  {
    lines[RandomIndex(r, |lines|)]
  }

  /** Every line can be drawn: the draw `i / n` picks line `i`. */
  lemma DrawReachesEveryLine(lines: seq<string>, i: nat)
    requires i < |lines|
    ensures Draw(lines, i as real / |lines| as real) == lines[i]
  {
    var r := i as real / |lines| as real;
    DivideThenScale(i as real, |lines| as real);
    assert (i as real).Floor == i;
    assert RandomIndex(r, |lines|) == i;
  }
}
