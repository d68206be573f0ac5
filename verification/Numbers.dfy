/** Whole-number arithmetic that several parts share: rounding, digits, and how far multiples lie apart. */
module Numbers {

  /** The largest whole number that a double counts up to. */
  const MAX_SAFE := 9_007_199_254_740_991

  function Lesser(a: int, b: int): int { if a <= b then a else b }

  function Abs(n: int): int { if n < 0 then -n else n }

  /** Division rounded up. */
  function Ceil(a: int, b: int): (c: int)
    requires b > 0
    ensures a >= 0 ==> c >= 0
  {
    (a + b - 1) / b
  }

  lemma TimesKeepsOrder(x: int, y: int, b: int)
    requires x <= y && b >= 0
    ensures x * b <= y * b
  {
    assert (y - x) * b >= 0;
  }

  /** The one thing the ceiling means: the least `c` with `a <= c * b`. */
  lemma CeilIsLeast(a: int, b: int, c: int)
    requires b > 0
    ensures Ceil(a, b) <= c <==> a <= c * b
  {
    var d := Ceil(a, b);
    DivisionBounds(a + b - 1, b, d);
    if d <= c { TimesKeepsOrder(d, c, b); }
    if c + 1 <= d { TimesKeepsOrder(c + 1, d, b); }
    OneMore(c, b);
  }

  lemma DivisionBounds(n: int, b: int, d: int)
    requires b > 0 && d == n / b
    ensures d * b <= n < d * b + b
  {
  }

  lemma OneMore(c: int, b: int)
    ensures (c + 1) * b == c * b + b
  {
  }

  /** The nearest whole number, halves upward. */
  function RoundDiv(n: int, d: int): int
    requires d > 0
  {
    (2 * n + d) / (2 * d)
  }

  /** A multiple of `d` other than zero is at least `d` away from zero. */
  lemma MultipleIsFar(k: int, d: int)
    requires d >= 0
    ensures k >= 1 ==> k * d >= d
    ensures k <= -1 ==> k * d <= -d
  {
    if k >= 1 { assert (k - 1) * d >= 0; }
    if k <= -1 { assert (-1 - k) * d >= 0; }
  }

  const DIGITS := "0123456789"

  function Decimal(n: nat): string { if n < 10 then [DIGITS[n]] else Decimal(n / 10) + [DIGITS[n % 10]] }
}
