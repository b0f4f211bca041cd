/** Python's numeric operators as the source uses them: `%` with a positive
    divisor (the result takes the sign of the divisor), `abs`, `min`, `max`,
    and `int()` on a float (truncation toward zero). */
module PyNum {

  function Abs(x: real): (r: real)
    ensures r >= 0.0 && (r == x || r == -x)
  {
    if x < 0.0 then -x else x
  }

  function Min(a: real, b: real): (r: real)
    ensures r <= a && r <= b && (r == a || r == b)
  {
    if a <= b then a else b
  }

  function Max(a: real, b: real): (r: real)
    ensures r >= a && r >= b && (r == a || r == b)
  {
    if a >= b then a else b
  }

  function MaxInt(a: int, b: int): (r: int)
    ensures r >= a && r >= b && (r == a || r == b)
  {
    if a >= b then a else b
  }

  function MinInt(a: int, b: int): (r: int)
    ensures r <= a && r <= b && (r == a || r == b)
  {
    if a <= b then a else b
  }

  /** Python's `x % 360` on a float: x - 360 * floor(x / 360). */
  function Mod360(x: real): (r: real)
    ensures 0.0 <= r < 360.0
  {
    x - 360.0 * ((x / 360.0).Floor as real)
  }

  /** Python's `int(x)` on a float: truncation toward zero. */
  function Trunc(x: real): (r: int)
    ensures x >= 0.0 ==> r as real <= x < r as real + 1.0
    ensures x < 0.0 ==> r as real - 1.0 < x <= r as real
  {
    if x >= 0.0 then x.Floor else -((-x).Floor)
  }

  lemma FloorUnique(y: real, q: int)
    requires q as real <= y < q as real + 1.0
    ensures y.Floor == q
  {
  }

  /** `x % 360` is the unique representative of x in [0, 360). */
  lemma Mod360Char(x: real, q: int)
    requires 0.0 <= x - 360.0 * q as real < 360.0
    ensures Mod360(x) == x - 360.0 * q as real
  {
    FloorUnique(x / 360.0, q);
  }

  /** `%` is blind to whole turns. */
  lemma Mod360Shift(x: real, k: int)
    ensures Mod360(x + 360.0 * k as real) == Mod360(x)
  {
    Mod360Char(x + 360.0 * k as real, (x / 360.0).Floor + k);
  }

  /** Values already in [0, 360) are fixed points; hence `%` is idempotent. */
  lemma Mod360OfRange(x: real)
    requires 0.0 <= x < 360.0
    ensures Mod360(x) == x
  {
    Mod360Char(x, 0);
  }

  lemma Mod360Idempotent(x: real)
    ensures Mod360(Mod360(x)) == Mod360(x)
  {
    Mod360OfRange(Mod360(x));
  }

  /** x - y is congruent to (x % 360) - (y % 360). */
  lemma Mod360Difference(x: real, y: real)
    ensures Mod360(x - y) == Mod360(Mod360(x) - Mod360(y))
  {
    var qx := (x / 360.0).Floor;
    var qy := (y / 360.0).Floor;
    assert Mod360(x) - Mod360(y) == (x - y) - 360.0 * (qx - qy) as real;
    Mod360Shift(x - y, -(qx - qy));
  }

  /** `(-x) % 360` is the complement of `x % 360`, except on whole turns. */
  lemma Mod360Negate(x: real)
    ensures Mod360(-x) == (if Mod360(x) == 0.0 then 0.0 else 360.0 - Mod360(x))
  {
    var q := (x / 360.0).Floor;
    assert x == Mod360(x) + 360.0 * q as real;
    if Mod360(x) == 0.0 {
      Mod360Char(-x, -q);
    } else {
      Mod360Char(-x, -q - 1);
    }
  }

  function LowerChar(c: char): char
  {
    if 'A' <= c <= 'Z' then (c as int + 32) as char else c
  }

  /** `str.lower` on ASCII letters. */
  function Lower(s: string): (r: string)
    ensures |r| == |s|
    ensures forall i :: 0 <= i < |s| ==> r[i] == LowerChar(s[i])
  {
    if s == [] then [] else [LowerChar(s[0])] + Lower(s[1..])
  }
}
