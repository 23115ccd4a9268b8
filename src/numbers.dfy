// Integer conversions of C++ that differ from Dafny's mathematical ones.
module Numbers {

  /** C++ `int (x)` for a floating-point `x`: truncation toward zero. */
  function Trunc(x: real): (n: int)
    ensures x >= 0.0 ==> 0 <= n && n as real <= x < n as real + 1.0
    ensures x < 0.0 ==> n <= 0 && n as real - 1.0 < x <= n as real
  {
    if x >= 0.0 then x.Floor else -((-x).Floor)
  }

  /** C++ integer division `a / b`, which truncates toward zero. */
  function CDiv(a: int, b: int): (q: int)
    requires b != 0
    ensures Abs(q) == Abs(a) / Abs(b)
    ensures (a >= 0) == (b > 0) ==> q >= 0
    ensures (a >= 0) != (b > 0) ==> q <= 0
  {
    var m := Abs(a) / Abs(b);
    if (a >= 0) == (b > 0) then m else -m
  }

  /** C++ integer remainder `a % b`, whose sign follows the dividend. */
  function CMod(a: int, b: int): (r: int)
    requires b != 0
    ensures a >= 0 ==> 0 <= r < Abs(b)
    ensures a < 0 ==> -Abs(b) < r <= 0
  {
    if a >= 0 then a % Abs(b) else -((-a) % Abs(b))
  }

  /** Reduction of a value below twice the modulus subtracts the modulus at most once. */
  lemma ModOfRange(a: int, b: int)
    requires b > 0 && 0 <= a < 2 * b
    ensures a % b == (if a < b then a else a - b)
    ensures CMod(a, b) == a % b
  {
    var q := a / b;
    MulBounds(q, b);
    MulBounds(q - 1, b);
  }

  /** A non-zero multiple of a positive number is at least that number away from 0. */
  lemma MulBounds(d: int, b: int)
    requires b > 0
    ensures d >= 1 ==> d * b >= b
    ensures d <= -1 ==> d * b <= -b
  {
    if d >= 1 {
      assert (d - 1) * b >= 0;
    } else if d <= -1 {
      assert (-d - 1) * b >= 0;
    }
  }

  function Abs(a: int): (m: int)
    ensures m >= 0 && (m == a || m == -a)
  {
    if a < 0 then -a else a
  }

  function Min(a: int, b: int): (m: int)
    ensures m <= a && m <= b && (m == a || m == b)
  {
    if a < b then a else b
  }

  function Max(a: int, b: int): (m: int)
    ensures m >= a && m >= b && (m == a || m == b)
  {
    if a < b then b else a
  }

  /** `jlimit (lo, hi, v)`: `lo` if `v < lo`, else `hi` if `hi < v`, else `v`. */
  function JLimit(lo: int, hi: int, v: int): (r: int)
    ensures lo <= hi ==> lo <= r <= hi
    ensures lo <= v <= hi ==> r == v
  {
    if v < lo then lo else if hi < v then hi else v
  }
}
