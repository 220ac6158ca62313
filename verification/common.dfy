/** Value wrappers shared by every module: a nullable value and a result that
    is either a value or the error a Java method would have thrown. */
module Wrappers {

  /** A Java reference that may be null. */
  datatype Option<+T> = None | Some(value: T) {
    function GetOr(default: T): T {
      match this
      case Some(v) => v
      case None => default
    }
  }

  /** The outcome of an operation that may throw: `Err` carries the message. */
  datatype Result<+T> = Ok(value: T) | Err(msg: string)

  /** The outcome of an operation that returns nothing but may throw. */
  datatype Outcome = Pass | Fail(msg: string)
}

/** Java's integer operators where they differ from Dafny's. */
module JavaInt {

  /** Java's `%`: the remainder takes the sign of the dividend (Dafny's `%`
      is Euclidean and never negative). */
  function Rem(a: int, b: int): (r: int)
    requires b != 0
    ensures a >= 0 ==> 0 <= r < (if b > 0 then b else -b)
    ensures a < 0 ==> -(if b > 0 then b else -b) < r <= 0
    ensures (a - r) % (if b > 0 then b else -b) == 0
  {
    var m := if b > 0 then b else -b;
    if a >= 0 then
      MultipleOf(a, m);
      a % m
    else
      MultipleOf(-a, m);
      assert (a - -((-a) % m)) == -((-a) - (-a) % m);
      NegatedMultiple((-a) - (-a) % m, m);
      -((-a) % m)
  }

  /** What the Euclidean remainder leaves is a multiple of the divisor. */
  lemma MultipleOf(a: int, m: int)
    requires m > 0
    ensures (a - a % m) % m == 0
  {
    assert a - a % m == (a / m) * m;
    MultipleMod(a / m, m);
  }

  lemma MultipleMod(q: int, m: int)
    requires m > 0
    ensures (q * m) % m == 0
  {
    ModUnique(q * m, m, q, 0);
  }

  lemma NegatedMultiple(x: int, m: int)
    requires m > 0 && x % m == 0
    ensures (-x) % m == 0
  {
    assert x == (x / m) * m;
    assert -x == (-(x / m)) * m;
    MultipleMod(-(x / m), m);
  }

  lemma MulAtLeast(a: int, b: int)
    requires a >= 1 && b > 0
    ensures a * b >= b
  {
  }

  lemma MulDistributes(k: int, q: int, b: int)
    ensures (k - q) * b == k * b - q * b
  {
  }

  /** The Euclidean remainder is the only r in [0, b) with n == k * b + r. */
  lemma ModUnique(n: int, b: int, k: int, r: int)
    requires b > 0 && 0 <= r < b && n == k * b + r
    ensures n % b == r
  {
    var q, m := n / b, n % b;
    assert n == q * b + m;
    MulDistributes(k, q, b);
    var j := k - q;
    assert j * b == m - r;
    if j > 0 {
      MulAtLeast(j, b);
    } else if j < 0 {
      MulAtLeast(-j, b);
    }
  }

  const INT_MIN: int := -0x8000_0000
  const INT_MAX: int := 0x7fff_ffff

  predicate InInt(x: int) {
    INT_MIN <= x <= INT_MAX
  }

  /** `Math.min` on ints. */
  function Min(a: int, b: int): (r: int)
    ensures r <= a && r <= b && (r == a || r == b)
  {
    if a <= b then a else b
  }

  /** A Java `int` arithmetic result: `x` reduced to 32-bit two's complement. */
  function Wrap32(x: int): (r: int)
    ensures InInt(r)
    ensures InInt(x) ==> r == x
    ensures (r - x) % 0x1_0000_0000 == 0
  {
    (x - INT_MIN) % 0x1_0000_0000 + INT_MIN
  }

  /** Java's `(int)` cast of a floating-point value: the value truncated
      toward zero and clamped to the `int` range (NaN is not modelled). */
  function CastToInt(f: real): (r: int)
    ensures InInt(r)
    ensures f >= 0.0 ==> 0 <= r && r as real <= f
    ensures f < 0.0 ==> r <= 0 && f <= r as real
    ensures INT_MIN as real <= f < (INT_MAX + 1) as real ==> f - 1.0 < r as real < f + 1.0
    ensures f <= INT_MIN as real ==> r == INT_MIN
    ensures f >= INT_MAX as real ==> r == INT_MAX
  {
    var t := if f >= 0.0 then f.Floor else -((-f).Floor);
    if t < INT_MIN then INT_MIN else if t > INT_MAX then INT_MAX else t
  }
}
