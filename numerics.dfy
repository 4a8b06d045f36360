/** Numeric building blocks shared by the figure model: IEEE infinities as an
    extended real, C++ truncating conversions and division, and the exact
    decade exponent that `floor(log10(x))` computes. */
module Numerics {

  /** A double restricted to the finite values and the two infinities
      (NaN is not modelled). */
  datatype ExtReal = NegInf | Fin(r: real) | PosInf

  /** The order of doubles on the extended reals. */
  predicate Le(a: ExtReal, b: ExtReal) {
    match (a, b)
    case (NegInf, _) => true
    case (_, PosInf) => true
    case (Fin(x), Fin(y)) => x <= y
    case _ => false
  }

  predicate Lt(a: ExtReal, b: ExtReal) {
    Le(a, b) && a != b
  }

  lemma LeTransitive(a: ExtReal, b: ExtReal, c: ExtReal)
    requires Le(a, b) && Le(b, c)
    ensures Le(a, c)
  {
  }

  /** `std::min(a, b)`, which is `(b < a) ? b : a`. */
  function Min(a: ExtReal, b: ExtReal): (m: ExtReal)
    ensures Le(m, a) && Le(m, b)
    ensures m == a || m == b
  {
    if Lt(b, a) then b else a
  }

  /** `std::max(a, b)`, which is `(a < b) ? b : a`. */
  function Max(a: ExtReal, b: ExtReal): (m: ExtReal)
    ensures Le(a, m) && Le(b, m)
    ensures m == a || m == b
  {
    if Lt(a, b) then b else a
  }

  /** `std::max` on doubles, `(a < b) ? b : a`. */
  function MaxReal(a: real, b: real): (m: real)
    ensures a <= m && b <= m && (m == a || m == b)
  {
    if a < b then b else a
  }

  /** `std::max` on ints. */
  function MaxInt(a: int, b: int): (m: int)
    ensures a <= m && b <= m && (m == a || m == b)
  {
    if a < b then b else a
  }

  function Abs(x: real): (a: real)
    ensures a >= 0.0 && (a == x || a == -x)
  {
    if x < 0.0 then -x else x
  }

  /** `static_cast<int>(v)` of a double: truncation toward zero
      (out-of-range conversions are not modelled). */
  function Trunc(v: real): (n: int)
    ensures 0.0 <= v ==> n as real <= v < n as real + 1.0
    ensures v < 0.0 ==> n as real - 1.0 < v <= n as real
  {
    if v >= 0.0 then v.Floor else -((-v).Floor)
  }

  lemma TruncMonotone(a: real, b: real)
    requires a <= b
    ensures Trunc(a) <= Trunc(b)
  {
  }

  lemma TruncOfInt(n: int)
    ensures Trunc(n as real) == n
  {
  }

  /** C++ `a / d` on ints for a positive divisor: the quotient truncated
      toward zero (Dafny's own `/` rounds toward minus infinity). */
  function CDiv(a: int, d: int): (q: int)
    requires d > 0
    ensures a >= 0 ==> q * d <= a < q * d + d
    ensures a < 0 ==> q * d - d < a <= q * d
  {
    if a >= 0 then a / d else -((-a) / d)
  }

  lemma {:induction false} CDivOdd(a: int, d: int)
    requires d > 0
    ensures CDiv(-a, d) == -CDiv(a, d)
  {
    if a > 0 {
      assert CDiv(-a, d) == -((a) / d);
    } else if a < 0 {
      assert CDiv(a, d) == -((-a) / d);
    }
  }

  lemma MulLeMono(a: real, b: real, c: real)
    requires a <= b && c >= 0.0
    ensures a * c <= b * c
  {
    assert b * c - a * c == (b - a) * c;
  }

  lemma MulLtMono(a: real, b: real, c: real)
    requires a < b && c > 0.0
    ensures a * c < b * c
  {
    assert b * c - a * c == (b - a) * c;
  }

  lemma CancelRight(a: real, b: real, c: real)
    requires c > 0.0 && a * c == b * c
    ensures a == b
  {
    if a < b { MulLtMono(a, b, c); }
    if b < a { MulLtMono(b, a, c); }
  }

  lemma DivLeMono(x: real, y: real, c: real)
    requires x <= y && c > 0.0
    ensures x / c <= y / c
  {
    assert y / c - x / c == (y - x) / c;
  }

  lemma DivSelf(d: real)
    requires d != 0.0
    ensures d / d == 1.0
  {
  }

  /** Dividing a real of the decade [p, 10p) by p gives a mantissa in [1, 10). */
  lemma DivideInDecade(x: real, p: real)
    requires p > 0.0 && p <= x < 10.0 * p
    ensures 1.0 <= x / p < 10.0 && x / p * p == x
  {
    var f := x / p;
    assert f * p == x;
    if f < 1.0 { MulLtMono(f, 1.0, p); }
    if f >= 10.0 { MulLeMono(10.0, f, p); }
  }

  /** The smallest integer not below `x` (`std::ceil`). */
  function Ceil(x: real): (c: int)
    ensures x <= c as real < x + 1.0
  {
    -((-x).Floor)
  }

  /** `std::pow(10.0, e)` for an integral exponent. */
  function Pow10(e: int): (p: real)
    ensures p > 0.0
    decreases if e < 0 then -e else e
  {
    if e == 0 then 1.0
    else if e > 0 then 10.0 * Pow10(e - 1)
    else Pow10(e + 1) / 10.0
  }

  lemma Pow10Step(e: int)
    ensures Pow10(e + 1) == 10.0 * Pow10(e)
  {
    if e < 0 {
      assert Pow10(e) == Pow10(e + 1) / 10.0;
    }
  }

  lemma {:induction false} Pow10StrictlyIncreasing(a: int, b: int)
    requires a < b
    ensures Pow10(a) < Pow10(b)
    decreases b - a
  {
    Pow10Step(a);
    if a + 1 < b {
      Pow10StrictlyIncreasing(a + 1, b);
    }
  }

  /** A positive real written as `mantissa * 10^exponent`. */
  datatype Scientific = Scientific(exponent: int, mantissa: real)

  /** The decade split of `x >= 1`, by repeated division by ten. */
  function SplitUp(x: real): (s: Scientific)
    requires x >= 1.0
    ensures s.exponent >= 0 && 1.0 <= s.mantissa < 10.0
    ensures s.mantissa * Pow10(s.exponent) == x
    decreases x.Floor
  {
    if x < 10.0 then Scientific(0, x)
    else
      var s := SplitUp(x / 10.0);
      Pow10Step(s.exponent);
      assert s.mantissa * (10.0 * Pow10(s.exponent)) == 10.0 * (s.mantissa * Pow10(s.exponent));
      Scientific(s.exponent + 1, s.mantissa)
  }

  /** The decade split of `0 < x < 1`, by repeated multiplication by ten. */
  function SplitDown(x: real): (s: Scientific)
    requires 0.0 < x < 1.0
    ensures s.exponent < 0 && 1.0 <= s.mantissa < 10.0
    ensures s.mantissa * Pow10(s.exponent) == x
    decreases (1.0 / x).Floor
  {
    var y := x * 10.0;
    if y >= 1.0 then
      assert Pow10(-1) == 0.1;
      Scientific(-1, y)
    else
      assert 1.0 / y == (1.0 / x) / 10.0;
      var s := SplitDown(y);
      assert Pow10(s.exponent - 1) == Pow10(s.exponent) / 10.0;
      assert s.mantissa * (Pow10(s.exponent) / 10.0) == (s.mantissa * Pow10(s.exponent)) / 10.0;
      Scientific(s.exponent - 1, s.mantissa)
  }

  /** `floor(log10(x))` and `x / pow(10, floor(log10(x)))` of a positive real. */
  function Split(x: real): (s: Scientific)
    requires x > 0.0
    ensures 1.0 <= s.mantissa < 10.0
    ensures s.mantissa * Pow10(s.exponent) == x
  {
    if x >= 1.0 then SplitUp(x) else SplitDown(x)
  }

  lemma ScientificBounds(m: real, p: real, x: real)
    requires 1.0 <= m < 10.0 && p > 0.0 && m * p == x
    ensures p <= x < 10.0 * p
  {
    MulLeMono(1.0, m, p);
    assert p <= m * p;
    MulLtMono(m, 10.0, p);
    assert m * p < 10.0 * p;
  }

  /** The decade exponent `floor(log10(x))` of a positive real: the unique
      `e` with `10^e <= x < 10^(e+1)`. */
  function Decade(x: real): (e: int)
    requires x > 0.0
    ensures Pow10(e) <= x < Pow10(e + 1)
  {
    var s := Split(x);
    ScientificBounds(s.mantissa, Pow10(s.exponent), x);
    Pow10Step(s.exponent);
    s.exponent
  }

  lemma DecadeUnique(x: real, e: int)
    requires Pow10(e) <= x < Pow10(e + 1)
    ensures Decade(x) == e
  {
    var d := Decade(x);
    if d < e {
      if d + 1 < e {
        Pow10StrictlyIncreasing(d + 1, e);
      }
      assert false;
    } else if d > e {
      if e + 1 < d {
        Pow10StrictlyIncreasing(e + 1, d);
      }
      assert false;
    }
  }
}
