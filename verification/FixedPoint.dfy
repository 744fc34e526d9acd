/** Q.256 fixed-point evaluation of polynomials, as used to approximate e^-x in the leader election. */
module FixedPoint {

  // 1.0 in Q.256 format, and the factor that turns the integer parameters into Q.256 coefficients.
  const ONE: int := 0x1_00000000_00000000_00000000_00000000_00000000_00000000_00000000_00000000
  const PRECISION: nat := 256
  const TWO_128: int := 0x1_00000000_00000000_00000000_00000000

  /** Arithmetic right shift by 256 bits: it rounds towards minus infinity. */
  function Rsh256(a: int): int {
    a / ONE
  }

  /** Horner evaluation of p[0], .., p[n], ordered from the highest order coefficient to the lowest. */
  function Horner(p: seq<int>, x: int, n: nat): int
    requires n < |p|
    decreases p, x, n, 1
  {
    if n == 0 then p[0] else HornerStep(p, x, n)
  }

  function HornerStep(p: seq<int>, x: int, n: nat): int
    requires 0 < n < |p|
    decreases p, x, n, 0
  {
    Rsh256(Horner(p, x, n - 1) * x) + p[n]
  }

  method Polyval(p: seq<int>, x: int) returns (res: int)
    requires p != []
    ensures res == Horner(p, x, |p| - 1)
  {
    res := p[0];
    var i := 1;
    while i < |p|
      invariant 1 <= i <= |p|
      invariant res == Horner(p, x, i - 1)
    {
      var tmp := res * x;
      res := Rsh256(tmp);
      res := res + p[i];
      i := i + 1;
    }
  }

  // ----- multiplication and division by a positive number -----

  lemma MulMono(a: int, b: int, c: int)
    requires a <= b && 0 <= c
    ensures a * c <= b * c
  {
  }

  lemma DivAtMost(a: int, d: int, b: int)
    requires 0 < d && a < (b + 1) * d
    ensures a / d <= b
  {
    var q, r := a / d, a % d;
    assert a == q * d + r;
    assert (b + 1 - q) * d == (b + 1) * d - q * d;
    assert (b + 1 - q) * d > 0;
  }

  lemma DivAtLeast(a: int, d: int, b: int)
    requires 0 < d && b * d <= a
    ensures b <= a / d
  {
    var q, r := a / d, a % d;
    assert a == q * d + r;
    assert (q + 1 - b) * d == q * d + d - b * d;
    assert (q + 1 - b) * d > 0;
  }

  // ----- shifting left, then dividing -----

  /** a, shifted left by the given number of bits, divided by d. */
  function LshDiv(bits: nat, a: int, d: int): int
    requires d > 0
  {
    if bits == 0 then a / d else LshDiv(bits - 1, 2 * a, d)
  }

  function Pow2(n: nat): nat {
    if n == 0 then 1 else 2 * Pow2(n - 1)
  }

  lemma {:induction false} LshDivPow2(a: int, d: int, bits: nat)
    requires d > 0
    ensures LshDiv(bits, a, d) == a * Pow2(bits) / d
    decreases bits
  {
    if bits > 0 {
      LshDivPow2(2 * a, d, bits - 1);
      assert 2 * a * Pow2(bits - 1) == a * Pow2(bits);
    }
  }

  lemma {:induction false} Pow2Sum(m: nat, n: nat)
    ensures Pow2(m + n) == Pow2(m) * Pow2(n)
    decreases n
  {
    if n > 0 { Pow2Sum(m, n - 1); }
  }

  lemma Pow2Of16()
    ensures Pow2(16) == 0x1_0000
  {
    assert Pow2(4) == 16;
    Pow2Sum(4, 4);
    Pow2Sum(8, 8);
  }

  lemma Pow2Of256()
    ensures Pow2(256) == ONE
  {
    hide Pow2;
    Pow2Of16();
    Pow2Sum(16, 16);
    Pow2Sum(32, 32);
    Pow2Sum(64, 64);
    Pow2Sum(128, 128);
  }

  lemma LshDiv256(a: int, d: int)
    requires d > 0
    ensures LshDiv(PRECISION, a, d) == a * ONE / d
  {
    hide LshDiv, Pow2;
    LshDivPow2(a, d, PRECISION);
    Pow2Of256();
  }

  lemma CancelFactor(a: real, b: real, c: real)
    requires c > 0.0 && a == b * c
    ensures a / c == b
  {
  }

  lemma DivMono(a: real, b: real, c: real)
    requires c > 0.0 && a <= b
    ensures a / c <= b / c
  {
  }

  lemma MulBounds(a: real, b: real, ua: real, ub: real)
    requires 0.0 <= a <= ua && 0.0 <= b <= ub
    ensures 0.0 <= a * b <= ua * ub
  {
    assert a * b <= ua * b;
    assert ua * b <= ua * ub;
  }

  lemma AddQuotient(e: real, q: real, g: real, n: real)
    requires n > 0.0 && e == q * n + g
    ensures e / n == q + g / n
  {
  }

  /** Floor division by d against division of the exact value e, when v undershoots e by at most `bound`. */
  lemma DivideDown(v: int, d: int, e: real, bound: real)
    requires d > 0 && 0.0 <= e - v as real <= bound
    ensures 0.0 <= e / d as real - (v / d) as real <= (bound + (d - 1) as real) / d as real
  {
    var q, r := v / d, v % d;
    assert v == q * d + r && 0 <= r <= d - 1;
    var n := d as real;
    assert (q * d) as real == q as real * n;
    var g := e - v as real + r as real;
    AddQuotient(e, q as real, g, n);
    DivMono(0.0, g, n);
    DivMono(g, bound + (d - 1) as real, n);
  }

  // ----- the exact polynomial, as a sum of powers -----

  function Pow(x: real, n: nat): real {
    if n == 0 then 1.0 else x * Pow(x, n - 1)
  }

  /** p[0] * x^n + .. + p[k] * x^(n - k) */
  function PowerSum(p: seq<int>, x: real, n: nat, k: nat): real
    requires k <= n && k < |p|
  {
    p[k] as real * Pow(x, n - k) + if k == 0 then 0.0 else PowerSum(p, x, n, k - 1)
  }

  /** The polynomial with coefficients p[0], .., p[n]. */
  function PolyExact(p: seq<int>, x: real, n: nat): real
    requires n < |p|
  {
    PowerSum(p, x, n, n)
  }

  lemma {:induction false} PowerSumShift(p: seq<int>, x: real, n: nat, k: nat)
    requires k <= n && k < |p|
    ensures PowerSum(p, x, n + 1, k) == PowerSum(p, x, n, k) * x
  {
    ShiftTerm(p[k] as real, x, n - k);
    if k > 0 {
      PowerSumShift(p, x, n, k - 1);
    }
  }

  lemma ShiftTerm(c: real, x: real, n: nat)
    ensures c * Pow(x, n + 1) == c * Pow(x, n) * x
  {
  }

  lemma PolyExactStep(p: seq<int>, x: real, n: nat)
    requires 0 < n < |p|
    ensures PolyExact(p, x, n) == PolyExact(p, x, n - 1) * x + p[n] as real
  {
    assert Pow(x, 0) == 1.0;
    PowerSumShift(p, x, n - 1, n - 1);
  }

  function Units(x: int): real {
    x as real / ONE as real
  }

  lemma RshReal(a: int)
    ensures 0.0 <= Units(a) - Rsh256(a) as real <= 1.0
  {
  }

  lemma UnitsScale(h: int, x: int)
    ensures Units(h * x) == h as real * Units(x)
  {
    assert (h * x) as real == h as real * x as real;
  }

  lemma RoundingStep(h: int, x: int, c: nat, e: real, bound: real)
    requires 0 <= x <= c * ONE
    requires 0.0 <= e - h as real <= bound
    ensures 0.0 <= e * Units(x) - Rsh256(h * x) as real <= c as real * bound + 1.0
  {
    RshReal(h * x);
    UnitsScale(h, x);
    UnitsAtMost(x, c);
    var d, u := e - h as real, Units(x);
    assert e * u == h as real * u + d * u;
    MulBounds(d, u, bound, c as real);
  }

  lemma UnitsAtMost(x: int, c: nat)
    requires 0 <= x <= c * ONE
    ensures 0.0 <= Units(x) <= c as real
  {
  }

  /** 1 + c + .. + c^(n - 1) */
  function RoundingBound(c: nat, n: nat): nat {
    if n == 0 then 0 else c * RoundingBound(c, n - 1) + 1
  }

  /** Every floor rounds down and multiplies the earlier error by at most c, plus one unit. */
  lemma {:induction false} HornerRounding(p: seq<int>, x: int, c: nat, n: nat)
    requires n < |p| && 0 <= x <= c * ONE
    ensures 0.0 <= PolyExact(p, Units(x), n) - Horner(p, x, n) as real <= RoundingBound(c, n) as real
  {
    hide Units, Rsh256;
    if n == 0 {
      assert Pow(Units(x), 0) == 1.0;
    } else {
      HornerRounding(p, x, c, n - 1);
      hide PolyExact;
      RoundingStep(Horner(p, x, n - 1), x, c, PolyExact(p, Units(x), n - 1), RoundingBound(c, n - 1) as real);
      PolyExactStep(p, Units(x), n);
      assert Horner(p, x, n) as real == Rsh256(Horner(p, x, n - 1) * x) as real + p[n] as real;
    }
  }

  // ----- interval evaluation over 0 <= x <= 2 -----

  datatype Range = Range(lo: int, hi: int) {
    predicate Contains(v: int) { lo <= v <= hi }
  }

  function StepRange(r: Range, c: int): Range {
    Range((if r.lo < 0 then 2 * r.lo else 0) + c, (if r.hi > 0 then 2 * r.hi else 0) + c)
  }

  function HornerRange(p: seq<int>, n: nat): Range
    requires n < |p|
  {
    if n == 0 then Range(p[0], p[0]) else StepRange(HornerRange(p, n - 1), p[n])
  }

  lemma ShiftedProductRange(h: int, x: int, r: Range)
    requires r.Contains(h) && 0 <= x <= 2 * ONE
    ensures StepRange(r, 0).Contains(Rsh256(h * x))
  {
    if h >= 0 {
      assert 0 <= h * x <= h * (2 * ONE);
      DivAtLeast(h * x, ONE, 0);
      DivAtMost(h * x, ONE, 2 * h);
    } else {
      assert h * (2 * ONE) <= h * x <= 0;
      DivAtLeast(h * x, ONE, 2 * h);
      DivAtMost(h * x, ONE, 0);
    }
  }

  lemma {:induction false} HornerInRange(p: seq<int>, x: int, n: nat)
    requires n < |p| && 0 <= x <= 2 * ONE
    ensures HornerRange(p, n).Contains(Horner(p, x, n))
  {
    if n > 0 {
      HornerInRange(p, x, n - 1);
      ShiftedProductRange(Horner(p, x, n - 1), x, HornerRange(p, n - 1));
    }
  }

  /** Without negative coefficients the value is at least the constant term, for every x >= 0. */
  lemma {:induction false} HornerAtLeastConstant(p: seq<int>, x: int, n: nat)
    requires n < |p| && 0 <= x
    requires forall i :: 0 <= i < |p| ==> 0 <= p[i]
    ensures Horner(p, x, n) >= p[n]
  {
    if n > 0 {
      HornerAtLeastConstant(p, x, n - 1);
      assert 0 <= Horner(p, x, n - 1) * x;
      DivAtLeast(Horner(p, x, n - 1) * x, ONE, 0);
    }
  }

  lemma {:induction false} HornerAtZero(p: seq<int>, n: nat)
    requires n < |p|
    ensures Horner(p, 0, n) == p[n]
  {
    if n > 0 {
      HornerAtZero(p, n - 1);
      assert Horner(p, 0, n - 1) * 0 == 0;
    }
  }
}
