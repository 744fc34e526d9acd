/** How close the fixed-point approximation is to e^-x, stated against every sufficiently long partial sum of
    the exponential series, and where the two documented error bounds hold. */
module ExpAccuracy {
  import opened FixedPoint
  import opened ExpNeg
  import opened Poisson
  import opened ExponentialSeries
  import opened Jets
  import opened Decay
  import opened ErrorGrowth
  import opened ErrorBounds

  function AbsReal(x: real): real { if x < 0.0 then -x else x }

  // ----- everything that rounding can change -----

  function ExactNumerator(u: real): real { PolyExact(EXP_NUM_COEF, u, NUM_DEGREE) }

  function ExactDenominator(u: real): real { PolyExact(EXP_DENO_COEF, u, DENO_DEGREE) }

  lemma {:induction false} ScaledPoly(p: seq<int>, q: seq<int>, w: int, u: real, n: nat)
    requires |p| == |q| && n < |p| && forall i :: 0 <= i < |p| ==> p[i] == q[i] * w
    ensures PolyExact(p, u, n) == Times(w as real, PolyExact(q, u, n))
  {
    hide PolyExact;
    PolyUnfolded(p, u, n);
    PolyUnfolded(q, u, n);
    assert p[n] as real == q[n] as real * w as real;
    if n > 0 { ScaledPoly(p, q, w, u, n - 1); }
  }

  lemma ExactIsScaled(u: real)
    ensures ExactNumerator(u) == Times(TWO_128 as real, Top(u))
    ensures ExactDenominator(u) == Times(TWO_128 as real, Bottom(u))
  {
    hide PolyExact, Times;
    ScaledPoly(EXP_NUM_COEF, NUM, TWO_128, u, NUM_DEGREE);
    ScaledPoly(EXP_DENO_COEF, DEN, TWO_128, u, DENO_DEGREE);
  }

  lemma IntMulReal(a: int, b: int)
    ensures (a * b) as real == a as real * b as real
  {
  }

  lemma QuotientRounding(n: int, d: int, one: int)
    requires 0 < d && 0 < one
    ensures 0.0 <= n as real - Times((n * one / d) as real / one as real, d as real) <= d as real / one as real
  {
    var q, r := n * one / d, n * one % d;
    assert n * one == q * d + r;
    IntMulReal(n, one);
    IntMulReal(q, d);
    QuotientParts(n as real, q as real, r as real, d as real, one as real);
  }

  lemma QuotientParts(n: real, q: real, r: real, d: real, one: real)
    requires one > 0.0 && n * one == q * d + r && 0.0 <= r <= d
    ensures 0.0 <= n - Times(q / one, d) <= d / one
  {
    var e := q / one;
    assert q == e * one;
    var z := n - e * d;
    assert e * d * one == q * d;
    assert r == z * one;
    CancelFactor(r, z, one);
    DivMono(0.0, r, one);
    DivMono(r, d, one);
  }

  /** Everything that rounding can change in Expneg, for x up to c. */
  lemma RoundingError(x: int, c: nat)
    requires 0 <= x <= c * ONE
    ensures 0.0 <= ExactNumerator(Units(x)) - Numerator(x) as real <= RoundingBound(c, NUM_DEGREE) as real
    ensures 0.0 <= ExactDenominator(Units(x)) - Denominator(x) as real <= RoundingBound(c, DENO_DEGREE) as real
    ensures 0.0 <= Numerator(x) as real - Times(Units(Expneg(x)), Denominator(x) as real) <= Denominator(x) as real / ONE as real
    ensures ONE <= Denominator(x)
  {
    hide PolyExact, Horner, Times, Expneg, RoundingBound;
    ExpnegUnfolded(x);
    HornerRounding(EXP_NUM_COEF, x, c, NUM_DEGREE);
    HornerRounding(EXP_DENO_COEF, x, c, DENO_DEGREE);
    DenominatorAtLeastOne(x);
    QuotientRounding(Numerator(x), Denominator(x), ONE);
  }

  // ----- rounding is far below the error of the approximation -----

  // 10^-60
  const ROUNDING: real := 0.000000000000000000000000000000000000000000000000000000000001

  lemma NumeratorSize(u: real)
    requires 0.0 <= u < 5.0
    ensures Within(Top(u), 57.0 * TWO_128 as real)
  {
    hide Times, PolyExact, PolySlope;
    PolyNear(NUM, u, 5.0 - u, 7);
    NumeratorBound();
  }

  lemma NumeratorBound()
    ensures PolyBound(NUM, 7) <= 57.0 * TWO_128 as real
  {
    assert PolyBound(NUM, 3) <= 15000.0 * 89244641121992890118377641805348864.0;
  }

  lemma WithinCancel(x: real, b: real, d: real)
    requires d > 0.0 && Within(Times(x, d), Times(b, d))
    ensures Within(x, b)
  {
    DivMono(x * d, b * d, d);
    DivMono(-b * d, x * d, d);
    CancelFactor(x * d, x, d);
    CancelFactor(b * d, b, d);
    CancelFactor(-b * d, -b, d);
  }

  lemma WidenFactor(size: real, one: real, d: real)
    requires 1.0 <= one <= d && size >= 0.0
    ensures Times(size, one) <= Times(size, d) && d / one <= d && Times(size, d) + d == Times(size + 1.0, d)
  {
    assert d <= d * one;
    DivMono(d, d * one, one);
    CancelFactor(d * one, d, one);
  }

  /** e d is close to n, so e cannot be much larger than n / d. */
  lemma QuotientSize(n: real, d: real, e: real, one: real, size: real)
    requires 1.0 <= one <= d && Within(n, Times(size, one)) && size >= 0.0 && 0.0 <= n - Times(e, d) <= d / one
    ensures Within(e, size + 1.0)
  {
    hide Times;
    WidenFactor(size, one, d);
    WithinCancel(e, size + 1.0, d);
  }

  /** nn / dd is exact, n and d have their Horner steps rounded, and e is their rounded quotient. */
  lemma CombineRounding(n: real, d: real, nn: real, dd: real, e: real, one: real, a: real, b: real, size: real)
    requires 1.0 <= one <= d && 0.0 <= nn - n <= a && 0.0 <= dd - d <= b && 0.0 <= n - Times(e, d) <= d / one
    requires Within(e, size)
    ensures Within(e - nn / dd, (Times(size, b) + a + 1.0) / one)
  {
    hide Times;
    WithinProduct(e, size, dd - d, b);
    DivMono(d, dd, one);
    DivMono(0.0, d, one);
    Spread(Times(size, b) + a, dd, one);
    ExactDifference(n, d, nn, dd, e);
    WithinCancel(e - nn / dd, (Times(size, b) + a + 1.0) / one, dd);
  }

  lemma ExactDifference(n: real, d: real, nn: real, dd: real, e: real)
    requires 0.0 < dd
    ensures Times(e - nn / dd, dd) == Times(e, dd - d) - (n - Times(e, d)) - (nn - n)
  {
    var y := nn / dd;
    assert y * dd == nn;
    assert (e - y) * dd == e * dd - y * dd;
  }

  lemma Spread(x: real, d: real, one: real)
    requires 1.0 <= one <= d && x >= 0.0
    ensures Times((x + 1.0) / one, d) >= x + d / one
  {
    var q, r := x / one, 1.0 / one;
    assert q * one == x && r * one == 1.0;
    assert (x + 1.0) / one == q + r by { AddQuotient(x + 1.0, q, 1.0, one); }
    assert d / one == r * d by { CancelFactor(d, r * d, one); }
    assert q >= 0.0 by { DivMono(0.0, x, one); }
    assert q * d >= q * one;
  }

  lemma RoundingBounds()
    ensures RoundingBound(5, NUM_DEGREE) == 19531 && RoundingBound(5, DENO_DEGREE) == 305175781
  {
  }

  lemma SmallBound()
    ensures (Times(59.0, 305175781.0) + 19531.0 + 1.0) / ONE as real <= ROUNDING
  {
  }

  /** Below 5 the fixed-point result is the exact rational function, up to 10^-60. */
  lemma ExpnegIsQuotient(x: int)
    requires 0 <= x < 5 * ONE
    ensures 0.0 <= Units(x) < 5.0 && Bottom(Units(x)) >= 1.0
    ensures Within(Units(Expneg(x)) - Top(Units(x)) / Bottom(Units(x)), ROUNDING)
  {
    hide Times, PolyExact, Horner, Expneg, RoundingBound, ROUNDING;
    var u, one := Units(x), ONE as real;
    BelowFive(x);
    RoundingError(x, 5);
    RoundingBounds();
    ExactIsScaled(u);
    BottomPositive(u);
    NumeratorSize(u);
    ScaledSize(Top(u), TWO_128 as real, one);
    QuotientSize(Numerator(x) as real, Denominator(x) as real, Units(Expneg(x)), one, 58.0);
    CombineRounding(Numerator(x) as real, Denominator(x) as real, ExactNumerator(u), ExactDenominator(u), Units(Expneg(x)),
                    one, 19531.0, 305175781.0, 59.0);
    SmallBound();
    ScaleCancels(Top(u), Bottom(u), TWO_128 as real);
  }

  lemma BelowFive(x: int)
    requires 0 <= x < 5 * ONE
    ensures 0.0 <= Units(x) < 5.0
  {
  }

  lemma ScaledSize(t: real, w: real, one: real)
    requires w > 0.0 && w * w == one && one >= 19531.0 && Within(t, 57.0 * w)
    ensures Within(Times(w, t), 57.0 * one) && Times(58.0, one) >= 57.0 * one + 19531.0
  {
    WithinProduct(w, w, t, 57.0 * w);
    assert w * (57.0 * w) == 57.0 * one;
  }

  lemma ScaleCancels(a: real, b: real, w: real)
    requires w >= 1.0 && b >= 1.0
    ensures Times(w, b) >= 1.0 && Times(w, a) / Times(w, b) == a / b
  {
    var y := a / b;
    assert w * b >= b;
    assert a == y * b;
    assert w * a == y * (w * b);
    CancelFactor(w * a, y, w * b);
  }

  // ----- partial sums of the series -----

  // 10^-12
  const SMALL: real := 0.000000000001

  /** All partial sums from order k on are within the next term of the one of order k. */
  lemma SeriesSettled(u: real, k: nat, m: nat, bound: real)
    requires 0.0 <= u <= (k + 2) as real && k <= m && 0.0 <= Magnitude(u, k + 1) <= bound
    ensures Within(ExpSeries(u, m) - ExpSeries(u, k), bound)
  {
    hide Magnitude, ExpSeries, SeriesTail;
    if m > k {
      SeriesSplit(u, k + 1, m);
      SeriesTailRange(u, k + 1, m);
      MulBounds(Magnitude(u, k + 1), SeriesTail(u, k + 1, m), bound, 1.0);
      TimesSigns(Magnitude(u, k + 1), SeriesTail(u, k + 1, m));
    }
  }

  lemma {:induction false} PowAtMost(u: real, b: real, n: nat)
    requires 0.0 <= u <= b
    ensures 0.0 <= Pow(u, n) <= Pow(b, n)
  {
    if n > 0 {
      PowAtMost(u, b, n - 1);
      MulBounds(u, Pow(u, n - 1), b, Pow(b, n - 1));
    }
  }

  lemma Factorials()
    ensures Factorial(25) == 15511210043330985984000000
    ensures Factorial(41) == 33452526613163807108170062053440751665152000000000
  {
    assert Factorial(12) == 479001600;
    assert Factorial(22) == 1124000727777607680000;
    assert Factorial(32) == 263130836933693530167218012160000000;
  }

  lemma Powers()
    ensures Pow(2.0, 25) == 33554432.0 && Pow(2.0, 41) == 2199023255552.0 && Pow(5.0, 41) == 45474735088646411895751953125.0
  {
    assert Pow(2.0, 12) == 4096.0 && Pow(5.0, 12) == 244140625.0;
    assert Pow(2.0, 22) == 4194304.0 && Pow(5.0, 22) == 2384185791015625.0;
    assert Pow(2.0, 32) == 4294967296.0 && Pow(5.0, 32) == 23283064365386962890625.0;
  }

  lemma MagnitudeAtMost(u: real, i: nat, p: real, f: int, bound: real)
    requires 0.0 <= Pow(u, i) <= p && Factorial(i) == f > 0 && p <= bound * f as real
    ensures 0.0 <= Magnitude(u, i) <= bound
  {
    DivMono(0.0, Pow(u, i), f as real);
    DivMono(Pow(u, i), bound * f as real, f as real);
    CancelFactor(bound * f as real, bound, f as real);
  }

  lemma SmallTerms(u: real)
    requires 0.0 <= u <= 5.0
    ensures 0.0 <= Magnitude(u, 41) <= 0.000000002 * SMALL
    ensures u <= 2.0 ==> Magnitude(u, 41) <= 0.00000007 * TINY && 0.0 <= Magnitude(u, 25) <= 0.00001 * SMALL
  {
    hide Magnitude, Factorial, Pow;
    Factorials();
    Powers();
    PowAtMost(u, 5.0, 41);
    MagnitudeAtMost(u, 41, 45474735088646411895751953125.0, 33452526613163807108170062053440751665152000000000, 0.000000002 * SMALL);
    if u <= 2.0 {
      PowAtMost(u, 2.0, 25);
      PowAtMost(u, 2.0, 41);
      MagnitudeAtMost(u, 25, 33554432.0, 15511210043330985984000000, 0.00001 * SMALL);
      MagnitudeAtMost(u, 41, 2199023255552.0, 33452526613163807108170062053440751665152000000000, 0.00000007 * TINY);
    }
  }

  // ----- the documented bounds -----

  /** The error of Expneg against a long partial sum is the error of the exact quotient, up to far less. */
  lemma ExpnegError(x: int, m: nat)
    requires 0 <= x < 5 * ONE && ORDER <= m
    ensures 0.0 <= Units(x) < 5.0
    ensures Within(ExpSeries(Units(x), m) - Units(Expneg(x)) - Error(Units(x)), 0.000000003 * SMALL)
    ensures Units(x) <= 2.0 ==> Within(ExpSeries(Units(x), m) - Units(Expneg(x)) - Error(Units(x)), 0.00000008 * TINY)
  {
    hide Magnitude, ExpSeries, Top, Bottom, Expneg, Units;
    var u := Units(x);
    ExpnegIsQuotient(x);
    SmallTerms(u);
    SeriesSettled(u, ORDER, m, 0.000000002 * SMALL);
    if u <= 2.0 { SeriesSettled(u, ORDER, m, 0.00000007 * TINY); }
  }

  // The two errors the approximation is documented with: 3.4e-30 below 1.725 and 4.6e-15 below 5.
  const FIRST_BOUND: real := 3.4 * TINY

  const SECOND_BOUND: real := 0.0046 * SMALL

  function ExpnegMiss(x: int, m: nat): real
    requires 0 <= x
  {
    AbsReal(Units(Expneg(x)) - ExpSeries(Units(x), m))
  }

  lemma UnitsOrder(x: int, n: int)
    ensures 10000 * x <= n * ONE ==> Units(x) <= n as real / 10000.0
    ensures n * ONE <= 10000 * x ==> n as real / 10000.0 <= Units(x)
  {
  }

  /** Below 1.725, the first documented bound holds up to 0.8694 and again from 1.5544 on; between 0.8695 and 1.5542 it fails. */
  lemma FirstBound(x: int, m: nat)
    requires 0 <= x && 10000 * x <= 17250 * ONE && ORDER <= m
    ensures 10000 * x <= 8694 * ONE || 15544 * ONE <= 10000 * x ==> ExpnegMiss(x, m) < FIRST_BOUND
    ensures 8695 * ONE <= 10000 * x <= 15542 * ONE ==> ExpnegMiss(x, m) > FIRST_BOUND
  {
    hide Error, ExpSeries, Expneg, Units;
    var u := Units(x);
    ExpnegError(x, m);
    UnitsOrder(x, 17250);
    UnitsOrder(x, 8694);
    UnitsOrder(x, 8695);
    UnitsOrder(x, 15542);
    UnitsOrder(x, 15544);
    ErrorNotNegative(u);
    if u <= 0.8694 || 1.5544 <= u {
      FirstBoundHolds(u);
    }
    if 0.8695 <= u <= 1.5542 {
      FirstBoundFails(u);
    }
  }

  /** Below 5, the second documented bound holds up to 4.9838; from 4.9839 on it fails. */
  lemma SecondBound(x: int, m: nat)
    requires 0 <= x < 5 * ONE && ORDER <= m
    ensures 10000 * x <= 49838 * ONE ==> ExpnegMiss(x, m) < SECOND_BOUND
    ensures 49839 * ONE <= 10000 * x ==> ExpnegMiss(x, m) > SECOND_BOUND
  {
    hide Error, ExpSeries, Expneg, Units;
    var u := Units(x);
    ExpnegError(x, m);
    UnitsOrder(x, 49838);
    UnitsOrder(x, 49839);
    ErrorNotNegative(u);
    if u <= 4.9838 {
      SecondBoundHolds(u);
    }
    if 4.9839 <= u {
      SecondBoundFails(u);
    }
  }

  // ----- the rates of the election -----

  /** 1.25e-26 against sums of order 40 and up, the documented 4.6e-15 already from order 24 on. */
  function Accuracy(m: nat): real {
    if ORDER <= m then 12500.0 * TINY else SECOND_BOUND
  }

  lemma UnitsRange(x: int)
    requires 0 <= x <= 2 * ONE
    ensures 0.0 <= Units(x) <= 2.0
  {
  }

  /** Over the whole range of rates the election uses. */
  lemma ExpnegAccuracy(x: int, m: nat)
    requires 0 <= x <= 2 * ONE && 24 <= m
    ensures ExpnegMiss(x, m) <= Accuracy(m)
  {
    hide Error, ExpSeries, Expneg, Units, Magnitude;
    var u := Units(x);
    UnitsRange(x);
    ErrorNotNegative(u);
    ErrorToTwo(u);
    if ORDER <= m {
      ExpnegError(x, m);
    } else {
      ExpnegError(x, ORDER);
      SmallTerms(u);
      SeriesSettled(u, 24, m, 0.00001 * SMALL);
      SeriesSettled(u, 24, ORDER, 0.00001 * SMALL);
    }
  }
}
