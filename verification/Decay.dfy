/** How the error of the rational approximation of e^-u can change with u. */
module Decay {
  import opened FixedPoint
  import opened ExpNeg
  import opened Poisson
  import opened ExponentialSeries
  import opened Jets

  /** Partial sums of this order stand for e^-u. */
  const ORDER: nat := 40

  function Top(u: real): real { PolyExact(NUM, u, 7) }

  function Bottom(u: real): real { PolyExact(DEN, u, 13) }

  function TopSlope(u: real): real { PolySlope(NUM, u, 7) }

  function BottomSlope(u: real): real { PolySlope(DEN, u, 13) }

  lemma {:induction false} PolyAtLeastConstant(p: seq<int>, u: real, n: nat)
    requires n < |p| && 0.0 <= u && forall i :: 0 <= i < |p| ==> 0 <= p[i]
    ensures PolyExact(p, u, n) >= p[n] as real
  {
    hide PolyExact;
    PolyUnfolded(p, u, n);
    if n > 0 {
      PolyAtLeastConstant(p, u, n - 1);
      assert PolyExact(p, u, n - 1) * u >= 0.0;
    }
  }

  lemma BottomPositive(u: real)
    requires 0.0 <= u
    ensures Bottom(u) >= 1.0
  {
    PolyAtLeastConstant(DEN, u, 13);
  }

  /** e^-u minus the rational approximation. */
  function Error(u: real): real
    requires 0.0 <= u
  {
    BottomPositive(u);
    ExpSeries(u, ORDER) - Top(u) / Bottom(u)
  }

  /** The slope of e^u * Top(u) / Bottom(u), up to positive factors. */
  function Trend(u: real): real {
    Times(Top(u) + TopSlope(u), Bottom(u)) - Times(Top(u), BottomSlope(u))
  }

  /** The error grows by at least k - Error(u) per unit at u. */
  ghost predicate Grows(k: real, u: real) {
    Trend(u) <= -Times(k, Times(Bottom(u), Bottom(u)))
  }

  ghost predicate GrowsOn(k: real, a: real, b: real) {
    forall u :: a <= u <= b ==> Grows(k, u)
  }

  // ----- one small step -----

  /** A quotient a / b whose numerator and denominator move almost linearly. */
  lemma QuotientStep(a: Jet, b: Jet, k: real, d: real, bound: real)
    requires Near(a, d, bound) && Near(b, d, bound) && b.at >= 1.0 && b.after >= 1.0 && 0.0 < d && Within(k, 1.0)
    requires Times(a.at + a.slope, b.at) - Times(a.at, b.slope) <= -Times(k, Times(b.at, b.at))
    ensures a.after / b.after <= a.at / b.at - Times(d, k + a.at / b.at) + Times(QuotientBound(bound), Times(d, d))
  {
    hide Near, QuotientBound, Times;
    var x := a.at / b.at;
    NearMeans(a, d, bound);
    QuotientWithin(a.at, b.at, bound);
    SlopeBound(a, b, k, x);
    NumeratorAfter(a, b, k, x, d, bound);
    BoundPositive(bound, d);
    DivideBy(a.after, b.after, x - Times(d, k + x), Times(QuotientBound(bound), Times(d, d)));
  }

  lemma NearMeans(j: Jet, d: real, b: real)
    requires Near(j, d, b)
    ensures Within(j.at, b) && b >= 0.0
  {
  }

  lemma BoundPositive(b: real, d: real)
    requires b >= 0.0
    ensures QuotientBound(b) >= 0.0 && Times(QuotientBound(b), Times(d, d)) >= 0.0
  {
    assert b * b >= 0.0 && d * d >= 0.0;
  }

  function QuotientBound(b: real): real { b + 2.0 * Times(b, b) + b }

  lemma QuotientWithin(a: real, b: real, bound: real)
    requires b >= 1.0 && Within(a, bound)
    ensures Within(a / b, bound) && a == (a / b) * b
  {
    assert bound <= bound * b;
    DivMono(a, bound * b, b);
    DivMono(-(bound * b), a, b);
    CancelFactor(bound * b, bound, b);
    CancelFactor(-(bound * b), -bound, b);
  }

  lemma SlopeBound(a: Jet, b: Jet, k: real, x: real)
    requires b.at >= 1.0 && a.at == x * b.at
    requires Times(a.at + a.slope, b.at) - Times(a.at, b.slope) <= -Times(k, Times(b.at, b.at))
    ensures a.slope <= Times(x, b.slope) - Times(x + k, b.at)
  {
    var z := x * b.slope - (x + k) * b.at - a.slope;
    assert z * b.at >= 0.0;
  }

  lemma NumeratorAfter(a: Jet, b: Jet, k: real, x: real, d: real, bound: real)
    requires Near(a, d, bound) && Near(b, d, bound) && 0.0 < d && Within(k, 1.0) && Within(x, bound) && a.at == x * b.at
    requires a.slope <= Times(x, b.slope) - Times(x + k, b.at)
    ensures a.after <= Times(x - Times(d, k + x), b.after) + Times(QuotientBound(bound), Times(d, d))
  {
    hide Times;
    var eb, db := b.after - b.at - Times(d, b.slope), b.after - b.at;
    WithinProduct(x, bound, eb, Times(bound, Times(d, d)));
    WithinProduct(Times(d, k + x), Times(d, 1.0 + bound), db, Times(bound, d)) by { WithinProduct(d, d, k + x, 1.0 + bound); }
    NumeratorAlgebra(a, b, k, x, d, bound);
  }

  lemma NumeratorAlgebra(a: Jet, b: Jet, k: real, x: real, d: real, bound: real)
    requires 0.0 < d && a.at == x * b.at && a.slope <= Times(x, b.slope) - Times(x + k, b.at)
    ensures Times(d, a.slope) <= Times(d, Times(x, b.slope)) - Times(d, Times(x + k, b.at))
    ensures Times(x - Times(d, k + x), b.after) ==
            a.at + Times(d, Times(x, b.slope)) - Times(d, Times(x + k, b.at))
            + Times(x, b.after - b.at - Times(d, b.slope)) - Times(Times(d, k + x), b.after - b.at)
    ensures Times(bound, Times(bound, Times(d, d))) + Times(Times(d, 1.0 + bound), Times(bound, d)) + Times(bound, Times(d, d))
            == Times(QuotientBound(bound), Times(d, d))
  {
    assert d * a.slope <= d * (Times(x, b.slope) - Times(x + k, b.at));
  }

  lemma DivideBy(a: real, b: real, x: real, c: real)
    requires b >= 1.0 && c >= 0.0 && a <= Times(x, b) + c
    ensures a / b <= x + c
  {
    assert c <= c * b;
    DivMono(a, (x + c) * b, b);
    CancelFactor((x + c) * b, x + c, b);
  }

  // ----- from steps to intervals -----

  function StepBound(): real {
    QuotientBound(PolyBound(NUM, 7) + PolyBound(DEN, 13)) + SeriesBound(ORDER)
  }

  lemma Widened(j: Jet, d: real, b: real, c: real)
    requires Near(j, d, b) && b <= c && 0.0 < d
    ensures Near(j, d, c)
  {
    hide Times;
    TimesGrows(b, c, d);
    SquarePositive(d);
    TimesGrows(b, c, Times(d, d));
  }

  lemma TimesGrows(b: real, c: real, d: real)
    requires b <= c && 0.0 <= d
    ensures Times(b, d) <= Times(c, d)
  {
  }

  lemma SquarePositive(d: real)
    ensures Times(d, d) >= 0.0
  {
  }

  lemma EvenTermPositive(u: real, i: nat)
    requires 0.0 <= u && i % 2 == 0
    ensures SeriesTerm(u, i) >= 0.0
  {
    PowPositive(u, i);
    RatioPositive(u, i);
  }

  lemma {:induction false} PowPositive(u: real, i: nat)
    requires 0.0 <= u
    ensures Pow(u, i) >= 0.0
  {
    if i > 0 { PowPositive(u, i - 1); }
  }

  lemma RatioPositive(u: real, i: nat)
    requires Pow(u, i) >= 0.0
    ensures Magnitude(u, i) >= 0.0
  {
    FactorialPositive(i);
    DivMono(0.0, Pow(u, i), Factorial(i) as real);
  }

  /** One step of length d. */
  lemma ErrorStep(k: real, u: real, d: real)
    requires 0.0 <= u < u + d <= 5.0 && Within(k, 1.0) && Grows(k, u)
    ensures Error(u + d) - k >= Times(Error(u) - k, 1.0 - d) - Times(StepBound(), Times(d, d))
  {
    hide Near, PolyExact, PolySlope, ExpSeries, QuotientBound, SeriesBound, PolyBound, Times;
    PolyNear(NUM, u, d, 7);
    PolyNear(DEN, u, d, 13);
    SeriesNear(u, d, ORDER);
    var bound := PolyBound(NUM, 7) + PolyBound(DEN, 13);
    Widened(PolyJet(NUM, u, d, 7), d, PolyBound(NUM, 7), bound);
    Widened(PolyJet(DEN, u, d, 13), d, PolyBound(DEN, 13), bound);
    BottomPositive(u);
    BottomPositive(u + d);
    QuotientStep(PolyJet(NUM, u, d, 7), PolyJet(DEN, u, d, 13), k, d, bound);
    SeriesStep(u, d);
    StepAlgebra(ExpSeries(u, ORDER), Top(u) / Bottom(u), k, d, QuotientBound(bound), SeriesBound(ORDER));
  }

  lemma SeriesStep(u: real, d: real)
    requires 0.0 <= u < u + d <= 5.0
    ensures ExpSeries(u + d, ORDER) >= ExpSeries(u, ORDER) - Times(d, ExpSeries(u, ORDER)) - Times(SeriesBound(ORDER), Times(d, d))
  {
    hide SeriesTerm, ExpSeries, SeriesBound, Times;
    SeriesNear(u, d, ORDER);
    EvenTermPositive(u, ORDER);
    UnfoldSeries(u, ORDER);
    SlopeAlgebra(d, ExpSeries(u, ORDER), SeriesTerm(u, ORDER));
  }

  lemma SlopeAlgebra(d: real, t: real, last: real)
    requires 0.0 < d && last >= 0.0
    ensures Times(d, -(t - last)) >= -Times(d, t)
  {
    assert d * last >= 0.0;
  }

  lemma StepAlgebra(t: real, x: real, k: real, d: real, b: real, c: real)
    ensures t - Times(d, t) - Times(c, Times(d, d)) - (x - Times(d, k + x) + Times(b, Times(d, d))) - k
            == Times(t - x - k, 1.0 - d) - Times(b + c, Times(d, d))
  {
  }

  lemma {:induction false} ErrorWalk(k: real, a: real, d: real, i: nat)
    requires 0.0 <= a && 0.0 < d <= 1.0 && a + Times(i as real, d) <= 5.0 && Within(k, 1.0) && Error(a) >= k
    requires GrowsOn(k, a, a + Times(i as real, d))
    ensures 0.0 <= Times(i as real, d)
    ensures Error(a + Times(i as real, d)) - k
            >= Times(Error(a) - k, 1.0 - Times(i as real, d)) - Times(i as real, Times(StepBound(), Times(d, d)))
  {
    hide Error, Grows, StepBound, Times;
    StepsForward(i, d);
    if i > 0 {
      ErrorWalk(k, a, d, i - 1);
      var u := a + Times((i - 1) as real, d);
      assert Grows(k, u);
      ErrorStep(k, u, d);
      StepBoundPositive();
      WalkAlgebra(Error(a) - k, Error(u) - k, Times((i - 1) as real, d), (i - 1) as real, d, StepBound());
      NextStep((i - 1) as real, Times(StepBound(), Times(d, d)));
    } else {
      WalkStart(Error(a) - k, Times(StepBound(), Times(d, d)));
    }
  }

  lemma StepsForward(i: nat, d: real)
    requires 0.0 < d
    ensures 0.0 <= Times(i as real, d) && (i == 0 ==> Times(i as real, d) == 0.0)
    ensures i > 0 ==> Times(i as real, d) == Times((i - 1) as real, d) + d
  {
  }

  lemma NextStep(i: real, c: real)
    ensures Times(i + 1.0, c) == Times(i, c) + c
  {
  }

  lemma WalkStart(y: real, c: real)
    ensures Times(y, 1.0 - 0.0) == y && Times(0.0, c) == 0.0
  {
  }

  lemma StepBoundPositive()
    ensures StepBound() >= 0.0
  {
    hide PolyBound, SeriesBound, QuotientBound;
    BoundPositive(PolyBound(NUM, 7) + PolyBound(DEN, 13), 1.0);
  }

  lemma WalkAlgebra(y0: real, y: real, t: real, i: real, d: real, c: real)
    requires y0 >= 0.0 && t >= 0.0 && i >= 0.0 && 0.0 < d <= 1.0 && c >= 0.0
    requires y >= Times(y0, 1.0 - t) - Times(i, Times(c, Times(d, d)))
    ensures Times(y, 1.0 - d) >= Times(y0, 1.0 - (t + d)) - Times(i, Times(c, Times(d, d)))
  {
    var z := i * (c * (d * d));
    assert c * (d * d) >= 0.0;
    assert z >= 0.0;
    assert y * (1.0 - d) >= (y0 * (1.0 - t) - z) * (1.0 - d);
    assert (y0 * (1.0 - t) - z) * (1.0 - d) == y0 * (1.0 - (t + d)) + y0 * (t * d) - z + z * d;
    assert t * d >= 0.0;
    assert y0 * (t * d) >= 0.0;
    assert z * d >= 0.0;
  }

  /** While the trend guarantees the rate k, an error of at least k falls towards k by at most its excess per unit. */
  lemma ErrorFalls(k: real, a: real, b: real)
    requires 0.0 <= a <= b <= 5.0 && Within(k, 1.0) && Error(a) >= k && GrowsOn(k, a, b)
    ensures Error(b) - k >= Times(Error(a) - k, 1.0 - (b - a))
  {
    hide Error, Grows, StepBound, Times;
    var target, y := Times(Error(a) - k, 1.0 - (b - a)), Error(b) - k;
    if a == b {
      WalkStart(Error(a) - k, 0.0);
    } else if y < target {
      StepBoundPositive();
      var n := ManySteps(b - a, StepBound(), target - y);
      ErrorWalk(k, a, (b - a) / n as real, n);
      assert false;
    }
  }

  lemma ManySteps(length: real, c: real, gap: real) returns (n: nat)
    requires 0.0 < length <= 5.0 && c >= 0.0 && gap > 0.0
    ensures n >= 5 && length / n as real <= 1.0 && Times(n as real, length / n as real) == length
    ensures Times(n as real, Times(c, Times(length / n as real, length / n as real))) < gap
  {
    var q := c * 25.0 / gap;
    assert q >= 0.0;
    n := q.Floor as nat + 5;
    var m, d := n as real, length / n as real;
    assert q < m;
    assert m * d == length;
    assert d <= 1.0;
    assert c * 25.0 == q * gap;
    assert q * gap < m * gap;
    assert d * m <= 5.0;
    SmallSquare(m, d, c, gap);
  }

  lemma SmallSquare(m: real, d: real, c: real, gap: real)
    requires m >= 5.0 && 0.0 <= d && m * d <= 5.0 && c >= 0.0 && c * 25.0 < m * gap
    ensures Times(m, Times(c, Times(d, d))) < gap
  {
    var s := m * d;
    MulBounds(s, s, 5.0, 5.0);
    assert c * (s * s) <= c * 25.0;
    var v := m * (c * (d * d));
    assert v * m == c * (s * s);
    assert v * m < gap * m;
  }

  // ----- what one value of the error says about an interval -----

  lemma GrowsPart(k: real, a: real, b: real, c: real, d: real)
    requires GrowsOn(k, a, b) && a <= c && d <= b
    ensures GrowsOn(k, c, d)
  {
  }

  /** Above tau on all of [a, b], from the value at a. */
  lemma AboveFrom(tau: real, k: real, a: real, b: real, u: real)
    requires 0.0 <= a <= u <= b <= 5.0 && b - a <= 1.0 && Within(k, 1.0) && GrowsOn(k, a, b) && Error(a) >= k
    requires Times(Error(a) - k, 1.0 - (b - a)) > tau - k
    ensures Error(u) > tau
  {
    hide Error, Grows, Times;
    GrowsPart(k, a, b, a, u);
    ErrorFalls(k, a, u);
    TimesFalls(Error(a) - k, 1.0 - (b - a), 1.0 - (u - a));
  }

  lemma TimesFalls(y: real, s: real, t: real)
    requires y >= 0.0 && s <= t
    ensures Times(y, s) <= Times(y, t)
  {
  }

  /** Below tau on all of [a, b], from the value at b. */
  lemma BelowUpTo(tau: real, k: real, a: real, b: real, u: real)
    requires 0.0 <= a <= u <= b <= 5.0 && b - a <= 1.0 && Within(k, 1.0) && GrowsOn(k, a, b) && k <= tau
    requires Error(b) - k < Times(tau - k, 1.0 - (b - a))
    ensures Error(u) < tau
  {
    hide Error, Grows, Times;
    if Error(u) >= tau {
      GrowsPart(k, a, b, u, b);
      ErrorFalls(k, u, b);
      TimesFalls(tau - k, 1.0 - (b - a), 1.0 - (b - u));
      TimesGrows(tau - k, Error(u) - k, 1.0 - (b - u));
    }
  }
}
