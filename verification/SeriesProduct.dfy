/** The partial sums of e^-u and of e^u multiply to 1, up to very little: their product hardly changes with u. */
module SeriesProduct {
  import opened FixedPoint
  import opened Poisson
  import opened ExponentialSeries
  import opened Jets
  import opened Decay
  import opened ThresholdAccuracy

  // ----- the partial sums of e^u, to first order -----

  function Flipped(j: Jet): Jet { Jet(-j.at, -j.after, -j.slope) }

  lemma NearFlipped(j: Jet, d: real, b: real)
    requires Near(j, d, b)
    ensures Near(Flipped(j), d, b)
  {
    assert Times(d, -j.slope) == -Times(d, j.slope);
  }

  function MagnitudeJet(u: real, d: real, i: nat): Jet {
    Jet(Magnitude(u, i), Magnitude(u + d, i), if i == 0 then 0.0 else Magnitude(u, i - 1))
  }

  lemma MagnitudeNear(u: real, d: real, i: nat)
    requires 0.0 <= u < u + d <= 5.0
    ensures Near(MagnitudeJet(u, d, i), d, TermBound(i))
  {
    hide Near, Magnitude;
    TermNear(u, d, i);
    NearFlipped(TermJet(u, d, i), d, TermBound(i));
    assert MagnitudeJet(u, d, i) == if i % 2 == 0 then TermJet(u, d, i) else Flipped(TermJet(u, d, i));
  }

  function SumJet(u: real, d: real, n: nat): Jet {
    Jet(MagnitudeSum(u, n), MagnitudeSum(u + d, n), if n == 0 then 0.0 else MagnitudeSum(u, n - 1))
  }

  lemma {:induction false} SumNear(u: real, d: real, n: nat)
    requires 0.0 <= u < u + d <= 5.0
    ensures Near(SumJet(u, d, n), d, SeriesBound(n))
  {
    hide Near, Magnitude;
    MagnitudeNear(u, d, n);
    if n == 0 {
      assert SumJet(u, d, 0) == MagnitudeJet(u, d, 0);
    } else {
      SumNear(u, d, n - 1);
      NearSum(MagnitudeJet(u, d, n), TermBound(n), SumJet(u, d, n - 1), SeriesBound(n - 1), d);
      MagnitudeZero(u);
      assert SumJet(u, d, n) == Sum(MagnitudeJet(u, d, n), SumJet(u, d, n - 1));
    }
  }

  // ----- their product with the partial sums of e^-u -----

  function Unity(u: real, m: nat, n: nat): real { Times(ExpSeries(u, m), MagnitudeSum(u, n)) }

  function UnitySlope(u: real, m: nat, n: nat): real
    requires 0 < m && 0 < n
  {
    Times(-ExpSeries(u, m - 1), MagnitudeSum(u, n)) + Times(ExpSeries(u, m), MagnitudeSum(u, n - 1))
  }

  lemma {:induction false} SeriesWithinSum(u: real, m: nat)
    requires 0.0 <= u
    ensures Within(ExpSeries(u, m), MagnitudeSum(u, m))
  {
    hide Magnitude;
    assert Magnitude(u, m) >= 0.0 by {
      hide *;
      PowPositive(u, m);
      RatioPositive(u, m);
    }
    if m > 0 { SeriesWithinSum(u, m - 1); }
  }

  lemma SlopeSplit(s: real, s1: real, t: real, w: real, w1: real, v: real)
    requires s == s1 + t && w == w1 + v
    ensures Times(-s1, w) + Times(s, w1) == Times(t, w) - Times(s, v)
  {
  }

  /** Only the last terms of the two sums are left in the slope. */
  lemma SlopeWithin(u: real, m: nat, n: nat, tiny: real)
    requires 0.0 <= u <= 2.0 && 0 < m && 0 < n && Magnitude(u, m) + Magnitude(u, n) <= tiny
    ensures Within(UnitySlope(u, m, n), 9.0 * tiny)
  {
    hide Magnitude, Times;
    MagnitudeSumBound(u, n);
    MagnitudeSumBound(u, m);
    SeriesWithinSum(u, m);
    UnfoldSeries(u, m);
    var t, v := SeriesTerm(u, m), Magnitude(u, n);
    assert MagnitudeSum(u, n) == MagnitudeSum(u, n - 1) + v;
    SlopeSplit(ExpSeries(u, m), ExpSeries(u, m - 1), t, MagnitudeSum(u, n), MagnitudeSum(u, n - 1), v);
    WithinProduct(t, Magnitude(u, m), MagnitudeSum(u, n), 9.0);
    WithinProduct(ExpSeries(u, m), 9.0, v, v);
    NineTimes(Magnitude(u, m));
    NineTimes(v);
  }

  lemma NineTimes(x: real)
    ensures Times(x, 9.0) == 9.0 * x && Times(9.0, x) == 9.0 * x
  {
  }

  function ProductBound(m: nat, n: nat): real { 3.0 * Times(SeriesBound(m), SeriesBound(n)) }

  lemma UnityStep(u: real, d: real, m: nat, n: nat, c: real)
    requires 0.0 <= u < u + d <= 5.0 && 0 < m && 0 < n && Within(UnitySlope(u, m, n), c)
    ensures Within(Unity(u + d, m, n) - Unity(u, m, n), Times(d, c) + Times(ProductBound(m, n), Times(d, d)))
  {
    hide Times, ExpSeries, MagnitudeSum, SeriesBound;
    SeriesNear(u, d, m);
    SumNear(u, d, n);
    NearProduct(SeriesJet(u, d, m), SeriesBound(m), SumJet(u, d, n), SeriesBound(n), d);
    WithinProduct(d, d, UnitySlope(u, m, n), c);
  }

  lemma ProductBoundPositive(m: nat, n: nat)
    ensures ProductBound(m, n) >= 0.0
  {
    hide SeriesBound;
    assert SeriesBound(m) * SeriesBound(n) >= 0.0;
  }

  ghost predicate SlopesWithin(m: nat, n: nat, c: real, b: real)
    requires 0 < m && 0 < n
  {
    forall u: real :: 0.0 <= u <= b ==> Within(UnitySlope(u, m, n), c)
  }

  lemma {:induction false} UnityWalk(d: real, i: nat, m: nat, n: nat, c: real)
    requires 0.0 < d && Times(i as real, d) <= 5.0 && 0 < m && 0 < n && SlopesWithin(m, n, c, Times(i as real, d))
    ensures Within(Unity(Times(i as real, d), m, n) - Unity(0.0, m, n),
                   Times(i as real, Times(d, c) + Times(ProductBound(m, n), Times(d, d))))
  {
    hide Times, Unity, UnitySlope, ProductBound;
    StepsForward(i, d);
    if i > 0 {
      UnityWalk(d, i - 1, m, n, c);
      var u := Times((i - 1) as real, d);
      StepsForward(i - 1, d);
      assert Within(UnitySlope(u, m, n), c);
      UnityStep(u, d, m, n, c);
      NextStep((i - 1) as real, Times(d, c) + Times(ProductBound(m, n), Times(d, d)));
    } else {
      WalkStart(0.0, Times(d, c) + Times(ProductBound(m, n), Times(d, d)));
    }
  }

  /** On [0, b] the product moves by at most the slope's bound times b. */
  lemma UnityMoves(b: real, m: nat, n: nat, c: real)
    requires 0.0 < b <= 5.0 && 0 < m && 0 < n && SlopesWithin(m, n, c, b)
    ensures Within(Unity(b, m, n) - Unity(0.0, m, n), Times(b, c))
  {
    hide Times, Unity, UnitySlope, ProductBound, SlopesWithin;
    var y, target := Unity(b, m, n) - Unity(0.0, m, n), Times(b, c);
    var gap := if y > target then y - target else -target - y;
    if gap > 0.0 {
      ProductBoundPositive(m, n);
      var k := ManySteps(b, ProductBound(m, n), gap);
      var d := b / k as real;
      UnityWalk(d, k, m, n, c);
      StepsTogether(k as real, d, c, Times(ProductBound(m, n), Times(d, d)), b);
      assert false;
    }
  }

  lemma StepsTogether(k: real, d: real, c: real, x: real, b: real)
    requires Times(k, d) == b
    ensures Times(k, Times(d, c) + x) == Times(b, c) + Times(k, x)
  {
    assert k * (d * c) == (k * d) * c;
  }

  lemma {:induction false} SumAtZero(n: nat)
    ensures MagnitudeSum(0.0, n) == 1.0
  {
    hide Magnitude, Times;
    MagnitudeZero(0.0);
    if n > 0 {
      SumAtZero(n - 1);
      MagnitudeStep(0.0, n - 1);
      NothingTimes(n, Magnitude(0.0, n - 1));
    }
  }

  lemma NothingTimes(n: nat, x: real)
    requires n > 0
    ensures Times(0.0 / n as real, x) == 0.0
  {
  }

  lemma {:induction false} SeriesAtZero(m: nat)
    ensures ExpSeries(0.0, m) == 1.0
  {
    hide SeriesTerm, Times;
    SeriesBase(0.0);
    if m > 0 {
      SeriesAtZero(m - 1);
      SeriesTermStep(0.0, m - 1);
      assert Times(-(0.0 / m as real), SeriesTerm(0.0, m - 1)) == 0.0 by { MinusNothing(m, SeriesTerm(0.0, m - 1)); }
    }
  }

  lemma MinusNothing(n: nat, x: real)
    requires n > 0
    ensures Times(-(0.0 / n as real), x) == 0.0
  {
  }

  /** The two partial sums multiply to 1, up to 18 times their last terms. */
  lemma SumsMultiplyToOne(u: real, m: nat, n: nat, tiny: real)
    requires 0.0 <= u <= 2.0 && 0 < m && 0 < n && tiny >= 0.0
    requires forall x: real {:trigger Magnitude(x, m)} :: 0.0 <= x <= 2.0 ==> Magnitude(x, m) + Magnitude(x, n) <= tiny
    ensures Within(Times(ExpSeries(u, m), MagnitudeSum(u, n)) - 1.0, 18.0 * tiny)
  {
    hide Magnitude, ExpSeries, MagnitudeSum, UnitySlope, Times;
    SeriesAtZero(m);
    SumAtZero(n);
    OneTimesOne();
    if u > 0.0 {
      forall x: real | 0.0 <= x <= u
        ensures Within(UnitySlope(x, m, n), 9.0 * tiny)
      {
        SlopeWithin(x, m, n, tiny);
      }
      UnityMoves(u, m, n, 9.0 * tiny);
      AtMostTwice(u, 9.0 * tiny);
    }
  }

  lemma OneTimesOne()
    ensures Times(1.0, 1.0) == 1.0
  {
  }

  lemma AtMostTwice(u: real, x: real)
    requires 0.0 <= u <= 2.0 && x >= 0.0
    ensures Times(u, x) <= 2.0 * x
  {
    MulBounds(u, x, 2.0, x);
  }
}
