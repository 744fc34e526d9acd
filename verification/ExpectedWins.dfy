/** What the election promises on average: over all digests, a miner wins in proportion to its stake. */
module ExpectedWins {
  import opened Common
  import opened FixedPoint
  import opened ExpNeg
  import opened Poisson
  import opened ExponentialSeries
  import opened Jets
  import opened Decay
  import opened ErrorGrowth
  import opened ExpAccuracy
  import opened Election
  import opened ThresholdAccuracy
  import opened SeriesProduct

  // ----- counting wins over all digests -----

  /** The wins of all digests below n together. */
  function WinsBelow(power: int, totalPower: int, n: nat): nat
    requires 0 <= power && 0 < totalPower
  {
    if n == 0 then 0 else WinsBelow(power, totalPower, n - 1) + |Wins(n - 1, power, totalPower)|
  }

  /** How many digests below n are below t. */
  function Clipped(t: int, n: nat): nat { if t <= 0 then 0 else if t < n then t else n }

  function ClippedSum(power: int, totalPower: int, n: nat, k: nat): nat
    requires 0 <= power && 0 < totalPower
  {
    if k == 0 then 0 else ClippedSum(power, totalPower, n, k - 1) + Clipped(Threshold(power, totalPower, k - 1), n)
  }

  function WinsUpTo(hash: int, power: int, totalPower: int, k: nat): set<nat>
    requires 0 <= power && 0 < totalPower
  {
    set j: nat | j < k && hash < Threshold(power, totalPower, j)
  }

  lemma {:induction false} OneMoreDigest(power: int, totalPower: int, n: nat, k: nat)
    requires 0 <= power && 0 < totalPower
    ensures ClippedSum(power, totalPower, n + 1, k) == ClippedSum(power, totalPower, n, k) + |WinsUpTo(n, power, totalPower, k)|
  {
    hide Threshold;
    if k == 0 {
      assert WinsUpTo(n, power, totalPower, 0) == {};
    } else {
      OneMoreDigest(power, totalPower, n, k - 1);
      var rest := WinsUpTo(n, power, totalPower, k - 1);
      if n < Threshold(power, totalPower, k - 1) {
        assert WinsUpTo(n, power, totalPower, k) == rest + {k - 1};
      } else {
        assert WinsUpTo(n, power, totalPower, k) == rest;
      }
    }
  }

  lemma {:induction false} NoDigests(power: int, totalPower: int, k: nat)
    requires 0 <= power && 0 < totalPower
    ensures ClippedSum(power, totalPower, 0, k) == 0
  {
    hide Threshold;
    if k > 0 { NoDigests(power, totalPower, k - 1); }
  }

  /** Counted digest by digest or threshold by threshold, the wins are the same. */
  lemma {:induction false} WinsByThreshold(power: int, totalPower: int, n: nat)
    requires 0 <= power && 0 < totalPower
    ensures WinsBelow(power, totalPower, n) == ClippedSum(power, totalPower, n, 20)
  {
    hide Threshold, ClippedSum;
    if n == 0 {
      NoDigests(power, totalPower, 20);
    } else {
      WinsByThreshold(power, totalPower, n - 1);
      OneMoreDigest(power, totalPower, n - 1, 20);
      assert Wins(n - 1, power, totalPower) == WinsUpTo(n - 1, power, totalPower, 20);
    }
  }

  // ----- the sum of the Poisson tails -----

  function TailSum(u: real, n: nat): real {
    if n == 0 then 0.0 else TailSum(u, n - 1) + PoissonTail(u, n - 1, ORDER)
  }

  function SumOfSums(u: real, n: nat): real {
    if n == 0 then 0.0 else SumOfSums(u, n - 1) + MagnitudeSum(u, n - 1)
  }

  lemma {:induction false} TailSumIs(u: real, n: nat)
    ensures TailSum(u, n) == n as real - Times(ExpSeries(u, ORDER), SumOfSums(u, n))
  {
    hide ExpSeries, MagnitudeSum;
    if n > 0 { TailSumIs(u, n - 1); }
  }

  /** Each term k of the series occurs n - k times. */
  lemma {:induction false} SumOfSumsIs(u: real, n: nat)
    requires n >= 2
    ensures SumOfSums(u, n) == n as real * MagnitudeSum(u, n - 1) - Times(u, MagnitudeSum(u, n - 2))
  {
    hide Magnitude;
    MagnitudeZero(u);
    MagnitudeStep(u, n - 2);
    if n == 2 {
      assert SumOfSums(u, 1) == MagnitudeSum(u, 0) == 1.0;
      assert MagnitudeSum(u, 1) == Magnitude(u, 1) + 1.0;
      FirstTerm(u, Magnitude(u, 0));
    } else {
      SumOfSumsIs(u, n - 1);
      LastTerms(u, (n - 1) as real, Magnitude(u, n - 1), Magnitude(u, n - 2), MagnitudeSum(u, n - 2), MagnitudeSum(u, n - 3));
    }
  }

  lemma FirstTerm(u: real, one: real)
    requires one == 1.0
    ensures Times(u / 1.0, one) == u && Times(u, one) == u
  {
  }

  lemma LastTerms(u: real, k: real, t: real, s: real, w: real, v: real)
    requires k > 0.0 && t == Times(u / k, s) && w == s + v
    ensures k * w - Times(u, v) + (t + w) == (k + 1.0) * (t + w) - Times(u, w)
  {
    var q := u / k;
    assert q * k == u;
    assert k * t == (q * k) * s;
    assert u * w == u * s + u * v;
  }

  lemma LastTermsSmall(u: real)
    requires 0.0 <= u <= 2.0
    ensures Magnitude(u, 40) + Magnitude(u, 18) <= 41.0 * SMALL && Magnitude(u, 40) + Magnitude(u, 19) <= 4.4 * SMALL
  {
    hide Magnitude, Factorial, Pow;
    PowValues();
    FactorialValues();
    PowAtMost(u, 2.0, 18);
    PowAtMost(u, 2.0, 19);
    PowAtMost(u, 2.0, 40);
    MagnitudeAtMost(u, 18, 262144.0, 6402373705728000, 40.95 * SMALL);
    MagnitudeAtMost(u, 19, 524288.0, 121645100408832000, 4.32 * SMALL);
    MagnitudeAtMost(u, 40, 1099511627776.0, 815915283247897734345611269596115894272000000000, 0.01 * SMALL);
  }

  lemma PowValues()
    ensures Pow(2.0, 18) == 262144.0 && Pow(2.0, 19) == 524288.0 && Pow(2.0, 40) == 1099511627776.0
  {
    assert Pow(2.0, 9) == 512.0;
    assert Pow(2.0, 18) == 262144.0;
    assert Pow(2.0, 26) == 67108864.0;
    assert Pow(2.0, 33) == 8589934592.0;
  }

  lemma FactorialValues()
    ensures Factorial(18) == 6402373705728000 && Factorial(19) == 121645100408832000
    ensures Factorial(40) == 815915283247897734345611269596115894272000000000
  {
    assert Factorial(9) == 362880;
    assert Factorial(18) == 6402373705728000;
    assert Factorial(26) == 403291461126605635584000000;
    assert Factorial(33) == 8683317618811886495518194401280000000;
  }

  /** The tails of a Poisson distribution add up to its rate; beyond the twentieth next to nothing is left. */
  lemma TailsAddUp(u: real)
    requires 0.0 <= u <= 2.0
    ensures Within(TailSum(u, 20) - u, 3100.0 * SMALL)
    ensures PoissonTail(u, 19, ORDER) >= -80.0 * SMALL
  {
    hide ExpSeries, MagnitudeSum, Magnitude, SumOfSums, TailSum, Times;
    forall x: real {:trigger Magnitude(x, ORDER)} | 0.0 <= x <= 2.0
      ensures Magnitude(x, ORDER) + Magnitude(x, 18) <= 41.0 * SMALL
      ensures Magnitude(x, ORDER) + Magnitude(x, 19) <= 4.4 * SMALL
    {
      LastTermsSmall(x);
    }
    SumsMultiplyToOne(u, ORDER, 18, 41.0 * SMALL);
    SumsMultiplyToOne(u, ORDER, 19, 4.4 * SMALL);
    TailSumIs(u, 20);
    SumOfSumsIs(u, 20);
    var e, w19, w18 := ExpSeries(u, ORDER), MagnitudeSum(u, 19), MagnitudeSum(u, 18);
    assert SumOfSums(u, 20) == 20.0 * w19 - Times(u, w18);
    TailAlgebra(e, u, w19, w18);
    WithinProduct(u, 2.0, Times(e, w18) - 1.0, 18.0 * (41.0 * SMALL));
    TwoTimes(18.0 * (41.0 * SMALL));
  }

  lemma TwoTimes(x: real)
    ensures Times(2.0, x) == 2.0 * x
  {
  }

  lemma TailAlgebra(e: real, u: real, w19: real, w18: real)
    ensures 20.0 - Times(e, 20.0 * w19 - Times(u, w18)) - u == -20.0 * (Times(e, w19) - 1.0) + Times(u, Times(e, w18) - 1.0)
  {
  }

  // ----- the thresholds against the tails -----

  function ThresholdSum(power: int, totalPower: int, n: nat): int
    requires 0 <= power && 0 < totalPower
  {
    if n == 0 then 0 else ThresholdSum(power, totalPower, n - 1) + Threshold(power, totalPower, n - 1)
  }

  lemma {:induction false} ThresholdsAddUp(power: int, totalPower: int, n: nat)
    requires 0 <= power <= totalPower && 0 < totalPower && n <= 20
    ensures Within(Units(ThresholdSum(power, totalPower, n)) - TailSum(Units(Lambda(power, totalPower)), n), n as real * (120000.0 * TINY))
  {
    hide Threshold, Lambda, PoissonTail, Units;
    if n == 0 {
      UnitsZero();
    } else {
      ThresholdsAddUp(power, totalPower, n - 1);
      ThresholdIsPoissonTail(power, totalPower, n - 1, ORDER);
      UnitsAdd(ThresholdSum(power, totalPower, n - 1), Threshold(power, totalPower, n - 1));
    }
  }

  lemma UnitsZero()
    ensures Units(0) == 0.0
  {
  }

  lemma UnitsAdd(a: int, b: int)
    ensures Units(a + b) == Units(a) + Units(b)
  {
    AddQuotient((a + b) as real, a as real / ONE as real, b as real, ONE as real);
  }

  /** Clipping at zero changes little: no threshold is far below it. */
  lemma {:induction false} ClippingIsSmall(power: int, totalPower: int, n: nat, low: real)
    requires 0 <= power <= totalPower && 0 < totalPower && n <= 20 && low >= 0.0
    requires Units(Threshold(power, totalPower, 19)) >= -low
    ensures 0.0 <= Units(ClippedSum(power, totalPower, ONE, n)) - Units(ThresholdSum(power, totalPower, n)) <= n as real * low
  {
    hide Threshold, Units;
    if n == 0 {
      UnitsZero();
    } else {
      ClippingIsSmall(power, totalPower, n - 1, low);
      var t := Threshold(power, totalPower, n - 1);
      ThresholdsNeverIncrease(power, totalPower, n - 1, 19);
      UnitsMonotone(Threshold(power, totalPower, 19), t);
      UnitsAdd(ThresholdSum(power, totalPower, n - 1), t);
      UnitsAdd(ClippedSum(power, totalPower, ONE, n - 1), Clipped(t, ONE));
      UnitsZero();
      if t <= 0 { UnitsMonotone(t, 0); }
    }
  }

  lemma UnitsMonotone(a: int, b: int)
    requires a <= b
    ensures Units(a) <= Units(b)
  {
    DivMono(a as real, b as real, ONE as real);
  }

  // ----- the theorem -----

  /** The rate of the election is twice the share of the stake, rounded down to a unit. */
  lemma RateIsShare(power: int, totalPower: int)
    requires 0 <= power && 0 < totalPower
    ensures 0.0 <= 2.0 * power as real / totalPower as real - Units(Lambda(power, totalPower)) <= TINY
  {
    hide Lambda;
    LambdaUnfolded(power, totalPower);
    ShareRounding(power * 2, totalPower, ONE);
    assert 1.0 / ONE as real <= TINY;
    assert (power * 2) as real == 2.0 * power as real;
  }

  lemma ShareRounding(n: int, d: int, one: int)
    requires 0 < d && 0 < one
    ensures 0.0 <= n as real / d as real - (n * one / d) as real / one as real <= 1.0 / one as real
  {
    var q, r := n * one / d, n * one % d;
    assert n * one == q * d + r && 0 <= r < d;
    IntMulReal(n, one);
    IntMulReal(q, d);
    ShareParts(n as real, q as real, r as real, d as real, one as real);
  }

  lemma ShareParts(n: real, q: real, r: real, d: real, one: real)
    requires d > 0.0 && one > 0.0 && n * one == q * d + r && 0.0 <= r <= d
    ensures 0.0 <= n / d - q / one <= 1.0 / one
  {
    var x, y := n / d, q / one;
    assert x * d == n && y * one == q;
    assert (x - y) * (one * d) == r by { assert x * d * one == n * one && y * one * d == q * d; }
    var z := 1.0 / one;
    assert z * one == 1.0;
    assert z * (one * d) == d;
    DivMono(0.0, r, one * d);
    DivMono(r, d, one * d);
    CancelFactor(r, x - y, one * d);
    CancelFactor(d, z, one * d);
  }

  /** Over all 2^256 digests a miner wins 2 * power / totalPower times on average, within 10^-8: two leaders are
      expected, shared in proportion to stake. */
  lemma ExpectedWinsAreShare(power: int, totalPower: int)
    requires 0 <= power <= totalPower && 0 < totalPower
    ensures Within(WinsBelow(power, totalPower, ONE) as real / ONE as real - 2.0 * power as real / totalPower as real, 0.00000001)
  {
    hide Lambda, Threshold, TailSum, ClippedSum, ThresholdSum, WinsBelow, PoissonTail, ThresholdError;
    var u := Units(Lambda(power, totalPower));
    LambdaRange(power, totalPower);
    UnitsRange(Lambda(power, totalPower));
    WinsByThreshold(power, totalPower, ONE);
    RateIsShare(power, totalPower);
    TailsAddUp(u);
    ThresholdsAddUp(power, totalPower, 20);
    ThresholdIsPoissonTail(power, totalPower, 19, ORDER);
    LongSum();
    ClippingIsSmall(power, totalPower, 20, 81.0 * SMALL);
    assert Units(WinsBelow(power, totalPower, ONE)) == WinsBelow(power, totalPower, ONE) as real / ONE as real;
  }

  lemma LongSum()
    ensures ThresholdError(ORDER) == 120000.0 * TINY
  {
  }
}
