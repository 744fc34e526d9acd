/** The election thresholds against the tail of the true Poisson distribution. */
module ThresholdAccuracy {
  import opened FixedPoint
  import opened ExpNeg
  import opened Poisson
  import opened ExponentialSeries
  import opened Decay
  import opened ErrorGrowth
  import opened ExpAccuracy
  import opened Election

  /** 1 + u + u^2/2! + .. + u^k/k! */
  function MagnitudeSum(u: real, k: nat): real {
    Magnitude(u, k) + if k == 0 then 0.0 else MagnitudeSum(u, k - 1)
  }

  /** The probability that a Poisson variable of rate u exceeds k, with m terms of the series for e^-u. */
  function PoissonTail(u: real, k: nat, m: nat): real {
    1.0 - Times(ExpSeries(u, m), MagnitudeSum(u, k))
  }

  lemma RatioScale(e: real, w: real, f: real)
    requires f > 0.0
    ensures Ratio(e, w, f) == Times(e, Ratio(1.0, w, f))
  {
    var q := w / f;
    assert w == q * f;
    assert e * w == e * q * f;
    CancelFactor(e * w, e * q, f);
  }

  lemma ExactPmfScale(elam: int, lam: int, k: nat)
    ensures ExactPmf(elam, lam, k) == Times(elam as real, Magnitude(Units(lam), k))
  {
    hide Ratio, Pow, Units, Times;
    FactorialPositive(k);
    RatioScale(elam as real, Pow(Units(lam), k), Factorial(k) as real);
  }

  lemma MagnitudeZero(u: real)
    ensures Magnitude(u, 0) == 1.0
  {
  }

  lemma TimesUnit(a: real)
    ensures Times(a, 1.0) == a
  {
  }

  lemma TimesSum(a: real, b: real, c: real)
    ensures Times(a, b + c) == Times(a, b) + Times(a, c)
  {
  }

  /** The exact thresholds are one minus e^-lambda times the power sum. */
  lemma {:induction false} ExactIcdfSum(elam: int, lam: int, k: nat)
    ensures ExactIcdf(elam, lam, k) == ONE as real - Times(elam as real, MagnitudeSum(Units(lam), k))
  {
    hide Times, Magnitude, ExactPmf, Units;
    var u, e := Units(lam), elam as real;
    if k == 0 {
      MagnitudeZero(u);
      TimesUnit(e);
      assert (ONE - elam) as real == ONE as real - e;
    } else {
      ExactIcdfSum(elam, lam, k - 1);
      ExactPmfScale(elam, lam, k);
      TimesSum(e, Magnitude(u, k), MagnitudeSum(u, k - 1));
    }
  }

  lemma MagnitudeShrinks(u: real, i: nat)
    requires 0.0 <= u <= 2.0 && 2 <= i && 0.0 <= Magnitude(u, i)
    ensures 0.0 <= 3.0 * Magnitude(u, i + 1) <= 2.0 * Magnitude(u, i)
  {
    hide Magnitude;
    MagnitudeStep(u, i);
    var q, r := u / (i + 1) as real, Magnitude(u, i);
    RatioBelow(u, (i + 1) as real);
    MulBounds(q, r, 2.0 / 3.0, r);
  }

  lemma RatioBelow(u: real, n: real)
    requires 0.0 <= u <= 2.0 && 3.0 <= n
    ensures 0.0 <= u / n <= 2.0 / 3.0
  {
    var q := u / n;
    assert q * n == u;
  }

  lemma FirstMagnitudes(u: real)
    requires 0.0 <= u <= 2.0
    ensures Magnitude(u, 0) == 1.0 && Magnitude(u, 1) == u && 0.0 <= Magnitude(u, 2) <= 2.0
  {
    hide Magnitude;
    MagnitudeZero(u);
    MagnitudeStep(u, 0);
    MagnitudeStep(u, 1);
    MulBounds(u / 2.0, u, 1.0, 2.0);
  }

  /** From the second term on each is at most two thirds of the one before, so the sum stays below 9. */
  lemma {:induction false} MagnitudeSumBound(u: real, k: nat)
    requires 0.0 <= u <= 2.0
    ensures 0.0 <= Magnitude(u, k) && 0.0 <= MagnitudeSum(u, k) <= 9.0
    ensures k >= 2 ==> MagnitudeSum(u, k) + 2.0 * Magnitude(u, k) <= 9.0
  {
    hide Magnitude;
    FirstMagnitudes(u);
    if k <= 2 {
      assert MagnitudeSum(u, 0) == 1.0;
      assert MagnitudeSum(u, 1) == u + 1.0;
      assert MagnitudeSum(u, 2) == Magnitude(u, 2) + (u + 1.0);
    } else {
      MagnitudeSumBound(u, k - 1);
      MagnitudeShrinks(u, k - 1);
    }
  }

  /** Bounds for a threshold: `icdf` of one part in `one`, `s` the power sum. */
  lemma CombineErrors(icdf: real, exact: real, elam: real, e: real, s: real, one: real, rounding: real, err: real)
    requires one > 0.0 && 0.0 <= icdf - exact <= rounding && exact == one - Times(elam, s)
    requires 0.0 <= s <= 9.0 && AbsReal(elam / one - e) <= err && err >= 0.0
    ensures AbsReal(icdf / one - (1.0 - Times(e, s))) <= rounding / one + 9.0 * err
  {
    var d, q := (icdf - exact) / one, elam / one - e;
    assert icdf / one == 1.0 - elam / one * s + d by { SplitQuotient(icdf, exact, elam, s, one); }
    assert elam / one * s == (q + e) * s == q * s + e * s;
    DivMono(0.0, icdf - exact, one);
    DivMono(icdf - exact, rounding, one);
    if q >= 0.0 { MulBounds(q, s, err, 9.0); } else { MulBounds(-q, s, err, 9.0); assert -q * s == -(q * s); }
  }

  lemma SplitQuotient(icdf: real, exact: real, elam: real, s: real, one: real)
    requires one > 0.0 && exact == one - elam * s
    ensures icdf / one == 1.0 - elam / one * s + (icdf - exact) / one
  {
    var q := elam / one;
    assert elam == q * one;
    assert elam * s == (q * s) * one;
    assert icdf == (1.0 - q * s) * one + (icdf - exact);
    AddQuotient(icdf, 1.0 - q * s, icdf - exact, one);
  }

  /** 1.2e-25 against sums of order 40 and up, 4.2e-14 already from order 24 on. */
  function ThresholdError(m: nat): real {
    if ORDER <= m then 120000.0 * TINY else 0.042 * SMALL
  }

  lemma SmallRounding(k: nat, m: nat)
    requires k < MAX_WIN_COUNT
    ensures 5.0 * k as real / ONE as real + 9.0 * Accuracy(m) <= ThresholdError(m) && Accuracy(m) >= 0.0
  {
    DivMono(5.0 * k as real, 100.0, ONE as real);
    assert 100.0 / ONE as real <= TINY;
  }

  /** Every threshold the election compares against is the tail of the Poisson distribution with the miner's rate,
      up to 1.2e-25 when e^-lambda is taken with at least 40 terms of its series. */
  lemma ThresholdIsPoissonTail(power: int, totalPower: int, k: nat, m: nat)
    requires 0 <= power <= totalPower && 0 < totalPower && k < MAX_WIN_COUNT && 24 <= m
    ensures AbsReal(Units(Threshold(power, totalPower, k)) - PoissonTail(Units(Lambda(power, totalPower)), k, m)) <= ThresholdError(m)
  {
    hide Lambda, Expneg, ExpSeries, MagnitudeSum, Icdf, ExactIcdf, AbsReal, Times, Accuracy, ThresholdError;
    LambdaRange(power, totalPower);
    var lam := Lambda(power, totalPower);
    var elam := Expneg(lam);
    ExpnegRange(lam);
    IcdfRounding(elam, lam, k);
    ExactIcdfSum(elam, lam, k);
    UnitsRange(lam);
    MagnitudeSumBound(Units(lam), k);
    ExpnegAccuracy(lam, m);
    SmallRounding(k, m);
    CombineErrors(Icdf(elam, lam, k) as real, ExactIcdf(elam, lam, k), elam as real, ExpSeries(Units(lam), m),
                  MagnitudeSum(Units(lam), k), ONE as real, 5.0 * k as real, Accuracy(m));
    var s, e := MagnitudeSum(Units(lam), k), ExpSeries(Units(lam), m);
    assert PoissonTail(Units(lam), k, m) == 1.0 - Times(e, s);
    assert Units(Threshold(power, totalPower, k)) == Icdf(elam, lam, k) as real / ONE as real;
  }
}
