/** The incremental Poisson inverse CDF, for a fixed rate and a given value of e^-rate. */
module Poisson {
  import opened FixedPoint

  function Pmf(elam: int, lam: int, k: nat): int
    decreases elam, lam, k, 1
  {
    if k == 0 then elam else PmfStep(elam, lam, k)
  }

  function PmfStep(elam: int, lam: int, k: nat): int
    requires k > 0
    decreases elam, lam, k, 0
  {
    Rsh256(Pmf(elam, lam, k - 1) / k * lam)
  }

  function Icdf(elam: int, lam: int, k: nat): int {
    if k == 0 then ONE - elam else Icdf(elam, lam, k - 1) - Pmf(elam, lam, k)
  }

  lemma {:induction false} PmfNonNegative(elam: int, lam: int, k: nat)
    requires 0 <= elam && 0 <= lam
    ensures 0 <= Pmf(elam, lam, k)
  {
    if k > 0 {
      PmfNonNegative(elam, lam, k - 1);
      ScaledNonNegative(Pmf(elam, lam, k - 1), k, lam);
    }
  }

  lemma ScaledNonNegative(v: int, k: int, lam: int)
    requires 0 <= v && 0 < k && 0 <= lam
    ensures 0 <= Rsh256(v / k * lam)
  {
    DivAtLeast(v, k, 0);
    assert 0 <= v / k * lam;
  }

  lemma {:induction false} IcdfNeverIncreases(elam: int, lam: int, j: nat, k: nat)
    requires 0 <= elam && 0 <= lam && j <= k
    ensures Icdf(elam, lam, k) <= Icdf(elam, lam, j)
    decreases k
  {
    if j < k {
      IcdfNeverIncreases(elam, lam, j, k - 1);
      PmfNonNegative(elam, lam, k);
    }
  }

  // ----- rounding of the Poisson recurrence -----

  function Factorial(k: nat): nat {
    if k == 0 then 1 else k * Factorial(k - 1)
  }

  lemma {:induction false} FactorialPositive(k: nat)
    ensures Factorial(k) > 0
  {
    if k > 0 { FactorialPositive(k - 1); }
  }

  function Ratio(e: real, w: real, f: real): real
    requires f > 0.0
  {
    e * w / f
  }

  // One step of the recurrence on exact values.
  function ExactStep(e: real, k: nat, lam: int): real
    requires k > 0
  {
    e / k as real * Units(lam)
  }

  /** elam * lambda^k / k!, without rounding. */
  function ExactPmf(elam: int, lam: int, k: nat): real {
    FactorialPositive(k);
    Ratio(elam as real, Pow(Units(lam), k), Factorial(k) as real)
  }

  /** 1 minus the sum of the exact probabilities up to k, in units of 2^-256. */
  function ExactIcdf(elam: int, lam: int, k: nat): real {
    if k == 0 then (ONE - elam) as real else ExactIcdf(elam, lam, k - 1) - ExactPmf(elam, lam, k)
  }

  lemma ExactPmfStep(elam: int, lam: int, k: nat)
    requires k > 0
    ensures ExactPmf(elam, lam, k) == ExactStep(ExactPmf(elam, lam, k - 1), k, lam)
  {
    FactorialPositive(k);
    FactorialPositive(k - 1);
    QuotientStep(elam as real, Pow(Units(lam), k - 1), Units(lam), k as real, Factorial(k - 1) as real,
                 Pow(Units(lam), k), Factorial(k) as real);
  }

  lemma QuotientStep(e: real, w: real, u: real, n: real, f: real, uw: real, nf: real)
    requires n > 0.0 && f > 0.0 && nf > 0.0 && uw == u * w && nf == n * f
    ensures Ratio(e, uw, nf) == Ratio(e, w, f) / n * u
  {
    var z := e * w / f / n;
    assert e * w == z * n * f;
    assert e * uw == (z * u) * nf;
    CancelFactor(e * uw, z * u, nf);
  }

  // Rounding error accumulated by the recurrence after k steps.
  function PmfError(k: nat): real {
    if k == 0 then 0.0 else if k == 1 then 1.0 else if k == 2 then 3.0 else 5.0
  }

  function GrownError(bound: real, k: nat): real
    requires k > 0
  {
    2.0 * ((bound + (k - 1) as real) / k as real) + 1.0
  }

  lemma PmfErrorStep(k: nat)
    requires k > 0
    ensures GrownError(PmfError(k - 1), k) <= PmfError(k)
  {
    var n := k as real;
    if k <= 3 {
    } else {
      DivMono(5.0 + (n - 1.0), 2.0 * n, n);
      CancelFactor(2.0 * n, 2.0, n);
    }
  }

  lemma PmfRoundingStep(v: int, k: nat, lam: int, e: real, bound: real)
    requires k > 0 && 0 <= lam <= 2 * ONE && 0.0 <= e - v as real <= bound
    ensures 0.0 <= ExactStep(e, k, lam) - Rsh256(v / k * lam) as real
                <= GrownError(bound, k)
  {
    DivideDown(v, k, e, bound);
    RoundingStep(v / k, lam, 2, e / k as real, (bound + (k - 1) as real) / k as real);
  }

  lemma {:induction false} PmfRounding(elam: int, lam: int, k: nat)
    requires 0 <= elam && 0 <= lam <= 2 * ONE
    ensures 0.0 <= ExactPmf(elam, lam, k) - Pmf(elam, lam, k) as real <= PmfError(k)
  {
    if k > 0 {
      PmfRounding(elam, lam, k - 1);
      PmfRoundingStep(Pmf(elam, lam, k - 1), k, lam, ExactPmf(elam, lam, k - 1), PmfError(k - 1));
      ExactPmfStep(elam, lam, k);
      PmfErrorStep(k);
    } else {
      assert Pow(Units(lam), 0) == 1.0;
    }
  }

  /** The thresholds used for the election are never below the exact ones and drift by less than 5 units a step. */
  lemma {:induction false} IcdfRounding(elam: int, lam: int, k: nat)
    requires 0 <= elam && 0 <= lam <= 2 * ONE
    ensures 0.0 <= Icdf(elam, lam, k) as real - ExactIcdf(elam, lam, k) <= 5.0 * k as real
  {
    if k > 0 {
      IcdfRounding(elam, lam, k - 1);
      PmfRounding(elam, lam, k);
      assert Icdf(elam, lam, k) as real == Icdf(elam, lam, k - 1) as real - Pmf(elam, lam, k) as real;
    }
  }
}
