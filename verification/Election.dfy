/** Stake-weighted leader election: how often a miner wins the current round. */
module Election {
  import opened Common
  import opened FixedPoint
  import opened ExpNeg
  import opened Poisson

  const EXPECTED_LEADERS_PER_EPOCH: int := 2
  const MAX_WIN_COUNT: int := 10 * EXPECTED_LEADERS_PER_EPOCH

  function Lambda(power: int, totalPower: int): int
    requires 0 <= power && 0 < totalPower
  {
    LshDiv(PRECISION, power * EXPECTED_LEADERS_PER_EPOCH, totalPower)
  }

  lemma LambdaUnfolded(power: int, totalPower: int)
    requires 0 <= power && 0 < totalPower
    ensures Lambda(power, totalPower) == power * EXPECTED_LEADERS_PER_EPOCH * ONE / totalPower
  {
    LshDiv256(power * EXPECTED_LEADERS_PER_EPOCH, totalPower);
  }

  lemma LambdaRange(power: int, totalPower: int)
    requires 0 <= power && 0 < totalPower
    ensures 0 <= Lambda(power, totalPower)
    ensures power <= totalPower ==> Lambda(power, totalPower) <= 2 * ONE
  {
    hide Lambda;
    LambdaUnfolded(power, totalPower);
    var n := power * EXPECTED_LEADERS_PER_EPOCH * ONE;
    DivAtLeast(n, totalPower, 0);
    if power <= totalPower {
      assert n < (2 * ONE + 1) * totalPower;
      DivAtMost(n, totalPower, 2 * ONE);
    }
  }

  class Poiss {
    var lam: int
    var pmf: int
    var icdf: int
    var tmp: int
    var k: int

    ghost predicate Valid()
      reads this
    {
      && 0 <= lam && 0 <= k
      && pmf == Pmf(Expneg(lam), lam, k)
      && icdf == Icdf(Expneg(lam), lam, k)
    }

    constructor (lambda: int)
      requires 0 <= lambda
      ensures Valid() && lam == lambda && k == 0
    {
      var e := ComputeExpneg(lambda);
      var elam := e.value;
      lam, pmf, icdf, tmp, k := lambda, elam, ONE - elam, elam, 0;
    }

    method Next() returns (r: int)
      requires Valid() && k < MAX_UINT64
      modifies this
      ensures Valid() && lam == old(lam) && k == old(k) + 1
      ensures r == icdf
    {
      k := k + 1;
      tmp := k;
      pmf := pmf / tmp;
      tmp := pmf * lam;
      pmf := Rsh256(tmp);
      icdf := icdf - pmf;
      r := icdf;
    }
  }

  // ----- win count -----

  function Threshold(power: int, totalPower: int, k: nat): int
    requires 0 <= power && 0 < totalPower
  {
    LambdaRange(power, totalPower);
    var lam := Lambda(power, totalPower);
    Icdf(Expneg(lam), lam, k)
  }

  lemma ThresholdsNeverIncrease(power: int, totalPower: int, j: nat, k: nat)
    requires 0 <= power <= totalPower && 0 < totalPower && j <= k
    ensures Threshold(power, totalPower, k) <= Threshold(power, totalPower, j) < ONE
  {
    hide Lambda, Expneg, Pmf;
    LambdaRange(power, totalPower);
    var lam := Lambda(power, totalPower);
    ExpnegRange(lam);
    IcdfNeverIncreases(Expneg(lam), lam, j, k);
    IcdfNeverIncreases(Expneg(lam), lam, 0, j);
  }

  function Wins(hash: int, power: int, totalPower: int): set<nat>
    requires 0 <= power && 0 < totalPower
  {
    set k: nat | k < MAX_WIN_COUNT && hash < Threshold(power, totalPower, k)
  }

  lemma {:induction false} InitialSegmentSize(s: set<nat>, n: nat)
    requires forall k: nat :: k in s <==> k < n
    ensures |s| == n
  {
    if n > 0 {
      InitialSegmentSize(s - {n - 1}, n - 1);
    } else {
      assert s == {};
    }
  }

  /** `hash` is the 256-bit digest of the VRF proof; the stakes are unsigned integers read from the chain. */
  method ComputeWinCount(hash: int, power: int, totalPower: int) returns (j: int)
    requires 0 <= power && 0 < totalPower
    ensures 0 <= j <= MAX_WIN_COUNT
    ensures forall k :: 0 <= k < j ==> hash < Threshold(power, totalPower, k)
    ensures j < MAX_WIN_COUNT ==> Threshold(power, totalPower, j) <= hash
    ensures power <= totalPower ==> j == |Wins(hash, power, totalPower)|
  {
    hide Lambda, Expneg, Icdf, Pmf;
    LambdaRange(power, totalPower);
    LambdaUnfolded(power, totalPower);
    var lam := power * EXPECTED_LEADERS_PER_EPOCH;
    lam := lam * ONE;
    lam := lam / totalPower;
    var p := new Poiss(lam);
    var rhs := p.icdf;
    j := 0;
    while hash < rhs && j < MAX_WIN_COUNT
      invariant 0 <= j <= MAX_WIN_COUNT
      invariant p.Valid() && p.lam == lam && p.k == j
      invariant rhs == p.icdf == Threshold(power, totalPower, j)
      invariant forall k :: 0 <= k < j ==> hash < Threshold(power, totalPower, k)
      decreases MAX_WIN_COUNT - j
    {
      rhs := p.Next();
      j := j + 1;
    }
    if power <= totalPower {
      forall k: nat | j <= k < MAX_WIN_COUNT
        ensures !(hash < Threshold(power, totalPower, k))
      {
        ThresholdsNeverIncrease(power, totalPower, j, k);
      }
      InitialSegmentSize(Wins(hash, power, totalPower), j);
    }
  }

  /** A smaller digest never wins less often. */
  lemma WinsAntitoneInHash(hash1: int, hash2: int, power: int, totalPower: int)
    requires 0 <= power && 0 < totalPower && hash1 <= hash2
    ensures Wins(hash2, power, totalPower) <= Wins(hash1, power, totalPower)
    ensures |Wins(hash2, power, totalPower)| <= |Wins(hash1, power, totalPower)|
  {
    hide Threshold;
    SubsetSize(Wins(hash2, power, totalPower), Wins(hash1, power, totalPower));
  }

  lemma FirstThreshold(power: int, totalPower: int)
    requires 0 <= power && 0 < totalPower
    ensures 0 <= Lambda(power, totalPower) && Threshold(power, totalPower, 0) == ONE - Expneg(Lambda(power, totalPower))
  {
    hide Lambda, Expneg;
    LambdaRange(power, totalPower);
  }

  /** A miner without stake never wins. */
  lemma NoStakeNoWin(hash: int, totalPower: int)
    requires 0 <= hash && 0 < totalPower
    ensures Wins(hash, 0, totalPower) == {}
  {
    hide Lambda, Expneg, Icdf;
    LambdaUnfolded(0, totalPower);
    ExpnegAtZero();
    FirstThreshold(0, totalPower);
    forall k: nat | k < MAX_WIN_COUNT
      ensures Threshold(0, totalPower, k) <= 0
    {
      ThresholdsNeverIncrease(0, totalPower, 0, k);
    }
  }
}
