/** The stakes of the staking contract are what the leader election expects. */
module ElectionStakes {
  import opened Common
  import opened FixedPoint
  import opened ExpNeg
  import opened Election
  import opened Staking
  import S = System

  /** A miner's stake and the total stake, read from one reachable state, satisfy the precondition under which
      the win count is the number of thresholds above the hash; an account without stake never wins. */
  lemma StakesFitElection(y: S.Sys, steps: seq<S.Step>, t: nat, miner: Address, hash: int)
    requires S.Deployed(y) && t <= |steps| && 0 <= hash
    requires S.At(y, steps, t).world.pool.totalStake > 0
    ensures var p := S.At(y, steps, t).world.pool;
            var power := Amount(p.miners, miner);
            && power <= p.totalStake
            && 0 <= Lambda(power, p.totalStake) <= 2 * ONE
            && 0 < Expneg(Lambda(power, p.totalStake)) <= ONE
            && (power == 0 ==> Wins(hash, power, p.totalStake) == {})
  {
    var p := S.At(y, steps, t).world.pool;
    var power := Amount(p.miners, miner);
    S.StakeLedger(y, steps, t, miner);
    LambdaRange(power, p.totalStake);
    ExpnegRange(Lambda(power, p.totalStake));
    if power == 0 { NoStakeNoWin(hash, p.totalStake); }
  }
}
