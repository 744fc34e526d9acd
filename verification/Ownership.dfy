/** Who sets the parameters of the staking contract. */
module Ownership {
  import opened Common
  import T = Token
  import opened Staking
  import opened Oracle
  import opened Dispute
  import opened System

  datatype Parameter = MinerReward | MinimumStake | OracleContract | DisputeContract | Owner

  function Value(p: Pool, q: Parameter): nat {
    match q
    case MinerReward => p.minerReward
    case MinimumStake => p.minimumStake
    case OracleContract => p.oracle
    case DisputeContract => p.dispute
    case Owner => p.owner
  }

  /** The value a call asks for. */
  function Asked(c: Call, q: Parameter): Option<nat> {
    match c
    case SetMinerReward(reward) => if q.MinerReward? then Some(reward) else None
    case SetMinimumStake(minimum) => if q.MinimumStake? then Some(minimum) else None
    case SetOracleContract(addr) => if q.OracleContract? then Some(addr) else None
    case SetDisputeContract(addr) => if q.DisputeContract? then Some(addr) else None
    case StakingOwner(newOwner) => if q.Owner? then Some(newOwner) else None
    case StakingRenounce => if q.Owner? then Some(0) else None
    case _ => None
  }

  predicate OwnerAsks(y: Sys, st: Step, q: Parameter) {
    && External(y, st.sender) && st.sender == y.world.pool.owner
    && Asked(st.call, q).Some? && (st.call.StakingRenounce? || Asked(st.call, q).value > 0)
  }

  lemma SubmitKeeps(d: Desk, w: World, sender: Address, id: nat, now: nat, block: nat)
    requires SubmitOracleRequest(d, w, sender, id, now, block).Some?
    ensures var w' := SubmitOracleRequest(d, w, sender, id, now, block).value.1;
            w'.pool == w.pool.(miners := w'.pool.miners, totalStake := w'.pool.totalStake)
  {
    hide T.Mint;
  }

  lemma FinishKeeps(c: Court, p: Pool, sender: Address, id: DisputeId, now: nat)
    requires FinishDispute(c, p, sender, id, now).Some?
    ensures var p' := FinishDispute(c, p, sender, id, now).value.1;
            p' == p.(miners := p'.miners)
  {
    hide SlashRounds;
  }

  /** A parameter changes exactly when the owner asks for a legal value. */
  lemma ParameterStep(y: Sys, st: Step, q: Parameter)
    ensures Value(After(y, st).world.pool, q) ==
            if OwnerAsks(y, st, q) then Asked(st.call, q).value else Value(y.world.pool, q)
    ensures After(y, st).world.pool.startBlock == y.world.pool.startBlock
  {
    hide T.Mint, T.Transfer, T.Delegate, T.DelegateBySig, SlashRounds, RequestOracles, CancelOracleRequest, BeginDispute, Vote,
         SubmitOracleRequest, FinishDispute;
    if Exec(y, st).Some? {
      match st.call
      case SubmitCall(id) => SubmitKeeps(y.desk, y.world, st.sender, id, st.now, st.block);
      case FinishCall(id) => FinishKeeps(y.court, y.world.pool, st.sender, id, st.now);
      case _ =>
    }
  }

  /** Over every run: where a parameter differs between two moments, the owner of the time set it in between. */
  lemma {:induction false} SetByOwner(y: Sys, steps: seq<Step>, s: nat, t: nat, q: Parameter) returns (i: nat)
    requires s <= t <= |steps| && Value(At(y, steps, s).world.pool, q) != Value(At(y, steps, t).world.pool, q)
    ensures s <= i < t && steps[i].sender == At(y, steps, i).world.pool.owner
    ensures Asked(steps[i].call, q) == Some(Value(At(y, steps, t).world.pool, q))
    ensures steps[i].call.StakingRenounce? || Value(At(y, steps, t).world.pool, q) > 0
    decreases t
  {
    hide After;
    ParameterStep(At(y, steps, t - 1), steps[t - 1], q);
    if OwnerAsks(At(y, steps, t - 1), steps[t - 1], q) {
      i := t - 1;
    } else {
      i := SetByOwner(y, steps, s, t - 1, q);
    }
  }
}
