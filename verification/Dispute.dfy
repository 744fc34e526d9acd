/** DioneDispute: stake-weighted votes against a miner, and the slashing that may follow. */
module Dispute {
  import opened Common
  import opened Token
  import opened Staking
  import opened Oracle

  /** Disputes are identified by the hash of the accused miner and the request; the pair stands for the hash. */
  type DisputeId = (Address, nat)

  datatype Case = Case(
    sum: int,
    finished: bool,
    result: bool,
    miner: Address,
    initiator: Address,
    timestamp: nat,
    voted: seq<Address>)

  const NO_CASE := Case(0, false, false, ZERO_ADDRESS, ZERO_ADDRESS, 0, [])

  datatype Court = Court(self: Address, voteWindowTime: nat, minStake: nat, disputes: map<DisputeId, Case>)

  function CaseOf(c: Court, id: DisputeId): Case {
    if id in c.disputes then c.disputes[id] else NO_CASE
  }

  function BeginDispute(c: Court, p: Pool, sender: Address, miner: Address, requestID: nat, now: nat): Option<Court> {
    var id := (miner, requestID);
    if CaseOf(c, id).miner != ZERO_ADDRESS || !IsMiner(p.miners, p.minimumStake, sender) then None
    else Some(c.(disputes := c.disputes[id := Case(0, false, false, miner, sender, now, CaseOf(c, id).voted)]))
  }

  function Weighted(stake: nat, voteStatus: bool): int {
    if voteStatus then ToInt256(stake) else -ToInt256(stake)
  }

  function Vote(c: Court, p: Pool, sender: Address, id: DisputeId, voteStatus: bool): Option<Court> {
    var d := CaseOf(c, id);
    var stake := Amount(p.miners, sender);
    if || d.initiator == ZERO_ADDRESS || d.finished || sender == d.initiator || sender == d.miner
       || !IsMiner(p.miners, p.minimumStake, sender) || stake < c.minStake
       || !(-TWO_255 <= d.sum + Weighted(stake, voteStatus) < TWO_255)
    then None
    else Some(c.(disputes := c.disputes[id := d.(sum := d.sum + Weighted(stake, voteStatus), voted := d.voted + [sender])]))
  }

  function FinishDispute(c: Court, p: Pool, sender: Address, id: DisputeId, now: nat): Option<(Court, Pool)> {
    var d := CaseOf(c, id);
    if d.initiator == ZERO_ADDRESS || now < d.timestamp || now - d.timestamp < c.voteWindowTime || d.finished || d.initiator != sender then None
    else if d.sum <= 0 then
      Some((c.(disputes := c.disputes[id := d.(result := false, finished := true)]), p))
    else
      match SlashMiner(p, c.self, d.miner, d.voted + [sender])
      case None => None
      case Some(p') =>
        Some((c.(disputes := c.disputes[id := d.(result := true, finished := true, voted := d.voted + [sender])]), p'))
  }

  class DioneDispute {
    const self: Address
    const dioneStaking: DioneStaking
    const voteWindowTime: nat
    const minStake: nat
    var disputes: map<DisputeId, Case>

    ghost function Model(): Court
      reads this
    {
      Court(self, voteWindowTime, minStake, disputes)
    }

    constructor (self: Address, dioneStaking: DioneStaking, voteWindowTime: nat, minStake: nat)
      ensures this.dioneStaking == dioneStaking && Model() == Court(self, voteWindowTime, minStake, map[])
    {
      this.self, this.dioneStaking, this.voteWindowTime, this.minStake := self, dioneStaking, voteWindowTime, minStake;
      disputes := map[];
    }

    method Begin(sender: Address, miner: Address, requestID: nat, now: nat) returns (ok: bool)
      modifies this
      ensures ok <==> BeginDispute(old(Model()), dioneStaking.Model().pool, sender, miner, requestID, now).Some?
      ensures Model() == if ok then BeginDispute(old(Model()), dioneStaking.Model().pool, sender, miner, requestID, now).value else old(Model())
    {
      var dhash := (miner, requestID);
      var d := if dhash in disputes then disputes[dhash] else NO_CASE;
      var callerIsMiner := dioneStaking.IsMinerNow(sender);
      if d.miner != ZERO_ADDRESS || !callerIsMiner { return false; }
      d := d.(sum := 0, finished := false, result := false);
      d := d.(miner := miner, timestamp := now, initiator := sender);
      disputes := disputes[dhash := d];
      ok := true;
    }

    method CastVote(sender: Address, id: DisputeId, voteStatus: bool) returns (ok: bool)
      modifies this
      ensures ok <==> Vote(old(Model()), dioneStaking.Model().pool, sender, id, voteStatus).Some?
      ensures Model() == if ok then Vote(old(Model()), dioneStaking.Model().pool, sender, id, voteStatus).value else old(Model())
    {
      var d := if id in disputes then disputes[id] else NO_CASE;
      if d.initiator == ZERO_ADDRESS || d.finished || sender == d.initiator || sender == d.miner { return false; }
      var callerIsMiner := dioneStaking.IsMinerNow(sender);
      var stake := Amount(dioneStaking.minerInfo, sender);
      if !callerIsMiner || stake < minStake { return false; }
      var sum := if voteStatus then d.sum + ToInt256(stake) else d.sum - ToInt256(stake);
      if sum < -TWO_255 || sum >= TWO_255 { return false; }
      disputes := disputes[id := d.(sum := sum, voted := d.voted + [sender])];
      ok := true;
    }

    method Finish(sender: Address, id: DisputeId, now: nat) returns (ok: bool)
      modifies this, dioneStaking
      ensures ok <==> FinishDispute(old(Model()), old(dioneStaking.Model()).pool, sender, id, now).Some?
      ensures (Model(), dioneStaking.Model().pool) ==
              if ok then FinishDispute(old(Model()), old(dioneStaking.Model()).pool, sender, id, now).value
              else (old(Model()), old(dioneStaking.Model()).pool)
      ensures dioneStaking.Model().token == old(dioneStaking.Model()).token
    {
      hide SlashMiner;
      var d := if id in disputes then disputes[id] else NO_CASE;
      if d.initiator == ZERO_ADDRESS || now < d.timestamp || now - d.timestamp < voteWindowTime { return false; }
      if d.finished || d.initiator != sender { return false; }
      var disputes0 := disputes;
      if d.sum <= 0 {
        disputes := disputes[id := d.(result := false)];
      } else {
        disputes := disputes[id := d.(result := true, voted := d.voted + [sender])];
        var slashed := dioneStaking.Slash(self, d.miner, disputes[id].voted);
        if !slashed {
          disputes := disputes0;
          return false;
        }
      }
      disputes := disputes[id := disputes[id].(finished := true)];
      assert disputes == disputes0[id := disputes[id]];
      ok := true;
    }
  }
}
