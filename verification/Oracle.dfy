/** DioneOracle: requests, their cancellation, and rewarded submissions. */
module Oracle {
  import opened Common
  import opened Token
  import opened Staking

  const MAXIMUM_DELAY: nat := 300
  const TWO_255: int := 0x80000000_00000000_00000000_00000000_00000000_00000000_00000000_00000000

  /** Conversion uint256 -> int256: values of 2^255 and above become negative. */
  function ToInt256(x: nat): int {
    if x < TWO_255 then x else x - 2 * TWO_255
  }

  datatype OracleRequest = OracleRequest(sender: Address, deadline: int)

  datatype Desk = Desk(self: Address, counter: nat, pending: map<nat, OracleRequest>)

  function RequestOracles(d: Desk, sender: Address, now: nat): Option<Desk> {
    if d.counter + 1 > MAX_UINT256 || now + MAXIMUM_DELAY > MAX_UINT256 then None
    else Some(d.(counter := d.counter + 1,
                 pending := d.pending[d.counter + 1 := OracleRequest(sender, ToInt256(now + MAXIMUM_DELAY))]))
  }

  predicate IsPending(d: Desk, id: nat) {
    id in d.pending && d.pending[id].sender != ZERO_ADDRESS
  }

  function CancelOracleRequest(d: Desk, sender: Address, id: nat): Option<Desk> {
    if !IsPending(d, id) || d.pending[id].sender != sender then None
    else Some(d.(pending := d.pending - {id}))
  }

  /** Within the deadline, with the signed subtraction checked for overflow. */
  predicate InTime(deadline: int, now: nat) {
    var left := deadline - ToInt256(now);
    -TWO_255 <= left < TWO_255 && left >= 0
  }

  function SubmitOracleRequest(d: Desk, w: World, sender: Address, id: nat, now: nat, block: nat): Option<(Desk, World)> {
    if !IsPending(d, id) || !InTime(d.pending[id].deadline, now) then None
    else match MineAndStake(w, d.self, sender, block)
      case None => None
      case Some(w') => Some((d.(pending := d.pending - {id}), w'))
  }

  class DioneOracle {
    const self: Address
    const dioneStaking: DioneStaking
    var requestCounter: nat
    var pendingRequests: map<nat, OracleRequest>

    ghost function Model(): Desk
      reads this
    {
      Desk(self, requestCounter, pendingRequests)
    }

    constructor (self: Address, dioneStaking: DioneStaking)
      ensures this.dioneStaking == dioneStaking && Model() == Desk(self, 0, map[])
    {
      this.self, this.dioneStaking, requestCounter, pendingRequests := self, dioneStaking, 0, map[];
    }

    method Request(sender: Address, now: nat) returns (id: Option<nat>)
      modifies this
      ensures id.Some? <==> RequestOracles(old(Model()), sender, now).Some?
      ensures id.Some? ==> Model() == RequestOracles(old(Model()), sender, now).value && id.value == requestCounter
      ensures id.None? ==> Model() == old(Model())
    {
      if requestCounter + 1 > MAX_UINT256 || now + MAXIMUM_DELAY > MAX_UINT256 { return None; }
      requestCounter := requestCounter + 1;
      var requestDeadline := now + MAXIMUM_DELAY;
      pendingRequests := pendingRequests[requestCounter := OracleRequest(sender, ToInt256(requestDeadline))];
      id := Some(requestCounter);
    }

    method Cancel(sender: Address, id: nat) returns (ok: bool)
      modifies this
      ensures ok <==> CancelOracleRequest(old(Model()), sender, id).Some?
      ensures Model() == if ok then CancelOracleRequest(old(Model()), sender, id).value else old(Model())
    {
      if id !in pendingRequests || pendingRequests[id].sender == ZERO_ADDRESS { return false; }
      if sender != pendingRequests[id].sender { return false; }
      pendingRequests := pendingRequests - {id};
      ok := true;
    }

    method Submit(sender: Address, id: nat, now: nat, block: nat) returns (ok: bool)
      modifies this, dioneStaking, dioneStaking.dione
      ensures ok <==> SubmitOracleRequest(old(Model()), old(dioneStaking.Model()), sender, id, now, block).Some?
      ensures (Model(), dioneStaking.Model()) ==
              if ok then SubmitOracleRequest(old(Model()), old(dioneStaking.Model()), sender, id, now, block).value
              else (old(Model()), old(dioneStaking.Model()))
    {
      hide MineAndStake;
      if id !in pendingRequests || pendingRequests[id].sender == ZERO_ADDRESS { return false; }
      if !InTime(pendingRequests[id].deadline, now) { return false; }
      var pending0 := pendingRequests;
      pendingRequests := pendingRequests - {id};
      ok := dioneStaking.MineAndStakeReward(self, sender, block);
      if !ok {
        pendingRequests := pending0;
      }
    }
  }
}
