/** DioneToken: an ERC20 token whose delegated votes are kept as checkpoints. A reverted call is None. */
module Token {
  import opened Common
  import opened Sums

  const TWO_32: nat := 0x1_0000_0000

  datatype Checkpoint = Checkpoint(fromBlock: nat, votes: nat)

  datatype State = State(
    owner: Address,
    balances: map<Address, nat>,
    totalSupply: nat,
    delegates: map<Address, Address>,
    checkpoints: map<Address, seq<Checkpoint>>,
    nonces: map<Address, nat>)

  function DelegateOf(s: State, a: Address): Address {
    if a in s.delegates then s.delegates[a] else ZERO_ADDRESS
  }

  function History(s: State, a: Address): seq<Checkpoint> {
    if a in s.checkpoints then s.checkpoints[a] else []
  }

  function Latest(h: seq<Checkpoint>): nat {
    if h == [] then 0 else h[|h| - 1].votes
  }

  function CurrentVotes(s: State, a: Address): nat {
    Latest(History(s, a))
  }

  /** The value of the last checkpoint at or before block b, found by walking back from the newest one. */
  function Lookup(h: seq<Checkpoint>, b: nat): nat {
    if h == [] then 0
    else if h[|h| - 1].fromBlock <= b then h[|h| - 1].votes
    else Lookup(h[..|h| - 1], b)
  }

  function Written(h: seq<Checkpoint>, block: nat, votes: nat): Option<seq<Checkpoint>> {
    if block >= TWO_32 then None
    else if h != [] && h[|h| - 1].fromBlock == block then Some(h[..|h| - 1] + [Checkpoint(block, votes)])
    else if |h| + 1 >= TWO_32 then None
    else Some(h + [Checkpoint(block, votes)])
  }

  function SetVotes(s: State, a: Address, block: nat, votes: nat): Option<State> {
    match Written(History(s, a), block, votes)
    case None => None
    case Some(h) => Some(s.(checkpoints := s.checkpoints[a := h]))
  }

  function Debit(s: State, a: Address, amount: nat, block: nat): Option<State> {
    if a == ZERO_ADDRESS then Some(s)
    else if CurrentVotes(s, a) < amount then None
    else SetVotes(s, a, block, CurrentVotes(s, a) - amount)
  }

  function Credit(s: State, a: Address, amount: nat, block: nat): Option<State> {
    if a == ZERO_ADDRESS then Some(s)
    else if CurrentVotes(s, a) + amount > MAX_UINT256 then None
    else SetVotes(s, a, block, CurrentVotes(s, a) + amount)
  }

  function MoveDelegates(s: State, src: Address, dst: Address, amount: nat, block: nat): Option<State> {
    if src == dst || amount == 0 then Some(s)
    else match Debit(s, src, amount, block)
      case None => None
      case Some(s1) => Credit(s1, dst, amount, block)
  }

  function Mint(s: State, sender: Address, to: Address, amount: nat, block: nat): Option<State> {
    if sender != s.owner || to == ZERO_ADDRESS || s.totalSupply + amount > MAX_UINT256 then None
    else
      MoveDelegates(s.(totalSupply := s.totalSupply + amount, balances := s.balances[to := Get(s.balances, to) + amount]),
                    ZERO_ADDRESS, DelegateOf(s, to), amount, block)
  }

  function Delegate(s: State, delegator: Address, delegatee: Address, block: nat): Option<State> {
    MoveDelegates(s.(delegates := s.delegates[delegator := delegatee]),
                  DelegateOf(s, delegator), delegatee, Get(s.balances, delegator), block)
  }

  /** `signatory` is what ecrecover returned for the signed message. */
  function DelegateBySig(s: State, signatory: Address, delegatee: Address, nonce: nat, expiry: nat, now: nat, block: nat): Option<State> {
    if signatory == ZERO_ADDRESS || nonce != Get(s.nonces, signatory) || nonce + 1 > MAX_UINT256 || now > expiry then None
    else Delegate(s.(nonces := s.nonces[signatory := nonce + 1]), signatory, delegatee, block)
  }

  /** EIP-20 transfer; it does not move delegated votes. */
  function Transfer(s: State, from: Address, to: Address, amount: nat): Option<State> {
    if from == ZERO_ADDRESS || to == ZERO_ADDRESS || Get(s.balances, from) < amount then None
    else
      var debited := s.balances[from := Get(s.balances, from) - amount];
      Some(s.(balances := debited[to := Get(debited, to) + amount]))
  }

  lemma MoveKeepsFields(s: State, src: Address, dst: Address, amount: nat, block: nat)
    requires MoveDelegates(s, src, dst, amount, block).Some?
    ensures var s' := MoveDelegates(s, src, dst, amount, block).value;
            s' == s.(checkpoints := s'.checkpoints)
  {
  }

  ghost predicate Increasing(h: seq<Checkpoint>) {
    forall i, j :: 0 <= i < j < |h| ==> h[i].fromBlock < h[j].fromBlock
  }

  lemma {:induction false} LookupFound(h: seq<Checkpoint>, i: nat, b: nat)
    requires Increasing(h) && i < |h| && h[i].fromBlock <= b
    requires i + 1 < |h| ==> b < h[i + 1].fromBlock
    ensures Lookup(h, b) == h[i].votes
  {
    if i + 1 < |h| {
      assert b < h[|h| - 1].fromBlock;
      LookupFound(h[..|h| - 1], i, b);
    }
  }

  lemma {:induction false} LookupBeforeFirst(h: seq<Checkpoint>, b: nat)
    requires Increasing(h) && (h != [] ==> b < h[0].fromBlock)
    ensures Lookup(h, b) == 0
  {
    if h != [] {
      assert b < h[|h| - 1].fromBlock;
      LookupBeforeFirst(h[..|h| - 1], b);
    }
  }

  // ----- checkpoints as the contract stores them: a mapping by index, and a count -----

  function RowAt(row: map<nat, Checkpoint>, i: nat): Checkpoint {
    if i in row then row[i] else Checkpoint(0, 0)
  }

  function RowOf(rows: map<Address, map<nat, Checkpoint>>, a: Address): map<nat, Checkpoint> {
    if a in rows then rows[a] else map[]
  }

  function Listed(row: map<nat, Checkpoint>, n: nat): seq<Checkpoint> {
    if n == 0 then [] else Listed(row, n - 1) + [RowAt(row, n - 1)]
  }

  function Histories(rows: map<Address, map<nat, Checkpoint>>, counts: map<Address, nat>): map<Address, seq<Checkpoint>> {
    map a | a in counts :: Listed(RowOf(rows, a), counts[a])
  }

  lemma {:induction false} ListedAt(row: map<nat, Checkpoint>, n: nat)
    ensures |Listed(row, n)| == n && forall i :: 0 <= i < n ==> Listed(row, n)[i] == RowAt(row, i)
  {
    if n > 0 { ListedAt(row, n - 1); }
  }

  lemma {:induction false} ListedUpdate(row: map<nat, Checkpoint>, n: nat, k: nat, c: Checkpoint)
    requires n <= k
    ensures Listed(row[k := c], n) == Listed(row, n)
  {
    if n > 0 { ListedUpdate(row, n - 1, k, c); }
  }

  /** Storing a checkpoint at index k and keeping k + 1 of them. */
  lemma HistoriesUpdate(rows: map<Address, map<nat, Checkpoint>>, counts: map<Address, nat>, a: Address, k: nat, c: Checkpoint)
    ensures Histories(rows[a := RowOf(rows, a)[k := c]], counts[a := k + 1])
            == Histories(rows, counts)[a := Listed(RowOf(rows, a), k) + [c]]
  {
    hide Listed;
    ListedUpdate(RowOf(rows, a), k, k, c);
    var row := RowOf(rows, a)[k := c];
    ListedLast(row, k);
    var after := Histories(rows[a := row], counts[a := k + 1]);
    assert after[a] == Listed(RowOf(rows, a), k) + [c];
    assert forall x :: x in counts && x != a ==> after[x] == Histories(rows, counts)[x];
  }

  lemma HistoryIsListed(rows: map<Address, map<nat, Checkpoint>>, counts: map<Address, nat>, a: Address)
    ensures (if a in Histories(rows, counts) then Histories(rows, counts)[a] else []) == Listed(RowOf(rows, a), Get(counts, a))
  {
  }

  lemma ListedLast(row: map<nat, Checkpoint>, k: nat)
    ensures Listed(row, k + 1) == Listed(row, k) + [RowAt(row, k)]
  {
  }

  class DioneToken {
    var owner: Address
    var balances: map<Address, nat>
    var totalSupply: nat
    var delegates: map<Address, Address>
    var checkpoints: map<Address, map<nat, Checkpoint>>
    var numCheckpoints: map<Address, nat>
    var nonces: map<Address, nat>

    function CheckpointAt(a: Address, i: nat): Checkpoint
      reads this`checkpoints
    {
      RowAt(RowOf(checkpoints, a), i)
    }

    ghost function Model(): State
      reads this
    {
      State(owner, balances, totalSupply, delegates, Histories(checkpoints, numCheckpoints), nonces)
    }

    constructor (owner: Address)
      ensures Model() == State(owner, map[], 0, map[], map[], map[])
    {
      this.owner := owner;
      balances, totalSupply, delegates, checkpoints, numCheckpoints, nonces := map[], 0, map[], map[], map[], map[];
    }

    method GetCurrentVotes(account: Address) returns (votes: nat)
      ensures votes == CurrentVotes(Model(), account)
    {
      ListedAt(RowOf(checkpoints, account), Get(numCheckpoints, account));
      var nCheckpoints := Get(numCheckpoints, account);
      votes := if nCheckpoints > 0 then CheckpointAt(account, nCheckpoints - 1).votes else 0;
    }

    method GetPriorVotes(account: Address, blockNumber: nat, current: nat) returns (r: Option<nat>)
      requires Increasing(History(Model(), account))
      ensures r == if blockNumber < current then Some(Lookup(History(Model(), account), blockNumber)) else None
    {
      if blockNumber >= current { return None; }
      ghost var h := History(Model(), account);
      var nCheckpoints := Get(numCheckpoints, account);
      ListedAt(RowOf(checkpoints, account), nCheckpoints);
      if nCheckpoints == 0 { return Some(0); }
      if CheckpointAt(account, nCheckpoints - 1).fromBlock <= blockNumber {
        return Some(CheckpointAt(account, nCheckpoints - 1).votes);
      }
      if CheckpointAt(account, 0).fromBlock > blockNumber {
        LookupBeforeFirst(h, blockNumber);
        return Some(0);
      }
      var lower, upper := 0, nCheckpoints - 1;
      while upper > lower
        invariant 0 <= lower <= upper < |h|
        invariant h[lower].fromBlock <= blockNumber
        invariant upper + 1 < |h| ==> blockNumber < h[upper + 1].fromBlock
      {
        var center := upper - (upper - lower) / 2;
        assert lower < center <= upper;
        var cp := CheckpointAt(account, center);
        if cp.fromBlock == blockNumber {
          assert center + 1 < |h| ==> h[center].fromBlock < h[center + 1].fromBlock;
          LookupFound(h, center, blockNumber);
          return Some(cp.votes);
        } else if cp.fromBlock < blockNumber {
          lower := center;
        } else {
          upper := center - 1;
        }
      }
      LookupFound(h, lower, blockNumber);
      r := Some(CheckpointAt(account, lower).votes);
    }

    method WriteCheckpoint(delegatee: Address, nCheckpoints: nat, newVotes: nat, block: nat) returns (ok: bool)
      requires nCheckpoints == Get(numCheckpoints, delegatee)
      modifies this`checkpoints, this`numCheckpoints
      ensures ok <==> SetVotes(old(Model()), delegatee, block, newVotes).Some?
      ensures ok ==> Model() == SetVotes(old(Model()), delegatee, block, newVotes).value
      ensures !ok ==> checkpoints == old(checkpoints) && numCheckpoints == old(numCheckpoints)
    {
      hide Listed, Histories;
      if block >= TWO_32 { return false; }
      HistoryIsListed(checkpoints, numCheckpoints, delegatee);
      if nCheckpoints > 0 { ListedLast(RowOf(checkpoints, delegatee), nCheckpoints - 1); }
      ListedAt(RowOf(checkpoints, delegatee), nCheckpoints);
      var row := RowOf(checkpoints, delegatee);
      if nCheckpoints > 0 && CheckpointAt(delegatee, nCheckpoints - 1).fromBlock == block {
        HistoriesUpdate(checkpoints, numCheckpoints, delegatee, nCheckpoints - 1, Checkpoint(block, newVotes));
        assert numCheckpoints[delegatee := nCheckpoints] == numCheckpoints;
        checkpoints := checkpoints[delegatee := row[nCheckpoints - 1 := Checkpoint(block, newVotes)]];
      } else {
        if nCheckpoints + 1 >= TWO_32 { return false; }
        HistoriesUpdate(checkpoints, numCheckpoints, delegatee, nCheckpoints, Checkpoint(block, newVotes));
        checkpoints := checkpoints[delegatee := row[nCheckpoints := Checkpoint(block, newVotes)]];
        numCheckpoints := numCheckpoints[delegatee := nCheckpoints + 1];
      }
      ok := true;
    }

    method MoveDelegatesInPlace(srcRep: Address, dstRep: Address, amount: nat, block: nat) returns (ok: bool)
      modifies this`checkpoints, this`numCheckpoints
      ensures ok <==> MoveDelegates(old(Model()), srcRep, dstRep, amount, block).Some?
      ensures ok ==> Model() == MoveDelegates(old(Model()), srcRep, dstRep, amount, block).value
      ensures !ok ==> checkpoints == old(checkpoints) && numCheckpoints == old(numCheckpoints)
    {
      hide SetVotes, Histories, CurrentVotes;
      var checkpoints0, numCheckpoints0 := checkpoints, numCheckpoints;
      if srcRep != dstRep && amount > 0 {
        if srcRep != ZERO_ADDRESS {
          var srcRepNum := Get(numCheckpoints, srcRep);
          var srcRepOld := GetCurrentVotes(srcRep);
          if srcRepOld < amount { return false; }
          var wrote := WriteCheckpoint(srcRep, srcRepNum, srcRepOld - amount, block);
          if !wrote { return false; }
        }
        if dstRep != ZERO_ADDRESS {
          var dstRepNum := Get(numCheckpoints, dstRep);
          var dstRepOld := GetCurrentVotes(dstRep);
          var wrote := false;
          if dstRepOld + amount <= MAX_UINT256 {
            wrote := WriteCheckpoint(dstRep, dstRepNum, dstRepOld + amount, block);
          }
          if !wrote {
            checkpoints, numCheckpoints := checkpoints0, numCheckpoints0;
            return false;
          }
        }
      }
      ok := true;
    }

    method MintTo(sender: Address, to: Address, amount: nat, block: nat) returns (ok: bool)
      modifies this
      ensures ok <==> Mint(old(Model()), sender, to, amount, block).Some?
      ensures Model() == if ok then Mint(old(Model()), sender, to, amount, block).value else old(Model())
    {
      hide MoveDelegates, Histories;
      if sender != owner || to == ZERO_ADDRESS || totalSupply + amount > MAX_UINT256 { return false; }
      var supply0, balances0 := totalSupply, balances;
      totalSupply := totalSupply + amount;
      balances := balances[to := Get(balances, to) + amount];
      ok := MoveDelegatesInPlace(ZERO_ADDRESS, if to in delegates then delegates[to] else ZERO_ADDRESS, amount, block);
      if !ok {
        totalSupply, balances := supply0, balances0;
      }
    }

    method DelegateVotes(delegator: Address, delegatee: Address, block: nat) returns (ok: bool)
      modifies this
      ensures ok <==> Delegate(old(Model()), delegator, delegatee, block).Some?
      ensures Model() == if ok then Delegate(old(Model()), delegator, delegatee, block).value else old(Model())
    {
      hide MoveDelegates, Histories;
      var currentDelegate := if delegator in delegates then delegates[delegator] else ZERO_ADDRESS;
      var delegatorBalance := Get(balances, delegator);
      var delegates0 := delegates;
      delegates := delegates[delegator := delegatee];
      ok := MoveDelegatesInPlace(currentDelegate, delegatee, delegatorBalance, block);
      if !ok {
        delegates := delegates0;
      }
    }

    method DelegateVotesBySig(signatory: Address, delegatee: Address, nonce: nat, expiry: nat, now: nat, block: nat) returns (ok: bool)
      modifies this
      ensures ok <==> DelegateBySig(old(Model()), signatory, delegatee, nonce, expiry, now, block).Some?
      ensures Model() == if ok then DelegateBySig(old(Model()), signatory, delegatee, nonce, expiry, now, block).value else old(Model())
    {
      hide Delegate, Histories;
      if signatory == ZERO_ADDRESS || nonce != Get(nonces, signatory) || nonce + 1 > MAX_UINT256 || now > expiry { return false; }
      var nonces0 := nonces;
      nonces := nonces[signatory := nonce + 1];
      ok := DelegateVotes(signatory, delegatee, block);
      if !ok {
        nonces := nonces0;
      }
    }

    method TransferTokens(from: Address, to: Address, amount: nat) returns (ok: bool)
      modifies this`balances
      ensures ok <==> Transfer(old(Model()), from, to, amount).Some?
      ensures Model() == if ok then Transfer(old(Model()), from, to, amount).value else old(Model())
    {
      hide Histories;
      if from == ZERO_ADDRESS || to == ZERO_ADDRESS || Get(balances, from) < amount { return false; }
      balances := balances[from := Get(balances, from) - amount];
      balances := balances[to := Get(balances, to) + amount];
      ok := true;
    }
  }
}
