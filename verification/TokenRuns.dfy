/** What the vote checkpoints guarantee over whole runs of the token. */
module TokenRuns {
  import opened Common
  import opened Sums
  import opened Token

  datatype Call =
    | MintCall(sender: Address, to: Address, amount: nat)
    | DelegateCall(delegator: Address, delegatee: Address)
    | DelegateBySigCall(signatory: Address, delegatee: Address, nonce: nat, expiry: nat, now: nat)
    | TransferCall(from: Address, to: Address, amount: nat)

  datatype Step = Step(block: nat, call: Call)

  function Exec(s: State, st: Step): Option<State> {
    match st.call
    case MintCall(sender, to, amount) => Mint(s, sender, to, amount, st.block)
    case DelegateCall(delegator, delegatee) => Delegate(s, delegator, delegatee, st.block)
    case DelegateBySigCall(signatory, delegatee, nonce, expiry, now) =>
      DelegateBySig(s, signatory, delegatee, nonce, expiry, now, st.block)
    case TransferCall(from, to, amount) => Transfer(s, from, to, amount)
  }

  function After(s: State, st: Step): State {
    match Exec(s, st) case Some(s') => s' case None => s
  }

  function Run(s: State, steps: seq<Step>): State {
    if steps == [] then s else After(Run(s, steps[..|steps| - 1]), steps[|steps| - 1])
  }

  function Deployed(owner: Address): State {
    State(owner, map[], 0, map[], map[], map[])
  }

  /** Block numbers start at 1 and never go back. */
  ghost predicate Chronological(steps: seq<Step>) {
    && (forall i :: 0 <= i < |steps| ==> 1 <= steps[i].block)
    && (forall i, j :: 0 <= i < j < |steps| ==> steps[i].block <= steps[j].block)
  }

  function LastBlock(steps: seq<Step>): nat {
    if steps == [] then 1 else steps[|steps| - 1].block
  }

  // ----- the plain ledger: one number per delegate, and a record of every change -----

  datatype Entry = Entry(account: Address, block: nat, votes: int)

  datatype Plain = Plain(votes: map<Address, int>, log: seq<Entry>)

  function VotesOf(p: Plain, a: Address): int {
    if a in p.votes then p.votes[a] else 0
  }

  function PlainSet(p: Plain, a: Address, block: nat, votes: int): Plain {
    Plain(p.votes[a := votes], p.log + [Entry(a, block, votes)])
  }

  datatype Move = Move(src: Address, dst: Address, amount: nat)

  /** The votes a call moves, from one delegate to another. */
  function MoveOf(s: State, c: Call): Move {
    match c
    case MintCall(_, to, amount) => Move(ZERO_ADDRESS, DelegateOf(s, to), amount)
    case DelegateCall(delegator, delegatee) => Move(DelegateOf(s, delegator), delegatee, Get(s.balances, delegator))
    case DelegateBySigCall(signatory, delegatee, _, _, _) => Move(DelegateOf(s, signatory), delegatee, Get(s.balances, signatory))
    case TransferCall(_, _, _) => Move(ZERO_ADDRESS, ZERO_ADDRESS, 0)
  }

  function PlainMove(p: Plain, m: Move, block: nat): Plain {
    if m.src == m.dst || m.amount == 0 then p
    else
      var p1 := if m.src == ZERO_ADDRESS then p else PlainSet(p, m.src, block, VotesOf(p, m.src) - m.amount);
      if m.dst == ZERO_ADDRESS then p1 else PlainSet(p1, m.dst, block, VotesOf(p1, m.dst) + m.amount)
  }

  /** The last recorded value of an account at or before block b. */
  function VotesAt(log: seq<Entry>, a: Address, b: nat): int {
    if log == [] then 0
    else
      var e := log[|log| - 1];
      if e.account == a && e.block <= b then e.votes else VotesAt(log[..|log| - 1], a, b)
  }

  // ----- one account's checkpoints against its plain history -----

  ghost predicate WellFormed(h: seq<Checkpoint>, block: nat) {
    && Increasing(h)
    && (h != [] ==> 1 <= h[0].fromBlock && h[|h| - 1].fromBlock <= block)
  }

  ghost predicate Agree(h: seq<Checkpoint>, p: Plain, a: Address) {
    Latest(h) == VotesOf(p, a) && forall b: nat :: Lookup(h, b) == VotesAt(p.log, a, b)
  }

  lemma LookupSnoc(h: seq<Checkpoint>, c: Checkpoint, b: nat)
    ensures Lookup(h + [c], b) == if c.fromBlock <= b then c.votes else Lookup(h, b)
  {
    assert (h + [c])[..|h|] == h;
  }

  lemma VotesAtSnoc(log: seq<Entry>, e: Entry, a: Address, b: nat)
    ensures VotesAt(log + [e], a, b) == if e.account == a && e.block <= b then e.votes else VotesAt(log, a, b)
  {
    assert (log + [e])[..|log|] == log;
  }

  lemma WrittenAgrees(h: seq<Checkpoint>, p: Plain, a: Address, block: nat, votes: nat)
    requires WellFormed(h, block) && 1 <= block && Agree(h, p, a) && Written(h, block, votes).Some?
    ensures WellFormed(Written(h, block, votes).value, block)
    ensures Agree(Written(h, block, votes).value, PlainSet(p, a, block, votes), a)
  {
    hide Lookup, VotesAt;
    var h' := Written(h, block, votes).value;
    var p' := PlainSet(p, a, block, votes);
    var replace := h != [] && h[|h| - 1].fromBlock == block;
    var base := if replace then h[..|h| - 1] else h;
    assert h' == base + [Checkpoint(block, votes)];
    forall b: nat
      ensures Lookup(h', b) == VotesAt(p'.log, a, b)
    {
      LookupSnoc(base, Checkpoint(block, votes), b);
      VotesAtSnoc(p.log, Entry(a, block, votes), a, b);
      if replace {
        assert h == base + [h[|h| - 1]];
        LookupSnoc(base, h[|h| - 1], b);
      }
    }
  }

  lemma OtherAgrees(h: seq<Checkpoint>, p: Plain, a: Address, x: Address, block: nat, votes: nat)
    requires Agree(h, p, a) && a != x
    ensures Agree(h, PlainSet(p, x, block, votes), a)
  {
    hide Lookup, VotesAt;
    forall b: nat
      ensures Lookup(h, b) == VotesAt(PlainSet(p, x, block, votes).log, a, b)
    {
      VotesAtSnoc(p.log, Entry(x, block, votes), a, b);
    }
  }

  ghost predicate Tracks(s: State, p: Plain, block: nat) {
    forall a: Address {:trigger History(s, a)} :: WellFormed(History(s, a), block) && Agree(History(s, a), p, a)
  }

  lemma SetVotesTracks(s: State, p: Plain, a: Address, block: nat, votes: nat)
    requires Tracks(s, p, block) && 1 <= block && SetVotes(s, a, block, votes).Some?
    ensures Tracks(SetVotes(s, a, block, votes).value, PlainSet(p, a, block, votes), block)
  {
    hide Agree, WellFormed, Written, PlainSet;
    var s' := SetVotes(s, a, block, votes).value;
    forall x: Address
      ensures WellFormed(History(s', x), block) && Agree(History(s', x), PlainSet(p, a, block, votes), x)
    {
      assert WellFormed(History(s, x), block);
      if x == a {
        WrittenAgrees(History(s, a), p, a, block, votes);
      } else {
        OtherAgrees(History(s, x), p, x, a, block, votes);
      }
    }
  }

  lemma VotesTracked(s: State, p: Plain, a: Address, block: nat)
    requires Tracks(s, p, block)
    ensures CurrentVotes(s, a) == VotesOf(p, a)
  {
    assert Agree(History(s, a), p, a);
  }

  lemma MoveTracks(s: State, p: Plain, m: Move, block: nat)
    requires Tracks(s, p, block) && 1 <= block && MoveDelegates(s, m.src, m.dst, m.amount, block).Some?
    ensures Tracks(MoveDelegates(s, m.src, m.dst, m.amount, block).value, PlainMove(p, m, block), block)
  {
    hide Tracks, SetVotes, CurrentVotes;
    VotesTracked(s, p, m.src, block);
    if m.src != m.dst && m.amount > 0 {
      var s1, p1 := s, p;
      if m.src != ZERO_ADDRESS {
        SetVotesTracks(s, p, m.src, block, CurrentVotes(s, m.src) - m.amount);
        s1, p1 := Debit(s, m.src, m.amount, block).value, PlainSet(p, m.src, block, CurrentVotes(s, m.src) - m.amount);
      }
      if m.dst != ZERO_ADDRESS {
        VotesTracked(s1, p1, m.dst, block);
        SetVotesTracks(s1, p1, m.dst, block, CurrentVotes(s1, m.dst) + m.amount);
      }
    }
  }

  lemma TracksFields(s: State, s': State, p: Plain, block: nat, block': nat)
    requires Tracks(s, p, block) && s'.checkpoints == s.checkpoints && block <= block'
    ensures Tracks(s', p, block')
  {
    hide Agree;
    forall a: Address
      ensures WellFormed(History(s', a), block') && Agree(History(s', a), p, a)
    {
      assert History(s', a) == History(s, a);
    }
  }

  /** The plain ledger of a run. */
  function PlainRun(s: State, steps: seq<Step>): Plain {
    if steps == [] then Plain(map[], [])
    else
      var rest, st := steps[..|steps| - 1], steps[|steps| - 1];
      var before := Run(s, rest);
      if Exec(before, st).None? then PlainRun(s, rest)
      else PlainMove(PlainRun(s, rest), MoveOf(before, st.call), st.block)
  }

  lemma StepTracks(s: State, p: Plain, st: Step)
    requires Tracks(s, p, st.block) && 1 <= st.block && Exec(s, st).Some?
    ensures Tracks(After(s, st), PlainMove(p, MoveOf(s, st.call), st.block), st.block)
  {
    hide Tracks, MoveDelegates, PlainMove;
    var m := MoveOf(s, st.call);
    match st.call
    case MintCall(sender, to, amount) =>
      var s1 := s.(totalSupply := s.totalSupply + amount, balances := s.balances[to := Get(s.balances, to) + amount]);
      TracksFields(s, s1, p, st.block, st.block);
      MoveTracks(s1, p, m, st.block);
    case DelegateCall(delegator, delegatee) =>
      var s1 := s.(delegates := s.delegates[delegator := delegatee]);
      TracksFields(s, s1, p, st.block, st.block);
      MoveTracks(s1, p, m, st.block);
    case DelegateBySigCall(signatory, delegatee, nonce, expiry, now) =>
      var s1 := s.(nonces := s.nonces[signatory := nonce + 1], delegates := s.delegates[signatory := delegatee]);
      TracksFields(s, s1, p, st.block, st.block);
      MoveTracks(s1, p, m, st.block);
    case TransferCall(from, to, amount) =>
      TracksFields(s, After(s, st), p, st.block, st.block);
      NoMove(p, st.block);
  }

  lemma NoMove(p: Plain, block: nat)
    ensures PlainMove(p, Move(ZERO_ADDRESS, ZERO_ADDRESS, 0), block) == p
  {
  }

  lemma {:induction false} RunTracks(owner: Address, steps: seq<Step>)
    requires Chronological(steps)
    ensures Tracks(Run(Deployed(owner), steps), PlainRun(Deployed(owner), steps), LastBlock(steps))
  {
    if steps == [] {
      forall a: Address, b: nat
        ensures Lookup(History(Deployed(owner), a), b) == VotesAt([], a, b)
      {
      }
    } else {
      var rest, st := steps[..|steps| - 1], steps[|steps| - 1];
      RunTracks(owner, rest);
      var s, p := Run(Deployed(owner), rest), PlainRun(Deployed(owner), rest);
      TracksFields(s, s, p, LastBlock(rest), st.block);
      if Exec(s, st).Some? {
        StepTracks(s, p, st);
      }
    }
  }

  /** In every run, what the binary search is proved to return is the last vote value written at or before the
      requested block, and the newest checkpoint is the current value. */
  lemma PriorVotesAreHistory(owner: Address, steps: seq<Step>, a: Address, b: nat)
    requires Chronological(steps)
    ensures Increasing(History(Run(Deployed(owner), steps), a))
    ensures CurrentVotes(Run(Deployed(owner), steps), a) == VotesOf(PlainRun(Deployed(owner), steps), a)
    ensures Lookup(History(Run(Deployed(owner), steps), a), b) == VotesAt(PlainRun(Deployed(owner), steps).log, a, b)
  {
    RunTracks(owner, steps);
    assert Agree(History(Run(Deployed(owner), steps), a), PlainRun(Deployed(owner), steps), a);
  }

  lemma PlainMoveKeepsPast(p: Plain, m: Move, block: nat, a: Address, b: nat)
    requires b < block
    ensures VotesAt(PlainMove(p, m, block).log, a, b) == VotesAt(p.log, a, b)
  {
    hide VotesAt;
    if m.src != m.dst && m.amount > 0 {
      var p1 := p;
      if m.src != ZERO_ADDRESS {
        var v := VotesOf(p, m.src) - m.amount;
        VotesAtSnoc(p.log, Entry(m.src, block, v), a, b);
        p1 := PlainSet(p, m.src, block, v);
      }
      if m.dst != ZERO_ADDRESS {
        VotesAtSnoc(p1.log, Entry(m.dst, block, VotesOf(p1, m.dst) + m.amount), a, b);
      }
    }
  }

  lemma {:induction false} PlainLogKeepsPast(s: State, steps: seq<Step>, more: seq<Step>, a: Address, b: nat)
    requires forall i :: 0 <= i < |more| ==> b < more[i].block
    ensures VotesAt(PlainRun(s, steps + more).log, a, b) == VotesAt(PlainRun(s, steps).log, a, b)
  {
    if more == [] {
      assert steps + more == steps;
    } else {
      var n := |more| - 1;
      assert (steps + more)[..|steps + more| - 1] == steps + more[..n];
      PlainLogKeepsPast(s, steps, more[..n], a, b);
      var st := more[n];
      assert (steps + more)[|steps + more| - 1] == st;
      var before := Run(s, steps + more[..n]);
      PlainMoveKeepsPast(PlainRun(s, steps + more[..n]), MoveOf(before, st.call), st.block, a, b);
    }
  }

  /** Once block b is in the past, no later call changes the answer for it. */
  lemma PriorVotesNeverChange(owner: Address, steps: seq<Step>, more: seq<Step>, a: Address, b: nat)
    requires Chronological(steps + more)
    requires forall i :: 0 <= i < |more| ==> b < more[i].block
    ensures Lookup(History(Run(Deployed(owner), steps + more), a), b) == Lookup(History(Run(Deployed(owner), steps), a), b)
  {
    assert Chronological(steps) by {
      assert forall i :: 0 <= i < |steps| ==> (steps + more)[i] == steps[i];
    }
    PriorVotesAreHistory(owner, steps, a, b);
    PriorVotesAreHistory(owner, steps + more, a, b);
    PlainLogKeepsPast(Deployed(owner), steps, more, a, b);
  }

  lemma {:induction false} CountBound(h: seq<Checkpoint>, block: nat, i: nat)
    requires WellFormed(h, block) && i < |h|
    ensures i + 1 <= h[i].fromBlock
  {
    if i > 0 { CountBound(h, block, i - 1); }
  }

  /** Writing a checkpoint in a run that starts at block 1 or later fails only when the block number itself
      does not fit 32 bits: the checkpoint count never overflows. */
  lemma CheckpointCountFits(h: seq<Checkpoint>, block: nat, votes: nat)
    requires WellFormed(h, block) && 1 <= block
    ensures Written(h, block, votes).Some? <==> block < TWO_32
  {
    if h != [] { CountBound(h, block, |h| - 1); }
  }

  lemma RunCheckpointCountFits(owner: Address, steps: seq<Step>, a: Address, block: nat, votes: nat)
    requires Chronological(steps) && LastBlock(steps) <= block
    ensures SetVotes(Run(Deployed(owner), steps), a, block, votes).Some? <==> block < TWO_32
  {
    var s := Run(Deployed(owner), steps);
    RunTracks(owner, steps);
    TracksFields(s, s, PlainRun(Deployed(owner), steps), LastBlock(steps), block);
    assert WellFormed(History(s, a), block);
    CheckpointCountFits(History(s, a), block, votes);
  }

  // ----- signed delegations -----

  /** Call i goes through and is a delegation signed by x. */
  predicate Signed(s: State, steps: seq<Step>, i: nat, x: Address)
    requires i < |steps|
  {
    steps[i].call.DelegateBySigCall? && steps[i].call.signatory == x && Exec(Run(s, steps[..i]), steps[i]).Some?
  }

  function SignedCount(s: State, steps: seq<Step>, t: nat, x: Address): nat
    requires t <= |steps|
  {
    if t == 0 then 0 else SignedCount(s, steps, t - 1, x) + if Signed(s, steps, t - 1, x) then 1 else 0
  }

  lemma NonceStep(s: State, st: Step, x: Address)
    ensures Get(After(s, st).nonces, x)
            == Get(s.nonces, x) + if st.call.DelegateBySigCall? && st.call.signatory == x && Exec(s, st).Some? then 1 else 0
  {
    hide MoveDelegates;
    if Exec(s, st).Some? {
      match st.call
      case MintCall(_, to, amount) =>
        MoveKeepsFields(s.(totalSupply := s.totalSupply + amount, balances := s.balances[to := Get(s.balances, to) + amount]),
                        ZERO_ADDRESS, DelegateOf(s, to), amount, st.block);
      case DelegateCall(delegator, delegatee) => DelegateKeepsNonces(s, delegator, delegatee, st.block);
      case DelegateBySigCall(signatory, delegatee, nonce, _, _) =>
        DelegateKeepsNonces(s.(nonces := s.nonces[signatory := nonce + 1]), signatory, delegatee, st.block);
      case TransferCall(_, _, _) =>
    }
  }

  lemma DelegateKeepsNonces(s: State, delegator: Address, delegatee: Address, block: nat)
    requires Delegate(s, delegator, delegatee, block).Some?
    ensures Delegate(s, delegator, delegatee, block).value.nonces == s.nonces
  {
    hide MoveDelegates;
    MoveKeepsFields(s.(delegates := s.delegates[delegator := delegatee]), DelegateOf(s, delegator), delegatee,
                    Get(s.balances, delegator), block);
  }

  /** An account's nonce counts the signed delegations of it that went through. */
  lemma {:induction false} NonceCounts(owner: Address, steps: seq<Step>, t: nat, x: Address)
    requires t <= |steps|
    ensures Get(Run(Deployed(owner), steps[..t]).nonces, x) == SignedCount(Deployed(owner), steps, t, x)
  {
    hide Exec;
    if t > 0 {
      NonceCounts(owner, steps, t - 1, x);
      assert steps[..t][..t - 1] == steps[..t - 1];
      NonceStep(Run(Deployed(owner), steps[..t - 1]), steps[t - 1], x);
    }
  }

  lemma {:induction false} SignedCountGrows(s: State, steps: seq<Step>, i: nat, j: nat, x: Address)
    requires i < j <= |steps| && Signed(s, steps, i, x)
    ensures SignedCount(s, steps, i, x) < SignedCount(s, steps, j, x)
  {
    hide Exec;
    if i + 1 < j { SignedCountGrows(s, steps, i, j - 1, x); }
  }

  lemma SignedIff(s: State, signatory: Address, delegatee: Address, nonce: nat, expiry: nat, now: nat, block: nat)
    ensures DelegateBySig(s, signatory, delegatee, nonce, expiry, now, block).Some? <==>
            && signatory != ZERO_ADDRESS && nonce == Get(s.nonces, signatory) && nonce < MAX_UINT256 && now <= expiry
            && Delegate(s.(nonces := s.nonces[signatory := nonce + 1]), signatory, delegatee, block).Some?
  {
    hide Delegate;
  }

  /** A signed delegation goes through in time only, and no nonce of a signer is accepted twice in a run. */
  lemma NonceUsedOnce(owner: Address, steps: seq<Step>, i: nat, j: nat, x: Address)
    requires i < |steps| && j < |steps| && Signed(Deployed(owner), steps, i, x) && Signed(Deployed(owner), steps, j, x)
    ensures steps[i].call.now <= steps[i].call.expiry
    ensures steps[i].call.nonce == steps[j].call.nonce ==> i == j
  {
    hide Delegate;
    NonceCounts(owner, steps, i, x);
    NonceCounts(owner, steps, j, x);
    if i < j { SignedCountGrows(Deployed(owner), steps, i, j, x); }
    if j < i { SignedCountGrows(Deployed(owner), steps, j, i, x); }
  }
}
