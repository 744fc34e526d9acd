/** Delegated votes against balances, and the total of all votes. */
module TokenDelegation {
  import opened Common
  import opened Sums
  import opened Token
  import opened TokenRuns

  // ----- what one move changes -----

  function Change(a: Address, src: Address, dst: Address, amount: nat): int {
    (if a == dst && a != ZERO_ADDRESS then amount else 0) - (if a == src && a != ZERO_ADDRESS then amount else 0)
  }

  lemma LatestWritten(h: seq<Checkpoint>, block: nat, votes: nat)
    requires Written(h, block, votes).Some?
    ensures Latest(Written(h, block, votes).value) == votes
  {
  }

  lemma SetVotesChanges(s: State, a: Address, block: nat, votes: nat, x: Address)
    requires SetVotes(s, a, block, votes).Some?
    ensures var s' := SetVotes(s, a, block, votes).value;
            && CurrentVotes(s', x) == (if x == a then votes else CurrentVotes(s, x))
            && s' == s.(checkpoints := s'.checkpoints)
  {
    hide Written, Latest;
    LatestWritten(History(s, a), block, votes);
  }

  lemma MoveChanges(s: State, src: Address, dst: Address, amount: nat, block: nat, x: Address)
    requires src != dst && MoveDelegates(s, src, dst, amount, block).Some?
    ensures var s' := MoveDelegates(s, src, dst, amount, block).value;
            && CurrentVotes(s', x) == CurrentVotes(s, x) + Change(x, src, dst, amount)
            && s' == s.(checkpoints := s'.checkpoints)
  {
    hide SetVotes, CurrentVotes;
    if amount > 0 {
      var s1 := s;
      if src != ZERO_ADDRESS {
        SetVotesChanges(s, src, block, CurrentVotes(s, src) - amount, x);
        SetVotesChanges(s, src, block, CurrentVotes(s, src) - amount, dst);
        s1 := Debit(s, src, amount, block).value;
      }
      if dst != ZERO_ADDRESS {
        SetVotesChanges(s1, dst, block, CurrentVotes(s1, dst) + amount, x);
      }
    }
  }

  // ----- the total of all current votes, in every state -----

  ghost function VotesMap(s: State): map<Address, nat> {
    map a | a in s.checkpoints :: Latest(s.checkpoints[a])
  }

  ghost function TotalVotes(s: State): nat {
    Sum(VotesMap(s))
  }

  lemma SetVotesTotal(s: State, a: Address, block: nat, votes: nat)
    requires SetVotes(s, a, block, votes).Some?
    ensures TotalVotes(SetVotes(s, a, block, votes).value) + CurrentVotes(s, a) == TotalVotes(s) + votes
  {
    var s' := SetVotes(s, a, block, votes).value;
    LatestWritten(History(s, a), block, votes);
    assert VotesMap(s') == VotesMap(s)[a := votes];
    SumUpdate(VotesMap(s), a, votes);
  }

  /** A move changes the total by exactly what enters from, or leaves to, the zero address. */
  lemma MoveTotal(s: State, src: Address, dst: Address, amount: nat, block: nat)
    requires MoveDelegates(s, src, dst, amount, block).Some?
    ensures TotalVotes(MoveDelegates(s, src, dst, amount, block).value)
            == TotalVotes(s) + (if src == ZERO_ADDRESS && dst != ZERO_ADDRESS then amount else 0)
                             - (if src != ZERO_ADDRESS && dst == ZERO_ADDRESS then amount else 0)
  {
    hide SetVotes, CurrentVotes, TotalVotes;
    if src != dst && amount > 0 {
      var s1 := s;
      if src != ZERO_ADDRESS {
        SetVotesTotal(s, src, block, CurrentVotes(s, src) - amount);
        s1 := Debit(s, src, amount, block).value;
      }
      if dst != ZERO_ADDRESS {
        SetVotesTotal(s1, dst, block, CurrentVotes(s1, dst) + amount);
      }
    }
  }

  /** In any run, transfers included, every call changes the total of all votes by its move alone. */
  lemma StepTotal(s: State, st: Step)
    requires Exec(s, st).Some?
    ensures var m := MoveOf(s, st.call);
            TotalVotes(After(s, st))
            == TotalVotes(s) + (if m.src == ZERO_ADDRESS && m.dst != ZERO_ADDRESS then m.amount else 0)
                             - (if m.src != ZERO_ADDRESS && m.dst == ZERO_ADDRESS then m.amount else 0)
  {
    hide MoveDelegates, TotalVotes;
    var m := MoveOf(s, st.call);
    match st.call
    case MintCall(_, to, amount) =>
      var s1 := s.(totalSupply := s.totalSupply + amount, balances := s.balances[to := Get(s.balances, to) + amount]);
      SameCheckpoints(s, s1);
      MoveTotal(s1, m.src, m.dst, m.amount, st.block);
    case DelegateCall(delegator, delegatee) =>
      var s1 := s.(delegates := s.delegates[delegator := delegatee]);
      SameCheckpoints(s, s1);
      MoveTotal(s1, m.src, m.dst, m.amount, st.block);
    case DelegateBySigCall(signatory, delegatee, nonce, _, _) =>
      var s1 := s.(nonces := s.nonces[signatory := nonce + 1], delegates := s.delegates[signatory := delegatee]);
      SameCheckpoints(s, s1);
      MoveTotal(s1, m.src, m.dst, m.amount, st.block);
    case TransferCall(_, _, _) =>
      SameCheckpoints(s, After(s, st));
  }

  lemma SameCheckpoints(s: State, s': State)
    requires s.checkpoints == s'.checkpoints
    ensures TotalVotes(s) == TotalVotes(s')
  {
  }

  // ----- votes are the delegated balances, as long as no tokens are transferred -----

  ghost function Entrusted(s: State, d: Address): map<Address, nat> {
    map a | a in s.balances && DelegateOf(s, a) == d :: s.balances[a]
  }

  ghost predicate VotesAreBalances(s: State) {
    && s.totalSupply == Sum(s.balances) && s.totalSupply <= MAX_UINT256
    && forall d: Address {:trigger CurrentVotes(s, d)} :: d != ZERO_ADDRESS ==> CurrentVotes(s, d) == Sum(Entrusted(s, d))
  }

  lemma MintEntrusts(s: State, to: Address, amount: nat, d: Address)
    ensures var s1 := s.(totalSupply := s.totalSupply + amount, balances := s.balances[to := Get(s.balances, to) + amount]);
            && Sum(s1.balances) == Sum(s.balances) + amount
            && Sum(Entrusted(s1, d)) == Sum(Entrusted(s, d)) + if d == DelegateOf(s, to) then amount else 0
  {
    hide Sum;
    var v := Get(s.balances, to) + amount;
    var s1 := s.(totalSupply := s.totalSupply + amount, balances := s.balances[to := v]);
    SumUpdate(s.balances, to, v);
    if d == DelegateOf(s, to) {
      assert Entrusted(s1, d) == Entrusted(s, d)[to := v];
      assert Get(Entrusted(s, d), to) == Get(s.balances, to);
      SumUpdate(Entrusted(s, d), to, v);
    } else {
      assert Entrusted(s1, d) == Entrusted(s, d);
    }
  }

  lemma DelegateEntrusts(s: State, x: Address, dst: Address, d: Address)
    requires DelegateOf(s, x) != dst
    ensures var s1 := s.(delegates := s.delegates[x := dst]);
            Sum(Entrusted(s1, d)) == Sum(Entrusted(s, d)) + (if d == dst then Get(s.balances, x) else 0)
                                                          - (if d == DelegateOf(s, x) then Get(s.balances, x) else 0)
  {
    hide Sum;
    var s1 := s.(delegates := s.delegates[x := dst]);
    if x !in s.balances {
      assert Entrusted(s1, d) == Entrusted(s, d);
    } else if d == dst {
      assert Entrusted(s1, d) == Entrusted(s, d)[x := s.balances[x]];
      SumUpdate(Entrusted(s, d), x, s.balances[x]);
    } else if d == DelegateOf(s, x) {
      assert Entrusted(s1, d) == Entrusted(s, d) - {x};
      SumRemove(Entrusted(s, d), x);
    } else {
      assert Entrusted(s1, d) == Entrusted(s, d);
    }
  }

  lemma EntrustedFields(s: State, s': State, d: Address)
    requires s.balances == s'.balances && s.delegates == s'.delegates
    ensures Entrusted(s, d) == Entrusted(s', d)
  {
  }

  lemma MintKeepsVotes(s: State, sender: Address, to: Address, amount: nat, block: nat)
    requires VotesAreBalances(s) && Mint(s, sender, to, amount, block).Some?
    ensures VotesAreBalances(Mint(s, sender, to, amount, block).value)
  {
    hide MoveDelegates, CurrentVotes, Entrusted, Sum;
    var s1 := s.(totalSupply := s.totalSupply + amount, balances := s.balances[to := Get(s.balances, to) + amount]);
    var dst := DelegateOf(s, to);
    var s' := Mint(s, sender, to, amount, block).value;
    SameVotes(s, s1);
    MintEntrusts(s, to, amount, dst);
    if dst == ZERO_ADDRESS { NothingMoved(s1, dst, amount, block); } else { MoveChanges(s1, ZERO_ADDRESS, dst, amount, block, dst); }
    forall d: Address | d != ZERO_ADDRESS
      ensures CurrentVotes(s', d) == Sum(Entrusted(s', d))
    {
      MintEntrusts(s, to, amount, d);
      EntrustedFields(s1, s', d);
      assert CurrentVotes(s, d) == Sum(Entrusted(s, d));
      if dst != ZERO_ADDRESS { MoveChanges(s1, ZERO_ADDRESS, dst, amount, block, d); }
    }
  }

  lemma NothingMoved(s: State, dst: Address, amount: nat, block: nat)
    ensures MoveDelegates(s, dst, dst, amount, block) == Some(s)
  {
  }

  lemma SameVotes(s: State, s': State)
    requires s.checkpoints == s'.checkpoints
    ensures forall d: Address {:trigger CurrentVotes(s', d)} :: CurrentVotes(s', d) == CurrentVotes(s, d)
  {
  }

  lemma DelegateKeepsVotes(s: State, x: Address, dst: Address, block: nat)
    requires VotesAreBalances(s) && Delegate(s, x, dst, block).Some?
    ensures VotesAreBalances(Delegate(s, x, dst, block).value)
  {
    hide MoveDelegates, CurrentVotes, Entrusted, Sum;
    var src := DelegateOf(s, x);
    var amount := Get(s.balances, x);
    var s1 := s.(delegates := s.delegates[x := dst]);
    var s' := Delegate(s, x, dst, block).value;
    SameVotes(s, s1);
    if src == dst {
      NothingMoved(s1, dst, amount, block);
    } else {
      MoveChanges(s1, src, dst, amount, block, dst);
    }
    forall d: Address | d != ZERO_ADDRESS
      ensures CurrentVotes(s', d) == Sum(Entrusted(s', d))
    {
      assert CurrentVotes(s, d) == Sum(Entrusted(s, d));
      EntrustedFields(s1, s', d);
      if src == dst {
        SameDelegate(s, x, d);
      } else {
        DelegateEntrusts(s, x, dst, d);
        MoveChanges(s1, src, dst, amount, block, d);
      }
    }
  }

  lemma SameDelegate(s: State, x: Address, d: Address)
    ensures Entrusted(s.(delegates := s.delegates[x := DelegateOf(s, x)]), d) == Entrusted(s, d)
  {
  }

  lemma NonceKeepsVotes(s: State, nonces: map<Address, nat>)
    requires VotesAreBalances(s)
    ensures VotesAreBalances(s.(nonces := nonces))
  {
    hide Sum;
    var s' := s.(nonces := nonces);
    forall d: Address | d != ZERO_ADDRESS
      ensures CurrentVotes(s', d) == Sum(Entrusted(s', d))
    {
      assert CurrentVotes(s, d) == Sum(Entrusted(s, d));
      EntrustedFields(s, s', d);
    }
  }

  lemma StepKeepsVotes(s: State, st: Step)
    requires VotesAreBalances(s) && !st.call.TransferCall?
    ensures VotesAreBalances(After(s, st))
  {
    hide VotesAreBalances, Mint, Delegate;
    if Exec(s, st).Some? {
      match st.call
      case MintCall(sender, to, amount) => MintKeepsVotes(s, sender, to, amount, st.block);
      case DelegateCall(delegator, delegatee) => DelegateKeepsVotes(s, delegator, delegatee, st.block);
      case DelegateBySigCall(signatory, delegatee, nonce, _, _) =>
        var nonces := s.nonces[signatory := nonce + 1];
        NonceKeepsVotes(s, nonces);
        DelegateKeepsVotes(s.(nonces := nonces), signatory, delegatee, st.block);
    }
  }

  /** Over every run of mint, delegate and delegateBySig, a delegate's votes are the balances delegated to it. */
  lemma {:induction false} RunKeepsVotes(owner: Address, steps: seq<Step>)
    requires forall i :: 0 <= i < |steps| ==> !steps[i].call.TransferCall?
    ensures VotesAreBalances(Run(Deployed(owner), steps))
  {
    if steps == [] {
      assert forall d: Address :: Entrusted(Deployed(owner), d) == map[];
    } else {
      var n := |steps| - 1;
      RunKeepsVotes(owner, steps[..n]);
      StepKeepsVotes(Run(Deployed(owner), steps[..n]), steps[n]);
    }
  }

  /** When a delegation reverts, in any state whose checkpoints are well formed. */
  lemma DelegateRevertsIff(s: State, x: Address, dst: Address, block: nat)
    requires 1 <= block < TWO_32 && forall a: Address {:trigger History(s, a)} :: WellFormed(History(s, a), block)
    ensures var src, amount := DelegateOf(s, x), Get(s.balances, x);
            Delegate(s, x, dst, block).None? <==>
              && src != dst && amount > 0
              && (|| (src != ZERO_ADDRESS && CurrentVotes(s, src) < amount)
                  || (dst != ZERO_ADDRESS && CurrentVotes(s, dst) + amount > MAX_UINT256))
  {
    hide Written, WellFormed;
    var src, amount := DelegateOf(s, x), Get(s.balances, x);
    var s1 := s.(delegates := s.delegates[x := dst]);
    assert WellFormed(History(s, src), block) && WellFormed(History(s, dst), block);
    assert History(s1, src) == History(s, src);
    if CurrentVotes(s, src) >= amount {
      CheckpointCountFits(History(s, src), block, CurrentVotes(s, src) - amount);
    }
    CheckpointCountFits(History(s, dst), block, CurrentVotes(s, dst) + amount);
  }

  /** So in a run without transfers no delegation ever reverts while block numbers fit 32 bits. */
  lemma {:induction false} DelegationNeverReverts(owner: Address, steps: seq<Step>, x: Address, dst: Address, block: nat)
    requires forall i :: 0 <= i < |steps| ==> !steps[i].call.TransferCall?
    requires Chronological(steps) && LastBlock(steps) <= block < TWO_32
    ensures Delegate(Run(Deployed(owner), steps), x, dst, block).Some?
  {
    var s, p := Run(Deployed(owner), steps), PlainRun(Deployed(owner), steps);
    RunTracks(owner, steps);
    TracksFields(s, s, p, LastBlock(steps), block);
    DelegateRevertsIff(s, x, dst, block);
    RunKeepsVotes(owner, steps);
    var src, amount := DelegateOf(s, x), Get(s.balances, x);
    assert src != ZERO_ADDRESS ==> CurrentVotes(s, src) == Sum(Entrusted(s, src));
    assert dst != ZERO_ADDRESS ==> CurrentVotes(s, dst) == Sum(Entrusted(s, dst));
    if src != dst && amount > 0 {
      assert Get(Entrusted(s, src), x) == amount;
      SumAtLeast(Entrusted(s, src), x);
      EntrustedPlusOther(s, x, dst);
    }
  }

  /** An account delegating elsewhere and everything delegated to d fit in the supply together. */
  lemma EntrustedPlusOther(s: State, x: Address, d: Address)
    requires DelegateOf(s, x) != d
    ensures Sum(Entrusted(s, d)) + Get(s.balances, x) <= Sum(s.balances)
  {
    if x in s.balances {
      SumRemove(s.balances, x);
      SumSubmap(Entrusted(s, d), s.balances - {x});
    } else {
      SumSubmap(Entrusted(s, d), s.balances);
    }
  }

  /** Transfers do not move votes: after one, a delegation of the received tokens can revert. */
  lemma TransferBreaksDelegation(owner: Address)
    requires owner != ZERO_ADDRESS
    ensures var s0 := Deployed(owner);
            var s1 := After(s0, Step(1, MintCall(owner, 2, 10)));
            var s2 := After(s1, Step(1, DelegateCall(3, 4)));
            var s3 := After(s2, Step(1, TransferCall(2, 3, 10)));
            Get(s3.balances, 3) == 10 && CurrentVotes(s3, 4) == 0 && Exec(s3, Step(2, DelegateCall(3, 5))).None?
  {
  }
}
