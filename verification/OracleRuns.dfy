/** The life of oracle requests over whole runs of the system. */
module OracleRuns {
  import opened Common
  import opened Sums
  import opened Oracle
  import opened Staking
  import opened System
  import opened Accounts

  /** Call i issues request `id`. */
  predicate Issues(y: Sys, steps: seq<Step>, i: nat, id: nat)
    requires i < |steps|
  {
    Succeeds(y, steps, i) && steps[i].call.RequestCall? && At(y, steps, i + 1).desk.counter == id
  }

  predicate Cancels(y: Sys, steps: seq<Step>, i: nat, id: nat)
    requires i < |steps|
  {
    Succeeds(y, steps, i) && steps[i].call == CancelCall(id)
  }

  predicate Submits(y: Sys, steps: seq<Step>, i: nat, id: nat)
    requires i < |steps|
  {
    Succeeds(y, steps, i) && steps[i].call == SubmitCall(id)
  }

  predicate Ends(y: Sys, steps: seq<Step>, i: nat, id: nat)
    requires i < |steps|
  {
    Cancels(y, steps, i, id) || Submits(y, steps, i, id)
  }

  lemma DeskCall(y: Sys, st: Step)
    requires Exec(y, st).Some?
    ensures var d, d' := y.desk, After(y, st).desk;
            && d'.self == d.self && st.sender != ZERO_ADDRESS
            && (st.call.RequestCall? ==>
                  && d'.counter == d.counter + 1
                  && d'.pending == d.pending[d.counter + 1 := OracleRequest(st.sender, ToInt256(st.now + MAXIMUM_DELAY))])
            && (st.call.CancelCall? || st.call.SubmitCall? ==>
                  d'.counter == d.counter && d'.pending == d.pending - {st.call.id} && IsPending(d, st.call.id))
            && (!st.call.RequestCall? && !st.call.CancelCall? && !st.call.SubmitCall? ==> d' == d)
  {
    hide MineAndStake, StakeTokens, Withdraw, Mine, SlashMiner, T.Mint, T.Transfer, T.Delegate, T.DelegateBySig;
  }

  /** What one call does to the oracle contract. */
  lemma DeskStep(y: Sys, steps: seq<Step>, i: nat)
    requires i < |steps|
    ensures var d, d', st := At(y, steps, i).desk, At(y, steps, i + 1).desk, steps[i];
            && d'.self == d.self
            && (!Succeeds(y, steps, i) ==> d' == d)
            && (Succeeds(y, steps, i) ==> st.sender != ZERO_ADDRESS)
            && (Succeeds(y, steps, i) && st.call.RequestCall? ==>
                  && d'.counter == d.counter + 1
                  && d'.pending == d.pending[d.counter + 1 := OracleRequest(st.sender, ToInt256(st.now + MAXIMUM_DELAY))])
            && (forall id: nat {:trigger Ends(y, steps, i, id)} :: Ends(y, steps, i, id) ==>
                  d'.counter == d.counter && d'.pending == d.pending - {id} && IsPending(d, id))
            && (!st.call.RequestCall? && !st.call.CancelCall? && !st.call.SubmitCall? ==> d' == d)
  {
    hide Exec, IsPending, ToInt256;
    if Succeeds(y, steps, i) { DeskCall(At(y, steps, i), steps[i]); }
  }

  lemma {:induction false} CounterNeverFalls(y: Sys, steps: seq<Step>, i: nat, j: nat)
    requires i <= j <= |steps|
    ensures At(y, steps, i).desk.counter <= At(y, steps, j).desk.counter
  {
    hide At, Exec;
    if i < j {
      CounterNeverFalls(y, steps, i, j - 1);
      DeskStep(y, steps, j - 1);
      NotDeskCall(y, steps, j - 1);
    }
  }

  lemma NotDeskCall(y: Sys, steps: seq<Step>, i: nat)
    requires i < |steps|
    ensures Succeeds(y, steps, i) && steps[i].call.CancelCall? ==> Ends(y, steps, i, steps[i].call.id)
    ensures Succeeds(y, steps, i) && steps[i].call.SubmitCall? ==> Ends(y, steps, i, steps[i].call.id)
  {
    hide At, Exec;
  }

  /** Later requests get larger identifiers, so no identifier is issued twice. */
  lemma RequestIdsIncrease(y: Sys, steps: seq<Step>, i: nat, j: nat, id1: nat, id2: nat)
    requires i < j < |steps| && Issues(y, steps, i, id1) && Issues(y, steps, j, id2)
    ensures id1 < id2
  {
    hide At, Exec;
    CounterNeverFalls(y, steps, i + 1, j);
    DeskStep(y, steps, j);
  }

  ghost predicate IssuedBefore(y: Sys, steps: seq<Step>, t: nat, id: nat)
    requires t <= |steps|
  {
    exists i: nat :: i < t && Issues(y, steps, i, id)
  }

  ghost predicate EndedBefore(y: Sys, steps: seq<Step>, t: nat, id: nat)
    requires t <= |steps|
  {
    exists i: nat :: i < t && Ends(y, steps, i, id)
  }

  /** The stored request is the one that was issued. */
  ghost predicate StoredAsIssued(y: Sys, steps: seq<Step>, t: nat, id: nat)
    requires t <= |steps| && id in At(y, steps, t).desk.pending
  {
    exists i: nat :: && i < t && Issues(y, steps, i, id)
                     && At(y, steps, t).desk.pending[id] == OracleRequest(steps[i].sender, ToInt256(steps[i].now + MAXIMUM_DELAY))
                     && steps[i].sender != ZERO_ADDRESS
  }

  /** The stored request with number id is told by the calls so far. */
  ghost predicate RequestOk(y: Sys, steps: seq<Step>, t: nat, id: nat)
    requires t <= |steps|
  {
    && (id in At(y, steps, t).desk.pending <==> IssuedBefore(y, steps, t, id) && !EndedBefore(y, steps, t, id))
    && (id in At(y, steps, t).desk.pending ==> StoredAsIssued(y, steps, t, id))
    && (IssuedBefore(y, steps, t, id) || EndedBefore(y, steps, t, id) ==> id <= At(y, steps, t).desk.counter)
  }

  /** At any time the pending requests are exactly those issued and not yet cancelled or submitted. */
  lemma {:induction false} PendingIff(y: Sys, steps: seq<Step>, t: nat, id: nat)
    requires Deployed(y) && t <= |steps|
    ensures RequestOk(y, steps, t, id)
  {
    hide RequestOk, Exec;
    if t == 0 {
      NoRequestYet(y, steps, id);
    } else {
      PendingIff(y, steps, t - 1, id);
      PendingStep(y, steps, t - 1, id);
    }
  }

  lemma NoRequestYet(y: Sys, steps: seq<Step>, id: nat)
    requires Deployed(y)
    ensures RequestOk(y, steps, 0, id)
  {
    hide Exec;
  }

  lemma PendingStep(y: Sys, steps: seq<Step>, t: nat, id: nat)
    requires t < |steps| && RequestOk(y, steps, t, id)
    ensures RequestOk(y, steps, t + 1, id)
  {
    hide At, Exec;
    var d, d' := At(y, steps, t).desk, At(y, steps, t + 1).desk;
    DeskStep(y, steps, t);
    NotDeskCall(y, steps, t);
    Extend(y, steps, t, id);
    if Issues(y, steps, t, id) {
      assert id == d.counter + 1;
      assert !EndedBefore(y, steps, t, id);
      assert !Ends(y, steps, t, id);
    } else if Ends(y, steps, t, id) {
      assert EndedBefore(y, steps, t + 1, id);
    } else {
      assert id in d'.pending <==> id in d.pending;
      if id in d.pending {
        var i: nat :| && i < t && Issues(y, steps, i, id)
                      && d.pending[id] == OracleRequest(steps[i].sender, ToInt256(steps[i].now + MAXIMUM_DELAY))
                      && steps[i].sender != ZERO_ADDRESS;
        assert d'.pending[id] == d.pending[id];
      }
    }
  }

  lemma Extend(y: Sys, steps: seq<Step>, t: nat, id: nat)
    requires t < |steps|
    ensures IssuedBefore(y, steps, t + 1, id) <==> IssuedBefore(y, steps, t, id) || Issues(y, steps, t, id)
    ensures EndedBefore(y, steps, t + 1, id) <==> EndedBefore(y, steps, t, id) || Ends(y, steps, t, id)
  {
    hide At, Exec;
  }

  /** A request ends at most once, so it is never both cancelled and submitted. */
  lemma EndedAtMostOnce(y: Sys, steps: seq<Step>, i: nat, j: nat, id: nat)
    requires Deployed(y) && i < |steps| && j < |steps| && Ends(y, steps, i, id) && Ends(y, steps, j, id)
    ensures i == j
  {
    hide At, Exec;
    PendingIff(y, steps, i, id);
    PendingIff(y, steps, j, id);
    DeskStep(y, steps, i);
    DeskStep(y, steps, j);
  }

  lemma InTimeMeans(issued: nat, now: nat)
    requires issued + MAXIMUM_DELAY < TWO_255 && now < TWO_255
    ensures InTime(ToInt256(issued + MAXIMUM_DELAY), now) <==> now <= issued + MAXIMUM_DELAY
  {
  }

  /** A submission answers an earlier request, at most 300 seconds after it was issued. */
  lemma SubmissionInTime(y: Sys, steps: seq<Step>, j: nat, id: nat)
    requires Deployed(y) && j < |steps| && Submits(y, steps, j, id)
    requires forall k :: 0 <= k < |steps| ==> steps[k].now + MAXIMUM_DELAY < TWO_255
    ensures exists i: nat :: i < j && Issues(y, steps, i, id) && steps[j].now <= steps[i].now + MAXIMUM_DELAY
  {
    PendingIff(y, steps, j, id);
    var d := At(y, steps, j).desk;
    SubmitNeedsTime(y, steps, j, id);
    var i: nat :| && i < j && Issues(y, steps, i, id)
                  && d.pending[id] == OracleRequest(steps[i].sender, ToInt256(steps[i].now + MAXIMUM_DELAY));
    InTimeMeans(steps[i].now, steps[j].now);
  }

  lemma SubmitNeedsTime(y: Sys, steps: seq<Step>, j: nat, id: nat)
    requires j < |steps| && Submits(y, steps, j, id)
    ensures id in At(y, steps, j).desk.pending && InTime(At(y, steps, j).desk.pending[id].deadline, steps[j].now)
  {
    hide At, MineAndStake, InTime;
  }

  // ----- who acts, and what it brings them -----

  /** When each call of the oracle contract goes through. */
  lemma DeskCallsIff(d: Desk, w: World, sender: Address, id: nat, now: nat, block: nat)
    ensures RequestOracles(d, sender, now).Some? <==> d.counter < MAX_UINT256 && now + 300 <= MAX_UINT256
    ensures CancelOracleRequest(d, sender, id).Some? <==>
            id in d.pending && d.pending[id].sender != ZERO_ADDRESS && d.pending[id].sender == sender
    ensures SubmitOracleRequest(d, w, sender, id, now, block).Some? <==>
            && id in d.pending && d.pending[id].sender != ZERO_ADDRESS
            && 0 <= d.pending[id].deadline - ToInt256(now) < TWO_255
            && MineAndStake(w, d.self, sender, block).Some?
  {
    hide MineAndStake;
  }

  /** Only who issued a request cancels it. */
  lemma CancelledByRequester(y: Sys, steps: seq<Step>, j: nat, id: nat)
    requires Deployed(y) && j < |steps| && Cancels(y, steps, j, id)
    ensures exists i: nat :: i < j && Issues(y, steps, i, id) && steps[i].sender == steps[j].sender
  {
    hide RequestOracles, SubmitOracleRequest, CancelOracleRequest, At;
    PendingIff(y, steps, j, id);
    DeskCallsIff(At(y, steps, j).desk, At(y, steps, j).world, steps[j].sender, id, 0, 0);
    var d := At(y, steps, j).desk;
    var i: nat :| && i < j && Issues(y, steps, i, id)
                  && d.pending[id] == OracleRequest(steps[i].sender, ToInt256(steps[i].now + MAXIMUM_DELAY));
  }

  /** A submission raises the submitter's stake and the staking contract's tokens by the reward, and nobody else's. */
  lemma SubmitterRewarded(y: Sys, steps: seq<Step>, j: nat, id: nat, a: Address)
    requires Deployed(y) && j < |steps| && Submits(y, steps, j, id)
    ensures var w, w' := At(y, steps, j).world, At(y, steps, j + 1).world;
            && Amount(w'.pool.miners, a) == Amount(w.pool.miners, a) + (if a == steps[j].sender then w.pool.minerReward else 0)
            && Get(w'.token.balances, a) == Get(w.token.balances, a) + (if a == w.pool.self then w.pool.minerReward else 0)
  {
    hide At, Exec, Ledger, Deployed;
    LedgerAlways(y, steps, j);
    AtNext(y, steps, j);
    StakeStep(At(y, steps, j), steps[j], a);
    TokenStep(At(y, steps, j), steps[j], a);
  }

  lemma AtNext(y: Sys, steps: seq<Step>, t: nat)
    requires t < |steps|
    ensures At(y, steps, t + 1) == After(At(y, steps, t), steps[t])
  {
  }

  // ----- rewards -----

  /** The rewards of the submissions among the first t calls, each at the rate set at the time. */
  function SubmissionRewards(y: Sys, steps: seq<Step>, t: nat): nat
    requires t <= |steps|
  {
    if t == 0 then 0
    else
      SubmissionRewards(y, steps, t - 1)
      + if Succeeds(y, steps, t - 1) && steps[t - 1].call.SubmitCall? then At(y, steps, t - 1).world.pool.minerReward else 0
  }

  /** As long as the staking contract owns the token and names the oracle contract, submissions are the only source of
      tokens: the supply grows by exactly their rewards. */
  lemma {:induction false} RewardsAreSubmissions(y: Sys, steps: seq<Step>, t: nat)
    requires t <= |steps| && y.world.token.owner == y.world.pool.self
    requires forall k: nat {:trigger At(y, steps, k)} :: k < t ==> At(y, steps, k).world.pool.oracle == At(y, steps, k).desk.self
    ensures At(y, steps, t).world.token.owner == At(y, steps, t).world.pool.self
    ensures At(y, steps, t).world.token.totalSupply == y.world.token.totalSupply + SubmissionRewards(y, steps, t)
  {
    hide Exec;
    if t > 0 {
      RewardsAreSubmissions(y, steps, t - 1);
      var y', st := At(y, steps, t - 1), steps[t - 1];
      assert y'.world.pool.oracle == y'.desk.self;
      SupplyStep(y', st);
      SelfStays(y', st);
      OnlySubmissionsMint(y', st);
    }
  }

  lemma OnlySubmissionsMint(y: Sys, st: Step)
    requires y.world.pool.oracle == y.desk.self && y.world.token.owner == y.world.pool.self
    ensures st.call.MineCall? || st.call.MineAndStakeCall? || st.call.TokenMint? ==> Exec(y, st).None?
    ensures st.sender == y.world.token.owner ==> Exec(y, st).None?
  {
  }
}
