/** Disputes over whole runs of the system, for an accused other than the zero address. */
module DisputeRuns {
  import opened Common
  import opened Sums
  import T = Token
  import opened Staking
  import opened Oracle
  import opened Dispute
  import opened System

  // ----- the ballots of a run -----

  datatype Ballot = Ballot(voter: Address, stake: nat, voteStatus: bool)

  predicate CastsVote(y: Sys, steps: seq<Step>, i: nat, id: DisputeId)
    requires i < |steps|
  {
    Succeeds(y, steps, i) && steps[i].call.VoteCall? && steps[i].call.dispute == id
  }

  predicate Finishes(y: Sys, steps: seq<Step>, i: nat, id: DisputeId)
    requires i < |steps|
  {
    Succeeds(y, steps, i) && steps[i].call == FinishCall(id)
  }

  predicate Begins(y: Sys, steps: seq<Step>, i: nat, id: DisputeId)
    requires i < |steps|
  {
    Succeeds(y, steps, i) && steps[i].call == BeginCall(id.0, id.1)
  }

  /** The votes accepted before time t, with the stake each voter had when voting. */
  function Ballots(y: Sys, steps: seq<Step>, t: nat, id: DisputeId): seq<Ballot>
    requires t <= |steps|
  {
    if t == 0 then []
    else
      Ballots(y, steps, t - 1, id)
      + if CastsVote(y, steps, t - 1, id)
        then [Ballot(steps[t - 1].sender, Amount(At(y, steps, t - 1).world.pool.miners, steps[t - 1].sender), steps[t - 1].call.voteStatus)]
        else []
  }

  function Tally(bs: seq<Ballot>): int {
    if bs == [] then 0
    else
      var b := bs[|bs| - 1];
      Tally(bs[..|bs| - 1]) + if b.voteStatus then b.stake else -(b.stake as int)
  }

  function Voters(bs: seq<Ballot>): seq<Address> {
    if bs == [] then [] else Voters(bs[..|bs| - 1]) + [bs[|bs| - 1].voter]
  }

  /** How often the dispute contract has slashed over this dispute. */
  function Slashes(y: Sys, steps: seq<Step>, t: nat, id: DisputeId): nat
    requires t <= |steps|
  {
    if t == 0 then 0
    else Slashes(y, steps, t - 1, id)
         + if Finishes(y, steps, t - 1, id) && CaseOf(At(y, steps, t - 1).court, id).sum > 0 then 1 else 0
  }

  lemma TallySnoc(bs: seq<Ballot>, b: Ballot)
    ensures Tally(bs + [b]) == Tally(bs) + if b.voteStatus then b.stake else -(b.stake as int)
    ensures Voters(bs + [b]) == Voters(bs) + [b.voter]
  {
    assert (bs + [b])[..|bs|] == bs;
  }

  // ----- what one call does to one dispute -----

  lemma CourtStep(y: Sys, steps: seq<Step>, i: nat, id: DisputeId)
    requires i < |steps|
    ensures var c, c', st, p := At(y, steps, i).court, At(y, steps, i + 1).court, steps[i], At(y, steps, i).world.pool;
            var d, d' := CaseOf(c, id), CaseOf(c', id);
            && (Begins(y, steps, i, id) ==>
                  d.miner == ZERO_ADDRESS && st.sender != ZERO_ADDRESS && d' == Case(0, false, false, id.0, st.sender, st.now, d.voted))
            && (CastsVote(y, steps, i, id) ==>
                  && d.initiator != ZERO_ADDRESS && !d.finished && st.sender != d.initiator && st.sender != d.miner
                  && d' == d.(sum := d.sum + Weighted(Amount(p.miners, st.sender), st.call.voteStatus), voted := d.voted + [st.sender]))
            && (Finishes(y, steps, i, id) ==>
                  && d.initiator != ZERO_ADDRESS && !d.finished && st.sender == d.initiator
                  && d' == d.(finished := true, result := d.sum > 0, voted := if d.sum > 0 then d.voted + [st.sender] else d.voted))
            && (!Begins(y, steps, i, id) && !CastsVote(y, steps, i, id) && !Finishes(y, steps, i, id) ==> d' == d)
  {
    hide SlashMiner, MineAndStake, StakeTokens, Withdraw, Mine, T.Mint, T.Transfer, T.Delegate;
  }

  /** When each call about a dispute goes through. */
  lemma DisputeCallsIff(c: Court, p: Pool, sender: Address, id: DisputeId, voteStatus: bool, now: nat)
    ensures BeginDispute(c, p, sender, id.0, id.1, now).Some? <==>
            CaseOf(c, id).miner == ZERO_ADDRESS && Amount(p.miners, sender) >= p.minimumStake
    ensures var d, stake := CaseOf(c, id), Amount(p.miners, sender);
            Vote(c, p, sender, id, voteStatus).Some? <==>
              && d.initiator != ZERO_ADDRESS && !d.finished && sender != d.initiator && sender != d.miner
              && stake >= p.minimumStake && stake >= c.minStake
              && -TWO_255 <= d.sum + (if voteStatus then ToInt256(stake) else -ToInt256(stake)) < TWO_255
    ensures var d := CaseOf(c, id);
            FinishDispute(c, p, sender, id, now).Some? <==>
              && d.initiator != ZERO_ADDRESS && !d.finished && sender == d.initiator && d.timestamp + c.voteWindowTime <= now
              && (d.sum > 0 ==> SlashMiner(p, c.self, d.miner, d.voted + [sender]).Some?)
  {
    hide SlashMiner;
  }

  /** Window and threshold are fixed when the contract is deployed. */
  lemma {:induction false} CourtParameters(y: Sys, steps: seq<Step>, t: nat)
    requires t <= |steps|
    ensures At(y, steps, t).court.voteWindowTime == y.court.voteWindowTime && At(y, steps, t).court.minStake == y.court.minStake
  {
    hide Exec;
    if t > 0 {
      CourtParameters(y, steps, t - 1);
      CourtFixed(At(y, steps, t - 1), steps[t - 1]);
    }
  }

  lemma CourtFixed(y: Sys, st: Step)
    ensures After(y, st).court.voteWindowTime == y.court.voteWindowTime && After(y, st).court.minStake == y.court.minStake
  {
    hide SlashMiner, MineAndStake, StakeTokens, Withdraw, Mine, T.Mint, T.Transfer, T.Delegate, T.DelegateBySig;
  }

  /** Who acts on a dispute: miners begin it and vote on it, voters with at least the contract's threshold. */
  lemma WhoActs(y: Sys, steps: seq<Step>, i: nat, id: DisputeId)
    requires i < |steps|
    ensures var p, st := At(y, steps, i).world.pool, steps[i];
            && (Begins(y, steps, i, id) ==> Amount(p.miners, st.sender) >= p.minimumStake)
            && (CastsVote(y, steps, i, id) ==> Amount(p.miners, st.sender) >= p.minimumStake && Amount(p.miners, st.sender) >= y.court.minStake)
            && (Finishes(y, steps, i, id) ==> CaseOf(At(y, steps, i).court, id).timestamp + y.court.voteWindowTime <= st.now)
  {
    hide At, SlashMiner, BeginDispute, Vote, FinishDispute;
    CourtParameters(y, steps, i);
    var z, st := At(y, steps, i), steps[i];
    if Succeeds(y, steps, i) {
      match st.call
      case BeginCall(accused, requestID) => DisputeCallsIff(z.court, z.world.pool, st.sender, (accused, requestID), true, st.now);
      case VoteCall(dispute, voteStatus) => DisputeCallsIff(z.court, z.world.pool, st.sender, dispute, voteStatus, st.now);
      case FinishCall(dispute) => DisputeCallsIff(z.court, z.world.pool, st.sender, dispute, true, st.now);
      case _ =>
    }
  }

  // ----- stakes stay far from the sign bit -----

  lemma {:induction false} SupplyNeverShrinks(y: Sys, steps: seq<Step>, i: nat, j: nat)
    requires i <= j <= |steps|
    ensures At(y, steps, i).world.token.totalSupply <= At(y, steps, j).world.token.totalSupply
  {
    hide Exec;
    if i < j {
      SupplyNeverShrinks(y, steps, i, j - 1);
      SupplyStep(At(y, steps, j - 1), steps[j - 1]);
    }
  }

  lemma StakeBelowSupply(y: Sys, steps: seq<Step>, i: nat, j: nat, a: Address)
    requires Deployed(y) && i <= j <= |steps|
    ensures Amount(At(y, steps, i).world.pool.miners, a) <= At(y, steps, j).world.token.totalSupply
  {
    hide At, Exec, Sum;
    var w := At(y, steps, i).world;
    LedgerAlways(y, steps, i);
    AmountBelowSum(w.pool.miners, a, a);
    SumAtLeast(w.token.balances, w.pool.self);
    SupplyNeverShrinks(y, steps, i, j);
  }

  // ----- the dispute invariant -----

  ghost predicate CaseOk(y: Sys, steps: seq<Step>, t: nat, id: DisputeId)
    requires t <= |steps|
  {
    var d, bs := CaseOf(At(y, steps, t).court, id), Ballots(y, steps, t, id);
    if d.miner == ZERO_ADDRESS then d == NO_CASE && bs == [] && Slashes(y, steps, t, id) == 0
    else
      && d.miner == id.0 && d.initiator != ZERO_ADDRESS && d.sum == Tally(bs)
      && d.initiator !in Voters(bs) && d.miner !in Voters(bs)
      && d.voted == Voters(bs) + (if d.finished && d.result then [d.initiator] else [])
      && (d.finished ==> (d.result <==> d.sum > 0))
      && (!d.finished ==> !d.result)
      && Slashes(y, steps, t, id) == if d.finished && d.result then 1 else 0
  }

  lemma CaseVote(y: Sys, steps: seq<Step>, t: nat, id: DisputeId)
    requires Deployed(y) && t < |steps| && id.0 != ZERO_ADDRESS && CaseOk(y, steps, t, id)
    requires At(y, steps, t + 1).world.token.totalSupply < TWO_255 && CastsVote(y, steps, t, id)
    ensures CaseOk(y, steps, t + 1, id)
  {
    hide At, Exec, Tally, Voters, Deployed;
    CourtStep(y, steps, t, id);
    var bs := Ballots(y, steps, t, id);
    var b := Ballot(steps[t].sender, Amount(At(y, steps, t).world.pool.miners, steps[t].sender), steps[t].call.voteStatus);
    StakeBelowSupply(y, steps, t, t + 1, steps[t].sender);
    TallySnoc(bs, b);
    assert Ballots(y, steps, t + 1, id) == bs + [b];
  }

  lemma CaseNoVote(y: Sys, steps: seq<Step>, t: nat, id: DisputeId)
    requires t < |steps| && id.0 != ZERO_ADDRESS && CaseOk(y, steps, t, id) && !CastsVote(y, steps, t, id)
    ensures CaseOk(y, steps, t + 1, id)
  {
    hide At, Exec, Tally, Voters;
    CourtStep(y, steps, t, id);
    EmptyTally();
    assert Ballots(y, steps, t + 1, id) == Ballots(y, steps, t, id);
    if Begins(y, steps, t, id) {
      assert CaseOk(y, steps, t + 1, id);
    } else if Finishes(y, steps, t, id) {
      assert CaseOk(y, steps, t + 1, id);
    }
  }

  lemma CaseStep(y: Sys, steps: seq<Step>, t: nat, id: DisputeId)
    requires Deployed(y) && t < |steps| && id.0 != ZERO_ADDRESS && CaseOk(y, steps, t, id)
    requires At(y, steps, t + 1).world.token.totalSupply < TWO_255
    ensures CaseOk(y, steps, t + 1, id)
  {
    hide *;
    if CastsVote(y, steps, t, id) {
      CaseVote(y, steps, t, id);
    } else {
      CaseNoVote(y, steps, t, id);
    }
  }

  lemma EmptyTally()
    ensures Tally([]) == 0 && Voters([]) == []
  {
  }

  /** In every run with a supply below 2^255: the sum is the signed sum of the voters' stakes at vote time; the
      voted list is the list of voters, followed by the initiator once a verdict against the accused has been
      carried out; neither initiator nor accused ever voted; the verdict is "guilty" exactly when the sum is
      positive; and there is one slash if there was such a verdict, otherwise none. */
  lemma {:induction false} DisputeSafety(y: Sys, steps: seq<Step>, t: nat, id: DisputeId)
    requires Deployed(y) && t <= |steps| && id.0 != ZERO_ADDRESS
    requires At(y, steps, t).world.token.totalSupply < TWO_255
    ensures CaseOk(y, steps, t, id)
  {
    hide *;
    if t == 0 {
      NoCaseYet(y, steps, id);
    } else {
      SupplyNeverShrinks(y, steps, t - 1, t);
      DisputeSafety(y, steps, t - 1, id);
      CaseStep(y, steps, t - 1, id);
    }
  }

  lemma NoCaseYet(y: Sys, steps: seq<Step>, id: DisputeId)
    requires Deployed(y)
    ensures CaseOk(y, steps, 0, id)
  {
  }

  // ----- the course of a dispute -----

  /** The dispute was begun by call i, which its entry still tells, and every ballot came later. */
  ghost predicate BegunAt(y: Sys, steps: seq<Step>, t: nat, id: DisputeId, i: nat)
    requires t <= |steps|
  {
    var d := CaseOf(At(y, steps, t).court, id);
    && i < t && Begins(y, steps, i, id) && d.initiator == steps[i].sender && d.timestamp == steps[i].now
    && forall j {:trigger CastsVote(y, steps, j, id)} :: 0 <= j < t && CastsVote(y, steps, j, id) ==> i < j
  }

  ghost predicate CourseOk(y: Sys, steps: seq<Step>, t: nat, id: DisputeId)
    requires t <= |steps|
  {
    if CaseOf(At(y, steps, t).court, id).miner == ZERO_ADDRESS
    then CaseOf(At(y, steps, t).court, id) == NO_CASE && forall j {:trigger CastsVote(y, steps, j, id)} :: 0 <= j < t ==> !CastsVote(y, steps, j, id)
    else exists i: nat :: BegunAt(y, steps, t, id, i)
  }

  lemma {:induction false} CourseAlways(y: Sys, steps: seq<Step>, t: nat, id: DisputeId)
    requires Deployed(y) && t <= |steps| && id.0 != ZERO_ADDRESS
    ensures CourseOk(y, steps, t, id)
  {
    hide At, Exec, CastsVote, Begins, Finishes, Deployed;
    if t == 0 {
      NoCaseAtStart(y, steps, id);
    } else {
      CourseAlways(y, steps, t - 1, id);
      CourtStep(y, steps, t - 1, id);
      OneRole(y, steps, t - 1, id);
      if CaseOf(At(y, steps, t - 1).court, id).miner == ZERO_ADDRESS {
        if Begins(y, steps, t - 1, id) { assert BegunAt(y, steps, t, id, t - 1); }
      } else {
        var i: nat :| BegunAt(y, steps, t - 1, id, i);
        assert BegunAt(y, steps, t, id, i);
      }
    }
  }

  lemma NoCaseAtStart(y: Sys, steps: seq<Step>, id: DisputeId)
    requires Deployed(y)
    ensures CaseOf(At(y, steps, 0).court, id) == NO_CASE
  {
  }

  /** A dispute is finished by the miner who began it, no sooner than the vote window after that, and every ballot
      of the run lies between the two calls. */
  lemma FinishedAfterWindow(y: Sys, steps: seq<Step>, k: nat, id: DisputeId)
    requires Deployed(y) && k < |steps| && id.0 != ZERO_ADDRESS && Finishes(y, steps, k, id)
    ensures exists i: nat ::
              && i < k && Begins(y, steps, i, id) && steps[i].sender == steps[k].sender
              && steps[i].now + y.court.voteWindowTime <= steps[k].now
              && forall j {:trigger CastsVote(y, steps, j, id)} :: 0 <= j < |steps| && CastsVote(y, steps, j, id) ==> i < j < k
  {
    hide At, Exec, CastsVote, Begins, Finishes, Deployed;
    CourseAlways(y, steps, k, id);
    CourtStep(y, steps, k, id);
    WhoActs(y, steps, k, id);
    var i: nat :| BegunAt(y, steps, k, id, i);
    forall j | 0 <= j < |steps| && CastsVote(y, steps, j, id)
      ensures i < j < k
    {
      if j >= k { NoVoteAfter(y, steps, k, j, id); }
    }
  }

  lemma NoVoteAfter(y: Sys, steps: seq<Step>, k: nat, j: nat, id: DisputeId)
    requires k <= j < |steps| && Finishes(y, steps, k, id) && CaseOf(At(y, steps, k).court, id).miner != ZERO_ADDRESS
    ensures !CastsVote(y, steps, j, id)
  {
    hide At, Exec, CastsVote, Finishes, Begins;
    CourtStep(y, steps, k, id);
    CourtStep(y, steps, j, id);
    OneRole(y, steps, k, id);
    if j > k { FinishedForever(y, steps, k + 1, j, id); }
  }

  lemma OneRole(y: Sys, steps: seq<Step>, k: nat, id: DisputeId)
    requires k < |steps|
    ensures !(Begins(y, steps, k, id) && CastsVote(y, steps, k, id)) && !(Finishes(y, steps, k, id) && CastsVote(y, steps, k, id))
    ensures !(Finishes(y, steps, k, id) && Begins(y, steps, k, id))
  {
    hide At, Exec;
  }

  /** Once finished, a dispute never changes again. */
  lemma {:induction false} FinishedForever(y: Sys, steps: seq<Step>, i: nat, j: nat, id: DisputeId)
    requires i <= j <= |steps| && CaseOf(At(y, steps, i).court, id).miner != ZERO_ADDRESS
    requires CaseOf(At(y, steps, i).court, id).finished
    ensures CaseOf(At(y, steps, j).court, id) == CaseOf(At(y, steps, i).court, id)
  {
    hide At, Exec;
    if i < j {
      FinishedForever(y, steps, i, j - 1, id);
      CourtStep(y, steps, j - 1, id);
    }
  }

  /** For the zero address the guard of beginDispute does not see an earlier dispute, so a finished one is
      opened again: every dispute against it that was begun and finished without votes can be begun anew. */
  lemma ZeroAccusedReopens(c: Court, p: Pool, sender: Address, requestID: nat, now: nat, later: nat)
    requires CaseOf(c, (ZERO_ADDRESS, requestID)) == NO_CASE && sender != ZERO_ADDRESS
    requires IsMiner(p.miners, p.minimumStake, sender) && later >= now + c.voteWindowTime
    ensures var id := (ZERO_ADDRESS, requestID);
            var c1 := BeginDispute(c, p, sender, ZERO_ADDRESS, requestID, now).value;
            var c2 := FinishDispute(c1, p, sender, id, later).value.0;
            var c3 := BeginDispute(c2, p, sender, ZERO_ADDRESS, requestID, later);
            CaseOf(c2, id).finished && c3.Some? && !CaseOf(c3.value, id).finished
  {
    var c1 := BeginDispute(c, p, sender, ZERO_ADDRESS, requestID, now).value;
    assert FinishDispute(c1, p, sender, (ZERO_ADDRESS, requestID), later).Some?;
  }

  // ----- what a verdict against the accused does to the stakes -----

  lemma FinishPool(y: Sys, steps: seq<Step>, k: nat, id: DisputeId)
    requires k < |steps| && Finishes(y, steps, k, id) && CaseOf(At(y, steps, k).court, id).sum > 0
    ensures var d, p := CaseOf(At(y, steps, k).court, id), At(y, steps, k).world.pool;
            && d.initiator == steps[k].sender
            && SlashMiner(p, At(y, steps, k).court.self, d.miner, d.voted + [d.initiator]).Some?
            && At(y, steps, k + 1).world.pool == SlashMiner(p, At(y, steps, k).court.self, d.miner, d.voted + [d.initiator]).value
  {
    hide SlashMiner;
  }

  /** The accused keeps the remainder of its stake divided by the number of shares, and everyone else gains one
      share for every ballot cast, the initiator one more. */
  lemma GuiltyVerdict(y: Sys, steps: seq<Step>, k: nat, id: DisputeId, a: Address)
    requires Deployed(y) && k < |steps| && id.0 != ZERO_ADDRESS && a != id.0
    requires Finishes(y, steps, k, id) && CaseOf(At(y, steps, k).court, id).sum > 0
    requires At(y, steps, k).world.token.totalSupply < TWO_255
    ensures var before, after := At(y, steps, k).world.pool.miners, At(y, steps, k + 1).world.pool.miners;
            var initiator, voters := CaseOf(At(y, steps, k).court, id).initiator, Voters(Ballots(y, steps, k, id));
            var shares := |voters| + 1;
            && shares <= 255
            && Amount(after, id.0) == Amount(before, id.0) % shares
            && Amount(after, a) == Amount(before, a)
                                   + Amount(before, id.0) / shares * (Occurrences(voters, a) + if a == initiator then 1 else 0)
            && initiator != id.0
  {
    hide At, Exec, SlashMiner, Sum, Deployed, Ballots, Voters, Amount;
    DisputeSafety(y, steps, k, id);
    CourtStep(y, steps, k, id);
    FinishPool(y, steps, k, id);
    LedgerAlways(y, steps, k);
    var w, d := At(y, steps, k).world, CaseOf(At(y, steps, k).court, id);
    SumAtLeast(w.token.balances, w.pool.self);
    SharesOf(w.pool, At(y, steps, k).court.self, d.miner, d.voted, d.initiator, a);
  }

  lemma SharesOf(p: Pool, sender: Address, accused: Address, voters: seq<Address>, initiator: Address, a: Address)
    requires Sum(Amounts(p.miners)) <= MAX_UINT256 && a != accused
    requires SlashMiner(p, sender, accused, voters + [initiator]).Some?
    ensures var after, n := SlashMiner(p, sender, accused, voters + [initiator]).value.miners, |voters| + 1;
            && n <= 255 && initiator != accused
            && Amount(after, accused) == Amount(p.miners, accused) % n
            && Amount(after, a) == Amount(p.miners, a)
                                   + Amount(p.miners, accused) / n * (Occurrences(voters, a) + if a == initiator then 1 else 0)
  {
    hide SlashMiner, Sum, Amount;
    var rs := voters + [initiator];
    SlashMinerIff(p, sender, accused, rs);
    assert rs[|rs| - 1] == initiator;
    var after := SlashMiner(p, sender, accused, rs).value.miners;
    assert Amount(after, a) == Amount(p.miners, a) + Amount(p.miners, accused) / |rs| * Occurrences(rs, a);
    assert Occurrences(rs, a) == Occurrences(voters, a) + if a == initiator then 1 else 0;
  }
}
