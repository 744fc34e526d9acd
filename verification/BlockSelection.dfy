/** Which of the committed blocks a round ends with. */
module BlockSelection {
  import opened Common
  import opened Blocks
  import opened Consensus
  import opened ConsensusOrder
  import opened Chain
  import BlockChain

  /** The answer of GetMinerStake, fixed for the duration of one selection; None when the call fails. */
  type StakeOf = Address -> Option<nat>

  /** The comparison handed to sort.Slice: more stake first, then the later timestamp. */
  predicate Before(a: Block, b: Block, stake: StakeOf) {
    var sa, sb := stake(a.header.proposerEth), stake(b.header.proposerEth);
    if sa.None? || sb.None? then false
    else if sa.value < sb.value then false
    else if sa.value > sb.value then true
    else a.header.timestamp > b.header.timestamp
  }

  predicate Tied(a: Block, b: Block, stake: StakeOf) {
    stake(a.header.proposerEth) == stake(b.header.proposerEth) && a.header.timestamp == b.header.timestamp
  }

  predicate StakesKnown(infos: seq<ConsensusInfo>, stake: StakeOf) {
    forall i :: 0 <= i < |infos| ==> infos[i].block.Some? && stake(infos[i].block.value.header.proposerEth).Some?
  }

  predicate HaveBlocks(infos: seq<ConsensusInfo>) {
    forall i :: 0 <= i < |infos| ==> infos[i].block.Some?
  }

  ghost predicate Sorted(infos: seq<ConsensusInfo>, stake: StakeOf)
    requires HaveBlocks(infos)
  {
    forall i, j :: 0 <= i < j < |infos| ==> !Before(infos[j].block.value, infos[i].block.value, stake)
  }

  ghost predicate SortResult(infos: seq<ConsensusInfo>, sorted: seq<ConsensusInfo>, stake: StakeOf) {
    && multiset(sorted) == multiset(infos)
    && (StakesKnown(infos, stake) ==> HaveBlocks(sorted) && Sorted(sorted, stake))
  }

  function InsertSorted(s: seq<ConsensusInfo>, x: ConsensusInfo, stake: StakeOf): seq<ConsensusInfo>
    requires x.block.Some? && HaveBlocks(s)
  {
    if s == [] then [x]
    else if Before(x.block.value, s[0].block.value, stake) then [x] + s
    else [s[0]] + InsertSorted(s[1..], x, stake)
  }

  lemma {:induction false} InsertSortedPermutes(s: seq<ConsensusInfo>, x: ConsensusInfo, stake: StakeOf)
    requires x.block.Some? && HaveBlocks(s)
    ensures multiset(InsertSorted(s, x, stake)) == multiset(s) + multiset{x}
    ensures HaveBlocks(InsertSorted(s, x, stake))
  {
    if s != [] {
      InsertSortedPermutes(s[1..], x, stake);
      assert s == [s[0]] + s[1..];
    }
  }

  lemma ConsSorted(y: ConsensusInfo, t: seq<ConsensusInfo>, stake: StakeOf)
    requires y.block.Some? && HaveBlocks(t) && Sorted(t, stake)
    requires forall z :: z in t ==> !Before(z.block.value, y.block.value, stake)
    ensures HaveBlocks([y] + t) && Sorted([y] + t, stake)
  {
    hide Before;
  }

  /** An entry that comes before the head of a sorted list comes before all of it. */
  lemma BeforeAll(x: ConsensusInfo, s: seq<ConsensusInfo>, stake: StakeOf)
    requires x.block.Some? && s != [] && HaveBlocks(s) && Sorted(s, stake)
    requires StakesKnown(s, stake) && Before(x.block.value, s[0].block.value, stake)
    ensures forall z :: z in s ==> !Before(z.block.value, x.block.value, stake)
  {
    forall k | 0 <= k < |s|
      ensures !Before(s[k].block.value, x.block.value, stake)
    {
      assert stake(s[k].block.value.header.proposerEth).Some? && stake(s[0].block.value.header.proposerEth).Some?;
      assert k == 0 || !Before(s[k].block.value, s[0].block.value, stake);
    }
  }

  lemma {:induction false} InsertSortedSorted(s: seq<ConsensusInfo>, x: ConsensusInfo, stake: StakeOf)
    requires StakesKnown(s, stake) && HaveBlocks(s) && Sorted(s, stake) && x.block.Some?
    ensures HaveBlocks(InsertSorted(s, x, stake)) && Sorted(InsertSorted(s, x, stake), stake)
  {
    hide Before;
    if s == [] {
    } else if Before(x.block.value, s[0].block.value, stake) {
      BeforeAll(x, s, stake);
      ConsSorted(x, s, stake);
    } else {
      InsertSortedSorted(s[1..], x, stake);
      InsertSortedPermutes(s[1..], x, stake);
      var t := InsertSorted(s[1..], x, stake);
      forall z | z in t
        ensures !Before(z.block.value, s[0].block.value, stake)
      {
        assert z in multiset(t);
      }
      ConsSorted(s[0], t, stake);
    }
  }

  /** Stands for sort.Slice: a permutation, ordered whenever the comparison is consistent. */
  method SortSlice(infos: seq<ConsensusInfo>, stake: StakeOf) returns (sorted: seq<ConsensusInfo>)
    requires HaveBlocks(infos)
    ensures SortResult(infos, sorted, stake)
    ensures StakesKnown(infos, stake) ==> Descending(sorted, stake)
  {
    sorted := [];
    for i := 0 to |infos|
      invariant HaveBlocks(sorted)
      invariant multiset(sorted) == multiset(infos[..i])
      invariant StakesKnown(infos, stake) ==> Sorted(sorted, stake)
    {
      InsertSortedPermutes(sorted, infos[i], stake);
      if StakesKnown(infos, stake) {
        MembersKnown(sorted, infos, i, stake);
        InsertSortedSorted(sorted, infos[i], stake);
      }
      assert infos[..i + 1] == infos[..i] + [infos[i]];
      sorted := InsertSorted(sorted, infos[i], stake);
    }
    assert infos[..|infos|] == infos;
    if StakesKnown(infos, stake) {
      MembersKnown(sorted, infos, |infos|, stake);
      SortedDescends(sorted, stake);
    }
  }

  /** Earlier entries have more stake behind them, or the same stake and no earlier timestamp. */
  ghost predicate Descending(infos: seq<ConsensusInfo>, stake: StakeOf) {
    && StakesKnown(infos, stake)
    && forall i, j :: 0 <= i < j < |infos| ==>
         var x, y := infos[i].block.value.header, infos[j].block.value.header;
         var sx, sy := stake(x.proposerEth).value, stake(y.proposerEth).value;
         sx > sy || (sx == sy && x.timestamp >= y.timestamp)
  }

  lemma SortedDescends(sorted: seq<ConsensusInfo>, stake: StakeOf)
    requires StakesKnown(sorted, stake) && HaveBlocks(sorted) && Sorted(sorted, stake)
    ensures Descending(sorted, stake)
  {
    forall i, j | 0 <= i < j < |sorted|
      ensures var x, y := sorted[i].block.value.header, sorted[j].block.value.header;
              var sx, sy := stake(x.proposerEth).value, stake(y.proposerEth).value;
              sx > sy || (sx == sy && x.timestamp >= y.timestamp)
    {
      NotBefore(sorted[j].block.value, sorted[i].block.value, stake);
    }
  }

  lemma MembersKnown(sorted: seq<ConsensusInfo>, infos: seq<ConsensusInfo>, i: nat, stake: StakeOf)
    requires i <= |infos| && multiset(sorted) == multiset(infos[..i]) && StakesKnown(infos, stake)
    ensures StakesKnown(sorted, stake)
  {
    forall k | 0 <= k < |sorted|
      ensures sorted[k].block.Some? && stake(sorted[k].block.value.header.proposerEth).Some?
    {
      assert sorted[k] in multiset(infos[..i]);
      assert sorted[k] in infos;
    }
  }

  datatype Outcome = NoAcceptedBlocks | StakeLookupFailed | Selected(block: Block)

  /** The outcome for the head of some sorted listing of the committed entries. */
  ghost predicate Selectable(m: map<Hash, ConsensusInfo>, stake: StakeOf, r: Outcome) {
    exists infos: seq<ConsensusInfo>, sorted: seq<ConsensusInfo> ::
      && ListsCommitted(infos, m, m.Keys)
      && SortResult(infos, sorted, stake)
      && HeadOutcome(sorted, stake, r)
  }

  predicate HeadOutcome(sorted: seq<ConsensusInfo>, stake: StakeOf, r: Outcome) {
    && sorted != [] && sorted[0].block.Some?
    && r == if stake(sorted[0].block.value.header.proposerEth).Some? then Selected(sorted[0].block.value) else StakeLookupFailed
  }

  /** The chain after the outcome: a selected block is handed to StoreBlock. */
  function ChainAfter(c: Chain, r: Outcome, valid: bool): Chain {
    if !r.Selected? then c else match Store(c, r.block, valid) case None => c case Some(c') => c'
  }

  /** The staking contract answers for the proposer of every committed block. */
  ghost predicate StakesAnswered(m: map<Hash, ConsensusInfo>, stake: StakeOf) {
    forall h :: h in m && m[h].state == Committed ==> m[h].block.Some? && stake(m[h].block.value.header.proposerEth).Some?
  }

  /** b is committed, and every committed block has less stake behind it, or the same stake and no later timestamp. */
  ghost predicate Greatest(b: Block, m: map<Hash, ConsensusInfo>, stake: StakeOf)
    requires StakesAnswered(m, stake)
  {
    && (exists h :: h in m && m[h].state == Committed && m[h].block == Some(b))
    && forall h :: h in m && m[h].state == Committed ==>
         var x := m[h].block.value;
         && stake(b.header.proposerEth).Some?
         && var sx, sb := stake(x.header.proposerEth).value, stake(b.header.proposerEth).value;
            sx < sb || (sx == sb && x.header.timestamp <= b.header.timestamp)
  }

  lemma SelectableIsGreatest(m: map<Hash, ConsensusInfo>, stake: StakeOf, r: Outcome)
    requires Selectable(m, stake, r) && StakesAnswered(m, stake)
    ensures r.Selected? && Greatest(r.block, m, stake)
  {
    hide SortResult, Before;
    var infos: seq<ConsensusInfo>, sorted: seq<ConsensusInfo> :|
      ListsCommitted(infos, m, m.Keys) && SortResult(infos, sorted, stake) && HeadOutcome(sorted, stake, r);
    SortedLength(infos, sorted, stake);
    var i := HeadUnbeaten(infos, sorted, stake);
    var b := infos[i].block.value;
    forall h | h in m && m[h].state == Committed
      ensures var x := m[h].block.value;
              var sx, sb := stake(x.header.proposerEth).value, stake(b.header.proposerEth).value;
              sx < sb || (sx == sb && x.header.timestamp <= b.header.timestamp)
    {
      var j := IndexOf(h, infos, m);
      NotBefore(infos[j].block.value, b, stake);
    }
    assert m[infos[i].blockhash].block == Some(b);
  }

  lemma NotBefore(x: Block, b: Block, stake: StakeOf)
    requires stake(x.header.proposerEth).Some? && stake(b.header.proposerEth).Some? && !Before(x, b, stake)
    ensures var sx, sb := stake(x.header.proposerEth).value, stake(b.header.proposerEth).value;
            sx < sb || (sx == sb && x.header.timestamp <= b.header.timestamp)
  {
  }

  method SelectBlock(cm: ConsensusManager, stake: StakeOf) returns (r: Outcome)
    requires cm.Valid()
    ensures r.NoAcceptedBlocks? <==> forall h :: h in cm.consensusInfoMap ==> cm.consensusInfoMap[h].state != Committed
    ensures !r.NoAcceptedBlocks? ==> Selectable(cm.consensusInfoMap, stake, r)
    ensures StakesAnswered(cm.consensusInfoMap, stake) && !r.NoAcceptedBlocks? ==> r.Selected? && Greatest(r.block, cm.consensusInfoMap, stake)
  {
    hide Greatest, StakesAnswered;
    var infos := cm.GetAllBlocksWithCommit();
    if infos == [] {
      return NoAcceptedBlocks;
    }
    CommittedHaveBlocks(cm, infos);
    assert infos[0] == cm.consensusInfoMap[infos[0].blockhash];
    var sorted := SortSlice(infos, stake);
    SortedLength(infos, sorted, stake);
    assert sorted[0] in multiset(infos);
    var selected := sorted[0].block.value;
    r := if stake(selected.header.proposerEth).Some? then Selected(selected) else StakeLookupFailed;
    assert HeadOutcome(sorted, stake, r);
    if StakesAnswered(cm.consensusInfoMap, stake) { SelectableIsGreatest(cm.consensusInfoMap, stake, r); }
  }

  /** `valid` is what the other checks of StoreBlock answer; `stored` is false when it fails. */
  method CommitAcceptedBlocks(cm: ConsensusManager, chain: BlockChain.BlockChain, stake: StakeOf, valid: bool)
    returns (r: Outcome, stored: bool)
    requires cm.Valid() && chain.Valid() && chain.Database() != cm
    modifies cm, chain.Database()
    ensures cm.Valid() && chain.Valid()
    ensures cm.consensusInfoMap == if r.Selected? then map[] else old(cm.consensusInfoMap)
    ensures r.NoAcceptedBlocks? <==>
            forall h :: h in old(cm.consensusInfoMap) ==> old(cm.consensusInfoMap)[h].state != Committed
    ensures !r.NoAcceptedBlocks? ==> Selectable(old(cm.consensusInfoMap), stake, r)
    ensures StakesAnswered(old(cm.consensusInfoMap), stake) && !r.NoAcceptedBlocks? ==>
            r.Selected? && Greatest(r.block, old(cm.consensusInfoMap), stake)
    ensures chain.Contents() == ChainAfter(old(chain.Contents()), r, valid)
    ensures stored <==> r.Selected? && Store(old(chain.Contents()), r.block, valid).Some?
  {
    hide Selectable, Store, StakesAnswered, Greatest, BlockChain.BlockChain.Valid, BlockChain.BlockChain.Contents;
    assert allocated(chain.Database());
    r := SelectBlock(cm, stake);
    stored := false;
    if r.Selected? {
      stored := PruneAndStore(cm, chain, r.block, valid);
    }
  }

  method PruneAndStore(cm: ConsensusManager, chain: BlockChain.BlockChain, block: Block, valid: bool) returns (stored: bool)
    requires cm.Valid() && chain.Valid() && chain.Database() != cm
    modifies cm, chain.Database()
    ensures cm.Valid() && chain.Valid() && cm.consensusInfoMap == map[]
    ensures stored <==> Store(old(chain.Contents()), block, valid).Some?
    ensures chain.Contents() == if stored then Store(old(chain.Contents()), block, valid).value else old(chain.Contents())
  {
    hide Store, BlockChain.BlockChain.Valid, BlockChain.BlockChain.Contents;
    cm.Prune();
    stored := chain.StoreBlock(block, valid);
  }

  lemma CommittedHaveBlocks(cm: ConsensusManager, infos: seq<ConsensusInfo>)
    requires cm.Valid() && ListsCommitted(infos, cm.consensusInfoMap, cm.consensusInfoMap.Keys)
    ensures HaveBlocks(infos)
  {
  }

  // ----- the selection does not depend on the order the map was walked in -----

  predicate Unbeaten(c: ConsensusInfo, infos: seq<ConsensusInfo>, stake: StakeOf)
    requires c.block.Some? && HaveBlocks(infos)
  {
    forall i :: 0 <= i < |infos| ==> !Before(infos[i].block.value, c.block.value, stake)
  }

  ghost predicate CanComeFirst(c: ConsensusInfo, infos: seq<ConsensusInfo>, stake: StakeOf) {
    exists sorted: seq<ConsensusInfo> :: SortResult(infos, sorted, stake) && sorted != [] && sorted[0] == c
  }

  lemma {:induction false} SortExists(infos: seq<ConsensusInfo>, stake: StakeOf) returns (sorted: seq<ConsensusInfo>)
    requires StakesKnown(infos, stake)
    ensures SortResult(infos, sorted, stake)
  {
    if infos == [] {
      sorted := [];
    } else {
      var n := |infos| - 1;
      var rest := SortExists(infos[..n], stake);
      assert infos == infos[..n] + [infos[n]];
      MembersKnown(rest, infos, n, stake);
      InsertSortedPermutes(rest, infos[n], stake);
      InsertSortedSorted(rest, infos[n], stake);
      sorted := InsertSorted(rest, infos[n], stake);
    }
  }

  /** The head of a sorted listing is one of the entries, and none beats it. */
  lemma HeadUnbeaten(infos: seq<ConsensusInfo>, sorted: seq<ConsensusInfo>, stake: StakeOf) returns (i: nat)
    requires StakesKnown(infos, stake) && infos != [] && SortResult(infos, sorted, stake)
    ensures sorted != [] && i < |infos| && infos[i] == sorted[0]
    ensures Unbeaten(infos[i], infos, stake)
    ensures forall k :: 0 <= k < |infos| ==>
              var x, b := infos[k].block.value.header, infos[i].block.value.header;
              var sx, sb := stake(x.proposerEth).value, stake(b.proposerEth).value;
              sx < sb || (sx == sb && x.timestamp <= b.timestamp)
  {
    assert |multiset(sorted)| == |multiset(infos)|;
    var c := sorted[0];
    assert c in multiset(infos);
    i :| 0 <= i < |infos| && infos[i] == c;
    forall k | 0 <= k < |infos|
      ensures !Before(infos[k].block.value, c.block.value, stake)
    {
      assert infos[k] in multiset(sorted);
      var j :| 0 <= j < |sorted| && sorted[j] == infos[k];
      assert j == 0 || !Before(sorted[j].block.value, sorted[0].block.value, stake);
    }
  }

  lemma UnbeatenCanComeFirst(k: nat, infos: seq<ConsensusInfo>, stake: StakeOf)
    requires StakesKnown(infos, stake) && k < |infos| && Unbeaten(infos[k], infos, stake)
    ensures CanComeFirst(infos[k], infos, stake)
  {
    var c := infos[k];
    RemoveAtMultiset(infos, k);
    var rest := RemoveAt(infos, k);
    var tail := SortExists(rest, stake);
    forall j | 0 <= j < |tail|
      ensures tail[j].block.Some? && !Before(tail[j].block.value, c.block.value, stake)
    {
      assert tail[j] in multiset(rest);
      assert tail[j] in infos;
    }
    assert SortResult(infos, [c] + tail, stake);
    assert ([c] + tail)[0] == c;
  }

  /** Exactly the entries that no other entry beats can be selected, depending on the order of the walk. */
  lemma FirstIffUnbeaten(c: ConsensusInfo, infos: seq<ConsensusInfo>, stake: StakeOf)
    requires StakesKnown(infos, stake) && c in infos
    ensures CanComeFirst(c, infos, stake) <==> Unbeaten(c, infos, stake)
  {
    if CanComeFirst(c, infos, stake) {
      var sorted: seq<ConsensusInfo> :| SortResult(infos, sorted, stake) && sorted != [] && sorted[0] == c;
      var i := HeadUnbeaten(infos, sorted, stake);
    }
    if Unbeaten(c, infos, stake) {
      var k :| 0 <= k < |infos| && infos[k] == c;
      UnbeatenCanComeFirst(k, infos, stake);
    }
  }

  /** Every walk of the map selects the same block if and only if all unbeaten entries carry the same block. */
  lemma SelectionDeterministicIff(infos: seq<ConsensusInfo>, stake: StakeOf)
    requires StakesKnown(infos, stake)
    ensures (forall c, d :: c in infos && d in infos && CanComeFirst(c, infos, stake) && CanComeFirst(d, infos, stake) ==> c.block == d.block)
       <==> (forall c, d :: c in infos && d in infos && Unbeaten(c, infos, stake) && Unbeaten(d, infos, stake) ==> c.block == d.block)
  {
    forall c | c in infos
      ensures CanComeFirst(c, infos, stake) <==> Unbeaten(c, infos, stake)
    {
      FirstIffUnbeaten(c, infos, stake);
    }
  }

  // ----- two nodes -----

  function Entries(logs: map<Hash, seq<Message>>, minApprovals: int): map<Hash, ConsensusInfo> {
    map h | h in logs :: InfoOf(logs[h], h, minApprovals)
  }

  /** Both nodes hold the same hashes in the same states, and the same block for each committed hash. */
  ghost predicate Agree(a: map<Hash, seq<Message>>, b: map<Hash, seq<Message>>, minApprovals: int) {
    && a.Keys == b.Keys
    && forall h :: h in a ==>
         && StateOf(a[h], h, minApprovals) == StateOf(b[h], h, minApprovals)
         && (StateOf(a[h], h, minApprovals) == Committed ==> BlockOf(a[h]) == BlockOf(b[h]))
  }

  /** A hash identifies its block: all proposals logged for it carry the same one. */
  ghost predicate OneBlockPerHash(logs: map<Hash, seq<Message>>) {
    forall h, a, b :: h in logs && a in logs[h] && b in logs[h] && IsProposal(a) && IsProposal(b) ==> a.block == b.block
  }

  /** The same for the messages themselves. */
  ghost predicate HashesIdentifyBlocks(ms: seq<Message>) {
    forall a, b :: a in ms && b in ms && IsProposal(a) && IsProposal(b) && a.blockhash == b.blockhash ==> a.block == b.block
  }

  lemma ProposalIsLogged(log: seq<Message>) returns (x: Message)
    requires HasProposal(log)
    ensures x in log && IsProposal(x) && x.block == BlockOf(log)
  {
    x :| x in log && IsProposal(x) && x.block.value == Proposal(log);
  }

  /** Logs that are permutations of each other agree. */
  lemma PermutedLogsAgree(a: map<Hash, seq<Message>>, b: map<Hash, seq<Message>>, minApprovals: int)
    requires SameLogs(a, b) && OneBlockPerHash(a)
    ensures Agree(a, b, minApprovals)
  {
    hide StateOf, BlockOf;
    EqualLogsCommitEqually(a, b, minApprovals);
    forall h | h in a && StateOf(a[h], h, minApprovals) == Committed
      ensures BlockOf(a[h]) == BlockOf(b[h])
    {
      CommittedHasProposal(a[h], h, minApprovals);
      CommittedHasProposal(b[h], h, minApprovals);
      var x := ProposalIsLogged(a[h]);
      var y := ProposalIsLogged(b[h]);
      assert y in multiset(b[h]);
      assert y in a[h];
    }
  }

  lemma CommittedHasProposal(log: seq<Message>, h: Hash, minApprovals: int)
    requires StateOf(log, h, minApprovals) == Committed
    ensures HasProposal(log)
  {
  }

  /** So do the logs of two nodes that received the same messages. */
  lemma SameMessagesAgree(ms1: seq<Message>, ms2: seq<Message>, same: Same, minApprovals: int)
    requires Interchangeable(same) && (forall m :: m in ms1 <==> m in ms2) && HashesIdentifyBlocks(ms1)
    ensures Agree(ReceiveAll(ms1, same), ReceiveAll(ms2, same), minApprovals)
  {
    hide StateOf, BlockOf, Interchangeable, ReceiveAll;
    SameMessagesSameCommits(ms1, ms2, same, minApprovals);
    var a, b := ReceiveAll(ms1, same), ReceiveAll(ms2, same);
    forall h | h in a && StateOf(a[h], h, minApprovals) == Committed
      ensures BlockOf(a[h]) == BlockOf(b[h])
    {
      CommittedHasProposal(a[h], h, minApprovals);
      CommittedHasProposal(b[h], h, minApprovals);
      var x := ProposalIsLogged(a[h]);
      var y := ProposalIsLogged(b[h]);
      ReceivedLog(ms1, same, h);
      ReceivedLog(ms2, same, h);
    }
  }

  /** No two committed entries tie on stake and timestamp, and every stake is answered. */
  ghost predicate Decided(m: map<Hash, ConsensusInfo>, stake: StakeOf) {
    && (forall h :: h in m && m[h].state == Committed ==> m[h].block.Some? && stake(m[h].block.value.header.proposerEth).Some?)
    && (forall h, g :: h in m && g in m && h != g && m[h].state == m[g].state == Committed && m[h].block.Some? && m[g].block.Some? ==>
          !Tied(m[h].block.value, m[g].block.value, stake))
  }

  lemma UnbeatenBothWays(x: Block, y: Block, stake: StakeOf)
    requires stake(x.header.proposerEth).Some? && stake(y.header.proposerEth).Some?
    requires !Before(x, y, stake) && !Before(y, x, stake)
    ensures Tied(x, y, stake) && Tied(y, x, stake)
  {
  }

  /** The entry another node lists for a committed hash carries the same block. */
  lemma CounterpartIndex(a: map<Hash, seq<Message>>, b: map<Hash, seq<Message>>, minApprovals: int, h: Hash,
                         infosB: seq<ConsensusInfo>) returns (i: nat)
    requires Agree(a, b, minApprovals) && h in a && InfoOf(a[h], h, minApprovals).state == Committed
    requires ListsCommitted(infosB, Entries(b, minApprovals), b.Keys)
    ensures h in b && i < |infosB| && infosB[i] == InfoOf(b[h], h, minApprovals)
    ensures infosB[i].block == InfoOf(a[h], h, minApprovals).block
  {
    hide StateOf, BlockOf;
    i := IndexOf(h, infosB, Entries(b, minApprovals));
  }

  lemma IndexOf(h: Hash, infos: seq<ConsensusInfo>, m: map<Hash, ConsensusInfo>) returns (i: nat)
    requires ListsCommitted(infos, m, m.Keys) && h in m && m[h].state == Committed
    ensures i < |infos| && infos[i] == m[h]
  {
    assert m[h] in infos;
    i :| 0 <= i < |infos| && infos[i] == m[h];
  }

  lemma DecidedListed(m: map<Hash, ConsensusInfo>, stake: StakeOf, infos: seq<ConsensusInfo>)
    requires Decided(m, stake) && ListsCommitted(infos, m, m.Keys)
    ensures StakesKnown(infos, stake)
    ensures forall i, j :: 0 <= i < |infos| && 0 <= j < |infos| && i != j ==> !Tied(infos[i].block.value, infos[j].block.value, stake)
  {
    hide Tied;
  }

  lemma AgreeBothWays(a: map<Hash, seq<Message>>, b: map<Hash, seq<Message>>, minApprovals: int, stake: StakeOf)
    requires Agree(a, b, minApprovals) && Decided(Entries(a, minApprovals), stake)
    ensures Agree(b, a, minApprovals) && Decided(Entries(b, minApprovals), stake)
  {
    hide Tied, StateOf, BlockOf;
    var ea, eb := Entries(a, minApprovals), Entries(b, minApprovals);
    forall h | h in eb && eb[h].state == Committed
      ensures h in ea && ea[h].state == Committed && ea[h].block == eb[h].block
    {
    }
  }

  /** Nodes that agree select the same block, whatever order each walks and sorts its entries in. */
  lemma AgreeingNodesSelectTheSame(a: map<Hash, seq<Message>>, b: map<Hash, seq<Message>>, minApprovals: int, stake: StakeOf,
                                   r1: Outcome, r2: Outcome)
    requires Agree(a, b, minApprovals) && Decided(Entries(a, minApprovals), stake)
    requires Selectable(Entries(a, minApprovals), stake, r1) && Selectable(Entries(b, minApprovals), stake, r2)
    ensures r1 == r2
  {
    hide SortResult, InfoOf, StateOf, BlockOf, Before, Tied, Decided, Agree;
    var ea, eb := Entries(a, minApprovals), Entries(b, minApprovals);
    var infosA: seq<ConsensusInfo>, sortedA: seq<ConsensusInfo> :|
      ListsCommitted(infosA, ea, ea.Keys) && SortResult(infosA, sortedA, stake) && HeadOutcome(sortedA, stake, r1);
    var infosB: seq<ConsensusInfo>, sortedB: seq<ConsensusInfo> :|
      ListsCommitted(infosB, eb, eb.Keys) && SortResult(infosB, sortedB, stake) && HeadOutcome(sortedB, stake, r2);
    AgreeBothWays(a, b, minApprovals, stake);
    DecidedListed(ea, stake, infosA);
    DecidedListed(eb, stake, infosB);
    SortedLength(infosA, sortedA, stake);
    SortedLength(infosB, sortedB, stake);
    var i := HeadUnbeaten(infosA, sortedA, stake);
    var j' := HeadUnbeaten(infosB, sortedB, stake);
    var h, g := infosA[i].blockhash, infosB[j'].blockhash;
    var i' := CounterpartIndex(a, b, minApprovals, h, infosB);
    var j := CounterpartIndex(b, a, minApprovals, g, infosA);
    assert infosA[i].block == infosB[i'].block && infosA[j].block == infosB[j'].block;
    UnbeatenBothWays(infosA[i].block.value, infosA[j].block.value, stake);
  }

  lemma SortedLength(infos: seq<ConsensusInfo>, sorted: seq<ConsensusInfo>, stake: StakeOf)
    requires SortResult(infos, sorted, stake)
    ensures |sorted| == |infos|
  {
    assert |multiset(sorted)| == |multiset(infos)|;
  }

  /** Two nodes that received the same messages, in any order and any number of times, come to the same outcome and from
      the same chain to the same chain, if a hash identifies its block, every stake is answered and no two committed
      blocks tie on stake and timestamp. */
  lemma SameMessagesSameSelection(ms1: seq<Message>, ms2: seq<Message>, same: Same, minApprovals: int, stake: StakeOf,
                                  r1: Outcome, r2: Outcome, c: Chain, valid: bool)
    requires Interchangeable(same) && (forall m :: m in ms1 <==> m in ms2) && HashesIdentifyBlocks(ms1)
    requires Decided(Entries(ReceiveAll(ms1, same), minApprovals), stake)
    requires Selectable(Entries(ReceiveAll(ms1, same), minApprovals), stake, r1)
    requires Selectable(Entries(ReceiveAll(ms2, same), minApprovals), stake, r2)
    ensures r1 == r2 && ChainAfter(c, r1, valid) == ChainAfter(c, r2, valid)
  {
    hide Interchangeable, Decided, Selectable, ReceiveAll, Agree;
    SameMessagesAgree(ms1, ms2, same, minApprovals);
    AgreeingNodesSelectTheSame(ReceiveAll(ms1, same), ReceiveAll(ms2, same), minApprovals, stake, r1, r2);
  }
}
