/** Arrival order does not matter: what a node commits depends on the collected messages only. */
module ConsensusOrder {
  import opened Common
  import opened Blocks
  import opened Consensus

  lemma {:induction false} MatchingConcat(a: seq<Message>, b: seq<Message>, typ: MessageType, hash: Hash)
    ensures Matching(a + b, typ, hash) == Matching(a, typ, hash) + Matching(b, typ, hash)
  {
    if b == [] {
      assert a + b == a;
    } else {
      var n := |b| - 1;
      assert (a + b)[..|a + b| - 1] == a + b[..n];
      MatchingConcat(a, b[..n], typ, hash);
    }
  }

  lemma MatchingRemoved(b: seq<Message>, i: nat, typ: MessageType, hash: Hash)
    requires i < |b|
    ensures |Matching(b, typ, hash)| == |Matching(RemoveAt(b, i), typ, hash)| + if Counts(b[i], typ, hash) then 1 else 0
  {
    var u, v := b[..i], b[i + 1..];
    assert b == (u + [b[i]]) + v;
    MatchingConcat(u + [b[i]], v, typ, hash);
    AppendMatching(u, b[i], typ, hash);
    MatchingConcat(u, v, typ, hash);
  }

  lemma {:induction false} MatchingCountPermuted(a: seq<Message>, b: seq<Message>, typ: MessageType, hash: Hash)
    requires multiset(a) == multiset(b)
    ensures |Matching(a, typ, hash)| == |Matching(b, typ, hash)|
  {
    if a == [] {
      assert |multiset(b)| == 0;
    } else {
      var i := PermutationLast(a, b);
      MatchingCountPermuted(a[..|a| - 1], RemoveAt(b, i), typ, hash);
      MatchingRemoved(b, i, typ, hash);
    }
  }

  lemma StatePermuted(a: seq<Message>, b: seq<Message>, hash: Hash, minApprovals: int)
    requires multiset(a) == multiset(b)
    ensures StateOf(a, hash, minApprovals) == StateOf(b, hash, minApprovals)
  {
    MatchingCountPermuted(a, b, Prepare, hash);
    MatchingCountPermuted(a, b, Commit, hash);
    assert forall m :: m in a <==> m in multiset(a);
    assert forall m :: m in b <==> m in multiset(b);
  }

  /** Only permutation of the logs is known. */
  ghost predicate SameLogs(a: map<Hash, seq<Message>>, b: map<Hash, seq<Message>>) {
    a.Keys == b.Keys && forall h :: h in a ==> multiset(a[h]) == multiset(b[h])
  }

  function CommittedHashes(logs: map<Hash, seq<Message>>, minApprovals: int): set<Hash> {
    set h | h in logs && StateOf(logs[h], h, minApprovals) == Committed
  }

  lemma EqualLogsCommitEqually(a: map<Hash, seq<Message>>, b: map<Hash, seq<Message>>, minApprovals: int)
    requires SameLogs(a, b)
    ensures forall h :: h in a ==> StateOf(a[h], h, minApprovals) == StateOf(b[h], h, minApprovals)
    ensures CommittedHashes(a, minApprovals) == CommittedHashes(b, minApprovals)
  {
    forall h | h in a
      ensures StateOf(a[h], h, minApprovals) == StateOf(b[h], h, minApprovals)
    {
      StatePermuted(a[h], b[h], h, minApprovals);
    }
  }

  // ----- arrival sequences -----

  function Receive(logs: map<Hash, seq<Message>>, m: Message, same: Same): map<Hash, seq<Message>> {
    if Known(LogAt(logs, m.blockhash), m, same) then logs else InsertLog(logs, m)
  }

  function ReceiveAll(ms: seq<Message>, same: Same): map<Hash, seq<Message>> {
    if ms == [] then map[] else Receive(ReceiveAll(ms[..|ms| - 1], same), ms[|ms| - 1], same)
  }

  predicate Alike(a: Message, b: Message) {
    a.typ == b.typ && a.blockhash == b.blockhash && CountedHash(a) == CountedHash(b) && IsProposal(a) == IsProposal(b)
  }

  /** The set may take two messages for one only if the manager treats them alike. */
  ghost predicate Interchangeable(same: Same) {
    && (forall a :: same(a, a))
    && (forall a, b :: same(a, b) ==> same(b, a) && Alike(a, b))
    && (forall a, b, c :: same(a, b) && same(b, c) ==> same(a, c))
  }

  ghost predicate ByValue(same: Same) {
    forall a, b :: same(a, b) <==> a == b
  }

  lemma ByValueInterchangeable(same: Same)
    requires ByValue(same)
    ensures Interchangeable(same)
  {
  }

  /** No two entries are the same, and each has its like in the other log. */
  ghost predicate OneOfEach(log: seq<Message>, same: Same) {
    forall i, j :: 0 <= i < j < |log| ==> !same(log[i], log[j])
  }

  ghost predicate Represented(a: seq<Message>, b: seq<Message>, same: Same) {
    forall i :: 0 <= i < |a| ==> Known(b, a[i], same)
  }

  lemma {:induction false} ReceivedLog(ms: seq<Message>, same: Same, h: Hash)
    requires Interchangeable(same)
    ensures OneOfEach(LogAt(ReceiveAll(ms, same), h), same)
    ensures forall m :: m in LogAt(ReceiveAll(ms, same), h) ==> m in ms && m.blockhash == h
    ensures forall m :: m in ms && m.blockhash == h ==> Known(LogAt(ReceiveAll(ms, same), h), m, same)
    ensures h in ReceiveAll(ms, same) <==> LogAt(ReceiveAll(ms, same), h) != []
  {
    if ms != [] {
      var last, rest := ms[|ms| - 1], ms[..|ms| - 1];
      assert forall m :: m in ms <==> m in rest || m == last;
      ReceivedLog(rest, same, h);
      var log := LogAt(ReceiveAll(rest, same), h);
      if h == last.blockhash && !Known(log, last, same) {
        assert (log + [last])[|log|] == last;
        forall m | m in rest && m.blockhash == h
          ensures Known(log + [last], m, same)
        {
          var i :| 0 <= i < |log| && same(log[i], m);
          assert (log + [last])[i] == log[i];
        }
      }
    }
  }

  lemma StillRepresented(a: seq<Message>, b: seq<Message>, same: Same, k: nat, i: nat)
    requires Interchangeable(same) && OneOfEach(a, same) && Represented(a, b, same)
    requires k == |a| - 1 && i < |b| && same(b[i], a[k])
    ensures Represented(a[..k], RemoveAt(b, i), same) && OneOfEach(a[..k], same)
  {
    forall j | 0 <= j < k
      ensures Known(RemoveAt(b, i), a[j], same)
    {
      var l :| 0 <= l < |b| && same(b[l], a[j]);
      assert !same(a[j], a[k]);
      assert RemoveAt(b, i)[if l < i then l else l - 1] == b[l];
    }
  }

  /** Logs that hold one message of each of the same classes count the same. */
  lemma {:induction false} MatchingCountRepresented(a: seq<Message>, b: seq<Message>, same: Same, typ: MessageType, hash: Hash)
    requires Interchangeable(same) && OneOfEach(a, same) && OneOfEach(b, same) && Represented(a, b, same) && Represented(b, a, same)
    ensures |Matching(a, typ, hash)| == |Matching(b, typ, hash)|
  {
    hide Interchangeable, OneOfEach, Represented;
    if a == [] {
      NoneRepresented(b, same);
    } else {
      var k := |a| - 1;
      var i := LikeOf(a, b, same, k);
      StillRepresented(a, b, same, k, i);
      OthersRepresented(a, b, same, k, i);
      MatchingCountRepresented(a[..k], RemoveAt(b, i), same, typ, hash);
      MatchingRemoved(b, i, typ, hash);
    }
  }

  lemma NoneRepresented(b: seq<Message>, same: Same)
    requires Represented(b, [], same)
    ensures b == []
  {
    assert b != [] ==> Known([], b[0], same);
  }

  lemma LikeOf(a: seq<Message>, b: seq<Message>, same: Same, k: nat) returns (i: nat)
    requires Interchangeable(same) && Represented(a, b, same) && k < |a|
    ensures i < |b| && same(b[i], a[k]) && Alike(b[i], a[k])
  {
    assert Known(b, a[k], same);
    i :| 0 <= i < |b| && same(b[i], a[k]);
  }

  lemma RestAt(b: seq<Message>, i: nat, j: nat) returns (l: nat)
    requires i < |b| && j < |RemoveAt(b, i)|
    ensures l < |b| && l != i && l == (if j < i then j else j + 1) && RemoveAt(b, i)[j] == b[l]
  {
    l := if j < i then j else j + 1;
  }

  lemma RestOneOfEach(b: seq<Message>, same: Same, i: nat)
    requires i < |b| && OneOfEach(b, same)
    ensures OneOfEach(RemoveAt(b, i), same)
  {
    hide RemoveAt;
    var c := RemoveAt(b, i);
    forall j, k | 0 <= j < k < |c|
      ensures !same(c[j], c[k])
    {
      var x := RestAt(b, i, j);
      var y := RestAt(b, i, k);
    }
  }

  lemma OthersRepresented(a: seq<Message>, b: seq<Message>, same: Same, k: nat, i: nat)
    requires Interchangeable(same) && OneOfEach(b, same) && Represented(b, a, same)
    requires k == |a| - 1 && i < |b| && same(b[i], a[k])
    ensures Represented(RemoveAt(b, i), a[..k], same) && OneOfEach(RemoveAt(b, i), same)
  {
    hide RemoveAt;
    var c := RemoveAt(b, i);
    forall j | 0 <= j < |c|
      ensures Known(a[..k], c[j], same)
    {
      var l := RestAt(b, i, j);
      var o :| 0 <= o < |a| && same(a[o], b[l]);
      assert if i < l then !same(b[i], b[l]) else !same(b[l], b[i]);
      assert a[..k][o] == a[o];
    }
    RestOneOfEach(b, same, i);
  }

  lemma StateRepresented(a: seq<Message>, b: seq<Message>, same: Same, hash: Hash, minApprovals: int)
    requires Interchangeable(same) && OneOfEach(a, same) && OneOfEach(b, same) && Represented(a, b, same) && Represented(b, a, same)
    ensures HasProposal(a) <==> HasProposal(b)
    ensures StateOf(a, hash, minApprovals) == StateOf(b, hash, minApprovals)
  {
    MatchingCountRepresented(a, b, same, Prepare, hash);
    MatchingCountRepresented(a, b, same, Commit, hash);
    ProposalRepresented(a, b, same);
    ProposalRepresented(b, a, same);
  }

  lemma ProposalRepresented(a: seq<Message>, b: seq<Message>, same: Same)
    requires Interchangeable(same) && Represented(a, b, same)
    ensures HasProposal(a) ==> HasProposal(b)
  {
    if HasProposal(a) {
      var m :| m in a && IsProposal(m);
      var j :| 0 <= j < |a| && a[j] == m;
      var i := LikeOf(a, b, same, j);
    }
  }

  lemma ReceivedRepresented(ms1: seq<Message>, ms2: seq<Message>, same: Same, h: Hash)
    requires Interchangeable(same) && forall m :: m in ms1 ==> m in ms2
    ensures Represented(LogAt(ReceiveAll(ms1, same), h), LogAt(ReceiveAll(ms2, same), h), same)
  {
    ReceivedLog(ms1, same, h);
    ReceivedLog(ms2, same, h);
  }

  /** Two nodes that received the same messages, in any order and any number of times, hold the same states and commit
      the same hashes, however the set chooses between messages that are treated alike. */
  lemma SameMessagesSameCommits(ms1: seq<Message>, ms2: seq<Message>, same: Same, minApprovals: int)
    requires Interchangeable(same)
    requires forall m :: m in ms1 <==> m in ms2
    ensures var a, b := ReceiveAll(ms1, same), ReceiveAll(ms2, same);
            && a.Keys == b.Keys
            && (forall h :: h in a ==> StateOf(a[h], h, minApprovals) == StateOf(b[h], h, minApprovals))
            && CommittedHashes(a, minApprovals) == CommittedHashes(b, minApprovals)
  {
    hide StateOf, Interchangeable;
    var a, b := ReceiveAll(ms1, same), ReceiveAll(ms2, same);
    forall h
      ensures h in a <==> h in b
      ensures h in a ==> StateOf(a[h], h, minApprovals) == StateOf(b[h], h, minApprovals)
    {
      ReceivedLog(ms1, same, h);
      ReceivedLog(ms2, same, h);
      ReceivedRepresented(ms1, ms2, same, h);
      ReceivedRepresented(ms2, ms1, same, h);
      StateRepresented(LogAt(a, h), LogAt(b, h), same, h, minApprovals);
      if LogAt(b, h) == [] { NoneRepresented(LogAt(a, h), same); }
      if LogAt(a, h) == [] { NoneRepresented(LogAt(b, h), same); }
    }
  }
}
