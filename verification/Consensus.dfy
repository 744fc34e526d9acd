/** One node's consensus rounds: a message log per block hash, and the state each log stands for. */
module Consensus {
  import opened Common
  import opened Blocks

  datatype MessageType = PrePrepare | Prepare | Commit

  datatype Message = Message(typ: MessageType, blockhash: Hash, signature: Bytes, block: Option<Block>, from: Peer)

  datatype State = Unknown | PrePrepared | Prepared | Committed

  datatype ConsensusInfo = ConsensusInfo(blockhash: Hash, block: Option<Block>, state: State, log: seq<Message>)

  /** What is published on "consensus:newState". */
  datatype Event = NewState(block: Block, state: State)

  function Rank(s: State): nat {
    match s case Unknown => 0 case PrePrepared => 1 case Prepared => 2 case Committed => 3
  }

  // ----- the message log -----

  /** The set library's notion of equality is not fixed here: `same` says when it takes two messages for one. */
  type Same = (Message, Message) -> bool

  predicate Known(log: seq<Message>, m: Message, same: Same) {
    exists i :: 0 <= i < |log| && same(log[i], m)
  }

  function CountedHash(m: Message): Hash {
    if m.block.Some? then m.block.value.header.hash else m.blockhash
  }

  predicate Counts(m: Message, typ: MessageType, hash: Hash) {
    m.typ == typ && CountedHash(m) == hash
  }

  function Matching(log: seq<Message>, typ: MessageType, hash: Hash): seq<Message> {
    if log == [] then []
    else
      var m := log[|log| - 1];
      Matching(log[..|log| - 1], typ, hash) + if Counts(m, typ, hash) then [m] else []
  }

  method Get(log: seq<Message>, typ: MessageType, hash: Hash) returns (result: seq<Message>)
    ensures result == Matching(log, typ, hash)
  {
    result := [];
    for i := 0 to |log|
      invariant result == Matching(log[..i], typ, hash)
    {
      assert log[..i + 1][..i] == log[..i];
      var msg := log[i];
      if msg.typ == typ {
        var msgBlockHash;
        if msg.block.Some? { msgBlockHash := msg.block.value.header.hash; } else { msgBlockHash := msg.blockhash; }
        if msgBlockHash == hash { result := result + [msg]; }
      }
    }
    assert log[..|log|] == log;
  }

  // ----- the state a log stands for -----

  predicate IsProposal(m: Message) {
    m.typ == PrePrepare && m.block.Some?
  }

  predicate HasProposal(log: seq<Message>) {
    exists m :: m in log && IsProposal(m)
  }

  /** The block of the first proposal in the log. */
  function Proposal(log: seq<Message>): (b: Block)
    requires HasProposal(log)
    ensures exists i :: 0 <= i < |log| && IsFirstProposal(log, i) && log[i].block.value == b
  {
    if IsProposal(log[0]) then
      assert IsFirstProposal(log, 0);
      log[0].block.value
    else
      assert exists m :: m in log[1..] && IsProposal(m);
      var b := Proposal(log[1..]);
      FirstProposalShifted(log, b);
      b
  }

  predicate IsFirstProposal(log: seq<Message>, i: nat)
    requires i < |log|
  {
    IsProposal(log[i]) && forall j | 0 <= j < i :: !IsProposal(log[j])
  }

  lemma FirstProposalShifted(log: seq<Message>, b: Block)
    requires log != [] && !IsProposal(log[0])
    requires exists i :: 0 <= i < |log| - 1 && IsFirstProposal(log[1..], i) && log[1..][i].block.value == b
    ensures exists i :: 0 <= i < |log| && IsFirstProposal(log, i) && log[i].block.value == b
  {
    var i :| 0 <= i < |log| - 1 && IsFirstProposal(log[1..], i) && log[1..][i].block.value == b;
    forall j | 0 <= j < i + 1 ensures !IsProposal(log[j]) {
      if j > 0 { assert log[j] == log[1..][j - 1]; }
    }
    assert IsFirstProposal(log, i + 1);
  }

  function StateOf(log: seq<Message>, hash: Hash, minApprovals: int): State {
    Reached(HasProposal(log), |Matching(log, Prepare, hash)|, |Matching(log, Commit, hash)|, minApprovals)
  }

  function Reached(proposed: bool, prepares: nat, commits: nat, minApprovals: int): State {
    if !proposed then Unknown
    else if prepares < minApprovals - 1 then PrePrepared
    else if commits < minApprovals then Prepared
    else Committed
  }

  function BlockOf(log: seq<Message>): Option<Block> {
    if HasProposal(log) then Some(Proposal(log)) else if log == [] then None else log[0].block
  }

  function InfoOf(log: seq<Message>, hash: Hash, minApprovals: int): ConsensusInfo {
    ConsensusInfo(hash, BlockOf(log), StateOf(log, hash, minApprovals), log)
  }

  /** The states announced when a log goes from one state to a later one: every state it passes through. */
  function Announced(block: Block, before: State, after: State): seq<Event> {
    (if Rank(before) < 1 <= Rank(after) then [NewState(block, PrePrepared)] else [])
    + (if Rank(before) < 2 <= Rank(after) then [NewState(block, Prepared)] else [])
    + (if Rank(before) < 3 <= Rank(after) then [NewState(block, Committed)] else [])
  }

  function LogAt(logs: map<Hash, seq<Message>>, hash: Hash): seq<Message> {
    if hash in logs then logs[hash] else []
  }

  // ----- what the states mean -----

  /** The places of a log that hold a message of this type for this hash; a block's own hash goes before the one named. */
  function Places(log: seq<Message>, typ: MessageType, hash: Hash): set<nat> {
    set i: nat | i < |log| && IsFor(log[i], typ, hash)
  }

  predicate IsFor(m: Message, typ: MessageType, hash: Hash) {
    m.typ == typ && (if m.block.Some? then m.block.value.header.hash else m.blockhash) == hash
  }

  predicate Proposed(log: seq<Message>) {
    exists i :: 0 <= i < |log| && log[i].typ == PrePrepare && log[i].block.Some?
  }

  /** n - 1 Prepares beside a proposal make a hash prepared, and n Commits beside them make it committed. */
  ghost predicate StateFits(s: State, log: seq<Message>, hash: Hash, n: int) {
    var prepares, commits := |Places(log, Prepare, hash)|, |Places(log, Commit, hash)|;
    && (s == Unknown <==> !Proposed(log))
    && (s == PrePrepared <==> Proposed(log) && prepares < n - 1)
    && (s == Prepared <==> Proposed(log) && prepares >= n - 1 && commits < n)
    && (s == Committed <==> Proposed(log) && prepares >= n - 1 && commits >= n)
  }

  lemma {:induction false} MatchingPlaces(log: seq<Message>, typ: MessageType, hash: Hash)
    ensures |Matching(log, typ, hash)| == |Places(log, typ, hash)|
  {
    if log == [] {
      assert Places(log, typ, hash) == {};
    } else {
      var k := |log| - 1;
      MatchingPlaces(log[..k], typ, hash);
      PlacesSnoc(log, typ, hash);
    }
  }

  lemma PlacesSnoc(log: seq<Message>, typ: MessageType, hash: Hash)
    requires log != []
    ensures var k := |log| - 1;
            |Places(log, typ, hash)| == |Places(log[..k], typ, hash)| + if Counts(log[k], typ, hash) then 1 else 0
  {
    hide IsFor;
    var k := |log| - 1;
    var a, b := Places(log, typ, hash), Places(log[..k], typ, hash);
    assert forall i: nat :: i < k ==> log[..k][i] == log[i];
    assert IsFor(log[k], typ, hash) == Counts(log[k], typ, hash) by { CountsIsFor(log[k], typ, hash); }
    if IsFor(log[k], typ, hash) {
      assert a == b + {k};
    } else {
      assert a == b;
    }
  }

  lemma CountsIsFor(m: Message, typ: MessageType, hash: Hash)
    ensures IsFor(m, typ, hash) == Counts(m, typ, hash)
  {
  }

  lemma StateMeans(log: seq<Message>, hash: Hash, n: int)
    ensures StateFits(StateOf(log, hash, n), log, hash, n)
  {
    hide Matching, Places;
    MatchingPlaces(log, Prepare, hash);
    MatchingPlaces(log, Commit, hash);
    ProposedIff(log);
  }

  lemma ProposedIff(log: seq<Message>)
    ensures Proposed(log) <==> HasProposal(log)
  {
    if HasProposal(log) {
      var m :| m in log && IsProposal(m);
      var i :| 0 <= i < |log| && log[i] == m;
      assert log[i].typ == PrePrepare && log[i].block.Some?;
    }
    if Proposed(log) {
      var i :| 0 <= i < |log| && log[i].typ == PrePrepare && log[i].block.Some?;
      assert log[i] in log && IsProposal(log[i]);
    }
  }

  /** Every state passed through is announced once, in order, with the block of the first proposal. */
  ghost predicate EventsFit(events: seq<Event>, log: seq<Message>, before: State, after: State) {
    && |events| == Rank(after) - Rank(before)
    && forall k :: 0 <= k < |events| ==>
         && Rank(events[k].state) == Rank(before) + 1 + k
         && exists i :: 0 <= i < |log| && IsFirstProposal(log, i) && log[i].block.value == events[k].block
  }

  class ConsensusManager {
    var consensusInfoMap: map<Hash, ConsensusInfo>
    const minApprovals: int
    const same: Same

    ghost predicate Valid()
      reads this
    {
      forall h :: h in consensusInfoMap ==>
        && consensusInfoMap[h].log != []
        && consensusInfoMap[h] == InfoOf(consensusInfoMap[h].log, h, minApprovals)
    }

    ghost function Logs(): map<Hash, seq<Message>>
      reads this
    {
      map h | h in consensusInfoMap :: consensusInfoMap[h].log
    }

    constructor (minApprovals: int, same: Same)
      ensures Valid() && consensusInfoMap == map[]
      ensures this.minApprovals == minApprovals && this.same == same
    {
      this.minApprovals, this.same, consensusInfoMap := minApprovals, same, map[];
    }

    /** A message the set already holds changes nothing; any other is logged and may move its hash to later states. */
    method InsertMessageIntoLog(cmsg: Message) returns (ok: bool, events: seq<Event>)
      requires Valid()
      modifies this
      ensures Valid()
      ensures var log := LogAt(old(Logs()), cmsg.blockhash);
              ok <==> forall i :: 0 <= i < |log| ==> !same(log[i], cmsg)
      ensures !ok ==> consensusInfoMap == old(consensusInfoMap) && events == []
      ensures ok ==> Logs() == InsertLog(old(Logs()), cmsg)
      ensures ok ==> events == InsertEvents(old(Logs()), cmsg, minApprovals)
      ensures ok ==> cmsg.blockhash in consensusInfoMap
                     && consensusInfoMap == old(consensusInfoMap)[cmsg.blockhash := consensusInfoMap[cmsg.blockhash]]
      ensures ok ==> var e, log := consensusInfoMap[cmsg.blockhash], LogAt(old(Logs()), cmsg.blockhash) + [cmsg];
                     && e.log == log && StateFits(e.state, log, cmsg.blockhash, minApprovals)
                     && forall i :: 0 <= i < |log| && IsFirstProposal(log, i) ==> e.block == log[i].block
      ensures ok ==> var h := cmsg.blockhash;
                     EventsFit(events, consensusInfoMap[h].log, if h in old(consensusInfoMap) then old(consensusInfoMap)[h].state else Unknown,
                               consensusInfoMap[h].state)
    {
      hide InfoOf, EventsOf, StateFits, EventsFit;
      var h := cmsg.blockhash;
      ghost var log := LogAt(Logs(), h);
      ghost var before := if h in consensusInfoMap then consensusInfoMap[h].state else Unknown;
      EntryState(consensusInfoMap, h, minApprovals);
      ok, events := Insert(cmsg);
      if ok {
        EntryState(consensusInfoMap, h, minApprovals);
        StateMeans(log + [cmsg], h, minApprovals);
        EventsMean(log, cmsg, minApprovals);
        EntryBlock(log + [cmsg], h, minApprovals);
      }
    }

    method Insert(cmsg: Message) returns (ok: bool, events: seq<Event>)
      requires Valid()
      modifies this
      ensures Valid()
      ensures ok == !Known(LogAt(old(Logs()), cmsg.blockhash), cmsg, same)
      ensures !ok ==> consensusInfoMap == old(consensusInfoMap) && events == []
      ensures ok ==> Logs() == InsertLog(old(Logs()), cmsg)
      ensures ok ==> events == InsertEvents(old(Logs()), cmsg, minApprovals)
      ensures ok ==> cmsg.blockhash in consensusInfoMap
                     && consensusInfoMap == old(consensusInfoMap)[cmsg.blockhash := consensusInfoMap[cmsg.blockhash]]
                     && consensusInfoMap[cmsg.blockhash].log == LogAt(old(Logs()), cmsg.blockhash) + [cmsg]
    {
      hide StateOf, HasProposal, Proposal, Announced;
      events := [];
      var h := cmsg.blockhash;
      var created := h !in consensusInfoMap;
      var ci := if created then ConsensusInfo(h, cmsg.block, Unknown, []) else consensusInfoMap[h];
      assert LogAt(old(Logs()), h) == ci.log;
      if created { EmptyLog(h, minApprovals); }
      if exists i :: 0 <= i < |ci.log| && same(ci.log[i], cmsg) {
        return false, [];
      }
      ok := true;
      ghost var before := ci.log;
      ci := ci.(log := ci.log + [cmsg]);
      ci, events := MaybeUpdateConsensusState(ci, cmsg, before);
      SetEntry(h, ci);
    }

    method SetEntry(h: Hash, ci: ConsensusInfo)
      requires Valid() && ci.log != [] && ci == InfoOf(ci.log, h, minApprovals)
      modifies this
      ensures Valid() && Logs() == old(Logs())[h := ci.log] && consensusInfoMap == old(consensusInfoMap)[h := ci]
    {
      hide InfoOf;
      consensusInfoMap := consensusInfoMap[h := ci];
    }

    method MaybeUpdateConsensusState(info: ConsensusInfo, cmsg: Message, ghost before: seq<Message>)
      returns (ci: ConsensusInfo, events: seq<Event>)
      requires info.log == before + [cmsg] && info.blockhash == cmsg.blockhash
      requires info.state == StateOf(before, cmsg.blockhash, minApprovals)
      requires info.block == if before == [] then cmsg.block else BlockOf(before)
      ensures ci == InfoOf(info.log, cmsg.blockhash, minApprovals)
      ensures StateFits(ci.state, info.log, cmsg.blockhash, minApprovals)
      ensures events == if HasProposal(info.log) then Announced(Proposal(info.log), info.state, ci.state) else []
    {
      hide HasProposal, Proposal, Matching, StateFits;
      ci, events := info, [];
      AppendProposal(before, cmsg);
      if ci.state == Unknown && cmsg.typ == PrePrepare && cmsg.block.Some? {
        ci := ci.(block := cmsg.block, state := PrePrepared);
        events := events + [NewState(ci.block.value, PrePrepared)];
      }
      AppendMatching(before, cmsg, Prepare, cmsg.blockhash);
      AppendMatching(before, cmsg, Commit, cmsg.blockhash);
      var prepares := Get(ci.log, Prepare, cmsg.blockhash);
      if |prepares| >= minApprovals - 1 && ci.state == PrePrepared {
        ci := ci.(state := Prepared);
        events := events + [NewState(ci.block.value, Prepared)];
      }
      var commits := Get(ci.log, Commit, cmsg.blockhash);
      if |commits| >= minApprovals && ci.state == Prepared {
        ci := ci.(state := Committed);
        events := events + [NewState(ci.block.value, Committed)];
      }
      StateMeans(info.log, cmsg.blockhash, minApprovals);
    }

    method Prune()
      requires Valid()
      modifies this
      ensures Valid() && consensusInfoMap == map[]
    {
      var keys := consensusInfoMap.Keys;
      while keys != {}
        invariant consensusInfoMap.Keys == keys
        decreases keys
      {
        var k :| k in keys;
        consensusInfoMap := consensusInfoMap - {k};
        keys := keys - {k};
      }
    }

    /** The committed entries, each once, in whatever order the map is walked. */
    method GetAllBlocksWithCommit() returns (infos: seq<ConsensusInfo>)
      requires Valid()
      ensures ListsCommitted(infos, consensusInfoMap, consensusInfoMap.Keys)
    {
      hide InfoOf;
      infos := [];
      var keys := consensusInfoMap.Keys;
      ghost var seen: set<Hash> := {};
      while keys != {}
        invariant keys + seen == consensusInfoMap.Keys && keys !! seen
        invariant ListsCommitted(infos, consensusInfoMap, seen)
        decreases keys
      {
        var k :| k in keys;
        var v := consensusInfoMap[k];
        assert v.blockhash == k by { InfoOfHash(v.log, k, minApprovals); }
        if v.state == Committed {
          infos := infos + [v];
        }
        keys := keys - {k};
        seen := seen + {k};
      }
      assert seen == consensusInfoMap.Keys;
    }
  }

  lemma InfoOfHash(log: seq<Message>, hash: Hash, minApprovals: int)
    ensures InfoOf(log, hash, minApprovals).blockhash == hash
  {
  }

  /** `infos` holds exactly the committed entries with keys in `keys`, without repetition. */
  ghost predicate ListsCommitted(infos: seq<ConsensusInfo>, m: map<Hash, ConsensusInfo>, keys: set<Hash>) {
    && keys <= m.Keys
    && (forall i :: 0 <= i < |infos| ==> infos[i].blockhash in keys && m[infos[i].blockhash] == infos[i] && infos[i].state == Committed)
    && (forall h :: h in keys && m[h].state == Committed ==> m[h] in infos)
    && (forall i, j :: 0 <= i < j < |infos| ==> infos[i].blockhash != infos[j].blockhash)
  }

  function InsertLog(logs: map<Hash, seq<Message>>, m: Message): map<Hash, seq<Message>> {
    logs[m.blockhash := LogAt(logs, m.blockhash) + [m]]
  }

  function InsertEvents(logs: map<Hash, seq<Message>>, m: Message, minApprovals: int): seq<Event> {
    EventsOf(LogAt(logs, m.blockhash), m, minApprovals)
  }

  function EventsOf(log: seq<Message>, m: Message, minApprovals: int): seq<Event> {
    if HasProposal(log + [m])
    then Announced(Proposal(log + [m]), StateOf(log, m.blockhash, minApprovals), StateOf(log + [m], m.blockhash, minApprovals))
    else []
  }

  lemma EventsMean(log: seq<Message>, m: Message, minApprovals: int)
    ensures EventsFit(EventsOf(log, m, minApprovals), log + [m], StateOf(log, m.blockhash, minApprovals), StateOf(log + [m], m.blockhash, minApprovals))
  {
    hide Matching, HasProposal, Proposal, IsFirstProposal;
    AppendProposal(log, m);
    AppendMatching(log, m, Prepare, m.blockhash);
    AppendMatching(log, m, Commit, m.blockhash);
  }

  lemma EntryBlock(log: seq<Message>, h: Hash, minApprovals: int)
    ensures forall i :: 0 <= i < |log| && IsFirstProposal(log, i) ==> InfoOf(log, h, minApprovals).block == log[i].block
  {
    forall i | 0 <= i < |log| && IsFirstProposal(log, i)
      ensures BlockOf(log) == log[i].block
    {
      assert log[i] in log;
      var j :| 0 <= j < |log| && IsFirstProposal(log, j) && log[j].block.value == Proposal(log);
      FirstUnique(log, i, j);
    }
  }

  lemma FirstUnique(log: seq<Message>, i: nat, j: nat)
    requires i < |log| && j < |log| && IsFirstProposal(log, i) && IsFirstProposal(log, j)
    ensures i == j
  {
  }

  lemma EntryState(m: map<Hash, ConsensusInfo>, h: Hash, minApprovals: int)
    requires h in m ==> m[h] == InfoOf(m[h].log, h, minApprovals)
    ensures (if h in m then m[h].state else Unknown) == StateOf(if h in m then m[h].log else [], h, minApprovals)
  {
    EmptyLog(h, minApprovals);
  }

  lemma EmptyLog(h: Hash, minApprovals: int)
    ensures StateOf([], h, minApprovals) == Unknown
  {
  }

  lemma {:induction false} AppendProposal(log: seq<Message>, m: Message)
    ensures HasProposal(log + [m]) == (HasProposal(log) || IsProposal(m))
    ensures HasProposal(log) ==> Proposal(log + [m]) == Proposal(log)
    ensures !HasProposal(log) && IsProposal(m) ==> Proposal(log + [m]) == m.block.value
  {
    assert m in log + [m];
    assert forall e :: e in log + [m] <==> e in log || e == m;
    if log != [] {
      assert (log + [m])[1..] == log[1..] + [m];
      assert forall e :: e in log <==> e == log[0] || e in log[1..];
      AppendProposal(log[1..], m);
    }
  }

  lemma AppendMatching(log: seq<Message>, m: Message, typ: MessageType, hash: Hash)
    ensures Matching(log + [m], typ, hash) == Matching(log, typ, hash) + if Counts(m, typ, hash) then [m] else []
  {
    assert (log + [m])[..|log|] == log;
  }
}
