/** The consensus rounds of a whole network: correct nodes exchanging broadcasts, and faulty ones sending anything. */
module ConsensusNetwork {
  import opened Common
  import opened Blocks
  import opened Consensus
  import opened ConsensusOrder

  datatype Config = Config(correct: set<Peer>, faulty: set<Peer>, same: Same, minApprovals: Peer -> int)

  datatype Node = Node(logs: map<Hash, seq<Message>>, pending: seq<Event>)

  /** `sent` holds every broadcast so far; the router attaches the authenticated sender. */
  datatype Net = Net(nodes: map<Peer, Node>, sent: set<Message>)

  datatype Step =
    | Propose(n: Peer, block: Block)
    | Deliver(n: Peer, m: Message, valid: bool)  // valid: what the validator of n answers
    | React(n: Peer, k: nat, signature: Bytes)   // n handles its k-th pending announcement
    | PruneNode(n: Peer)
    | FaultySend(m: Message)

  function Insert(cfg: Config, n: Peer, node: Node, m: Message): Node {
    if Known(LogAt(node.logs, m.blockhash), m, cfg.same) then node
    else Node(InsertLog(node.logs, m), node.pending + InsertEvents(node.logs, m, cfg.minApprovals(n)))
  }

  /** The log entry a handler builds from a broadcast, or None when it ignores it. */
  function Handled(n: Peer, m: Message, valid: bool): Option<Message> {
    if m.from == n || !valid then None
    else if m.typ == PrePrepare then
      if m.block.None? || m.block.value.header.proposer == n then None
      else Some(m.(blockhash := m.block.value.header.hash))
    else Some(m.(block := None))
  }

  /** The broadcast made for an announcement. */
  function Reaction(n: Peer, e: Event, signature: Bytes): Option<Message> {
    match e.state
    case PrePrepared => if e.block.header.proposer == n then None else Some(Message(Prepare, e.block.header.hash, signature, None, n))
    case Prepared => Some(Message(Commit, e.block.header.hash, signature, None, n))
    case _ => None
  }

  function Own(n: Peer, block: Block): Message {
    Message(PrePrepare, block.header.hash, [], Some(block), n)
  }

  function Apply(cfg: Config, net: Net, s: Step): Net {
    match s
    case Propose(n, block) =>
      if n !in net.nodes then net
      else
        var node := net.nodes[n];
        if Known(LogAt(node.logs, block.header.hash), Own(n, block), cfg.same) then net
        else Net(net.nodes[n := Insert(cfg, n, node, Own(n, block))], net.sent + {Own(n, block)})
    case Deliver(n, m, valid) =>
      if n !in net.nodes || m !in net.sent || Handled(n, m, valid).None? then net
      else net.(nodes := net.nodes[n := Insert(cfg, n, net.nodes[n], Handled(n, m, valid).value)])
    case React(n, k, signature) =>
      if n !in net.nodes || k >= |net.nodes[n].pending| then net
      else
        var node := net.nodes[n];
        var out := Reaction(n, node.pending[k], signature);
        Net(net.nodes[n := node.(pending := RemoveAt(node.pending, k))],
            if out.Some? then net.sent + {out.value} else net.sent)
    case PruneNode(n) =>
      if n !in net.nodes then net else net.(nodes := net.nodes[n := net.nodes[n].(logs := map[])])
    case FaultySend(m) =>
      if m.from in cfg.faulty then net.(sent := net.sent + {m}) else net
  }

  /** The network after the first t steps of a run. */
  function At(cfg: Config, steps: seq<Step>, t: nat): Net
    requires t <= |steps|
  {
    if t == 0 then Net(map p | p in cfg.correct :: Node(map[], []), {})
    else Apply(cfg, At(cfg, steps, t - 1), steps[t - 1])
  }

  function LogIn(net: Net, p: Peer, h: Hash): seq<Message> {
    if p in net.nodes then LogAt(net.nodes[p].logs, h) else []
  }

  function StateIn(cfg: Config, net: Net, p: Peer, h: Hash): State {
    StateOf(LogIn(net, p, h), h, cfg.minApprovals(p))
  }

  // ----- what happened during a run -----

  /** Step i takes p's entry for h from below rank r to rank r or above. */
  predicate Entered(cfg: Config, steps: seq<Step>, i: nat, p: Peer, h: Hash, r: nat)
    requires i < |steps|
  {
    Rank(StateIn(cfg, At(cfg, steps, i), p, h)) < r <= Rank(StateIn(cfg, At(cfg, steps, i + 1), p, h))
  }

  ghost predicate EnteredBefore(cfg: Config, steps: seq<Step>, t: nat, p: Peer, h: Hash, r: nat)
    requires t <= |steps|
  {
    exists i: nat :: i < t && Entered(cfg, steps, i, p, h, r)
  }

  /** Step j puts a block with hash h into p's log: p proposes it, or p's validator passes a broadcast that carries it. */
  predicate Accepts(cfg: Config, steps: seq<Step>, j: nat, p: Peer, h: Hash)
    requires j < |steps|
  {
    var net := At(cfg, steps, j);
    && p in net.nodes
    && match steps[j]
       case Propose(n, block) => n == p && block.header.hash == h && !Known(LogAt(net.nodes[p].logs, h), Own(p, block), cfg.same)
       case Deliver(n, m, valid) =>
         && n == p && valid && m in net.sent && m.from != p && m.typ == PrePrepare
         && m.block.Some? && m.block.value.header.hash == h && m.block.value.header.proposer != p
         && !Known(LogAt(net.nodes[p].logs, h), m.(blockhash := h), cfg.same)
       case _ => false
  }

  /** Step j delivers to p the broadcast behind the log entry m, and p's validator passes it. */
  predicate Validates(cfg: Config, steps: seq<Step>, j: nat, p: Peer, m: Message)
    requires j < |steps|
  {
    steps[j].Deliver? && steps[j].n == p && steps[j].valid && steps[j].m in At(cfg, steps, j).sent && m == steps[j].m.(block := None)
  }

  ghost predicate ValidatedBefore(cfg: Config, steps: seq<Step>, t: nat, p: Peer, m: Message)
    requires t <= |steps|
  {
    exists j: nat :: j < t && Validates(cfg, steps, j, p, m)
  }

  ghost predicate AcceptedBefore(cfg: Config, steps: seq<Step>, t: nat, p: Peer, h: Hash)
    requires t <= |steps|
  {
    exists j: nat :: j < t && Accepts(cfg, steps, j, p, h)
  }

  function RankFor(typ: MessageType): nat {
    match typ case PrePrepare => 0 case Prepare => 1 case Commit => 2
  }

  // ----- the invariant -----

  ghost predicate SentOk(cfg: Config, steps: seq<Step>, t: nat, m: Message)
    requires t <= |steps|
  {
    && m.from in cfg.correct + cfg.faulty
    && (m.from in cfg.correct && m.typ != PrePrepare ==>
          m.block == None && EnteredBefore(cfg, steps, t, m.from, m.blockhash, RankFor(m.typ)))
  }

  ghost predicate EventOk(cfg: Config, steps: seq<Step>, t: nat, p: Peer, e: Event)
    requires t <= |steps|
  {
    EnteredBefore(cfg, steps, t, p, e.block.header.hash, Rank(e.state))
  }

  ghost predicate EntryOk(cfg: Config, steps: seq<Step>, t: nat, sent: set<Message>, p: Peer, h: Hash, m: Message)
    requires t <= |steps|
  {
    && m.blockhash == h && CountedHash(m) == h
    && (m.typ == PrePrepare ==> IsProposal(m) && AcceptedBefore(cfg, steps, t, p, h))
    && (m.typ != PrePrepare ==>
          && ValidatedBefore(cfg, steps, t, p, m)
          && m.from != p && m.from in cfg.correct + cfg.faulty
          && (m.from in cfg.correct ==> m in sent))
  }

  ghost predicate LogsOk(cfg: Config, steps: seq<Step>, t: nat, sent: set<Message>, p: Peer, logs: map<Hash, seq<Message>>)
    requires t <= |steps|
  {
    forall h, m :: h in logs && m in logs[h] ==> EntryOk(cfg, steps, t, sent, p, h, m)
  }

  ghost predicate PendingOk(cfg: Config, steps: seq<Step>, t: nat, p: Peer, pending: seq<Event>)
    requires t <= |steps|
  {
    forall e :: e in pending ==> EventOk(cfg, steps, t, p, e)
  }

  ghost predicate Inv(cfg: Config, steps: seq<Step>, t: nat)
    requires t <= |steps|
  {
    var net := At(cfg, steps, t);
    && net.nodes.Keys == cfg.correct
    && (forall m :: m in net.sent ==> SentOk(cfg, steps, t, m))
    && (forall p :: p in cfg.correct ==> LogsOk(cfg, steps, t, net.sent, p, net.nodes[p].logs))
    && (forall p :: p in cfg.correct ==> PendingOk(cfg, steps, t, p, net.nodes[p].pending))
  }

  lemma EnteredLater(cfg: Config, steps: seq<Step>, t: nat, p: Peer, h: Hash, r: nat)
    requires t < |steps| && EnteredBefore(cfg, steps, t, p, h, r)
    ensures EnteredBefore(cfg, steps, t + 1, p, h, r)
  {
  }

  lemma SentLater(cfg: Config, steps: seq<Step>, t: nat, m: Message)
    requires t < |steps| && SentOk(cfg, steps, t, m)
    ensures SentOk(cfg, steps, t + 1, m)
  {
    hide EnteredBefore;
    if m.from in cfg.correct && m.typ != PrePrepare {
      EnteredLater(cfg, steps, t, m.from, m.blockhash, RankFor(m.typ));
    }
  }

  lemma PendingLater(cfg: Config, steps: seq<Step>, t: nat, p: Peer, pending: seq<Event>)
    requires t < |steps| && PendingOk(cfg, steps, t, p, pending)
    ensures PendingOk(cfg, steps, t + 1, p, pending)
  {
    hide EnteredBefore;
    forall e | e in pending
      ensures EventOk(cfg, steps, t + 1, p, e)
    {
      EnteredLater(cfg, steps, t, p, e.block.header.hash, Rank(e.state));
    }
  }

  lemma LogsLater(cfg: Config, steps: seq<Step>, t: nat, sent: set<Message>, sent': set<Message>, p: Peer, logs: map<Hash, seq<Message>>)
    requires t < |steps| && LogsOk(cfg, steps, t, sent, p, logs) && sent <= sent'
    ensures LogsOk(cfg, steps, t + 1, sent', p, logs)
  {
    forall h, m | h in logs && m in logs[h]
      ensures EntryOk(cfg, steps, t + 1, sent', p, h, m)
    {
      assert EntryOk(cfg, steps, t, sent, p, h, m);
    }
  }

  /** Every announced state is entered by the very step that announces it. */
  lemma AnnouncedEntered(cfg: Config, steps: seq<Step>, t: nat, p: Peer, m: Message, e: Event)
    requires t < |steps| && p in At(cfg, steps, t).nodes && p in At(cfg, steps, t + 1).nodes
    requires At(cfg, steps, t + 1).nodes[p].logs == InsertLog(At(cfg, steps, t).nodes[p].logs, m)
    requires e in InsertEvents(At(cfg, steps, t).nodes[p].logs, m, cfg.minApprovals(p))
    requires forall x :: x in LogAt(At(cfg, steps, t + 1).nodes[p].logs, m.blockhash) ==> CountedHash(x) == m.blockhash
    ensures EventOk(cfg, steps, t + 1, p, e)
  {
    hide At, StateOf;
    var log := LogAt(At(cfg, steps, t).nodes[p].logs, m.blockhash);
    assert LogAt(At(cfg, steps, t + 1).nodes[p].logs, m.blockhash) == log + [m];
    assert e.block == Proposal(log + [m]);
    var x :| x in log + [m] && IsProposal(x) && x.block.value == e.block;
    assert x in LogAt(At(cfg, steps, t + 1).nodes[p].logs, m.blockhash);
    assert CountedHash(x) == m.blockhash;
    assert e.block.header.hash == m.blockhash;
    assert Entered(cfg, steps, t, p, m.blockhash, Rank(e.state));
  }

  lemma InsertKeepsLogs(cfg: Config, steps: seq<Step>, t: nat, sent: set<Message>, p: Peer, logs: map<Hash, seq<Message>>, m: Message)
    requires t <= |steps| && LogsOk(cfg, steps, t, sent, p, logs)
    requires EntryOk(cfg, steps, t, sent, p, m.blockhash, m)
    ensures LogsOk(cfg, steps, t, sent, p, InsertLog(logs, m))
  {
    hide EntryOk;
    var logs' := InsertLog(logs, m);
    forall h, x | h in logs' && x in logs'[h]
      ensures EntryOk(cfg, steps, t, sent, p, h, x)
    {
      if h == m.blockhash && x != m { assert x in logs[h]; }
    }
  }

  /** One node takes a message into its log; nobody else's log or pending announcements change. */
  lemma InsertKeeps(cfg: Config, steps: seq<Step>, t: nat, p: Peer, m: Message)
    requires t < |steps| && Inv(cfg, steps, t) && p in cfg.correct
    requires var net, net' := At(cfg, steps, t), At(cfg, steps, t + 1);
             && net'.nodes == net.nodes[p := Insert(cfg, p, net.nodes[p], m)]
             && net.sent <= net'.sent
             && (forall x :: x in net'.sent ==> x in net.sent || SentOk(cfg, steps, t + 1, x))
             && EntryOk(cfg, steps, t + 1, net'.sent, p, m.blockhash, m)
    ensures Inv(cfg, steps, t + 1)
  {
    var net, net' := At(cfg, steps, t), At(cfg, steps, t + 1);
    hide At, EntryOk, EventOk, SentOk, InsertEvents, InsertLog, Known;
    forall x | x in net'.sent
      ensures SentOk(cfg, steps, t + 1, x)
    {
      if x in net.sent { SentLater(cfg, steps, t, x); }
    }
    forall q | q in cfg.correct
      ensures LogsOk(cfg, steps, t + 1, net'.sent, q, net'.nodes[q].logs)
      ensures PendingOk(cfg, steps, t + 1, q, net'.nodes[q].pending)
    {
      LogsLater(cfg, steps, t, net.sent, net'.sent, q, net.nodes[q].logs);
      PendingLater(cfg, steps, t, q, net.nodes[q].pending);
      if q == p && net'.nodes[p] != net.nodes[p] {
        InsertKeepsLogs(cfg, steps, t + 1, net'.sent, p, net.nodes[p].logs, m);
        forall e | e in InsertEvents(net.nodes[p].logs, m, cfg.minApprovals(p))
          ensures EventOk(cfg, steps, t + 1, p, e)
        {
          CountedHashes(cfg, steps, t + 1, net'.sent, p, net'.nodes[p].logs, m.blockhash);
          AnnouncedEntered(cfg, steps, t, p, m, e);
        }
      }
    }
  }

  lemma CountedHashes(cfg: Config, steps: seq<Step>, t: nat, sent: set<Message>, p: Peer, logs: map<Hash, seq<Message>>, h: Hash)
    requires t <= |steps| && LogsOk(cfg, steps, t, sent, p, logs)
    ensures forall x :: x in LogAt(logs, h) ==> CountedHash(x) == h
  {
    forall x | x in LogAt(logs, h)
      ensures CountedHash(x) == h
    {
      assert EntryOk(cfg, steps, t, sent, p, h, x);
    }
  }

  /** No log grows: only broadcasts are added, announcements handled, or logs dropped. */
  lemma ShrinkKeeps(cfg: Config, steps: seq<Step>, t: nat)
    requires t < |steps| && Inv(cfg, steps, t)
    requires var net, net' := At(cfg, steps, t), At(cfg, steps, t + 1);
             && net'.nodes.Keys == net.nodes.Keys
             && net.sent <= net'.sent
             && (forall x :: x in net'.sent ==> x in net.sent || SentOk(cfg, steps, t + 1, x))
             && (forall q :: q in net.nodes ==> net'.nodes[q].logs == net.nodes[q].logs || net'.nodes[q].logs == map[])
             && (forall q, e :: q in net.nodes && e in net'.nodes[q].pending ==> e in net.nodes[q].pending)
    ensures Inv(cfg, steps, t + 1)
  {
    var net, net' := At(cfg, steps, t), At(cfg, steps, t + 1);
    hide At, EntryOk, EventOk, SentOk;
    forall x | x in net'.sent
      ensures SentOk(cfg, steps, t + 1, x)
    {
      if x in net.sent { SentLater(cfg, steps, t, x); }
    }
    forall q | q in cfg.correct
      ensures LogsOk(cfg, steps, t + 1, net'.sent, q, net'.nodes[q].logs)
      ensures PendingOk(cfg, steps, t + 1, q, net'.nodes[q].pending)
    {
      LogsLater(cfg, steps, t, net.sent, net'.sent, q, net.nodes[q].logs);
      PendingLater(cfg, steps, t, q, net.nodes[q].pending);
    }
  }

  lemma AtNext(cfg: Config, steps: seq<Step>, t: nat)
    requires t < |steps|
    ensures At(cfg, steps, t + 1) == Apply(cfg, At(cfg, steps, t), steps[t])
  {
  }

  lemma ReactKeeps(cfg: Config, steps: seq<Step>, t: nat)
    requires t < |steps| && Inv(cfg, steps, t) && steps[t].React?
    ensures Inv(cfg, steps, t + 1)
  {
    hide At, EntryOk, EnteredBefore, LogsOk;
    AtNext(cfg, steps, t);
    var net, net' := At(cfg, steps, t), At(cfg, steps, t + 1);
    var n, k := steps[t].n, steps[t].k;
    if n in net.nodes && k < |net.nodes[n].pending| {
      var e := net.nodes[n].pending[k];
      assert EventOk(cfg, steps, t, n, e);
      EnteredLater(cfg, steps, t, n, e.block.header.hash, Rank(e.state));
    }
    ShrinkKeeps(cfg, steps, t);
  }

  lemma InsertKnown(cfg: Config, n: Peer, node: Node, m: Message)
    requires Known(LogAt(node.logs, m.blockhash), m, cfg.same)
    ensures Insert(cfg, n, node, m) == node
  {
  }

  lemma StepKeeps(cfg: Config, steps: seq<Step>, t: nat)
    requires t < |steps| && Inv(cfg, steps, t) && cfg.correct !! cfg.faulty
    ensures Inv(cfg, steps, t + 1)
  {
    hide At, EnteredBefore, LogsOk, PendingOk, Insert;
    AtNext(cfg, steps, t);
    var net, net' := At(cfg, steps, t), At(cfg, steps, t + 1);
    match steps[t]
    case Propose(n, block) =>
      if net' == net {
        ShrinkKeeps(cfg, steps, t);
      } else {
        assert Accepts(cfg, steps, t, n, block.header.hash);
        InsertKeeps(cfg, steps, t, n, Own(n, block));
      }
    case Deliver(n, m, valid) =>
      if net'.nodes == net.nodes {
        ShrinkKeeps(cfg, steps, t);
      } else {
        var x := Handled(n, m, valid).value;
        assert SentOk(cfg, steps, t, m);
        if Known(LogAt(net.nodes[n].logs, x.blockhash), x, cfg.same) { InsertKnown(cfg, n, net.nodes[n], x); }
        assert IsProposal(x) ==> Accepts(cfg, steps, t, n, x.blockhash);
        assert x.typ != PrePrepare ==> Validates(cfg, steps, t, n, x);
        InsertKeeps(cfg, steps, t, n, x);
      }
    case React(_, _, _) => ReactKeeps(cfg, steps, t);
    case PruneNode(n) => ShrinkKeeps(cfg, steps, t);
    case FaultySend(m) => ShrinkKeeps(cfg, steps, t);
  }

  lemma {:induction false} InvAlways(cfg: Config, steps: seq<Step>, t: nat)
    requires t <= |steps| && cfg.correct !! cfg.faulty
    ensures Inv(cfg, steps, t)
  {
    if t > 0 {
      InvAlways(cfg, steps, t - 1);
      StepKeeps(cfg, steps, t - 1);
    }
  }

  // ----- what nodes broadcast and forget -----

  /** Step i is p's reaction to the announcement of `state` for a block with hash h; nobody prepares its own block. */
  predicate Reacts(cfg: Config, steps: seq<Step>, i: nat, p: Peer, h: Hash, state: State)
    requires i < |steps|
  {
    && steps[i].React? && steps[i].n == p && p in At(cfg, steps, i).nodes && steps[i].k < |At(cfg, steps, i).nodes[p].pending|
    && var e := At(cfg, steps, i).nodes[p].pending[steps[i].k];
       && e.state == state && e.block.header.hash == h && (state == PrePrepared ==> e.block.header.proposer != p)
  }

  /** In every run: what a correct node broadcasts is a proposal of its own, a Prepare for the announced block of another
      proposer, or a Commit for a block announced as prepared. */
  lemma {:induction false} BroadcastsReact(cfg: Config, steps: seq<Step>, t: nat, m: Message)
    requires t <= |steps| && cfg.correct !! cfg.faulty && m in At(cfg, steps, t).sent && m.from in cfg.correct
    ensures match m.typ
            case PrePrepare => exists i: nat {:trigger steps[i]} :: i < t && m.block.Some? && steps[i] == Propose(m.from, m.block.value)
            case Prepare => exists i: nat :: i < t && Reacts(cfg, steps, i, m.from, m.blockhash, PrePrepared)
            case Commit => exists i: nat :: i < t && Reacts(cfg, steps, i, m.from, m.blockhash, Prepared)
  {
    hide At, Insert;
    if t == 0 {
      NothingSent(cfg, steps);
    } else {
      AtNext(cfg, steps, t - 1);
      if m in At(cfg, steps, t - 1).sent {
        BroadcastsReact(cfg, steps, t - 1, m);
      } else if steps[t - 1].React? {
        assert Reacts(cfg, steps, t - 1, m.from, m.blockhash, if m.typ == Prepare then PrePrepared else Prepared);
      } else {
        assert steps[t - 1] == Propose(m.from, m.block.value);
      }
    }
  }

  lemma NothingSent(cfg: Config, steps: seq<Step>)
    ensures At(cfg, steps, 0).sent == {}
  {
  }

  /** A pruned node starts over: every hash is unknown to it, and every message is new. */
  lemma PrunedForgets(cfg: Config, steps: seq<Step>, t: nat, p: Peer, h: Hash, m: Message)
    requires t < |steps| && steps[t] == PruneNode(p)
    ensures var net := At(cfg, steps, t + 1);
            && StateIn(cfg, net, p, h) == Unknown && !Known(LogIn(net, p, h), m, cfg.same)
            && net.sent == At(cfg, steps, t).sent && forall q :: q != p ==> LogIn(net, q, h) == LogIn(At(cfg, steps, t), q, h)
  {
    hide At;
    AtNext(cfg, steps, t);
  }

  // ----- the theorem -----

  ghost predicate DistinctSenders(ms: seq<Message>) {
    forall i, j :: 0 <= i < j < |ms| ==> ms[i].from != ms[j].from
  }

  function Senders(ms: seq<Message>): set<Peer> {
    set m | m in ms :: m.from
  }

  lemma {:induction false} SendersSize(ms: seq<Message>)
    requires DistinctSenders(ms)
    ensures |Senders(ms)| == |ms|
  {
    if ms != [] {
      var rest, x := ms[..|ms| - 1], ms[|ms| - 1];
      SendersSize(rest);
      assert x.from !in Senders(rest);
      assert forall m :: m in ms <==> m in rest || m == x;
      assert Senders(ms) == Senders(rest) + {x.from};
    }
  }

  lemma {:induction false} MatchingFrom(log: seq<Message>, typ: MessageType, h: Hash, m: Message)
    requires m in Matching(log, typ, h)
    ensures m in log && Counts(m, typ, h)
  {
    if log != [] && m in Matching(log[..|log| - 1], typ, h) {
      MatchingFrom(log[..|log| - 1], typ, h, m);
    }
  }

  /** p entered rank r for h before t, after proposing or validating a block with that hash. */
  ghost predicate Supports(cfg: Config, steps: seq<Step>, t: nat, p: Peer, h: Hash, r: nat)
    requires t <= |steps|
  {
    exists i: nat :: i < t && Entered(cfg, steps, i, p, h, r) && AcceptedBefore(cfg, steps, i + 1, p, h)
  }

  lemma EnteredMeansAccepted(cfg: Config, steps: seq<Step>, i: nat, p: Peer, h: Hash, r: nat)
    requires i < |steps| && 1 <= r && Entered(cfg, steps, i, p, h, r) && cfg.correct !! cfg.faulty
    ensures AcceptedBefore(cfg, steps, i + 1, p, h)
  {
    hide At, SentOk, PendingOk, Matching;
    var net := At(cfg, steps, i + 1);
    InvAlways(cfg, steps, i + 1);
    var log := LogIn(net, p, h);
    assert HasProposal(log);
    var m :| m in log && IsProposal(m);
    assert EntryOk(cfg, steps, i + 1, net.sent, p, h, m);
  }

  /** Every Prepare or Commit that a correct node counts was sent, delivered to it and passed by its validator. */
  lemma CountedWasValidated(cfg: Config, steps: seq<Step>, t: nat, p: Peer, h: Hash, m: Message)
    requires t <= |steps| && cfg.correct !! cfg.faulty && p in cfg.correct
    requires m in LogIn(At(cfg, steps, t), p, h) && m.typ != PrePrepare
    ensures exists j: nat ::
              && j < t && steps[j].Deliver? && steps[j].n == p && steps[j].valid
              && steps[j].m in At(cfg, steps, j).sent && steps[j].m.(block := None) == m && m.from != p && m.blockhash == h
  {
    hide At, SentOk, PendingOk;
    InvAlways(cfg, steps, t);
    assert EntryOk(cfg, steps, t, At(cfg, steps, t).sent, p, h, m);
    var j: nat :| j < t && Validates(cfg, steps, j, p, m);
  }

  /** The other correct senders of the counted messages of one type, at least (count - f) of them. */
  lemma CorrectSenders(cfg: Config, steps: seq<Step>, t: nat, n: Peer, h: Hash, typ: MessageType, f: nat) returns (s: set<Peer>)
    requires t <= |steps| && cfg.correct !! cfg.faulty && |cfg.faulty| <= f && n in cfg.correct && typ != PrePrepare
    requires DistinctSenders(Matching(LogIn(At(cfg, steps, t), n, h), typ, h))
    ensures |s| >= |Matching(LogIn(At(cfg, steps, t), n, h), typ, h)| - f
    ensures s <= cfg.correct - {n}
    ensures forall p :: p in s ==> Supports(cfg, steps, t, p, h, RankFor(typ))
  {
    var net := At(cfg, steps, t);
    var ms := Matching(LogIn(net, n, h), typ, h);
    InvAlways(cfg, steps, t);
    s := Senders(ms) - cfg.faulty;
    SendersSize(ms);
    DifferenceSize(Senders(ms), cfg.faulty);
    forall p | p in s
      ensures p in cfg.correct && p != n && Supports(cfg, steps, t, p, h, RankFor(typ))
    {
      var m :| m in ms && m.from == p;
      MatchingFrom(LogIn(net, n, h), typ, h, m);
      assert EntryOk(cfg, steps, t, net.sent, n, h, m);
      assert SentOk(cfg, steps, t, m);
      var i: nat :| i < t && Entered(cfg, steps, i, p, h, RankFor(typ));
      EnteredMeansAccepted(cfg, steps, i, p, h, RankFor(typ));
    }
  }

  /** s are other correct nodes, each of which entered rank r for h after accepting a block with that hash. */
  ghost predicate SupportedBy(cfg: Config, steps: seq<Step>, t: nat, n: Peer, h: Hash, r: nat, s: set<Peer>)
    requires t <= |steps|
  {
    s <= cfg.correct - {n} && forall p :: p in s ==> Supports(cfg, steps, t, p, h, r)
  }

  /** Whenever a correct node holds a hash as committed, at least minApprovals - f other correct nodes had
      entered Prepared for it, each after proposing or validating a block with that hash. */
  lemma CommittedIsSupported(cfg: Config, steps: seq<Step>, t: nat, n: Peer, h: Hash, f: nat)
    requires t <= |steps| && cfg.correct !! cfg.faulty && |cfg.faulty| <= f && n in cfg.correct
    requires StateIn(cfg, At(cfg, steps, t), n, h) == Committed
    requires DistinctSenders(Matching(LogIn(At(cfg, steps, t), n, h), Commit, h))
    ensures exists s: set<Peer> :: |s| >= cfg.minApprovals(n) - f && SupportedBy(cfg, steps, t, n, h, Rank(Prepared), s)
  {
    hide Supports, DistinctSenders;
    var s := CorrectSenders(cfg, steps, t, n, h, Commit, f);
    assert SupportedBy(cfg, steps, t, n, h, Rank(Prepared), s);
  }

  /** The same for Prepared: minApprovals - 1 - f other correct nodes had accepted a block with that hash. */
  lemma PreparedIsSupported(cfg: Config, steps: seq<Step>, t: nat, n: Peer, h: Hash, f: nat)
    requires t <= |steps| && cfg.correct !! cfg.faulty && |cfg.faulty| <= f && n in cfg.correct
    requires Rank(StateIn(cfg, At(cfg, steps, t), n, h)) >= Rank(Prepared)
    requires DistinctSenders(Matching(LogIn(At(cfg, steps, t), n, h), Prepare, h))
    ensures exists s: set<Peer> :: |s| >= cfg.minApprovals(n) - 1 - f && SupportedBy(cfg, steps, t, n, h, Rank(PrePrepared), s)
  {
    hide Supports, DistinctSenders;
    var s := CorrectSenders(cfg, steps, t, n, h, Prepare, f);
    assert SupportedBy(cfg, steps, t, n, h, Rank(PrePrepared), s);
  }

  // ----- when the set library keeps one message per sender -----

  /** The set takes two messages for one whenever they are treated alike and come from the same sender. */
  ghost predicate OnePerSender(same: Same) {
    forall a: Message, b: Message :: Alike(a, b) && a.from == b.from ==> same(a, b)
  }

  predicate SameSender(a: Message, b: Message) {
    Alike(a, b) && a.from == b.from
  }

  /** Such a set exists among those for which the order of arrival does not matter. */
  lemma SameSenderFits()
    ensures Interchangeable(SameSender) && OnePerSender(SameSender)
  {
  }

  ghost predicate OneEach(log: seq<Message>) {
    forall i, j :: 0 <= i < j < |log| ==> !(Alike(log[i], log[j]) && log[i].from == log[j].from)
  }

  lemma {:induction false} LogsHoldOneEach(cfg: Config, steps: seq<Step>, t: nat, p: Peer, h: Hash)
    requires t <= |steps| && OnePerSender(cfg.same)
    ensures OneEach(LogIn(At(cfg, steps, t), p, h))
  {
    hide Alike;
    if t > 0 {
      LogsHoldOneEach(cfg, steps, t - 1, p, h);
      var net := At(cfg, steps, t - 1);
      var s := steps[t - 1];
      hide OnePerSender, OneEach, At, Insert;
      AtNext(cfg, steps, t - 1);
      if s.Propose? && s.n == p && p in net.nodes {
        InsertOneEach(cfg, p, net.nodes[p], Own(p, s.block), h);
      } else if s.Deliver? && s.n == p && p in net.nodes && Handled(p, s.m, s.valid).Some? {
        InsertOneEach(cfg, p, net.nodes[p], Handled(p, s.m, s.valid).value, h);
      } else if s.PruneNode? && s.n == p {
        EmptyOneEach();
      }
    }
  }

  lemma EmptyOneEach()
    ensures OneEach([])
  {
  }

  lemma InsertOneEach(cfg: Config, p: Peer, node: Node, m: Message, h: Hash)
    requires OnePerSender(cfg.same) && OneEach(LogAt(node.logs, h))
    ensures OneEach(LogAt(Insert(cfg, p, node, m).logs, h))
  {
  }

  lemma {:induction false} OneEachGivesDistinct(log: seq<Message>, typ: MessageType, h: Hash)
    requires OneEach(log) && forall m :: m in log ==> m.blockhash == h && CountedHash(m) == h && (m.typ == PrePrepare ==> IsProposal(m))
    ensures DistinctSenders(Matching(log, typ, h))
  {
    if log != [] {
      var rest, x := log[..|log| - 1], log[|log| - 1];
      OneEachGivesDistinct(rest, typ, h);
      forall m | m in Matching(rest, typ, h)
        ensures x.typ == typ ==> m.from != x.from
      {
        MatchingFrom(rest, typ, h, m);
        assert x.typ == typ ==> Alike(m, x);
      }
    }
  }

  /** Then counted entries always have distinct senders, in every run. */
  lemma CountedSendersDistinct(cfg: Config, steps: seq<Step>, t: nat, n: Peer, h: Hash, typ: MessageType)
    requires t <= |steps| && cfg.correct !! cfg.faulty && OnePerSender(cfg.same) && n in cfg.correct
    ensures DistinctSenders(Matching(LogIn(At(cfg, steps, t), n, h), typ, h))
  {
    var net := At(cfg, steps, t);
    InvAlways(cfg, steps, t);
    LogsHoldOneEach(cfg, steps, t, n, h);
    forall m | m in LogIn(net, n, h)
      ensures m.blockhash == h && CountedHash(m) == h && (m.typ == PrePrepare ==> IsProposal(m))
    {
      assert EntryOk(cfg, steps, t, net.sent, n, h, m);
    }
    OneEachGivesDistinct(LogIn(net, n, h), typ, h);
  }
}
