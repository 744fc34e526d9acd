/** The other side of safety: once everything correct nodes have sent about a proposal has arrived and been acted on,
    they have all committed it. */
module ConsensusProgress {
  import opened Common
  import opened Blocks
  import opened Consensus
  import opened ConsensusOrder
  import opened ConsensusNetwork

  ghost predicate NoPruning(steps: seq<Step>, t: nat)
    requires t <= |steps|
  {
    forall i :: 0 <= i < t ==> !steps[i].PruneNode?
  }

  // ----- what has been announced is pending or has been acted on -----

  ghost predicate SentBy(sent: set<Message>, typ: MessageType, h: Hash, p: Peer) {
    exists s: Bytes :: Message(typ, h, s, None, p) in sent
  }

  ghost predicate BlockSent(sent: set<Message>, b: Option<Block>) {
    exists m :: m in sent && m.typ == PrePrepare && m.block == b
  }

  /** For the proposal a node holds under h: each state it has reached was answered, or is still to be. */
  ghost predicate Answered(sent: set<Message>, pending: seq<Event>, p: Peer, h: Hash, log: seq<Message>, s: State) {
    HasProposal(log) ==>
      var b := Proposal(log);
      && b.header.hash == h
      && (NewState(b, PrePrepared) in pending || b.header.proposer == p || SentBy(sent, Prepare, h, p))
      && (Rank(s) >= Rank(Prepared) ==> NewState(b, Prepared) in pending || SentBy(sent, Commit, h, p))
      && (forall x :: x in log && IsProposal(x) ==> BlockSent(sent, x.block))
  }

  ghost predicate NodeOk(cfg: Config, net: Net, p: Peer)
    requires p in net.nodes
  {
    forall h :: Answered(net.sent, net.nodes[p].pending, p, h, LogIn(net, p, h), StateIn(cfg, net, p, h))
  }

  /** A correct node logs what it proposes. */
  ghost predicate OwnLogged(cfg: Config, net: Net) {
    forall m :: m in net.sent && m.from in cfg.correct && m.typ == PrePrepare ==>
      m.block.Some? && m.blockhash == m.block.value.header.hash && HasProposal(LogIn(net, m.from, m.blockhash))
  }

  ghost predicate ProgressInv(cfg: Config, net: Net) {
    && net.nodes.Keys == cfg.correct
    && (forall p :: p in cfg.correct ==> NodeOk(cfg, net, p))
    && OwnLogged(cfg, net)
  }

  lemma AnsweredLater(sent: set<Message>, sent': set<Message>, pending: seq<Event>, pending': seq<Event>, p: Peer, h: Hash, log: seq<Message>, s: State)
    requires Answered(sent, pending, p, h, log, s) && sent <= sent' && forall e :: e in pending ==> e in pending'
    ensures Answered(sent', pending', p, h, log, s)
  {
    if HasProposal(log) {
      forall x | x in log && IsProposal(x)
        ensures BlockSent(sent', x.block)
      {
        assert BlockSent(sent, x.block);
      }
    }
  }

  /** A message enters a log: every state passed through is announced with the block of the first proposal. */
  lemma InsertAnswered(sent: set<Message>, pending: seq<Event>, p: Peer, m: Message, log: seq<Message>, n: int)
    requires Answered(sent, pending, p, m.blockhash, log, StateOf(log, m.blockhash, n))
    requires CountedHash(m) == m.blockhash && (IsProposal(m) ==> BlockSent(sent, m.block))
    ensures Answered(sent, pending + EventsOf(log, m, n), p, m.blockhash, log + [m], StateOf(log + [m], m.blockhash, n))
  {
    hide HasProposal, Proposal, Matching;
    AppendProposal(log, m);
    AppendMatching(log, m, Prepare, m.blockhash);
    AppendMatching(log, m, Commit, m.blockhash);
    assert forall x :: x in log + [m] <==> x in log || x == m;
    var pending' := pending + EventsOf(log, m, n);
    assert forall e :: e in pending ==> e in pending';
    if HasProposal(log + [m]) {
      var b := Proposal(log + [m]);
      if HasProposal(log) {
        if Rank(StateOf(log + [m], m.blockhash, n)) >= 2 && Rank(StateOf(log, m.blockhash, n)) < 2 {
          assert NewState(b, Prepared) in EventsOf(log, m, n);
        }
      } else {
        assert NewState(b, PrePrepared) in EventsOf(log, m, n);
        if Rank(StateOf(log + [m], m.blockhash, n)) >= 2 { assert NewState(b, Prepared) in EventsOf(log, m, n); }
        NoProposalIn(log);
      }
    }
  }

  lemma NoProposalIn(log: seq<Message>)
    requires !HasProposal(log)
    ensures forall x :: x in log ==> !IsProposal(x)
  {
  }

  lemma InsertProgress(cfg: Config, net: Net, net': Net, p: Peer, m: Message)
    requires ProgressInv(cfg, net) && p in cfg.correct
    requires net'.nodes == net.nodes[p := Insert(cfg, p, net.nodes[p], m)] && net.sent <= net'.sent
    requires CountedHash(m) == m.blockhash && (IsProposal(m) ==> BlockSent(net'.sent, m.block))
    ensures forall q :: q in cfg.correct ==> q in net'.nodes && NodeOk(cfg, net', q)
    ensures forall q, h :: q in cfg.correct && HasProposal(LogIn(net, q, h)) ==> HasProposal(LogIn(net', q, h))
  {
    forall q | q in cfg.correct
      ensures NodeOk(cfg, net', q)
      ensures forall h :: HasProposal(LogIn(net, q, h)) ==> HasProposal(LogIn(net', q, h))
    {
      forall h
        ensures Answered(net'.sent, net'.nodes[q].pending, q, h, LogIn(net', q, h), StateIn(cfg, net', q, h))
        ensures HasProposal(LogIn(net, q, h)) ==> HasProposal(LogIn(net', q, h))
      {
        InsertHash(cfg, net, net', p, m, q, h);
      }
    }
  }

  lemma InsertHash(cfg: Config, net: Net, net': Net, p: Peer, m: Message, q: Peer, h: Hash)
    requires p in net.nodes && q in net.nodes && NodeOk(cfg, net, q)
    requires net'.nodes == net.nodes[p := Insert(cfg, p, net.nodes[p], m)] && net.sent <= net'.sent
    requires CountedHash(m) == m.blockhash && (IsProposal(m) ==> BlockSent(net'.sent, m.block))
    ensures Answered(net'.sent, net'.nodes[q].pending, q, h, LogIn(net', q, h), StateIn(cfg, net', q, h))
    ensures HasProposal(LogIn(net, q, h)) ==> HasProposal(LogIn(net', q, h))
  {
    hide Answered, HasProposal, StateOf, EventsOf, Known;
    var node, log := net.nodes[q], LogIn(net, q, h);
    assert Answered(net.sent, node.pending, q, h, log, StateIn(cfg, net, q, h));
    AnsweredLater(net.sent, net'.sent, node.pending, node.pending, q, h, log, StateIn(cfg, net, q, h));
    if q == p && !Known(LogAt(node.logs, m.blockhash), m, cfg.same) {
      var events := EventsOf(LogAt(node.logs, m.blockhash), m, cfg.minApprovals(p));
      if h == m.blockhash {
        InsertAnswered(net'.sent, node.pending, p, m, log, cfg.minApprovals(p));
        AppendProposal(log, m);
      } else {
        AnsweredLater(net'.sent, net'.sent, node.pending, node.pending + events, q, h, log, StateIn(cfg, net, q, h));
      }
    }
  }

  lemma OwnStays(cfg: Config, net: Net, net': Net)
    requires OwnLogged(cfg, net)
    requires forall q, h :: q in cfg.correct && HasProposal(LogIn(net, q, h)) ==> HasProposal(LogIn(net', q, h))
    requires forall m :: m in net'.sent && m.from in cfg.correct && m.typ == PrePrepare ==>
               m in net.sent || (m.block.Some? && m.blockhash == m.block.value.header.hash && HasProposal(LogIn(net', m.from, m.blockhash)))
    ensures OwnLogged(cfg, net')
  {
    hide HasProposal;
  }

  lemma ProposeProgress(cfg: Config, net: Net, n: Peer, block: Block)
    requires ProgressInv(cfg, net)
    ensures ProgressInv(cfg, Apply(cfg, net, Propose(n, block)))
  {
    hide NodeOk, OwnLogged, Insert, HasProposal, Known;
    var m := Own(n, block);
    var net' := Apply(cfg, net, Propose(n, block));
    if net' != net {
      assert BlockSent(net'.sent, m.block);
      InsertProgress(cfg, net, net', n, m);
      OwnInserted(cfg, net, net', n, m);
      OwnStays(cfg, net, net');
    }
  }

  lemma OwnInserted(cfg: Config, net: Net, net': Net, n: Peer, m: Message)
    requires n in net.nodes && IsProposal(m) && !Known(LogAt(net.nodes[n].logs, m.blockhash), m, cfg.same)
    requires net'.nodes == net.nodes[n := Insert(cfg, n, net.nodes[n], m)]
    ensures HasProposal(LogIn(net', n, m.blockhash))
  {
    var log := LogIn(net', n, m.blockhash);
    assert log[|log| - 1] == m;
    assert m in log;
  }

  lemma DeliverProgress(cfg: Config, net: Net, n: Peer, m: Message, valid: bool)
    requires ProgressInv(cfg, net)
    ensures ProgressInv(cfg, Apply(cfg, net, Deliver(n, m, valid)))
  {
    hide NodeOk, OwnLogged, Insert, HasProposal;
    var net' := Apply(cfg, net, Deliver(n, m, valid));
    if net' != net {
      var x := Handled(n, m, valid).value;
      if IsProposal(x) { assert BlockSent(net'.sent, x.block); }
      InsertProgress(cfg, net, net', n, x);
      OwnStays(cfg, net, net');
    }
  }

  lemma ReactProgress(cfg: Config, net: Net, n: Peer, k: nat, signature: Bytes)
    requires ProgressInv(cfg, net)
    ensures ProgressInv(cfg, Apply(cfg, net, React(n, k, signature)))
  {
    hide HasProposal, Proposal, StateOf;
    var net' := Apply(cfg, net, React(n, k, signature));
    if net' != net {
      forall q, h | q in cfg.correct
        ensures LogIn(net', q, h) == LogIn(net, q, h)
        ensures Answered(net'.sent, net'.nodes[q].pending, q, h, LogIn(net', q, h), StateIn(cfg, net', q, h))
      {
        var log, s := LogIn(net, q, h), StateIn(cfg, net, q, h);
        assert Answered(net.sent, net.nodes[q].pending, q, h, log, s);
        if q == n {
          ReactAnswered(net.sent, net.nodes[n].pending, n, h, log, s, k, signature);
        } else {
          AnsweredLater(net.sent, net'.sent, net.nodes[q].pending, net.nodes[q].pending, q, h, log, s);
        }
      }
      OwnStays(cfg, net, net');
    }
  }

  lemma ReactAnswered(sent: set<Message>, pending: seq<Event>, n: Peer, h: Hash, log: seq<Message>, s: State, k: nat, signature: Bytes)
    requires Answered(sent, pending, n, h, log, s) && k < |pending|
    ensures var out := Reaction(n, pending[k], signature);
            Answered(if out.Some? then sent + {out.value} else sent, RemoveAt(pending, k), n, h, log, s)
  {
    hide HasProposal, Proposal;
    var e := pending[k];
    var out := Reaction(n, e, signature);
    var sent' := if out.Some? then sent + {out.value} else sent;
    RemainingEvents(pending, k);
    if HasProposal(log) {
      var b := Proposal(log);
      if e == NewState(b, PrePrepared) && b.header.proposer != n {
        assert Message(Prepare, h, signature, None, n) in sent';
      }
      if e == NewState(b, Prepared) {
        assert Message(Commit, h, signature, None, n) in sent';
      }
      if SentBy(sent, Prepare, h, n) { assert SentBy(sent', Prepare, h, n); }
      if SentBy(sent, Commit, h, n) { assert SentBy(sent', Commit, h, n); }
      forall x | x in log && IsProposal(x)
        ensures BlockSent(sent', x.block)
      {
        assert BlockSent(sent, x.block);
      }
    }
  }

  lemma RemainingEvents(pending: seq<Event>, k: nat)
    requires k < |pending|
    ensures forall e :: e in pending && e != pending[k] ==> e in RemoveAt(pending, k)
  {
    forall e | e in pending && e != pending[k]
      ensures e in RemoveAt(pending, k)
    {
      var i :| 0 <= i < |pending| && pending[i] == e;
      assert RemoveAt(pending, k)[if i < k then i else i - 1] == e;
    }
  }

  lemma {:induction false} ProgressAlways(cfg: Config, steps: seq<Step>, t: nat)
    requires t <= |steps| && cfg.correct !! cfg.faulty && NoPruning(steps, t)
    ensures ProgressInv(cfg, At(cfg, steps, t))
  {
    hide ProgressInv, Apply;
    if t == 0 {
      ProgressAtStart(cfg, steps);
    } else {
      ProgressAlways(cfg, steps, t - 1);
      var net := At(cfg, steps, t - 1);
      match steps[t - 1]
      case Propose(n, block) => ProposeProgress(cfg, net, n, block);
      case Deliver(n, m, valid) => DeliverProgress(cfg, net, n, m, valid);
      case React(n, k, signature) => ReactProgress(cfg, net, n, k, signature);
      case PruneNode(n) =>
      case FaultySend(m) => FaultyProgress(cfg, net, m);
    }
  }

  lemma ProgressAtStart(cfg: Config, steps: seq<Step>)
    ensures ProgressInv(cfg, At(cfg, steps, 0))
  {
  }

  lemma FaultyProgress(cfg: Config, net: Net, m: Message)
    requires ProgressInv(cfg, net) && cfg.correct !! cfg.faulty
    ensures ProgressInv(cfg, Apply(cfg, net, FaultySend(m)))
  {
    hide HasProposal, StateOf;
    var net' := Apply(cfg, net, FaultySend(m));
    forall q, h | q in cfg.correct
      ensures LogIn(net', q, h) == LogIn(net, q, h)
      ensures Answered(net'.sent, net'.nodes[q].pending, q, h, LogIn(net', q, h), StateIn(cfg, net', q, h))
    {
      assert Answered(net.sent, net.nodes[q].pending, q, h, LogIn(net, q, h), StateIn(cfg, net, q, h));
      AnsweredLater(net.sent, net'.sent, net.nodes[q].pending, net.nodes[q].pending, q, h, LogIn(net, q, h), StateIn(cfg, net, q, h));
    }
    OwnStays(cfg, net, net');
  }

  // ----- when everything has arrived -----

  /** The message set never takes messages of different senders for one. */
  ghost predicate TellsSenders(same: Same) {
    forall a, b :: same(a, b) ==> Alike(a, b) && a.from == b.from
  }

  /** No announcement about h is left to act on, and what correct nodes have broadcast about it is in the logs of all
      the others. */
  ghost predicate Settled(cfg: Config, net: Net, h: Hash) {
    && (forall p, e :: p in net.nodes && e in net.nodes[p].pending ==> e.block.header.hash != h)
    && (forall p, m :: p in cfg.correct && m in net.sent && m.from in cfg.correct && m.from != p && CountedHash(m) == h
                       && !(m.typ == PrePrepare && m.block.Some? && m.block.value.header.proposer == p) ==>
          Known(LogIn(net, p, h), if m.typ == PrePrepare then m.(blockhash := h) else m.(block := None), cfg.same))
  }

  lemma CountAtLeast(log: seq<Message>, typ: MessageType, h: Hash, senders: set<Peer>)
    requires forall r :: r in senders ==> exists x :: x in log && Counts(x, typ, h) && x.from == r
    ensures |Matching(log, typ, h)| >= |senders|
  {
    var ms := Matching(log, typ, h);
    forall r | r in senders
      ensures r in Senders(ms)
    {
      var x :| x in log && Counts(x, typ, h) && x.from == r;
      InMatching(log, typ, h, x);
    }
    SubsetSize(senders, Senders(ms));
    SendersAtMost(ms);
  }

  lemma {:induction false} InMatching(log: seq<Message>, typ: MessageType, h: Hash, x: Message)
    requires x in log && Counts(x, typ, h)
    ensures x in Matching(log, typ, h)
  {
    var k := |log| - 1;
    if x in log[..k] {
      InMatching(log[..k], typ, h, x);
    } else {
      assert log == log[..k] + [log[k]];
    }
  }

  lemma {:induction false} SendersAtMost(ms: seq<Message>)
    ensures |Senders(ms)| <= |ms|
  {
    if ms != [] {
      var rest, x := ms[..|ms| - 1], ms[|ms| - 1];
      SendersAtMost(rest);
      assert forall m :: m in ms <==> m in rest || m == x;
      assert Senders(ms) == Senders(rest) + {x.from};
    }
  }

  /** Broadcasts of one type by all these nodes have arrived at p. */
  lemma AllCounted(cfg: Config, net: Net, p: Peer, h: Hash, typ: MessageType, senders: set<Peer>)
    requires net.nodes.Keys == cfg.correct && Settled(cfg, net, h) && TellsSenders(cfg.same) && p in cfg.correct && typ != PrePrepare
    requires senders <= cfg.correct - {p} && forall r :: r in senders ==> SentBy(net.sent, typ, h, r)
    ensures |Matching(LogIn(net, p, h), typ, h)| >= |senders|
  {
    var log := LogIn(net, p, h);
    forall r | r in senders
      ensures exists x :: x in log && Counts(x, typ, h) && x.from == r
    {
      var s :| Message(typ, h, s, None, r) in net.sent;
      var m := Message(typ, h, s, None, r);
      assert Known(log, m.(block := None), cfg.same);
      var i :| 0 <= i < |log| && cfg.same(log[i], m);
      assert log[i] in log && Counts(log[i], typ, h);
    }
    CountAtLeast(log, typ, h, senders);
  }

  /** Once a correct node's proposal has settled, every correct node whose threshold the others can meet has committed it:
      nothing but pruning, loss of messages or invalid blocks keeps correct nodes from committing. */
  lemma SettledIsCommitted(cfg: Config, steps: seq<Step>, t: nat, q: Peer, b: Block, p: Peer)
    requires t <= |steps| && cfg.correct !! cfg.faulty && NoPruning(steps, t) && TellsSenders(cfg.same)
    requires Settled(cfg, At(cfg, steps, t), b.header.hash)
    requires q in cfg.correct && p in cfg.correct && Own(q, b) in At(cfg, steps, t).sent && b.header.proposer == q
    requires forall m :: m in At(cfg, steps, t).sent && m.typ == PrePrepare && m.block.Some? && m.block.value.header.hash == b.header.hash ==>
               m.block.value == b
    requires forall r :: r in cfg.correct ==> cfg.minApprovals(r) <= |cfg.correct| - 1
    ensures StateIn(cfg, At(cfg, steps, t), p, b.header.hash) == Committed
  {
    hide At, NodeOk, Settled, TellsSenders;
    ProgressAlways(cfg, steps, t);
    var net, h := At(cfg, steps, t), b.header.hash;
    forall r | r in cfg.correct
      ensures r != q ==> SentBy(net.sent, Prepare, h, r)
      ensures HasProposal(LogIn(net, r, h))
    {
      ProposalArrived(cfg, net, q, b, r);
      PrepareSent(cfg, net, q, b, r);
    }
    forall r | r in cfg.correct
      ensures SentBy(net.sent, Commit, h, r)
      ensures |Matching(LogIn(net, r, h), Prepare, h)| >= cfg.minApprovals(r) - 1
    {
      DifferenceSize(cfg.correct, {r, q});
      AllCounted(cfg, net, r, h, Prepare, cfg.correct - {r, q});
      CommitSent(cfg, net, b, r);
    }
    DifferenceSize(cfg.correct, {p});
    AllCounted(cfg, net, p, h, Commit, cfg.correct - {p});
  }

  lemma ProposalArrived(cfg: Config, net: Net, q: Peer, b: Block, r: Peer)
    requires ProgressInv(cfg, net) && Settled(cfg, net, b.header.hash) && TellsSenders(cfg.same)
    requires q in cfg.correct && r in cfg.correct && Own(q, b) in net.sent && b.header.proposer == q
    ensures HasProposal(LogIn(net, r, b.header.hash))
  {
    hide NodeOk;
    var h, m := b.header.hash, Own(q, b);
    if r == q {
      assert OwnLogged(cfg, net);
    } else {
      var log := LogIn(net, r, h);
      assert Known(log, m.(blockhash := h), cfg.same);
      var i :| 0 <= i < |log| && cfg.same(log[i], m);
      assert log[i] in log && IsProposal(log[i]);
    }
  }

  lemma HoldsBlock(cfg: Config, net: Net, b: Block, r: Peer)
    requires ProgressInv(cfg, net) && r in cfg.correct && HasProposal(LogIn(net, r, b.header.hash))
    requires forall m :: m in net.sent && m.typ == PrePrepare && m.block.Some? && m.block.value.header.hash == b.header.hash ==> m.block.value == b
    ensures Proposal(LogIn(net, r, b.header.hash)) == b
    ensures Answered(net.sent, net.nodes[r].pending, r, b.header.hash, LogIn(net, r, b.header.hash), StateIn(cfg, net, r, b.header.hash))
  {
    var h := b.header.hash;
    var log := LogIn(net, r, h);
    assert NodeOk(cfg, net, r);
    assert Answered(net.sent, net.nodes[r].pending, r, h, log, StateIn(cfg, net, r, h));
    var x :| x in log && IsProposal(x) && x.block.value == Proposal(log);
    assert BlockSent(net.sent, x.block);
  }

  lemma PrepareSent(cfg: Config, net: Net, q: Peer, b: Block, r: Peer)
    requires ProgressInv(cfg, net) && Settled(cfg, net, b.header.hash) && r in cfg.correct && HasProposal(LogIn(net, r, b.header.hash))
    requires b.header.proposer == q
    requires forall m :: m in net.sent && m.typ == PrePrepare && m.block.Some? && m.block.value.header.hash == b.header.hash ==> m.block.value == b
    ensures r != q ==> SentBy(net.sent, Prepare, b.header.hash, r)
  {
    HoldsBlock(cfg, net, b, r);
  }

  lemma CommitSent(cfg: Config, net: Net, b: Block, r: Peer)
    requires ProgressInv(cfg, net) && Settled(cfg, net, b.header.hash) && r in cfg.correct && HasProposal(LogIn(net, r, b.header.hash))
    requires |Matching(LogIn(net, r, b.header.hash), Prepare, b.header.hash)| >= cfg.minApprovals(r) - 1
    requires forall m :: m in net.sent && m.typ == PrePrepare && m.block.Some? && m.block.value.header.hash == b.header.hash ==> m.block.value == b
    ensures SentBy(net.sent, Commit, b.header.hash, r)
  {
    HoldsBlock(cfg, net, b, r);
  }
}
