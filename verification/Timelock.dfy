/** The governance timelock, with calls that re-enter it while a transaction is being executed. */
module Timelock {
  import opened Common

  const GRACE_PERIOD: nat := 1209600
  const MINIMUM_DELAY: nat := 86400
  const MAXIMUM_DELAY: nat := 2592000

  /** Stands for its own hash. */
  datatype Tx = Tx(target: Address, value: nat, signature: string, data: Bytes, eta: nat)

  datatype Lock = Lock(
    self: Address,
    admin: Address,
    pendingAdmin: Address,
    delay: nat,
    adminInitialized: bool,
    queued: set<Tx>)

  /** What has happened to the timelock, in order; what a reverted call did is not part of it. */
  datatype Entry =
    | Queued(tx: Tx, at: nat, delay: nat, caller: Address)
    | Cancelled(tx: Tx, caller: Address)
    | Executed(tx: Tx, at: nat, caller: Address)
    | DelaySet(newDelay: nat)
    | PendingAdminSet(newPendingAdmin: Address, initial: bool)
    | AdminAccepted(newAdmin: Address)

  datatype Run = Run(lock: Lock, log: seq<Entry>)

  /** `inner` are the calls that reach the timelock while the target of an executed transaction is running;
      `success` is whether the target itself reports success. */
  datatype Action =
    | SetDelay(newDelay: nat)
    | AcceptAdmin
    | SetPendingAdmin(newPendingAdmin: Address)
    | QueueTransaction(tx: Tx)
    | CancelTransaction(tx: Tx)
    | ExecuteTransaction(tx: Tx, inner: seq<Call>, success: bool)

  datatype Call = Call(sender: Address, action: Action)

  /** Only the timelock sends calls from its own address: one call, of a transaction that targets it. */
  predicate Legal(self: Address, c: Call) {
    match c.action
    case ExecuteTransaction(tx, inner, _) =>
      && (tx.target == self ==> |inner| <= 1)
      && forall i | 0 <= i < |inner| :: (inner[i].sender == self <==> tx.target == self) && Legal(self, inner[i])
    case _ => true
  }

  predicate Executable(l: Lock, now: nat, sender: Address, tx: Tx) {
    sender == l.admin && tx in l.queued && tx.eta <= now && tx.eta + GRACE_PERIOD <= MAX_UINT256 && now <= tx.eta + GRACE_PERIOD
  }

  /** The flag is cleared before the target is called. */
  function Begun(r: Run, now: nat, tx: Tx, caller: Address): Run {
    Run(r.lock.(queued := r.lock.queued - {tx}), r.log + [Executed(tx, now, caller)])
  }

  /** One call with everything nested in it; None is a revert. */
  function Exec(r: Run, now: nat, c: Call): Option<Run>
    decreases c
  {
    var l, sender := r.lock, c.sender;
    match c.action
    case SetDelay(newDelay) =>
      if sender != l.self || newDelay < MINIMUM_DELAY || newDelay > MAXIMUM_DELAY then None
      else Some(Run(l.(delay := newDelay), r.log + [DelaySet(newDelay)]))
    case AcceptAdmin =>
      if sender != l.pendingAdmin then None
      else Some(Run(l.(admin := sender, pendingAdmin := ZERO_ADDRESS), r.log + [AdminAccepted(sender)]))
    case SetPendingAdmin(newPendingAdmin) =>
      if sender != (if l.adminInitialized then l.self else l.admin) then None
      else Some(Run(l.(pendingAdmin := newPendingAdmin, adminInitialized := true),
                    r.log + [PendingAdminSet(newPendingAdmin, !l.adminInitialized)]))
    case QueueTransaction(tx) =>
      if sender != l.admin || now + l.delay > MAX_UINT256 || tx.eta < now + l.delay then None
      else Some(Run(l.(queued := l.queued + {tx}), r.log + [Queued(tx, now, l.delay, sender)]))
    case CancelTransaction(tx) =>
      if sender != l.admin then None
      else Some(Run(l.(queued := l.queued - {tx}), r.log + [Cancelled(tx, sender)]))
    case ExecuteTransaction(tx, inner, success) =>
      if !Executable(l, now, sender, tx) || !success then None
      else if tx.target == l.self && inner != [] && Exec(Begun(r, now, tx, sender), now, inner[0]).None? then None
      else Some(ExecInner(Begun(r, now, tx, sender), now, c, |inner|))
  }

  /** The first n nested calls; a nested call that reverts leaves no trace. */
  function ExecInner(r: Run, now: nat, c: Call, n: nat): Run
    requires c.action.ExecuteTransaction? && n <= |c.action.inner|
    decreases c, n
  {
    if n == 0 then r
    else
      var r' := ExecInner(r, now, c, n - 1);
      match Exec(r', now, c.action.inner[n - 1]) case None => r' case Some(r'') => r''
  }

  // ----- what holds in every state -----

  predicate Concerns(e: Entry, tx: Tx) {
    (e.Queued? || e.Cancelled? || e.Executed?) && e.tx == tx
  }

  /** The last thing that happened to tx is that it was queued. */
  predicate Pending(log: seq<Entry>, tx: Tx) {
    if log == [] then false
    else
      var e := log[|log| - 1];
      if Concerns(e, tx) then e.Queued? else Pending(log[..|log| - 1], tx)
  }

  predicate RunsItself(log: seq<Entry>, self: Address) {
    log != [] && log[|log| - 1].Executed? && log[|log| - 1].tx.target == self
  }

  /** Each entry was justified by those before it. */
  ghost predicate Justified(self: Address, before: seq<Entry>, e: Entry) {
    match e
    case Queued(tx, at, delay, _) => MINIMUM_DELAY <= delay <= MAXIMUM_DELAY && at + delay <= tx.eta
    case Executed(tx, at, _) => Pending(before, tx) && tx.eta <= at <= tx.eta + GRACE_PERIOD
    case DelaySet(newDelay) => RunsItself(before, self) && MINIMUM_DELAY <= newDelay <= MAXIMUM_DELAY
    case PendingAdminSet(_, initial) => initial || RunsItself(before, self)
    case _ => true
  }

  ghost predicate Inv(r: Run) {
    && MINIMUM_DELAY <= r.lock.delay <= MAXIMUM_DELAY
    && (forall tx :: tx in r.lock.queued <==> Pending(r.log, tx))
    && (forall i | 0 <= i < |r.log| :: Justified(r.lock.self, r.log[..i], r.log[i]))
  }

  lemma AppendJustified(self: Address, log: seq<Entry>, e: Entry)
    requires forall i | 0 <= i < |log| :: Justified(self, log[..i], log[i])
    requires Justified(self, log, e)
    ensures forall i | 0 <= i < |log + [e]| :: Justified(self, (log + [e])[..i], (log + [e])[i])
  {
    hide Justified;
    forall i | 0 <= i < |log + [e]|
      ensures Justified(self, (log + [e])[..i], (log + [e])[i])
    {
      assert (log + [e])[..i] == log[..i];
      assert log[..|log|] == log;
    }
  }

  lemma PendingSnoc(log: seq<Entry>, e: Entry, tx: Tx)
    ensures Pending(log + [e], tx) == if Concerns(e, tx) then e.Queued? else Pending(log, tx)
  {
    assert (log + [e])[..|log|] == log;
  }

  /** A step that appends one justified entry and treats the flags accordingly keeps the invariant. */
  lemma EntryKeeps(r: Run, l': Lock, e: Entry)
    requires Inv(r) && l'.self == r.lock.self && MINIMUM_DELAY <= l'.delay <= MAXIMUM_DELAY
    requires Justified(r.lock.self, r.log, e)
    requires forall tx :: tx in l'.queued <==> if Concerns(e, tx) then e.Queued? else tx in r.lock.queued
    ensures Inv(Run(l', r.log + [e]))
  {
    hide Justified, Pending;
    AppendJustified(r.lock.self, r.log, e);
    forall tx ensures tx in l'.queued <==> Pending(r.log + [e], tx) { PendingSnoc(r.log, e, tx); }
  }

  /** Extension of a run: same contract, longer log. */
  predicate Extends(r: Run, r': Run) {
    r'.lock.self == r.lock.self && r.log <= r'.log
  }

  lemma BegunKeeps(r: Run, now: nat, sender: Address, tx: Tx)
    requires Inv(r) && Executable(r.lock, now, sender, tx)
    ensures Inv(Begun(r, now, tx, sender)) && Extends(r, Begun(r, now, tx, sender))
    ensures tx.target == r.lock.self ==> RunsItself(Begun(r, now, tx, sender).log, r.lock.self)
  {
    EntryKeeps(r, r.lock.(queued := r.lock.queued - {tx}), Executed(tx, now, sender));
  }

  /** Every call, with all the calls nested in it, keeps the invariant. */
  lemma {:induction false} CallKeeps(r: Run, now: nat, c: Call)
    requires Inv(r) && Legal(r.lock.self, c) && Exec(r, now, c).Some?
    requires c.sender == r.lock.self ==> RunsItself(r.log, r.lock.self)
    ensures Inv(Exec(r, now, c).value) && Extends(r, Exec(r, now, c).value)
    decreases c
  {
    hide Inv, Pending;
    InvUnfolded(r);
    var r' := Exec(r, now, c).value;
    match c.action
    case SetDelay(newDelay) => EntryKeeps(r, r'.lock, DelaySet(newDelay));
    case AcceptAdmin => EntryKeeps(r, r'.lock, AdminAccepted(c.sender));
    case SetPendingAdmin(a) => EntryKeeps(r, r'.lock, PendingAdminSet(a, !r.lock.adminInitialized));
    case QueueTransaction(tx) => EntryKeeps(r, r'.lock, Queued(tx, now, r.lock.delay, c.sender));
    case CancelTransaction(tx) => EntryKeeps(r, r'.lock, Cancelled(tx, c.sender));
    case ExecuteTransaction(tx, inner, success) =>
      BegunKeeps(r, now, c.sender, tx);
      InnerKeeps(Begun(r, now, tx, c.sender), now, c, |inner|);
  }

  lemma InvUnfolded(r: Run)
    requires Inv(r)
    ensures MINIMUM_DELAY <= r.lock.delay <= MAXIMUM_DELAY
  {
  }

  lemma {:induction false} InnerKeeps(r: Run, now: nat, c: Call, n: nat)
    requires Inv(r) && Legal(r.lock.self, c) && c.action.ExecuteTransaction? && n <= |c.action.inner|
    requires c.action.tx.target == r.lock.self ==> RunsItself(r.log, r.lock.self)
    ensures Inv(ExecInner(r, now, c, n)) && Extends(r, ExecInner(r, now, c, n))
    decreases c, n
  {
    hide Inv, Exec, RunsItself;
    if n > 0 {
      InnerKeeps(r, now, c, n - 1);
      var r' := ExecInner(r, now, c, n - 1);
      var d := c.action.inner[n - 1];
      assert Legal(r'.lock.self, d);
      if Exec(r', now, d).Some? { CallKeeps(r', now, d); }
    }
  }

  // ----- whole runs -----

  datatype Step = Step(now: nat, call: Call)

  function At(r: Run, steps: seq<Step>, t: nat): Run
    requires t <= |steps|
  {
    if t == 0 then r
    else
      var r' := At(r, steps, t - 1);
      match Exec(r', steps[t - 1].now, steps[t - 1].call) case None => r' case Some(r'') => r''
  }

  /** A new timelock: the constructor demands a delay within the bounds. */
  ghost predicate Deployed(r: Run) {
    MINIMUM_DELAY <= r.lock.delay <= MAXIMUM_DELAY && !r.lock.adminInitialized && r.lock.queued == {} && r.log == []
  }

  /** Transactions are sent from outside. */
  ghost predicate FromOutside(self: Address, steps: seq<Step>) {
    forall i | 0 <= i < |steps| :: steps[i].call.sender != self && Legal(self, steps[i].call)
  }

  lemma {:induction false} InvAlways(r: Run, steps: seq<Step>, t: nat)
    requires Deployed(r) && FromOutside(r.lock.self, steps) && t <= |steps|
    ensures Inv(At(r, steps, t)) && Extends(r, At(r, steps, t))
  {
    hide Exec, Legal;
    if t > 0 {
      InvAlways(r, steps, t - 1);
      var r' := At(r, steps, t - 1);
      if Exec(r', steps[t - 1].now, steps[t - 1].call).Some? { CallKeeps(r', steps[t - 1].now, steps[t - 1].call); }
    }
  }

  /** log[j] queued tx, and nothing was done to tx from then until before entry i. */
  ghost predicate QueuedAt(log: seq<Entry>, tx: Tx, j: nat, i: nat)
    requires i <= |log|
  {
    j < i && log[j].Queued? && log[j].tx == tx && forall k | j < k < i :: !Concerns(log[k], tx)
  }

  lemma {:induction false} PendingMeansQueued(log: seq<Entry>, tx: Tx, i: nat) returns (j: nat)
    requires i <= |log| && Pending(log[..i], tx)
    ensures QueuedAt(log, tx, j, i)
  {
    var before := log[..i];
    assert before[..i - 1] == log[..i - 1];
    if Concerns(log[i - 1], tx) { j := i - 1; }
    else { j := PendingMeansQueued(log, tx, i - 1); }
  }

  /** Every execution at time t, however deeply nested, has an earlier queueing of the same transaction at some q
      with q + 24h <= q + (the delay at q) <= eta <= t <= eta + 14 days, and neither a cancellation nor another
      execution of that transaction lies between them. */
  lemma ExecutionsWaited(r: Run, steps: seq<Step>, t: nat, i: nat)
    requires Deployed(r) && FromOutside(r.lock.self, steps) && t <= |steps|
    requires i < |At(r, steps, t).log| && At(r, steps, t).log[i].Executed?
    ensures var log := At(r, steps, t).log;
            exists j: nat ::
              && QueuedAt(log, log[i].tx, j, i)
              && log[j].at + MINIMUM_DELAY <= log[j].at + log[j].delay <= log[i].tx.eta <= log[i].at
              && log[i].at <= log[i].tx.eta + GRACE_PERIOD
  {
    hide At, Exec, Deployed, FromOutside, Pending;
    InvAlways(r, steps, t);
    var log := At(r, steps, t).log;
    assert Justified(At(r, steps, t).lock.self, log[..i], log[i]);
    var j := PendingMeansQueued(log, log[i].tx, i);
    assert Justified(At(r, steps, t).lock.self, log[..j], log[j]);
  }

  /** The delay stays within its bounds, and whether a transaction is queued is told by the last thing that happened
      to it. */
  lemma DelayBounded(r: Run, steps: seq<Step>, t: nat, tx: Tx)
    requires Deployed(r) && FromOutside(r.lock.self, steps) && t <= |steps|
    ensures MINIMUM_DELAY <= At(r, steps, t).lock.delay <= MAXIMUM_DELAY
    ensures tx in At(r, steps, t).lock.queued <==> Pending(At(r, steps, t).log, tx)
  {
    InvAlways(r, steps, t);
  }

  /** Entry i follows the execution of a transaction on the timelock itself, queued at least 24 hours before. */
  ghost predicate BySelf(self: Address, log: seq<Entry>, i: nat)
    requires i < |log|
  {
    && i > 0 && log[i - 1].Executed? && log[i - 1].tx.target == self
    && exists j: nat :: QueuedAt(log, log[i - 1].tx, j, i - 1) && log[j].at + MINIMUM_DELAY <= log[i - 1].at
  }

  lemma EntriesWaited(r: Run, steps: seq<Step>, t: nat, i: nat)
    requires Deployed(r) && FromOutside(r.lock.self, steps) && t <= |steps|
    requires i < |At(r, steps, t).log|
    requires At(r, steps, t).log[i].DelaySet? || (At(r, steps, t).log[i].PendingAdminSet? && !At(r, steps, t).log[i].initial)
    ensures BySelf(r.lock.self, At(r, steps, t).log, i)
  {
    hide At, Exec, Deployed, FromOutside, Pending;
    InvAlways(r, steps, t);
    var log := At(r, steps, t).log;
    assert Justified(At(r, steps, t).lock.self, log[..i], log[i]);
    assert log[..i][i - 1] == log[i - 1];
    ExecutionsWaited(r, steps, t, i - 1);
  }

  // ----- the state is the log, replayed -----

  function Effect(l: Lock, e: Entry): Lock {
    match e
    case Queued(tx, _, _, _) => l.(queued := l.queued + {tx})
    case Cancelled(tx, _) => l.(queued := l.queued - {tx})
    case Executed(tx, _, _) => l.(queued := l.queued - {tx})
    case DelaySet(newDelay) => l.(delay := newDelay)
    case PendingAdminSet(newPendingAdmin, _) => l.(pendingAdmin := newPendingAdmin, adminInitialized := true)
    case AdminAccepted(newAdmin) => l.(admin := newAdmin, pendingAdmin := ZERO_ADDRESS)
  }

  function Replayed(l: Lock, log: seq<Entry>): Lock {
    if log == [] then l else Effect(Replayed(l, log[..|log| - 1]), log[|log| - 1])
  }

  /** What an entry tells about the state it was made in. */
  predicate Agrees(l: Lock, e: Entry) {
    match e
    case Queued(_, _, delay, caller) => delay == l.delay && caller == l.admin
    case Cancelled(_, caller) => caller == l.admin
    case Executed(tx, _, caller) => tx in l.queued && caller == l.admin
    case PendingAdminSet(_, initial) => initial == !l.adminInitialized
    case AdminAccepted(newAdmin) => newAdmin == l.pendingAdmin
    case DelaySet(_) => true
  }

  ghost predicate Faithful(l: Lock, r: Run) {
    r.lock == Replayed(l, r.log) && forall i | 0 <= i < |r.log| :: Agrees(Replayed(l, r.log[..i]), r.log[i])
  }

  lemma EntryFaithful(l: Lock, r: Run, e: Entry)
    requires Faithful(l, r) && Agrees(r.lock, e)
    ensures Faithful(l, Run(Effect(r.lock, e), r.log + [e]))
  {
    hide Agrees, Effect;
    var log := r.log + [e];
    assert log[..|r.log|] == r.log;
    forall i | 0 <= i < |log|
      ensures Agrees(Replayed(l, log[..i]), log[i])
    {
      assert log[..i] == r.log[..i];
      assert r.log[..|r.log|] == r.log;
    }
  }

  lemma {:induction false} CallFaithful(l: Lock, r: Run, now: nat, c: Call)
    requires Faithful(l, r) && Exec(r, now, c).Some?
    ensures Faithful(l, Exec(r, now, c).value)
    decreases c
  {
    hide Faithful;
    match c.action
    case SetDelay(newDelay) => EntryFaithful(l, r, DelaySet(newDelay));
    case AcceptAdmin => EntryFaithful(l, r, AdminAccepted(c.sender));
    case SetPendingAdmin(a) => EntryFaithful(l, r, PendingAdminSet(a, !r.lock.adminInitialized));
    case QueueTransaction(tx) => EntryFaithful(l, r, Queued(tx, now, r.lock.delay, c.sender));
    case CancelTransaction(tx) => EntryFaithful(l, r, Cancelled(tx, c.sender));
    case ExecuteTransaction(tx, inner, _) =>
      EntryFaithful(l, r, Executed(tx, now, c.sender));
      InnerFaithful(l, Begun(r, now, tx, c.sender), now, c, |inner|);
  }

  lemma {:induction false} InnerFaithful(l: Lock, r: Run, now: nat, c: Call, n: nat)
    requires Faithful(l, r) && c.action.ExecuteTransaction? && n <= |c.action.inner|
    ensures Faithful(l, ExecInner(r, now, c, n))
    decreases c, n
  {
    hide Faithful, Exec;
    if n > 0 {
      InnerFaithful(l, r, now, c, n - 1);
      var r', d := ExecInner(r, now, c, n - 1), c.action.inner[n - 1];
      if Exec(r', now, d).Some? { CallFaithful(l, r', now, d); }
    }
  }

  /** After any run the whole state is what replaying the log gives, and every entry agrees with the state it was made in. */
  lemma {:induction false} LogTellsState(r: Run, steps: seq<Step>, t: nat)
    requires r.log == [] && t <= |steps|
    ensures Faithful(r.lock, At(r, steps, t))
  {
    hide Exec;
    if t > 0 {
      LogTellsState(r, steps, t - 1);
      hide Faithful;
      var r' := At(r, steps, t - 1);
      if Exec(r', steps[t - 1].now, steps[t - 1].call).Some? { CallFaithful(r.lock, r', steps[t - 1].now, steps[t - 1].call); }
    }
  }

  lemma {:induction false} LogGrows(r: Run, steps: seq<Step>, s: nat, t: nat)
    requires Deployed(r) && FromOutside(r.lock.self, steps) && s <= t <= |steps|
    ensures At(r, steps, s).log <= At(r, steps, t).log
  {
    hide Exec, Legal, Inv;
    if s < t {
      LogGrows(r, steps, s, t - 1);
      InvAlways(r, steps, t - 1);
      var r' := At(r, steps, t - 1);
      if Exec(r', steps[t - 1].now, steps[t - 1].call).Some? { CallKeeps(r', steps[t - 1].now, steps[t - 1].call); }
    }
  }

  /** The last change of a field after the first n entries. */
  lemma {:induction false} DelayChange(l: Lock, log: seq<Entry>, n: nat) returns (i: nat)
    requires n <= |log| && Replayed(l, log).delay != Replayed(l, log[..n]).delay
    ensures n <= i < |log| && log[i] == DelaySet(Replayed(l, log).delay)
  {
    assert log[..|log|] == log;
    var last := |log| - 1;
    if log[last].DelaySet? {
      i := last;
    } else {
      assert log[..last][..n] == log[..n];
      i := DelayChange(l, log[..last], n);
    }
  }

  lemma {:induction false} PendingAdminChange(l: Lock, log: seq<Entry>, n: nat) returns (i: nat)
    requires n <= |log| && Replayed(l, log).pendingAdmin != Replayed(l, log[..n]).pendingAdmin
    requires Replayed(l, log).pendingAdmin != ZERO_ADDRESS
    ensures n <= i < |log| && log[i].PendingAdminSet? && log[i].newPendingAdmin == Replayed(l, log).pendingAdmin
  {
    assert log[..|log|] == log;
    var last := |log| - 1;
    if log[last].PendingAdminSet? {
      i := last;
    } else {
      assert log[..last][..n] == log[..n];
      i := PendingAdminChange(l, log[..last], n);
    }
  }

  lemma {:induction false} AdminChange(l: Lock, log: seq<Entry>, n: nat) returns (i: nat)
    requires n <= |log| && Replayed(l, log).admin != Replayed(l, log[..n]).admin
    ensures n <= i < |log| && log[i] == AdminAccepted(Replayed(l, log).admin)
  {
    assert log[..|log|] == log;
    var last := |log| - 1;
    if log[last].AdminAccepted? {
      i := last;
    } else {
      assert log[..last][..n] == log[..n];
      i := AdminChange(l, log[..last], n);
    }
  }

  lemma {:induction false} InitializedStays(l: Lock, log: seq<Entry>, n: nat)
    requires n <= |log| && Replayed(l, log[..n]).adminInitialized
    ensures Replayed(l, log).adminInitialized
    decreases |log| - n
  {
    if n < |log| {
      assert log[..n + 1][..n] == log[..n];
      InitializedStays(l, log, n + 1);
    } else {
      assert log[..n] == log;
    }
  }

  /** Whenever the delay differs between two moments of a run, and whenever the pending admin (once set for the first
      time) has become somebody else, a transaction on the timelock itself did it, queued at least 24 hours before. */
  lemma ChangesWaited(r: Run, steps: seq<Step>, s: nat, t: nat)
    requires Deployed(r) && FromOutside(r.lock.self, steps) && s <= t <= |steps|
    ensures At(r, steps, s).log <= At(r, steps, t).log
    ensures var from, to := At(r, steps, s), At(r, steps, t);
            from.lock.delay != to.lock.delay ==>
              exists i: nat :: |from.log| <= i < |to.log| && to.log[i] == DelaySet(to.lock.delay) && BySelf(r.lock.self, to.log, i)
    ensures var from, to := At(r, steps, s), At(r, steps, t);
            from.lock.adminInitialized && from.lock.pendingAdmin != to.lock.pendingAdmin && to.lock.pendingAdmin != ZERO_ADDRESS ==>
              exists i: nat :: |from.log| <= i < |to.log| && to.log[i] == PendingAdminSet(to.lock.pendingAdmin, false) && BySelf(r.lock.self, to.log, i)
  {
    hide At, Exec, FromOutside, BySelf, Legal;
    var from, to := At(r, steps, s), At(r, steps, t);
    LogTellsState(r, steps, s);
    LogTellsState(r, steps, t);
    LogGrows(r, steps, s, t);
    assert to.log[..|from.log|] == from.log;
    if from.lock.delay != to.lock.delay {
      var i := DelayChange(r.lock, to.log, |from.log|);
      EntriesWaited(r, steps, t, i);
    }
    if from.lock.adminInitialized && from.lock.pendingAdmin != to.lock.pendingAdmin && to.lock.pendingAdmin != ZERO_ADDRESS {
      var i := PendingAdminChange(r.lock, to.log, |from.log|);
      assert to.log[..i][..|from.log|] == from.log;
      InitializedStays(r.lock, to.log[..i], |from.log|);
      assert Agrees(Replayed(r.lock, to.log[..i]), to.log[i]);
      EntriesWaited(r, steps, t, i);
    }
  }

  /** Whoever became admin between two moments of a run had been the pending admin when they accepted. */
  lemma AdminWasPending(r: Run, steps: seq<Step>, s: nat, t: nat)
    requires Deployed(r) && FromOutside(r.lock.self, steps) && s <= t <= |steps|
    requires At(r, steps, s).lock.admin != At(r, steps, t).lock.admin
    ensures var from, to := At(r, steps, s), At(r, steps, t);
            exists i: nat :: |from.log| <= i < |to.log| && to.log[i] == AdminAccepted(to.lock.admin)
                             && Replayed(r.lock, to.log[..i]).pendingAdmin == to.lock.admin
  {
    hide At, Exec, FromOutside;
    var from, to := At(r, steps, s), At(r, steps, t);
    LogTellsState(r, steps, s);
    LogTellsState(r, steps, t);
    LogGrows(r, steps, s, t);
    assert to.log[..|from.log|] == from.log;
    var i := AdminChange(r.lock, to.log, |from.log|);
    assert Agrees(Replayed(r.lock, to.log[..i]), to.log[i]);
  }

  // ----- who acts -----

  /** When each call goes through, and for an execution when it begins. */
  lemma CallIff(r: Run, now: nat, sender: Address, newDelay: nat, newPendingAdmin: Address, tx: Tx)
    ensures Exec(r, now, Call(sender, SetDelay(newDelay))).Some? <==> sender == r.lock.self && 86400 <= newDelay <= 2592000
    ensures Exec(r, now, Call(sender, AcceptAdmin)).Some? <==> sender == r.lock.pendingAdmin
    ensures Exec(r, now, Call(sender, SetPendingAdmin(newPendingAdmin))).Some? <==>
            sender == if r.lock.adminInitialized then r.lock.self else r.lock.admin
    ensures Exec(r, now, Call(sender, QueueTransaction(tx))).Some? <==>
            sender == r.lock.admin && now + r.lock.delay <= tx.eta && now + r.lock.delay <= MAX_UINT256
    ensures Exec(r, now, Call(sender, CancelTransaction(tx))).Some? <==> sender == r.lock.admin
    ensures Exec(r, now, Call(sender, ExecuteTransaction(tx, [], true))).Some? <==>
            sender == r.lock.admin && tx in r.lock.queued && tx.eta <= now <= tx.eta + 1209600 <= MAX_UINT256
  {
  }

  /** An execution with calls nested in it goes through if it begins, its target succeeds and, when the target is the
      timelock itself, the nested call does. */
  lemma ExecuteIff(r: Run, now: nat, sender: Address, tx: Tx, inner: seq<Call>, success: bool)
    ensures Exec(r, now, Call(sender, ExecuteTransaction(tx, inner, success))).Some? <==>
            && sender == r.lock.admin && tx in r.lock.queued && tx.eta <= now <= tx.eta + 1209600 <= MAX_UINT256
            && success && (tx.target == r.lock.self && inner != [] ==> Exec(Begun(r, now, tx, sender), now, inner[0]).Some?)
  {
  }

  /** d is c, or one of the calls nested in it at any depth. */
  ghost predicate Nested(d: Call, c: Call)
    decreases c
  {
    d == c || (c.action.ExecuteTransaction? && exists k :: 0 <= k < |c.action.inner| && Nested(d, c.action.inner[k]))
  }

  predicate Causes(d: Call, e: Entry) {
    match e
    case Queued(tx, _, _, caller) => d.sender == caller && d.action == QueueTransaction(tx)
    case Cancelled(tx, caller) => d.sender == caller && d.action == CancelTransaction(tx)
    case Executed(tx, _, caller) => d.sender == caller && d.action.ExecuteTransaction? && d.action.tx == tx
    case DelaySet(newDelay) => d.action == SetDelay(newDelay)
    case PendingAdminSet(newPendingAdmin, _) => d.action == SetPendingAdmin(newPendingAdmin)
    case AdminAccepted(newAdmin) => d.sender == newAdmin && d.action == AcceptAdmin
  }

  ghost predicate Caused(e: Entry, c: Call) {
    exists d :: Nested(d, c) && Causes(d, e)
  }

  /** The entries a call adds are each caused by it or by a call nested in it. */
  lemma {:induction false} CallCauses(r: Run, now: nat, c: Call)
    requires Exec(r, now, c).Some?
    ensures r.log <= Exec(r, now, c).value.log
    ensures forall i :: |r.log| <= i < |Exec(r, now, c).value.log| ==> Caused(Exec(r, now, c).value.log[i], c)
    decreases c
  {
    assert Nested(c, c);
    var r' := Exec(r, now, c).value;
    if c.action.ExecuteTransaction? {
      var b := Begun(r, now, c.action.tx, c.sender);
      InnerCauses(b, now, c, |c.action.inner|);
      assert b.log[|r.log|] == Executed(c.action.tx, now, c.sender);
      assert r'.log[|r.log|] == b.log[|r.log|];
    } else {
      assert Causes(c, r'.log[|r.log|]);
    }
  }

  lemma {:induction false} InnerCauses(r: Run, now: nat, c: Call, n: nat)
    requires c.action.ExecuteTransaction? && n <= |c.action.inner|
    ensures r.log <= ExecInner(r, now, c, n).log
    ensures forall i :: |r.log| <= i < |ExecInner(r, now, c, n).log| ==> Caused(ExecInner(r, now, c, n).log[i], c)
    decreases c, n
  {
    hide Exec, Caused;
    if n > 0 {
      InnerCauses(r, now, c, n - 1);
      var r', d := ExecInner(r, now, c, n - 1), c.action.inner[n - 1];
      if Exec(r', now, d).Some? {
        CallCauses(r', now, d);
        forall i | |r'.log| <= i < |Exec(r', now, d).value.log|
          ensures Caused(Exec(r', now, d).value.log[i], c)
        {
          CausedInside(Exec(r', now, d).value.log[i], c, n - 1);
        }
      }
    }
  }

  lemma CausedInside(e: Entry, c: Call, k: nat)
    requires c.action.ExecuteTransaction? && k < |c.action.inner| && Caused(e, c.action.inner[k])
    ensures Caused(e, c)
  {
    var x :| Nested(x, c.action.inner[k]) && Causes(x, e);
    assert Nested(x, c);
  }

  /** Whatever was queued, cancelled or executed in a run, however deeply nested, was called for by the admin of that moment. */
  lemma {:induction false} AdminActed(r: Run, steps: seq<Step>, t: nat, i: nat)
    requires r.log == [] && t <= |steps| && i < |At(r, steps, t).log|
    ensures exists k, d :: 0 <= k < t && Nested(d, steps[k].call) && Causes(d, At(r, steps, t).log[i])
                           && (d.action.QueueTransaction? || d.action.CancelTransaction? || d.action.ExecuteTransaction? ==>
                                 d.sender == Replayed(r.lock, At(r, steps, t).log[..i]).admin)
  {
    hide Exec, Nested, Causes, Replayed;
    if t > 0 {
      var r', st := At(r, steps, t - 1), steps[t - 1];
      var log := At(r, steps, t).log;
      if Exec(r', st.now, st.call).Some? { CallCauses(r', st.now, st.call); }
      assert r'.log <= log;
      if i < |r'.log| {
        AdminActed(r, steps, t - 1, i);
        assert r'.log[..i] == log[..i] && r'.log[i] == log[i];
      } else {
        var d :| Nested(d, st.call) && Causes(d, log[i]);
        LogTellsState(r, steps, t);
        CauserIsAdmin(Replayed(r.lock, log[..i]), d, log[i]);
      }
    }
  }

  lemma CauserIsAdmin(l: Lock, d: Call, e: Entry)
    requires Agrees(l, e) && Causes(d, e)
    ensures d.action.QueueTransaction? || d.action.CancelTransaction? || d.action.ExecuteTransaction? ==> d.sender == l.admin
  {
  }

  // ----- the contract -----

  class TimelockContract {
    const self: Address
    var admin: Address
    var pendingAdmin: Address
    var delay: nat
    var adminInitialized: bool
    var queuedTransactions: set<Tx>
    ghost var log: seq<Entry>

    ghost function Model(): Run
      reads this
    {
      Run(Lock(self, admin, pendingAdmin, delay, adminInitialized, queuedTransactions), log)
    }

    constructor (self: Address, admin: Address, delay: nat)
      requires MINIMUM_DELAY <= delay <= MAXIMUM_DELAY
      ensures Deployed(Model()) && Inv(Model())
      ensures this.self == self && this.admin == admin && this.delay == delay && pendingAdmin == ZERO_ADDRESS
    {
      this.self, this.admin, this.delay := self, admin, delay;
      pendingAdmin, adminInitialized, queuedTransactions, log := ZERO_ADDRESS, false, {}, [];
    }

    /** One external call, dispatched to the function it names. */
    method Handle(now: nat, c: Call) returns (ok: bool)
      modifies this
      ensures ok <==> Exec(old(Model()), now, c).Some?
      ensures Model() == if ok then Exec(old(Model()), now, c).value else old(Model())
      decreases c, 1
    {
      match c.action
      case SetDelay(newDelay) =>
        if c.sender != self || newDelay < MINIMUM_DELAY || newDelay > MAXIMUM_DELAY { return false; }
        delay, log := newDelay, log + [DelaySet(newDelay)];
        ok := true;
      case AcceptAdmin =>
        if c.sender != pendingAdmin { return false; }
        admin := c.sender;
        pendingAdmin := ZERO_ADDRESS;
        log := log + [AdminAccepted(c.sender)];
        ok := true;
      case SetPendingAdmin(newPendingAdmin) =>
        ghost var initial := !adminInitialized;
        if adminInitialized {
          if c.sender != self { return false; }
        } else {
          if c.sender != admin { return false; }
          adminInitialized := true;
        }
        pendingAdmin, log := newPendingAdmin, log + [PendingAdminSet(newPendingAdmin, initial)];
        ok := true;
      case QueueTransaction(tx) =>
        if c.sender != admin || now + delay > MAX_UINT256 || tx.eta < now + delay { return false; }
        queuedTransactions, log := queuedTransactions + {tx}, log + [Queued(tx, now, delay, c.sender)];
        ok := true;
      case CancelTransaction(tx) =>
        if c.sender != admin { return false; }
        queuedTransactions, log := queuedTransactions - {tx}, log + [Cancelled(tx, c.sender)];
        ok := true;
      case ExecuteTransaction(_, _, _) => ok := Execute(now, c);
    }

    method Execute(now: nat, c: Call) returns (ok: bool)
      requires c.action.ExecuteTransaction?
      modifies this
      ensures ok <==> Exec(old(Model()), now, c).Some?
      ensures Model() == if ok then Exec(old(Model()), now, c).value else old(Model())
      decreases c, 0
    {
      var tx, inner := c.action.tx, c.action.inner;
      if c.sender != admin || tx !in queuedTransactions || now < tx.eta { return false; }
      if tx.eta + GRACE_PERIOD > MAX_UINT256 || now > tx.eta + GRACE_PERIOD { return false; }
      var admin0, pendingAdmin0, delay0, initialized0, queued0 := admin, pendingAdmin, delay, adminInitialized, queuedTransactions;
      ghost var log0 := log;
      queuedTransactions := queuedTransactions - {tx};
      log := log + [Executed(tx, now, c.sender)];
      ghost var begun := Model();
      assert begun == Begun(old(Model()), now, tx, c.sender);
      ok := c.action.success;
      for k := 0 to |inner|
        invariant Model() == ExecInner(begun, now, c, k)
        invariant ok == (c.action.success && (tx.target == self && k > 0 ==> Exec(begun, now, inner[0]).Some?))
      {
        var done := Handle(now, inner[k]);
        if tx.target == self && k == 0 { ok := ok && done; }
      }
      if !ok {
        admin, pendingAdmin, delay, adminInitialized, queuedTransactions := admin0, pendingAdmin0, delay0, initialized0, queued0;
        log := log0;
      }
    }
  }
}
