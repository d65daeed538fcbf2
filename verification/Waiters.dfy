/** What becomes of waiters in every run: nobody is stranded, everyone is accounted for
    exactly once, the longest waiter is the one found, and AdmitGo is only said in truth. */
module Waiters {
  import opened Names
  import opened State
  import opened Ledger
  import opened Worker
  import opened Manager
  import opened Invariant
  import opened System
  import opened Safety
  import opened Exclusion

  /** The states of all runs of all validated pools. */
  ghost predicate Reached(s: Sys, c: Config, running: set<Name>, run: seq<Event>)
  {
    && WellFormed(c) && running <= Containers(c)
    && (BootGrounded(c, running, running); s == Exec(Boot(c, running, running), run))
  }

  lemma ReachedKept(s: Sys, c: Config, running: set<Name>, run: seq<Event>)
    requires Reached(s, c, running, run)
    ensures Kept(s) && s.m.cfg == c
  {
    BootKept(c, running, running);
    ExecKept(Boot(c, running, running), run);
  }

  // --- nobody is stranded ---

  ghost predicate QueueNonempty(m: Mgr)
  {
    exists n :: n in m.book.queues && m.book.queues[n] != []
  }

  /** No lost wake-up: whenever someone waits, either the current worker's report is still to
      come, or the pool is ACTIVE and a grace tick that will be honoured is outstanding. In IDLE
      and ERROR nobody waits, and in ACTIVE(s) nobody waits for s. */
  lemma NoStrandedWaiter(s: Sys, c: Config, running: set<Name>, run: seq<Event>)
    requires Reached(s, c, running, run) && NoEmptyName(c) && !s.closed
    ensures QueueNonempty(s.m) ==>
      || (s.m.state == Swapping && s.m.crew.opSeq in s.m.crew.jobs)
      || (s.m.state == Active && exists t :: t in s.m.timers.ticks && t.kind == Grace && t.epoch == s.m.timers.grace)
    ensures s.m.state == Idle || s.m.state == Error ==> !QueueNonempty(s.m)
    ensures s.m.state == Active ==> s.m.active in s.m.book.queues && s.m.book.queues[s.m.active] == []
  {
    ReachedKept(s, c, running, run);
    if QueueNonempty(s.m) && s.m.state == Active {
      var n :| n in s.m.book.queues && s.m.book.queues[n] != [];
      assert Waiting(s.m.book.queues, n);
      var t :| Current(s.m.timers, t) && t.kind == Grace;
      assert t in s.m.timers.ticks && t.kind == Grace && t.epoch == s.m.timers.grace;
    }
  }

  // --- workers and their numbers ---

  /** SWAPPING holds exactly while the worker numbered opSeq has its one report to deliver; a
      live worker's context is cancelled exactly when its number is older, and swapCancel holds
      the current worker's context exactly while it lives. */
  lemma SwappingHasItsWorker(s: Sys, c: Config, running: set<Name>, run: seq<Event>)
    requires Reached(s, c, running, run) && !s.closed
    ensures s.m.state == Swapping <==> s.m.crew.opSeq in s.m.crew.jobs
    ensures forall op :: op in s.m.crew.jobs ==>
      op <= s.m.crew.opSeq && (s.m.crew.jobs[op].cancelled <==> op < s.m.crew.opSeq)
    ensures s.m.crew.swapCancel == if s.m.state == Swapping then Some(s.m.crew.opSeq) else None
    ensures s.m.state == Swapping ==> s.m.target == s.m.crew.jobs[s.m.crew.opSeq].target
  {
    ReachedKept(s, c, running, run);
  }

  /** A report of a superseded worker changes nothing: the worker is gone, and that is all. */
  lemma StaleReportIsIgnored(s: Sys, op: nat)
    requires Grounded(s.m) && Enabled(s, Report(op)) && op != s.m.crew.opSeq
    ensures Apply(s, Report(op)) == s.(m := s.m.(crew := s.m.crew.(jobs := s.m.crew.jobs - {op})))
  {
    JobAt(s.m, op);
  }

  // --- epochs ---

  /** At most one tick of each kind will be honoured, none in SWAPPING or ERROR, a cooldown tick
      exactly when cooldownArmed says so, and each was armed in the period that is still on. */
  lemma EpochSafety(s: Sys, c: Config, running: set<Name>, run: seq<Event>)
    requires Reached(s, c, running, run) && !s.closed
    ensures forall t, u :: Current(s.m.timers, t) && Current(s.m.timers, u) && t.kind == u.kind ==> t == u
    ensures s.m.state == Swapping || s.m.state == Error ==> forall t :: !Current(s.m.timers, t)
    ensures s.m.state == Idle ==> forall t :: Current(s.m.timers, t) ==> t.kind == Cooldown
    ensures s.m.timers.armed <==> exists t :: Current(s.m.timers, t) && t.kind == Cooldown
    ensures forall t :: Current(s.m.timers, t) ==> t.period == s.m.period
  {
    ReachedKept(s, c, running, run);
  }

  // --- conservation ---

  /** Every admit command accepted in any run is waiting in exactly one queue, or was answered
      exactly once, or was removed by a cancel; no reply channel is sent to twice; and when the
      pool has shut down nobody is left waiting. */
  lemma Conservation(s: Sys, c: Config, running: set<Name>, run: seq<Event>, r: nat)
    requires Reached(s, c, running, run) && r in s.m.book.asked
    ensures Queued(s.m.book, r) || Answered(s.m.book.sent, r) || r in s.m.book.removed
    ensures !(Queued(s.m.book, r) && Answered(s.m.book.sent, r))
    ensures !(Queued(s.m.book, r) && r in s.m.book.removed)
    ensures !(Answered(s.m.book.sent, r) && r in s.m.book.removed)
    ensures forall i, j | 0 <= i < |s.m.book.sent| && 0 <= j < |s.m.book.sent| ::
      s.m.book.sent[i].reply == r == s.m.book.sent[j].reply ==> i == j
    ensures s.closed ==> !Queued(s.m.book, r)
  {
    ReachedKept(s, c, running, run);
    ExactlyOneFate(s.m.book, r);
  }

  /** The member oldestQueued finds by comparing heads holds the waiter with the lowest number
      of all waiters of all members. */
  lemma OldestIsOldestOfAll(s: Sys, c: Config, running: set<Name>, run: seq<Event>, k: Name, i: nat)
    requires Reached(s, c, running, run) && NoEmptyName(c)
    requires k in s.m.book.queues && i < |s.m.book.queues[k]|
    ensures var n := Oldest(s.m.book.queues);
      && n in s.m.book.queues && s.m.book.queues[n] != []
      && s.m.book.queues[n][0].seq_ <= s.m.book.queues[k][i].seq_ <= s.m.book.next
      && (s.m.book.queues[n][0].seq_ == s.m.book.queues[k][i].seq_ ==> k == n && i == 0)
  {
    ReachedKept(s, c, running, run);
    var n := Oldest(s.m.book.queues);
    assert Waiting(s.m.book.queues, k);
    assert QueueOk(s.m.book.queues[k], k, s.m.book.next, s.m.book.asked);
    LowestHeadIsLowest(s.m.book, n, k, i);
  }

  // --- what each step does to the book ---

  function ResultOf(kind: SwapKind): AdmitResult
    requires !kind.PoolStopped?
  {
    match kind
    case SwapComplete => Go
    case SwapFailed => DockerError
    case SwapHealthTimeout => StartupTimeout
  }

  /** The book after a step: who is answered, what, and who is not. */
  ghost function BookAfter(s: Sys, e: Event): Book
    requires Grounded(s.m) && Enabled(s, e)
  {
    var m := s.m;
    match e
    case Admit(service, reply) =>
      if service !in m.cfg.members then Answer(m.book, service, reply, DockerError)
      else if m.state == Active && m.active == service then Answer(m.book, service, reply, Go)
      else Enqueue(m.book, service, reply, m.cfg.members[service].maxQueue)
    case Cancel(service, reply) => Remove(m.book, service, reply)
    case AdminStop(order) => CoversQueues(m, order); FlushAll(m.book, order, Shutdown)
    case Close(order) => CoversQueues(m, order); FlushAll(m.book, order, Shutdown)
    case Report(op) =>
      JobAt(m, op);
      var w := m.crew.jobs[op];
      if op != m.crew.opSeq || w.pc.kind.PoolStopped? then m.book
      else Flush(m.book, w.target, ResultOf(w.pc.kind))
    case Notice(container, action) =>
      var owner := MemberByContainer(m.cfg, container);
      if owner.Some? && !action.ActStart? && Serves(m, owner.value) then Flush(m.book, owner.value, DockerError)
      else m.book
    case _ => m.book
  }

  lemma ChainBook(m: Mgr, activated: bool, now: int)
    requires Typed(m)
    ensures ChainAfterTerminal(m, activated, now).book == m.book
  {
  }

  lemma TickBook(m: Mgr, tick: Tick, now: int)
    requires Typed(m)
    ensures HandleTick(m, tick, now).book == m.book
  {
  }

  lemma AdmitBook(m: Mgr, service: Name, reply: nat, now: int)
    requires Typed(m)
    ensures HandleAdmit(m, service, reply, now).book ==
      if service !in m.cfg.members then Answer(m.book, service, reply, DockerError)
      else if m.state == Active && m.active == service then Answer(m.book, service, reply, Go)
      else Enqueue(m.book, service, reply, m.cfg.members[service].maxQueue)
  {
  }

  lemma LandedBook(m: Mgr, op: nat, now: int)
    requires Grounded(m) && op in m.crew.jobs && m.crew.jobs[op].pc.Done?
    ensures JobOk(m.cfg, op, m.crew.jobs[op])
    ensures HandleSwap(TakeJob(m, op), Msg(m.crew.jobs[op]), now).book ==
      if op != m.crew.opSeq || m.crew.jobs[op].pc.kind.PoolStopped? then m.book
      else Flush(m.book, m.crew.jobs[op].target, ResultOf(m.crew.jobs[op].pc.kind))
  {
    JobAt(m, op);
    var w := m.crew.jobs[op];
    if op == m.crew.opSeq {
      var r := ReleaseWorker(TakeJob(m, op));
      ChainBook(Land(r, Msg(w), now), w.pc.kind == SwapComplete, now);
      match w.pc.kind
      case SwapComplete =>
      case SwapFailed =>
      case SwapHealthTimeout =>
      case PoolStopped =>
    }
  }

  lemma EventBook(m: Mgr, container: Name, action: Action)
    requires Typed(m)
    ensures var owner := MemberByContainer(m.cfg, container);
      HandleExternalEvent(m, container, action).book ==
        if owner.Some? && !action.ActStart? && Serves(m, owner.value) then Flush(m.book, owner.value, DockerError)
        else m.book
  {
  }

  /** Each step answers, queues and removes exactly what BookAfter says: a finished swap answers
      its target's waiters and nobody else's, whatever the pool does next. */
  lemma BookIs(s: Sys, e: Event)
    requires Grounded(s.m) && Enabled(s, e)
    ensures Apply(s, e).m.book == BookAfter(s, e)
  {
    match e
    case Admit(service, reply) => AdmitBook(s.m, service, reply, s.now);
    case Report(op) => LandedBook(s.m, op, s.now);
    case Fire(tick) => TickBook(TakeTick(s.m, tick), tick, s.now);
    case Notice(container, action) => EventBook(s.m, container, action);
    case _ =>
  }
}
