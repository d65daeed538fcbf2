/** What sets a swap in motion and whom it serves, what an admin command is worth, when
    containers are stopped behind the manager's back, and when the grace clock starts. */
module Causes {
  import opened Names
  import opened State
  import opened Ledger
  import opened Worker
  import opened Manager
  import opened Invariant
  import opened System
  import opened Safety
  import opened Waiters
  import opened AdmitGo

  /** The step spawns a worker that swaps to `target`. */
  ghost predicate StartsSwap(s: Sys, e: Event, target: Name)
    requires Grounded(s.m)
  {
    var t := Apply(s, e);
    !t.closed && t.m.state == Swapping && t.m.crew.opSeq > s.m.crew.opSeq && target != NONE && t.m.target == target
  }

  /** A request for another service finds the grace period over, and someone else has waited longest. */
  ghost predicate Overtakes(s: Sys, e: Event, target: Name)
  {
    && e.Admit? && e.service == target && s.m.state == Active && s.m.active != target
    && s.now - s.m.startedAt >= s.m.cfg.grace
    && Oldest(s.m.book.queues) != NONE && Oldest(s.m.book.queues) != target
  }

  ghost predicate Cause(s: Sys, e: Event, target: Name)
    requires Grounded(s.m)
  {
    // traffic: the longest waiter of all is waiting for it
    || HeadsAll(Apply(s, e).m.book.queues, target)
    // the one exception: a newcomer past the grace period is served before older waiters
    || Overtakes(s, e, target)
    // the operator, now or when the swap before it is over
    || (e.AdminSwap? && e.service == target)
    || (e.Report? && e.op == s.m.crew.opSeq && s.m.adminPending == target)
    // idleness: back to the default, with nobody waiting
    || (e.Fire? && e.tick.kind == Cooldown && target == s.m.cfg.defaultSvc && !QueueNonempty(s.m))
  }

  /** Whoever heads all before the newcomer heads all after it, and nobody else does. */
  lemma NewcomerHeads(b: Book, service: Name, reply: nat, max: int)
    requires Balanced(b) && service in b.queues && service != NONE && |b.queues[service]| < max
    ensures var q := Enqueue(b, service, reply, max).queues;
      HeadsAll(q, service) <==> Oldest(b.queues) == NONE || Oldest(b.queues) == service
  {
    var q := Enqueue(b, service, reply, max).queues;
    var k := Oldest(b.queues);
    forall n | n != service ensures Waiting(q, n) <==> Waiting(b.queues, n) {
    }
    if k != NONE {
      assert q[k][0] == b.queues[k][0];
      NewcomerBehind(b, service, reply, max, k);
    }
  }

  lemma NewcomerBehind(b: Book, service: Name, reply: nat, max: int, k: Name)
    requires Balanced(b) && service in b.queues && service != NONE && |b.queues[service]| < max && HeadsAll(b.queues, k)
    ensures var q := Enqueue(b, service, reply, max).queues;
      q[service] != [] && (k != service ==> q[k][0].seq_ < q[service][0].seq_)
    ensures var q := Enqueue(b, service, reply, max).queues;
      k == service ==> forall n :: Waiting(q, n) ==> q[k][0].seq_ <= q[n][0].seq_
  {
    assert QueueOk(b.queues[k], k, b.next, b.asked);
    if b.queues[service] != [] {
      assert Waiting(b.queues, service);
      LowestHeadIsLowest(b, k, service, 0);
    }
  }

  /** A request that starts a swap is the longest waiter of all exactly when nobody waited before
      it, or the longest waiter was waiting for the same service. */
  lemma NewcomerIsOldestExactly(s: Sys, service: Name, reply: nat)
    requires SysInv(s) && Enabled(s, Admit(service, reply)) && StartsSwap(s, Admit(service, reply), service)
    ensures HeadsAll(Apply(s, Admit(service, reply)).m.book.queues, service) <==>
      Oldest(s.m.book.queues) == NONE || Oldest(s.m.book.queues) == service
  {
    BookIs(s, Admit(service, reply));
    NewcomerHeads(s.m.book, service, reply, s.m.cfg.members[service].maxQueue);
  }

  /** In IDLE and ERROR nobody waited before it. */
  lemma AdmitCause(s: Sys, service: Name, reply: nat)
    requires SysInv(s) && Enabled(s, Admit(service, reply)) && StartsSwap(s, Admit(service, reply), service)
    ensures Cause(s, Admit(service, reply), service)
    ensures Overtakes(s, Admit(service, reply), service) <==>
      !HeadsAll(Apply(s, Admit(service, reply)).m.book.queues, service)
  {
    NewcomerIsOldestExactly(s, service, reply);
    StarterState(s, service, reply);
  }

  lemma StarterState(s: Sys, service: Name, reply: nat)
    requires SysInv(s) && Enabled(s, Admit(service, reply)) && StartsSwap(s, Admit(service, reply), service)
    ensures Oldest(s.m.book.queues) == NONE ||
      (s.m.state == Active && s.m.active != service && s.now - s.m.startedAt >= s.m.cfg.grace)
  {
    NoOneWaits(s.m);
    match s.m.state
    case Idle =>
    case Error =>
    case Swapping =>
    case Active => StartsFromActive(s.m, service, reply, s.now);
  }

  lemma StartsFromActive(m: Mgr, service: Name, reply: nat, now: int)
    requires Typed(m) && m.state == Active && HandleAdmit(m, service, reply, now).state == Swapping
    ensures m.active != service && now - m.startedAt >= m.cfg.grace
  {
  }

  lemma AdmitStartsOwn(s: Sys, service: Name, reply: nat, target: Name)
    requires SysInv(s) && Enabled(s, Admit(service, reply)) && StartsSwap(s, Admit(service, reply), target)
    ensures target == service
  {
  }

  /** A report that counts lands the pool, and the chain goes on from there. */
  lemma ReportLands(s: Sys, op: nat) returns (y: Mgr, done: bool)
    requires Grounded(s.m) && Enabled(s, Report(op)) && op == s.m.crew.opSeq
    ensures Typed(y) && Apply(s, Report(op)).m == ChainAfterTerminal(y, done, s.now)
    ensures y.state == (if done then Active else Idle) && y.adminPending == s.m.adminPending && y.crew.opSeq == op
    ensures y.timers == s.m.timers && y.cfg == s.m.cfg
    ensures done == (s.m.crew.jobs[op].pc.kind == SwapComplete)
    ensures done ==> y.active == s.m.crew.jobs[op].target && y.startedAt == s.now
    ensures !done ==> y.active == NONE && y.startedAt == s.m.startedAt
    ensures y.stops == s.m.stops +
      if s.m.crew.jobs[op].pc.kind == SwapHealthTimeout then multiset{s.m.crew.jobs[op].own} else multiset{}
  {
    JobAt(s.m, op);
    var w := s.m.crew.jobs[op];
    done := w.pc.kind == SwapComplete;
    y := Land(ReleaseWorker(TakeJob(s.m, op)), Msg(w), s.now);
    LandFacts(ReleaseWorker(TakeJob(s.m, op)), Msg(w), s.now);
  }

  lemma ReportCause(s: Sys, op: nat, target: Name)
    requires SysInv(s) && Enabled(s, Report(op)) && StartsSwap(s, Report(op), target)
    ensures Cause(s, Report(op), target)
  {
    if op != s.m.crew.opSeq {
      StaleReportIsIgnored(s, op);
    } else {
      var y, done := ReportLands(s, op);
      ChainBook(y, done, s.now);
      ChainTarget(y, done, s.now, s.m.adminPending);
    }
  }

  lemma ChainTarget(y: Mgr, activated: bool, now: int, pending: Name)
    requires Typed(y) && y.adminPending == pending
    requires y.state != Swapping
    requires var x := ChainAfterTerminal(y, activated, now); x.state == Swapping && x.target != NONE
    ensures var x := ChainAfterTerminal(y, activated, now); x.target == pending || HeadsAll(y.book.queues, x.target)
  {
  }

  /** A tick that starts a swap starts it for the longest waiter, or for the default. */
  lemma TickTarget(k: Mgr, t: Tick, now: int)
    requires Typed(k) && k.crew.opSeq < HandleTick(k, t, now).crew.opSeq && HandleTick(k, t, now).target != NONE
    ensures var x := HandleTick(k, t, now);
      || HeadsAll(k.book.queues, x.target)
      || (t.kind == Cooldown && x.target == k.cfg.defaultSvc && Oldest(k.book.queues) == NONE)
  {
  }

  lemma FireCause(s: Sys, t: Tick, target: Name)
    requires SysInv(s) && Enabled(s, Fire(t)) && StartsSwap(s, Fire(t), target)
    ensures Cause(s, Fire(t), target)
  {
    var k := TakeTick(s.m, t);
    TickBook(k, t, s.now);
    TickTarget(k, t, s.now);
    NoOneWaits(k);
  }

  lemma NoticeCause(s: Sys, container: Name, action: Action, target: Name)
    requires SysInv(s) && Enabled(s, Notice(container, action)) && StartsSwap(s, Notice(container, action), target)
    ensures Cause(s, Notice(container, action), target)
  {
    EventBook(s.m, container, action);
  }

  /** Every swap has a cause, and a swap made for traffic serves the longest waiter of the whole
      pool, with one exception: a request that finds the grace period over is served at once,
      before those that queued while it lasted. */
  lemma WhySwapsStart(s: Sys, e: Event, target: Name)
    requires SysInv(s) && Enabled(s, e) && StartsSwap(s, e, target)
    ensures Cause(s, e, target)
  {
    match e
    case Admit(service, reply) => AdmitStartsOwn(s, service, reply, target); AdmitCause(s, service, reply);
    case Report(op) => ReportCause(s, op, target);
    case Fire(t) => FireCause(s, t, target);
    case Notice(container, action) => NoticeCause(s, container, action, target);
    case AdminSwap(service) =>
    case AdminStop(order) =>
    case _ =>
  }

  /** A pending admin swap is what the next report leads to: the pool is on its way to that
      service, or the report is that it has just been reached. */
  lemma PendingIsHonoured(s: Sys, op: nat)
    requires SysInv(s) && Enabled(s, Report(op)) && op == s.m.crew.opSeq && s.m.adminPending != NONE
    ensures var t := Apply(s, Report(op)).m;
      && t.adminPending == NONE
      && ((t.state == Swapping && t.target == s.m.adminPending && t.crew.opSeq == op + 1)
          || (s.m.crew.jobs[op].pc.kind == SwapComplete && s.m.crew.jobs[op].target == s.m.adminPending))
  {
    var y, done := ReportLands(s, op);
    ChainHonours(y, done, s.now);
  }

  lemma ChainHonours(y: Mgr, activated: bool, now: int)
    requires Typed(y)
    ensures var x := ChainAfterTerminal(y, activated, now);
      && x.adminPending == NONE && x.startedAt == y.startedAt && x.stops == y.stops
      && (y.adminPending != NONE && y.adminPending != y.active ==>
            x.state == Swapping && x.target == y.adminPending && x.crew.opSeq == y.crew.opSeq + 1)
  {
  }

  // --- containers stopped from the manager's side ---

  /** The detached stops the step adds, and the one it takes away. */
  ghost function StopsAfter(s: Sys, e: Event): multiset<Name>
    requires Grounded(s.m) && Enabled(s, e)
  {
    match e
    case Report(op) =>
      var w := s.m.crew.jobs[op];
      if op == s.m.crew.opSeq && w.pc.kind.SwapHealthTimeout? then s.m.stops + multiset{w.own} else s.m.stops
    case Notice(container, action) =>
      var owner := MemberByContainer(s.m.cfg, container);
      if action.ActStart? && owner.Some? && !Serves(s.m, owner.value) then s.m.stops + multiset{container}
      else s.m.stops
    case Detached(c, _) => s.m.stops - multiset{c}
    case _ => s.m.stops
  }

  lemma ReportStops(s: Sys, op: nat)
    requires Grounded(s.m) && Enabled(s, Report(op))
    ensures Apply(s, Report(op)).m.stops == StopsAfter(s, Report(op))
  {
    if op == s.m.crew.opSeq {
      var y, done := ReportLands(s, op);
      ChainHonours(y, done, s.now);
    } else {
      StaleReportIsIgnored(s, op);
    }
  }

  /** The manager stops a container itself in two cases only: the target of a swap that ran out
      of its health budget, and a member's container that someone started while the pool neither
      serves it nor swaps to it. */
  lemma StopsIssued(s: Sys, e: Event)
    requires Grounded(s.m) && Enabled(s, e)
    ensures Apply(s, e).m.stops == StopsAfter(s, e)
  {
    match e
    case Report(op) => ReportStops(s, op);
    case _ =>
  }

  // --- the grace clock ---

  /** startedAt is the instant the manager took the report that opened the period, and stays so:
      nothing but a report of success by the current worker moves it, and that opens a period. */
  lemma GraceClock(s: Sys, e: Event)
    requires Grounded(s.m) && Enabled(s, e)
    ensures Apply(s, e).m.startedAt ==
      if e.Report? && e.op == s.m.crew.opSeq && s.m.crew.jobs[e.op].pc.kind == SwapComplete then s.now
      else s.m.startedAt
  {
    match e
    case Report(op) => ReportClock(s, op);
    case _ =>
  }

  lemma ReportClock(s: Sys, op: nat)
    requires Grounded(s.m) && Enabled(s, Report(op))
    ensures Apply(s, Report(op)).m.startedAt ==
      if op == s.m.crew.opSeq && s.m.crew.jobs[op].pc.kind == SwapComplete then s.now else s.m.startedAt
  {
    if op == s.m.crew.opSeq {
      var y, done := ReportLands(s, op);
      ChainHonours(y, done, s.now);
    } else {
      StaleReportIsIgnored(s, op);
    }
  }
}
