/** The manager's invariant and its preservation by every handler. */
module Invariant {
  import opened Names
  import opened State
  import opened Ledger
  import opened Worker
  import opened Manager

  // --- facts that hold even in the middle of a handler ---

  ghost predicate JobOk(c: Config, op: nat, w: Job)
  {
    && Told(w) && w.op == op
    && (w.swap ==> w.target in c.members && w.own == c.members[w.target].containerName
                   && w.timeout == c.members[w.target].startupTimeout
                   && w.list == OtherContainers(c, w.target))
    && (!w.swap ==> w.target == NONE && w.list == AllContainers(c))
  }

  ghost predicate JobsOk(c: Config, jobs: map<nat, Job>)
  {
    forall op {:trigger JobOk(c, op, jobs[op])} :: op in jobs ==> JobOk(c, op, jobs[op])
  }

  /** Worker contexts: exactly the workers older than opSeq are cancelled, and swapCancel
      holds the context of the current one as long as it lives. */
  ghost predicate Numbered(c: Crew)
  {
    && (forall op :: op in c.jobs ==> op <= c.opSeq && (c.jobs[op].cancelled <==> op < c.opSeq))
    && c.swapCancel == if c.opSeq in c.jobs then Some(c.opSeq) else None
  }

  predicate Current(ts: Timers, t: Tick)
  {
    t in ts.ticks && t.epoch == Epoch(ts, t.kind)
  }

  /** No tick carries an epoch above its kind's counter, and no two share one. */
  ghost predicate TimersOk(ts: Timers)
  {
    && (forall t :: t in ts.ticks ==> t.epoch <= Epoch(ts, t.kind))
    && (forall t, u :: t in ts.ticks && u in ts.ticks && t.kind == u.kind && t.epoch == u.epoch ==> t == u)
  }

  /** No tick of any kind will be honoured, and cooldownArmed says so. */
  ghost predicate Disarmed(ts: Timers)
  {
    !ts.armed && forall t :: !Current(ts, t)
  }

  ghost predicate CfgOk(c: Config)
  {
    WellFormed(c) && NoEmptyName(c)
  }

  ghost predicate CrewOk(c: Config, crew: Crew)
  {
    JobsOk(c, crew.jobs) && Numbered(crew)
  }

  ghost predicate Base(m: Mgr)
  {
    WellFormed(m.cfg) && Typed(m) && Balanced(m.book) && CrewOk(m.cfg, m.crew) && TimersOk(m.timers)
  }

  predicate Working(c: Crew)
  {
    c.opSeq in c.jobs
  }

  // --- the invariant at handler boundaries ---

  ghost predicate NobodyWaits(m: Mgr)
  {
    forall n :: n in m.book.queues ==> m.book.queues[n] == []
  }

  /** cooldownArmed says exactly whether a cooldown tick that counts is outstanding. */
  ghost predicate ArmedExactly(ts: Timers)
  {
    ts.armed <==> exists t :: Current(ts, t) && t.kind == Cooldown
  }

  ghost predicate GraceArmed(ts: Timers)
  {
    exists t :: Current(ts, t) && t.kind == Grace
  }

  /** Every tick that counts was armed after the last transition. */
  ghost predicate SamePeriod(ts: Timers, period: nat)
  {
    forall t :: Current(ts, t) ==> t.period == period
  }

  ghost predicate GraceDue(ts: Timers, due: int)
  {
    forall t :: Current(ts, t) && t.kind == Grace ==> t.due == due
  }

  ghost predicate SomeoneWaits(queues: map<Name, seq<Waiter>>)
  {
    exists n :: Waiting(queues, n)
  }

  ghost predicate ActiveTimers(m: Mgr)
  {
    && ArmedExactly(m.timers) && SamePeriod(m.timers, m.period)
    && GraceDue(m.timers, m.startedAt + m.cfg.grace)
    && (m.timers.armed ==> Cools(m))
  }

  ghost predicate IdleTimers(m: Mgr)
  {
    && ArmedExactly(m.timers) && SamePeriod(m.timers, m.period)
    && !GraceArmed(m.timers)
    && (m.timers.armed ==> m.cfg.defaultSvc != NONE && m.cfg.cooldown > 0)
  }

  ghost predicate OnActive(m: Mgr)
  {
    m.active in m.cfg.members && m.active in m.book.queues && m.book.queues[m.active] == []
  }

  /** Nobody waits whom oldestQueued would find; that is nobody at all unless a member is named "". */
  ghost predicate Quiescent(m: Mgr)
  {
    !SomeoneWaits(m.book.queues) && (NoEmptyName(m.cfg) ==> NobodyWaits(m))
  }

  ghost predicate Phase(m: Mgr)
  {
    && m.snap == Snapshot(m.state, m.active)
    && (m.state == Swapping <==> Working(m.crew))
    && (m.state != Active ==> m.active == NONE)
    && (m.state != Swapping ==> m.target == NONE)
    && match m.state
       case Swapping => m.target == m.crew.jobs[m.crew.opSeq].target && Disarmed(m.timers)
       case Active => OnActive(m) && ActiveTimers(m) && (SomeoneWaits(m.book.queues) ==> GraceArmed(m.timers))
       case Idle => Quiescent(m) && IdleTimers(m)
       case Error => Quiescent(m) && Disarmed(m.timers)
  }

  ghost predicate Inv(m: Mgr)
  {
    Base(m) && Phase(m)
  }

  // --- transitions ---

  lemma CancelledTold(w: Job)
    requires Told(w)
    ensures Told(w.(cancelled := true))
  {
    var v := w.(cancelled := true);
    assert Behind(v) == Behind(w);
    if !w.firstErr { assert SeenBehind(w); assert SeenBehind(v); }
  }

  /** Releasing and outnumbering the current worker leaves only cancelled ones. */
  lemma SupersedeClears(c: Config, crew: Crew)
    requires CrewOk(c, crew)
    ensures CrewOk(c, Supersede(crew)) && !Working(Supersede(crew))
  {
    var r := Supersede(crew);
    forall op | op in r.jobs ensures JobOk(c, op, r.jobs[op]) {
      assert JobOk(c, op, crew.jobs[op]);
      if op == crew.opSeq { CancelledTold(crew.jobs[op]); }
    }
  }

  lemma BumpDisarms(ts: Timers)
    requires TimersOk(ts)
    ensures TimersOk(Bump(ts)) && Disarmed(Bump(ts))
  {
  }

  lemma HireOk(c: Config, crew: Crew, w: Job)
    requires CrewOk(c, crew) && !Working(crew) && JobOk(c, crew.opSeq, w) && !w.cancelled
    ensures CrewOk(c, Hire(crew, w)) && Working(Hire(crew, w))
  {
    var h := Hire(crew, w);
    forall op | op in h.jobs ensures JobOk(c, op, h.jobs[op]) {
      if op != crew.opSeq { assert JobOk(c, op, crew.jobs[op]); }
    }
  }

  lemma BeginBase(m: Mgr, target: Name)
    requires Base(m)
    ensures var b := BeginTransition(m, target);
      Base(b) && !Working(b.crew) && Disarmed(b.timers)
  {
    BumpDisarms(m.timers);
    SupersedeClears(m.cfg, m.crew);
  }

  lemma LaunchInv(b: Mgr, w: Job)
    requires Base(b) && !Working(b.crew) && Disarmed(b.timers)
    requires JobOk(b.cfg, b.crew.opSeq, w) && !w.cancelled
    requires b.state == Swapping && b.active == NONE && b.target == w.target
    ensures Inv(Launch(b, w))
  {
    HireOk(b.cfg, b.crew, w);
  }

  lemma SwapJobOk(c: Config, op: nat, target: Name)
    requires target in c.members
    ensures JobOk(c, op, SwapJob(c, op, target)) && !SwapJob(c, op, target).cancelled
    ensures SwapJob(c, op, target).target == target
  {
  }

  lemma StopJobOk(c: Config, op: nat)
    ensures JobOk(c, op, StopJob(c, op)) && !StopJob(c, op).cancelled && StopJob(c, op).target == NONE
  {
  }

  /** startSwap re-establishes the invariant from the middle of any handler. */
  lemma StartSwapInv(m: Mgr, target: Name)
    requires Base(m) && target in m.cfg.members
    ensures Inv(StartSwap(m, target)) && StartSwap(m, target).state == Swapping
  {
    BeginBase(m, target);
    var b := BeginTransition(m, target);
    SwapJobOk(b.cfg, b.crew.opSeq, target);
    LaunchInv(b, SwapJob(b.cfg, b.crew.opSeq, target));
  }

  lemma StartStopAllInv(m: Mgr)
    requires Base(m)
    ensures Inv(StartStopAll(m)) && StartStopAll(m).state == Swapping
  {
    BeginBase(m, NONE);
    var b := BeginTransition(m, NONE);
    StopJobOk(b.cfg, b.crew.opSeq);
    LaunchInv(b, StopJob(b.cfg, b.crew.opSeq));
  }

  // --- staying in the same state ---

  ghost predicate NoNewWaiters(b: Book, c: Book)
  {
    && c.queues.Keys == b.queues.Keys
    && forall n :: n in b.queues && b.queues[n] == [] ==> c.queues[n] == []
  }

  /** Answering, cancelling or flushing without a change of state. */
  lemma BookInv(m: Mgr, c: Book)
    requires Inv(m) && Balanced(c) && NoNewWaiters(m.book, c)
    ensures Inv(m.(book := c))
  {
    if SomeoneWaits(c.queues) {
      var n :| Waiting(c.queues, n);
      assert Waiting(m.book.queues, n);
    }
  }

  lemma TouchInv(m: Mgr, service: Name, now: int)
    requires Inv(m)
    ensures Inv(Touch(m, service, now))
  {
  }

  /** After arming a timer its own tick is the only one of that kind that counts; ticks
      of the other kind are not disturbed. */
  lemma ArmsOne(ts: Timers, kind: TimerKind, due: int, period: nat)
    requires TimersOk(ts)
    ensures var r := Arm(ts, kind, due, period);
      && TimersOk(r)
      && (forall t: Tick :: t.kind == kind ==> (Current(r, t) <==> t == Tick(kind, Epoch(ts, kind) + 1, due, period)))
      && (forall t: Tick :: t.kind != kind ==> (Current(r, t) <==> Current(ts, t)))
  {
  }

  lemma ArmGraceTimers(ts: Timers, due: int, period: nat)
    requires TimersOk(ts) && ArmedExactly(ts) && SamePeriod(ts, period)
    ensures var r := Arm(ts, Grace, due, period);
      TimersOk(r) && ArmedExactly(r) && SamePeriod(r, period) && GraceArmed(r) && GraceDue(r, due)
          && r.armed == ts.armed
  {
    ArmsOne(ts, Grace, due, period);
    var r := Arm(ts, Grace, due, period);
    assert Current(r, Tick(Grace, ts.grace + 1, due, period));
    if ts.armed {
      var t :| Current(ts, t) && t.kind == Cooldown;
      assert Current(r, t);
    }
  }

  lemma ArmCooldownTimers(ts: Timers, due: int, period: nat)
    requires TimersOk(ts) && SamePeriod(ts, period)
    ensures var r := Arm(ts, Cooldown, due, period);
      TimersOk(r) && ArmedExactly(r) && SamePeriod(r, period) && r.armed
  {
    ArmsOne(ts, Cooldown, due, period);
    var r := Arm(ts, Cooldown, due, period);
    assert Current(r, Tick(Cooldown, ts.cooldown + 1, due, period));
  }

  lemma ArmCooldownGrace(ts: Timers, due: int, period: nat, graceDue: int)
    requires TimersOk(ts)
    ensures var r := Arm(ts, Cooldown, due, period);
      (GraceArmed(r) <==> GraceArmed(ts)) && (GraceDue(ts, graceDue) ==> GraceDue(r, graceDue))
  {
    ArmsOne(ts, Cooldown, due, period);
    var r := Arm(ts, Cooldown, due, period);
    if GraceArmed(ts) {
      var t :| Current(ts, t) && t.kind == Grace;
      assert Current(r, t);
    }
  }

  lemma ArmBase(m: Mgr, kind: TimerKind, d: int, now: int)
    requires Base(m)
    ensures Base(ArmTimer(m, kind, d, now))
  {
    ArmsOne(m.timers, kind, now + d, m.period);
  }

  /** In ACTIVE, arming the grace timer for the end of the grace period lets anyone wait. */
  lemma ArmGracePhase(m: Mgr, d: int, now: int)
    requires m.state == Active && m.snap == Snapshot(Active, m.active)
    requires !Working(m.crew) && m.target == NONE && OnActive(m)
    requires TimersOk(m.timers) && ArmedExactly(m.timers) && SamePeriod(m.timers, m.period)
    requires m.timers.armed ==> Cools(m)
    requires now + d == m.startedAt + m.cfg.grace
    ensures Phase(ArmTimer(m, Grace, d, now))
  {
    ArmGraceTimers(m.timers, now + d, m.period);
  }

  /** Arming the cooldown in ACTIVE. */
  lemma ArmCooldownPhase(m: Mgr, d: int, now: int)
    requires m.state == Active && m.snap == Snapshot(Active, m.active)
    requires !Working(m.crew) && m.target == NONE && OnActive(m) && Cools(m)
    requires TimersOk(m.timers) && SamePeriod(m.timers, m.period) && GraceDue(m.timers, m.startedAt + m.cfg.grace)
    requires SomeoneWaits(m.book.queues) ==> GraceArmed(m.timers)
    ensures Phase(ArmTimer(m, Cooldown, d, now))
  {
    ArmCooldownTimers(m.timers, now + d, m.period);
    ArmCooldownGrace(m.timers, now + d, m.period, m.startedAt + m.cfg.grace);
  }

  /** Arming the retry of the default service in IDLE. */
  lemma ArmRetryPhase(m: Mgr, d: int, now: int)
    requires m.state == Idle && m.active == NONE && m.snap == Snapshot(Idle, NONE)
    requires !Working(m.crew) && m.target == NONE && Quiescent(m)
    requires TimersOk(m.timers) && SamePeriod(m.timers, m.period) && !GraceArmed(m.timers)
    requires m.cfg.defaultSvc != NONE && m.cfg.cooldown > 0
    ensures Phase(ArmTimer(m, Cooldown, d, now))
  {
    ArmCooldownTimers(m.timers, now + d, m.period);
    ArmCooldownGrace(m.timers, now + d, m.period, 0);
  }

  // --- chainAfterTerminal ---

  lemma NoOneWaits(m: Mgr)
    requires Typed(m)
    ensures Oldest(m.book.queues) == NONE <==> !SomeoneWaits(m.book.queues)
    ensures NoEmptyName(m.cfg) ==> (Oldest(m.book.queues) == NONE <==> NobodyWaits(m))
    ensures Oldest(m.book.queues) == NONE <==> Quiescent(m)
  {
    var n := Oldest(m.book.queues);
    if n == NONE && NoEmptyName(m.cfg) {
      forall k | k in m.book.queues ensures m.book.queues[k] == [] {
        assert !Waiting(m.book.queues, k);
      }
    }
  }

  /** What chainAfterTerminal finds: the worker's report has been taken in, and the pool
      is ACTIVE on the target just flushed, or IDLE. */
  ghost predicate Terminal(m: Mgr, activated: bool, now: int)
  {
    && Base(m) && !Working(m.crew) && Disarmed(m.timers)
    && m.snap == Snapshot(m.state, m.active) && m.target == NONE
    && if activated then m.state == Active && m.startedAt == now && OnActive(m)
       else m.state == Idle && m.active == NONE
  }

  lemma ChainInv(m: Mgr, activated: bool, now: int)
    requires Terminal(m, activated, now)
    ensures Inv(ChainAfterTerminal(m, activated, now))
  {
    var c := m.(adminPending := NONE);
    assert Base(c);
    if m.adminPending != NONE && m.adminPending != m.active {
      StartSwapInv(c, m.adminPending);
    } else {
      var next := Oldest(c.book.queues);
      if next == NONE {
        QuietChainInv(m, c, activated, now);
      } else if activated && c.cfg.grace > 0 {
        ArmBase(c, Grace, c.cfg.grace, now);
        ArmGracePhase(c, c.cfg.grace, now);
      } else {
        StartSwapInv(c, next);
      }
    }
  }

  lemma QuietChainInv(m: Mgr, c: Mgr, activated: bool, now: int)
    requires Terminal(m, activated, now) && c == m.(adminPending := NONE)
    requires m.adminPending == NONE || m.adminPending == m.active
    requires Base(c) && Oldest(c.book.queues) == NONE
    ensures Inv(ChainAfterTerminal(m, activated, now))
  {
    NoOneWaits(c);
    if activated && Cools(c) {
      ArmBase(c.(lastActivity := now), Cooldown, c.cfg.cooldown, now);
      ArmCooldownPhase(c.(lastActivity := now), c.cfg.cooldown, now);
    } else if !activated && c.cfg.defaultSvc != NONE && c.cfg.cooldown > 0 {
      ArmBase(c, Cooldown, c.cfg.cooldown, now);
      ArmRetryPhase(c, c.cfg.cooldown, now);
    }
  }

  // --- the handlers keep the invariant ---

  lemma AdmitInv(m: Mgr, service: Name, reply: nat, now: int)
    requires Inv(m) && reply !in m.book.asked
    ensures Inv(HandleAdmit(m, service, reply, now))
  {
    if service !in m.cfg.members {
      AnswerKeeps(m.book, service, reply, DockerError);
      BookInv(m, Answer(m.book, service, reply, DockerError));
    } else if m.state == Active && m.active == service {
      AnswerKeeps(m.book, service, reply, Go);
      BookInv(m, Answer(m.book, service, reply, Go));
      TouchInv(m.(book := Answer(m.book, service, reply, Go)), service, now);
    } else {
      QueueInv(m, service, reply, now);
    }
  }

  lemma EnqueueBase(m: Mgr, service: Name, reply: nat, max: int)
    requires Base(m) && reply !in m.book.asked && service in m.cfg.members
    ensures Base(m.(book := Enqueue(m.book, service, reply, max)))
  {
    EnqueueKeeps(m.book, service, reply, max);
  }

  lemma QueueInv(m: Mgr, service: Name, reply: nat, now: int)
    requires Inv(m) && reply !in m.book.asked && service in m.cfg.members
    requires !(m.state == Active && m.active == service)
    ensures Inv(HandleAdmit(m, service, reply, now))
  {
    var max := m.cfg.members[service].maxQueue;
    EnqueueBase(m, service, reply, max);
    if |m.book.queues[service]| >= max {
      BookInv(m, Enqueue(m.book, service, reply, max));
    } else {
      QueuedInv(m, m.(book := Enqueue(m.book, service, reply, max)), service, now);
    }
  }

  lemma QueuedInv(m: Mgr, e: Mgr, service: Name, now: int)
    requires Inv(m) && service in m.cfg.members && !(m.state == Active && m.active == service)
    requires Base(e) && e == m.(book := e.book) && (m.state == Active ==> e.book.queues[m.active] == [])
    ensures Inv(Requested(e, service, now))
  {
    if m.state == Swapping {
      HoldInv(m, e.book);
    } else if m.state == Active {
      HoldActive(m, e.book);
      QueuedActive(e, service, now);
    } else {
      StartSwapInv(e, service);
    }
  }

  lemma QueuedActive(e: Mgr, service: Name, now: int)
    requires Base(e) && ActiveHeld(e) && service in e.cfg.members
    ensures Inv(Requested(e, service, now))
  {
    if now - e.startedAt < e.cfg.grace {
      WaitForGraceInv(e, service, now);
    } else {
      PastGraceInv(e, service, now);
    }
  }

  lemma PastGraceInv(e: Mgr, service: Name, now: int)
    requires Base(e) && e.state == Active && service in e.cfg.members && now - e.startedAt >= e.cfg.grace
    ensures Inv(Requested(e, service, now))
  {
    StartSwapInv(e, service);
    assert Requested(e, service, now) == StartSwap(e, service);
  }

  /** Someone new is queued while ACTIVE: all that matters for the grace tick is as it was. */
  lemma HoldActive(m: Mgr, c: Book)
    requires Inv(m) && m.state == Active && c.queues.Keys == m.book.queues.Keys && c.queues[m.active] == []
    ensures ActiveHeld(m.(book := c))
  {
  }

  ghost predicate ActiveHeld(e: Mgr)
  {
    && e.state == Active && e.snap == Snapshot(Active, e.active) && !Working(e.crew) && e.target == NONE
    && OnActive(e) && ActiveTimers(e)
  }

  lemma HoldInv(m: Mgr, c: Book)
    requires Inv(m) && m.state == Swapping && Balanced(c) && c.queues.Keys == m.book.queues.Keys
    ensures Inv(m.(book := c))
  {
  }

  lemma ArmHeldPhase(e: Mgr, now: int)
    requires ActiveHeld(e) && TimersOk(e.timers)
    ensures Phase(ArmTimer(e, Grace, e.cfg.grace - (now - e.startedAt), now))
  {
    ArmGracePhase(e, e.cfg.grace - (now - e.startedAt), now);
  }

  lemma WaitForGraceInv(e: Mgr, service: Name, now: int)
    requires Base(e) && ActiveHeld(e) && service in e.cfg.members && now - e.startedAt < e.cfg.grace
    ensures Inv(Requested(e, service, now))
  {
    ArmBase(e, Grace, e.cfg.grace - (now - e.startedAt), now);
    ArmHeldPhase(e, now);
    assert e.state == Active;
  }

  lemma CancelInv(m: Mgr, service: Name, reply: nat)
    requires Inv(m)
    ensures Inv(HandleCancel(m, service, reply))
  {
    RemoveKeeps(m.book, service, reply);
    var c := Remove(m.book, service, reply);
    assert NoNewWaiters(m.book, c);
    BookInv(m, c);
  }

  lemma AdminSwapInv(m: Mgr, service: Name)
    requires Inv(m)
    ensures Inv(HandleAdminSwap(m, service).0)
  {
    if service in m.cfg.members {
      if m.state == Swapping {
        var r := m.(adminPending := service);
        assert Base(r) && Phase(r);
      } else {
        StartSwapInv(m, service);
      }
    }
  }

  lemma AdminStopInv(m: Mgr, order: seq<Name>)
    requires Inv(m) && Covers(order, m.cfg)
    ensures Inv(HandleAdminStop(m, order).0)
  {
    CoversQueues(m, order);
    FlushAllKeeps(m.book, order, Shutdown);
    FlushAllEmpties(m.book, order, Shutdown);
    var c := FlushAll(m.book, order, Shutdown);
    var f := m.(adminPending := NONE, book := c);
    assert Base(f);
    if m.state == Idle {
      BookInv(m, c);
    } else {
      StartStopAllInv(f);
    }
  }

  // --- ticks ---

  /** The tick leaves the channel and is handled. */
  function TakeTick(m: Mgr, t: Tick): Mgr
  {
    m.(timers := m.timers.(ticks := m.timers.ticks - {t}))
  }

  lemma TakeTimers(ts: Timers, t: Tick)
    requires TimersOk(ts)
    ensures var r := ts.(ticks := ts.ticks - {t});
      TimersOk(r) && forall u :: Current(r, u) <==> Current(ts, u) && u != t
  {
  }

  /** Taking a tick keeps every fact about the ticks of the other kind, and whatever was
      true of all ticks. */
  lemma TakeKeeps(ts: Timers, t: Tick, period: nat, due: int)
    requires TimersOk(ts) && t in ts.ticks
    ensures var r := ts.(ticks := ts.ticks - {t});
      && (SamePeriod(ts, period) ==> SamePeriod(r, period))
      && (GraceDue(ts, due) ==> GraceDue(r, due))
      && (GraceArmed(r) ==> GraceArmed(ts))
      && (GraceArmed(ts) && !(Current(ts, t) && t.kind == Grace) ==> GraceArmed(r))
      && (ArmedExactly(ts) && !(Current(ts, t) && t.kind == Cooldown) ==> ArmedExactly(r))
      && (Disarmed(ts) ==> Disarmed(r))
  {
    TakeTimers(ts, t);
    var r := ts.(ticks := ts.ticks - {t});
    if g :| Current(ts, g) && g.kind == Grace { assert g != t ==> Current(r, g); }
    if c :| Current(ts, c) && c.kind == Cooldown { assert c != t ==> Current(r, c); }
  }

  lemma TickInv(m: Mgr, t: Tick, now: int)
    requires Inv(m) && t in m.timers.ticks
    ensures Inv(HandleTick(TakeTick(m, t), t, now))
  {
    TakeTimers(m.timers, t);
    TakeKeeps(m.timers, t, m.period, m.startedAt + m.cfg.grace);
    var k := TakeTick(m, t);
    assert Base(k);
    NoOneWaits(k);
    if !Current(m.timers, t) {
      StaleTickInv(m, t);
    } else if t.kind == Grace {
      GraceTickInv(m, t, now);
    } else if m.state == Idle {
      StartSwapInv(k, m.cfg.defaultSvc);
    } else {
      CooldownTickInv(m, t, now);
    }
  }

  lemma StaleTickInv(m: Mgr, t: Tick)
    requires Inv(m) && t in m.timers.ticks && !Current(m.timers, t)
    requires Base(TakeTick(m, t))
    ensures Inv(TakeTick(m, t))
  {
    TakeKeeps(m.timers, t, m.period, m.startedAt + m.cfg.grace);
    assert Phase(TakeTick(m, t));
  }

  lemma GraceTickInv(m: Mgr, t: Tick, now: int)
    requires Inv(m) && Current(m.timers, t) && t.kind == Grace
    requires Base(TakeTick(m, t))
    ensures Inv(HandleTick(TakeTick(m, t), t, now))
  {
    assert GraceArmed(m.timers);
    var k := TakeTick(m, t);
    NoOneWaits(k);
    var next := Oldest(k.book.queues);
    if next != NONE {
      StartSwapInv(k, next);
    } else {
      TakeKeeps(m.timers, t, m.period, m.startedAt + m.cfg.grace);
      assert Phase(k);
    }
  }

  lemma CooldownTickInv(m: Mgr, t: Tick, now: int)
    requires Inv(m) && Current(m.timers, t) && t.kind == Cooldown && m.state != Idle
    requires Base(TakeTick(m, t))
    ensures m.state == Active && Cools(m)
    ensures Inv(HandleTick(TakeTick(m, t), t, now))
  {
    assert m.state == Active && m.timers.armed;
    var k := TakeTick(m, t);
    var next := Oldest(k.book.queues);
    if next != NONE {
      RearmInv(m, t, m.cfg.cooldown, now);
    } else if now - m.lastActivity < m.cfg.cooldown {
      RearmInv(m, t, m.cfg.cooldown - (now - m.lastActivity), now);
    } else if m.cfg.defaultSvc != NONE {
      StartSwapInv(k, m.cfg.defaultSvc);
    } else {
      StartStopAllInv(k);
    }
  }

  lemma RearmInv(m: Mgr, t: Tick, d: int, now: int)
    requires Inv(m) && m.state == Active && Cools(m) && Current(m.timers, t) && t.kind == Cooldown
    requires Base(TakeTick(m, t))
    ensures Inv(ArmTimer(TakeTick(m, t), Cooldown, d, now))
  {
    var k := TakeTick(m, t);
    TakeKeeps(m.timers, t, m.period, m.startedAt + m.cfg.grace);
    ArmBase(k, Cooldown, d, now);
    ArmCooldownPhase(k, d, now);
  }

  // --- terminal reports ---

  /** The worker has delivered its report and is gone. */
  function TakeJob(m: Mgr, op: nat): Mgr
  {
    m.(crew := m.crew.(jobs := m.crew.jobs - {op}))
  }

  lemma TakeStaleCrew(c: Config, crew: Crew, op: nat)
    requires CrewOk(c, crew) && op != crew.opSeq
    ensures CrewOk(c, crew.(jobs := crew.jobs - {op}))
  {
  }

  lemma TakeCurrentCrew(c: Config, crew: Crew)
    requires CrewOk(c, crew)
    ensures var r := Release(crew.(jobs := crew.jobs - {crew.opSeq}));
      CrewOk(c, r) && !Working(r)
  {
  }

  /** A report of a superseded worker changes nothing but that the worker is gone; the
      current worker's report ends SWAPPING or starts the next transition. */
  lemma ReportInv(m: Mgr, op: nat, now: int)
    requires Inv(m) && op in m.crew.jobs && m.crew.jobs[op].pc.Done?
    ensures JobOk(m.cfg, op, m.crew.jobs[op])
    ensures op == m.crew.opSeq && !m.crew.jobs[op].pc.kind.PoolStopped? ==> m.crew.jobs[op].target in m.cfg.members
    ensures Inv(HandleSwap(TakeJob(m, op), Msg(m.crew.jobs[op]), now))
  {
    var w := m.crew.jobs[op];
    assert JobOk(m.cfg, op, w);
    if op != m.crew.opSeq {
      TakeStaleCrew(m.cfg, m.crew, op);
      assert Phase(TakeJob(m, op));
    } else {
      TakeCurrentCrew(m.cfg, m.crew);
      assert m.state == Swapping;
      var r := ReleaseWorker(TakeJob(m, op));
      assert Base(r);
      LandTerminal(r, Msg(w), now);
      ChainInv(Land(r, Msg(w), now), w.pc.kind == SwapComplete, now);
    }
  }

  /** Taking a report in touches neither workers nor ticks; a swap that ran out of its health
      budget has its container stopped. */
  lemma LandFacts(r: Mgr, msg: SwapMsg, now: int)
    requires Typed(r) && (!msg.kind.PoolStopped? ==> msg.target in r.cfg.members)
    ensures var y := Land(r, msg, now);
      && y.cfg == r.cfg && y.crew == r.crew && y.timers == r.timers && y.adminPending == r.adminPending && Typed(y)
      && y.snap == Snapshot(y.state, y.active) && y.target == NONE
      && (if msg.kind == SwapComplete then y.state == Active && y.active == msg.target && y.startedAt == now
          else y.state == Idle && y.active == NONE && y.startedAt == r.startedAt)
      && y.stops == r.stops +
           if msg.kind == SwapHealthTimeout then multiset{r.cfg.members[msg.target].containerName} else multiset{}
  {
    match msg.kind
    case SwapComplete =>
    case SwapFailed =>
    case SwapHealthTimeout =>
    case PoolStopped =>
  }

  lemma LandBook(r: Mgr, msg: SwapMsg, now: int)
    requires Typed(r) && Balanced(r.book)
    requires !msg.kind.PoolStopped? ==> msg.target in r.cfg.members
    ensures var y := Land(r, msg, now);
      Balanced(y.book) && (!msg.kind.PoolStopped? ==> msg.target in y.book.queues && y.book.queues[msg.target] == [])
  {
    match msg.kind
    case SwapComplete => FlushKeeps(r.book, msg.target, Go);
    case SwapFailed => FlushKeeps(r.book, msg.target, DockerError);
    case SwapHealthTimeout => FlushKeeps(r.book, msg.target, StartupTimeout);
    case PoolStopped =>
  }

  lemma LandTerminal(r: Mgr, msg: SwapMsg, now: int)
    requires Base(r) && !Working(r.crew) && Disarmed(r.timers)
    requires !msg.kind.PoolStopped? ==> msg.target in r.cfg.members
    ensures Terminal(Land(r, msg, now), msg.kind == SwapComplete, now)
  {
    LandFacts(r, msg, now);
    LandBook(r, msg, now);
  }

  // --- external events ---

  lemma AbortInv(m: Mgr, service: Name)
    requires Inv(m) && service in m.cfg.members
    requires Serves(m, service)
    ensures Inv(Abort(m, service))
  {
    var e := if m.state == Active then BumpEpochs(m) else SupersedeWorker(m).(target := NONE);
    BumpDisarms(m.timers);
    SupersedeClears(m.cfg, m.crew);
    FlushKeeps(m.book, service, DockerError);
    var f := Publish(e.(state := Error, active := NONE));
    var g := f.(book := Flush(f.book, service, DockerError));
    assert Base(g);
    assert !Working(g.crew) && Disarmed(g.timers);
    NoOneWaits(g);
    if Oldest(g.book.queues) != NONE {
      StartSwapInv(g, Oldest(g.book.queues));
    }
  }

  lemma EventInv(m: Mgr, container: Name, action: Action)
    requires Inv(m)
    ensures Inv(HandleExternalEvent(m, container, action))
  {
    var owner := MemberByContainer(m.cfg, container);
    if owner.Some? {
      if !action.ActStart? && Serves(m, owner.value) {
        AbortInv(m, owner.value);
      } else {
        StopsInv(m, m.stops + multiset{container});
      }
    }
  }

  lemma StopsInv(m: Mgr, stops: multiset<Name>)
    requires Inv(m)
    ensures Inv(m.(stops := stops))
  {
    var r := m.(stops := stops);
    assert Base(r);
    assert Phase(r);
  }
}
