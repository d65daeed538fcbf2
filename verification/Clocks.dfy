/** The pool's two timers and its activity clock: for every step, which ticks count after it, and
    for which instant they are set. */
module Clocks {
  import opened Names
  import opened State
  import opened Ledger
  import opened Worker
  import opened Manager
  import opened Invariant
  import opened System
  import opened Safety
  import opened Waiters
  import opened AdmitGo
  import opened Causes
  import opened Answers
  import opened Course
  import opened Timing

  /** The instant the step sets the cooldown timer for: a whole cooldown from now when a period of
      ACTIVE opens quietly, when a failure leaves a pool with a default service cold, or when a tick
      finds somebody waiting; and what is left of it when a tick finds traffic since. */
  ghost function CooldownSet(s: Sys, e: Event): Option<int>
    requires Grounded(s.m) && Enabled(s, e)
  {
    match e
    case Report(op) =>
      if op == s.m.crew.opSeq && !StillPending(s, e) && LongestAfter(s, e) == NONE && s.m.cfg.cooldown > 0
        && (if Ends(s, e, SwapComplete) then s.m.cfg.defaultSvc == NONE || Brought(s, e) != s.m.cfg.defaultSvc
            else s.m.cfg.defaultSvc != NONE)
      then Some(s.now + s.m.cfg.cooldown)
      else None
    case Fire(t) =>
      if !Current(s.m.timers, t) || t.kind != Cooldown || s.m.state != Active then None
      else if LongestAfter(s, e) != NONE then Some(s.now + s.m.cfg.cooldown)
      else if s.now - s.m.lastActivity < s.m.cfg.cooldown then Some(s.m.lastActivity + s.m.cfg.cooldown)
      else None
    case _ => None
  }

  /** The instant the step sets the grace timer for: always the end of the grace period. */
  ghost function GraceSet(s: Sys, e: Event): Option<int>
    requires Grounded(s.m) && Enabled(s, e)
  {
    match e
    case Report(op) =>
      if Ends(s, e, SwapComplete) && !StillPending(s, e) && LongestAfter(s, e) != NONE && s.m.cfg.grace > 0
      then Some(s.now + s.m.cfg.grace)
      else None
    case Admit(n, _) =>
      if Joins(s, e, n) && s.m.state == Active && !GraceOver(s) then Some(s.m.startedAt + s.m.cfg.grace) else None
    case _ => None
  }

  ghost function TimerSet(s: Sys, e: Event, kind: TimerKind): Option<int>
    requires Grounded(s.m) && Enabled(s, e)
  {
    if kind == Grace then GraceSet(s, e) else CooldownSet(s, e)
  }

  /** The ticks of this kind that count: the one just set, or those that counted before, if they
      are kept at all and have not been taken. */
  ghost predicate Ticking(a: Timers, b: Timers, kind: TimerKind, due: Option<int>, period: nat, kept: bool,
                          taken: Option<Tick>)
  {
    match due
    case Some(d) => forall u: Tick :: u.kind == kind ==> (Current(b, u) <==> u == Tick(kind, Epoch(b, kind), d, period))
    case None =>
      forall u: Tick :: u.kind == kind ==> (Current(b, u) <==> kept && Current(a, u) && taken != Some(u))
  }

  ghost predicate TicksRight(s: Sys, e: Event, t: Sys, kind: TimerKind)
    requires Grounded(s.m) && Enabled(s, e)
  {
    Ticking(s.m.timers, t.m.timers, kind, TimerSet(s, e, kind), t.m.period, t.m.period == s.m.period,
            if e.Fire? then Some(e.tick) else None)
  }

  // --- steps that send a worker off, or leave the timers alone ---

  lemma BeginsPeriod(m: Mgr, n: Name)
    requires n in m.cfg.members
    ensures StartSwap(m, n).period == m.period + 1 && StartStopAll(m).period == m.period + 1
  {
  }

  lemma TransitionTicks(s: Sys, e: Event, t: Sys, kind: TimerKind)
    requires Grounded(s.m) && Enabled(s, e) && TimerSet(s, e, kind) == None
    requires Kept(t) && !t.closed && t.m.state in [Swapping, Error] && t.m.period != s.m.period
    ensures TicksRight(s, e, t, kind)
  {
    assert Disarmed(t.m.timers);
  }

  lemma UntouchedTicks(s: Sys, e: Event, t: Sys, kind: TimerKind)
    requires Grounded(s.m) && Enabled(s, e) && TimerSet(s, e, kind) == None && !e.Fire?
    requires t.m.timers == s.m.timers && t.m.period == s.m.period
    ensures TicksRight(s, e, t, kind)
  {
  }

  lemma ArmedTicks(a: Timers, kind: TimerKind, due: int, period: nat, other: TimerKind)
    requires TimersOk(a)
    ensures var b := Arm(a, kind, due, period);
      Ticking(a, b, other, if other == kind then Some(due) else None, period, true, None)
  {
    ArmsOne(a, kind, due, period);
  }

  lemma SameTicks(a: Timers, kind: TimerKind, period: nat)
    ensures Ticking(a, a, kind, None, period, true, None)
  {
  }

  lemma AdmitTimers(m: Mgr, n: Name, reply: nat, now: int)
    requires Typed(m)
    ensures var r := HandleAdmit(m, n, reply, now);
      var joins := n in m.cfg.members && !(m.state == Active && m.active == n)
        && |m.book.queues[n]| < m.cfg.members[n].maxQueue;
      if joins && m.state == Active && now - m.startedAt < m.cfg.grace then
        r.timers == Arm(m.timers, Grace, m.startedAt + m.cfg.grace, m.period) && r.period == m.period
      else if joins && m.state != Swapping then r.state == Swapping && r.period == m.period + 1
      else r.timers == m.timers && r.period == m.period
  {
    if n in m.cfg.members { BeginsPeriod(m.(book := Enqueue(m.book, n, reply, m.cfg.members[n].maxQueue)), n); }
  }

  lemma AdmitTicks(s: Sys, e: Event, kind: TimerKind)
    requires Kept(s) && Grounded(s.m) && Enabled(s, e) && e.Admit? && Kept(Apply(s, e))
    ensures TicksRight(s, e, Apply(s, e), kind)
  {
    AdmitTimers(s.m, e.service, e.reply, s.now);
    var t := Apply(s, e);
    if t.m.period != s.m.period {
      AdmitSetsNothing(s, e);
      TransitionTicks(s, e, t, kind);
    } else if GraceSet(s, e).Some? {
      AdmitArms(s, e, kind);
    } else {
      UntouchedTicks(s, e, t, kind);
    }
  }

  lemma AdmitSetsNothing(s: Sys, e: Event)
    requires Grounded(s.m) && Enabled(s, e) && e.Admit? && Apply(s, e).m.period != s.m.period
    ensures GraceSet(s, e) == None
  {
    AdmitTimers(s.m, e.service, e.reply, s.now);
  }

  lemma AdmitArms(s: Sys, e: Event, kind: TimerKind)
    requires TimersOk(s.m.timers) && Grounded(s.m) && Enabled(s, e) && e.Admit? && GraceSet(s, e).Some?
    ensures TicksRight(s, e, Apply(s, e), kind)
  {
    AdmitTimers(s.m, e.service, e.reply, s.now);
    ArmedTicks(s.m.timers, Grace, s.m.startedAt + s.m.cfg.grace, s.m.period, kind);
  }

  lemma AdminTimers(m: Mgr, n: Name)
    ensures var r := HandleAdminSwap(m, n).0;
      if r.period == m.period then r.timers == m.timers else r.state == Swapping
  {
    if n in m.cfg.members { BeginsPeriod(m, n); }
  }

  lemma StopTimers(m: Mgr, order: seq<Name>)
    requires Typed(m) && Covers(order, m.cfg)
    ensures var r := HandleAdminStop(m, order).0;
      if r.period == m.period then r.timers == m.timers else r.state == Swapping
  {
    CoversQueues(m, order);
  }

  lemma AdminTicks(s: Sys, e: Event, kind: TimerKind)
    requires Kept(s) && Grounded(s.m) && Enabled(s, e) && (e.AdminSwap? || e.AdminStop?) && Kept(Apply(s, e))
    ensures TicksRight(s, e, Apply(s, e), kind)
  {
    if e.AdminSwap? { AdminTimers(s.m, e.service); } else { StopTimers(s.m, e.order); }
    if Apply(s, e).m.period != s.m.period { TransitionTicks(s, e, Apply(s, e), kind); }
  }

  lemma NoticeTimers(m: Mgr, container: Name, action: Action)
    requires Typed(m)
    ensures var r := HandleExternalEvent(m, container, action);
      if r.period == m.period then r.timers == m.timers else r.state in [Swapping, Error]
  {
    var owner := MemberByContainer(m.cfg, container);
    if owner.Some? && !action.ActStart? && Serves(m, owner.value) { AbortEnds(m, owner.value); }
  }

  lemma NoticeTicks(s: Sys, e: Event, kind: TimerKind)
    requires Kept(s) && Grounded(s.m) && Enabled(s, e) && e.Notice? && Kept(Apply(s, e))
    ensures TicksRight(s, e, Apply(s, e), kind)
  {
    NoticeTimers(s.m, e.container, e.action);
    if Apply(s, e).m.period != s.m.period { TransitionTicks(s, e, Apply(s, e), kind); }
  }

  lemma AbortEnds(m: Mgr, n: Name)
    requires Typed(m) && n in m.cfg.members && Serves(m, n)
    ensures Abort(m, n).period > m.period && Abort(m, n).state in [Error, Swapping]
  {
    var e := if m.state == Active then BumpEpochs(m) else SupersedeWorker(m).(target := NONE);
    var f := Publish(e.(state := Error, active := NONE));
    var g := f.(book := Flush(f.book, n, DockerError));
    if Oldest(g.book.queues) != NONE { BeginsPeriod(g, Oldest(g.book.queues)); }
  }

  // --- reports ---

  lemma LandingPeriod(r: Mgr, msg: SwapMsg, now: int)
    requires Typed(r) && (!msg.kind.PoolStopped? ==> msg.target in r.cfg.members)
    ensures Land(r, msg, now).period == r.period + 1 && Land(r, msg, now).lastActivity == r.lastActivity
  {
    match msg.kind
    case SwapComplete =>
    case SwapFailed =>
    case SwapHealthTimeout =>
    case PoolStopped =>
  }

  /** The chain goes on to the operator's choice. */
  ghost predicate Pends(y: Mgr)
  {
    y.adminPending != NONE && y.adminPending != y.active
  }

  ghost function ChainSet(y: Mgr, activated: bool, now: int, kind: TimerKind): Option<int>
  {
    var next := Oldest(y.book.queues);
    if Pends(y) then None
    else if kind == Grace then
      if activated && next != NONE && y.cfg.grace > 0 then Some(now + y.cfg.grace) else None
    else
      if next == NONE && y.cfg.cooldown > 0
        && (if activated then y.cfg.defaultSvc == NONE || y.active != y.cfg.defaultSvc else y.cfg.defaultSvc != NONE)
      then Some(now + y.cfg.cooldown)
      else None
  }

  /** What the chain does to disarmed timers. */
  lemma ChainTicks(y: Mgr, activated: bool, now: int, kind: TimerKind)
    requires Typed(y) && y.state == (if activated then Active else Idle) && (!activated ==> y.active == NONE)
    requires TimersOk(y.timers) && Disarmed(y.timers)
    ensures var x := ChainAfterTerminal(y, activated, now);
      && x.period == y.period + (if x.state == Swapping then 1 else 0)
      && (x.state != Swapping ==>
            Ticking(y.timers, x.timers, kind, ChainSet(y, activated, now, kind), x.period, false, None))
      && (x.state == Swapping ==> ChainSet(y, activated, now, kind) == None)
  {
    ChainPeriod(y, activated, now, kind);
    if ChainAfterTerminal(y, activated, now).state != Swapping { ChainRestTicks(y, activated, now, kind); }
  }

  lemma ChainPeriod(y: Mgr, activated: bool, now: int, kind: TimerKind)
    requires Typed(y) && y.state == (if activated then Active else Idle)
    ensures var x := ChainAfterTerminal(y, activated, now);
      && x.period == y.period + (if x.state == Swapping then 1 else 0)
      && (x.state == Swapping ==> ChainSet(y, activated, now, kind) == None)
  {
    var c := y.(adminPending := NONE);
    if Pends(y) { BeginsPeriod(c, y.adminPending); }
    else if Oldest(y.book.queues) != NONE { BeginsPeriod(c, Oldest(y.book.queues)); }
  }

  lemma ChainRestTicks(y: Mgr, activated: bool, now: int, kind: TimerKind)
    requires Typed(y) && y.state == (if activated then Active else Idle) && (!activated ==> y.active == NONE)
    requires TimersOk(y.timers) && Disarmed(y.timers) && ChainAfterTerminal(y, activated, now).state != Swapping
    ensures var x := ChainAfterTerminal(y, activated, now);
      Ticking(y.timers, x.timers, kind, ChainSet(y, activated, now, kind), x.period, false, None)
  {
    ArmedTicks(y.timers, Grace, now + y.cfg.grace, y.period, kind);
    ArmedTicks(y.timers, Cooldown, now + y.cfg.cooldown, y.period, kind);
  }

  lemma ReportSets(s: Sys, e: Event, y: Mgr, done: bool, kind: TimerKind)
    requires Grounded(s.m) && Enabled(s, e) && e.Report? && e.op == s.m.crew.opSeq && y.cfg == s.m.cfg
    requires y.adminPending == s.m.adminPending && done == (s.m.crew.jobs[e.op].pc.kind == SwapComplete)
    requires y.active == (if done then s.m.crew.jobs[e.op].target else NONE)
    requires Oldest(y.book.queues) == LongestAfter(s, e)
    ensures TimerSet(s, e, kind) == ChainSet(y, done, s.now, kind)
  {
  }

  lemma ReportTicks(s: Sys, e: Event, kind: TimerKind)
    requires Kept(s) && Grounded(s.m) && Enabled(s, e) && e.Report? && Kept(Apply(s, e))
    ensures TicksRight(s, e, Apply(s, e), kind)
  {
    if e.op != s.m.crew.opSeq {
      StaleReportIsIgnored(s, e.op);
    } else {
      var y, done := ReportLandsOn(s, e.op);
      ChainBook(y, done, s.now);
      ReportSets(s, e, y, done, kind);
      ChainTicks(y, done, s.now, kind);
      if Apply(s, e).m.state == Swapping { TransitionTicks(s, e, Apply(s, e), kind); }
    }
  }

  lemma ReportLandsOn(s: Sys, op: nat) returns (y: Mgr, done: bool)
    requires Kept(s) && Grounded(s.m) && Enabled(s, Report(op)) && op == s.m.crew.opSeq
    ensures Typed(y) && Apply(s, Report(op)).m == ChainAfterTerminal(y, done, s.now)
    ensures y.state == (if done then Active else Idle) && y.adminPending == s.m.adminPending && y.cfg == s.m.cfg
    ensures done == (s.m.crew.jobs[op].pc.kind == SwapComplete)
    ensures y.active == if done then s.m.crew.jobs[op].target else NONE
    ensures TimersOk(y.timers) && Disarmed(y.timers) && y.period == s.m.period + 1
    ensures y.lastActivity == s.m.lastActivity
  {
    JobAt(s.m, op);
    var w := s.m.crew.jobs[op];
    done := w.pc.kind == SwapComplete;
    y := Land(ReleaseWorker(TakeJob(s.m, op)), Msg(w), s.now);
    LandFacts(ReleaseWorker(TakeJob(s.m, op)), Msg(w), s.now);
    LandingPeriod(ReleaseWorker(TakeJob(s.m, op)), Msg(w), s.now);
  }

  // --- ticks ---

  lemma FireTicks(s: Sys, e: Event, kind: TimerKind)
    requires Kept(s) && Grounded(s.m) && Enabled(s, e) && e.Fire? && Kept(Apply(s, e))
    ensures TicksRight(s, e, Apply(s, e), kind)
  {
    var k, t := TakeTick(s.m, e.tick), Apply(s, e);
    TickBook(k, e.tick, s.now);
    if t.m.period != s.m.period {
      FireSwaps(k, e.tick, s.now);
      FireSetsNothing(s, e);
      TransitionTicks(s, e, t, kind);
    } else if CooldownSet(s, e).Some? {
      FireRearms(s, e, kind);
    } else {
      FireLeaves(s, e, kind);
    }
  }

  lemma FireRearms(s: Sys, e: Event, kind: TimerKind)
    requires TimersOk(s.m.timers) && Grounded(s.m) && Enabled(s, e) && e.Fire? && Apply(s, e).m.period == s.m.period
    requires CooldownSet(s, e).Some?
    ensures TicksRight(s, e, Apply(s, e), kind)
  {
    var k := TakeTick(s.m, e.tick);
    TickBook(k, e.tick, s.now);
    FireKeeps(k, e.tick, s.now);
    Rearmed(s.m.timers, e.tick, CooldownSet(s, e).value, s.m.period, kind);
  }

  lemma FireLeaves(s: Sys, e: Event, kind: TimerKind)
    requires TimersOk(s.m.timers) && Grounded(s.m) && Enabled(s, e) && e.Fire? && Apply(s, e).m.period == s.m.period
    requires CooldownSet(s, e) == None
    ensures TicksRight(s, e, Apply(s, e), kind)
  {
    var k := TakeTick(s.m, e.tick);
    TickBook(k, e.tick, s.now);
    FireKeeps(k, e.tick, s.now);
    TakeTimers(s.m.timers, e.tick);
  }

  lemma FireSetsNothing(s: Sys, e: Event)
    requires Grounded(s.m) && Enabled(s, e) && e.Fire? && Apply(s, e).m.period != s.m.period
    ensures CooldownSet(s, e) == None
  {
    TickBook(TakeTick(s.m, e.tick), e.tick, s.now);
  }

  lemma FireSwaps(k: Mgr, t: Tick, now: int)
    requires Typed(k) && HandleTick(k, t, now).period != k.period
    ensures HandleTick(k, t, now).state == Swapping
  {
  }

  lemma FireKeeps(k: Mgr, t: Tick, now: int)
    requires Typed(k) && HandleTick(k, t, now).period == k.period
    ensures HandleTick(k, t, now).timers ==
      if t.kind == Cooldown && t.epoch == k.timers.cooldown && k.state == Active && Oldest(k.book.queues) != NONE then
        Arm(k.timers, Cooldown, now + k.cfg.cooldown, k.period)
      else if t.kind == Cooldown && t.epoch == k.timers.cooldown && k.state == Active
        && now - k.lastActivity < k.cfg.cooldown then
        Arm(k.timers, Cooldown, k.lastActivity + k.cfg.cooldown, k.period)
      else k.timers
  {
  }

  lemma Rearmed(ts: Timers, t: Tick, due: int, period: nat, kind: TimerKind)
    requires TimersOk(ts) && t.kind == Cooldown
    ensures var b := Arm(ts.(ticks := ts.ticks - {t}), Cooldown, due, period);
      Ticking(ts, b, kind, if kind == Cooldown then Some(due) else None, period, true, Some(t))
  {
    TakeTimers(ts, t);
    ArmsOne(ts.(ticks := ts.ticks - {t}), Cooldown, due, period);
  }

  lemma OtherTicks(s: Sys, e: Event, kind: TimerKind)
    requires Grounded(s.m) && Enabled(s, e) && !e.Close?
    requires !e.Admit? && !e.AdminSwap? && !e.AdminStop? && !e.Report? && !e.Fire? && !e.Notice?
    ensures TicksRight(s, e, Apply(s, e), kind)
  {
  }

  /** After every step just the ticks count that should: the one the step has set, for the instant
      it should be set for, or those of before, unless the step was a transition or took the tick. */
  lemma TicksExactly(s: Sys, e: Event, kind: TimerKind)
    requires Kept(s) && Grounded(s.m) && Enabled(s, e) && !e.Close?
    ensures TicksRight(s, e, Apply(s, e), kind)
  {
    ApplyKept(s, e);
    if e.Admit? { AdmitTicks(s, e, kind); }
    else if e.AdminSwap? || e.AdminStop? { AdminTicks(s, e, kind); }
    else if e.Report? { ReportTicks(s, e, kind); }
    else if e.Fire? { FireTicks(s, e, kind); }
    else if e.Notice? { NoticeTicks(s, e, kind); }
    else { OtherTicks(s, e, kind); }
  }

  // --- the activity clock ---

  /** The clock the cooldown is measured by is set to now by traffic for the ACTIVE service and by the
      opening of a period that starts the countdown, and by nothing else. */
  lemma ActivityExactly(s: Sys, e: Event)
    requires Kept(s) && Grounded(s.m) && Enabled(s, e)
    ensures Apply(s, e).m.lastActivity ==
      if Touches(s, e) || (Ends(s, e, SwapComplete) && CooldownSet(s, e).Some?) then s.now else s.m.lastActivity
  {
    if e.Report? {
      if e.op != s.m.crew.opSeq {
        StaleReportIsIgnored(s, e.op);
      } else {
        ReportActivity(s, e);
      }
    } else {
      OtherActivity(s, e);
    }
  }

  lemma ReportActivity(s: Sys, e: Event)
    requires Kept(s) && Grounded(s.m) && Enabled(s, e) && e.Report? && e.op == s.m.crew.opSeq
    ensures Apply(s, e).m.lastActivity ==
      if Ends(s, e, SwapComplete) && CooldownSet(s, e).Some? then s.now else s.m.lastActivity
  {
    var y, done := ReportLandsOn(s, e.op);
    ChainBook(y, done, s.now);
    ChainActivity(y, done, s.now);
  }

  lemma ChainActivity(y: Mgr, activated: bool, now: int)
    requires Typed(y) && y.state == (if activated then Active else Idle)
    ensures ChainAfterTerminal(y, activated, now).lastActivity ==
      if activated && (y.adminPending == NONE || y.adminPending == y.active) && Oldest(y.book.queues) == NONE
        && y.cfg.cooldown > 0 && (y.cfg.defaultSvc == NONE || y.active != y.cfg.defaultSvc)
      then now else y.lastActivity
  {
  }

  lemma AdmitActivity(m: Mgr, n: Name, reply: nat, now: int)
    requires Typed(m)
    ensures HandleAdmit(m, n, reply, now).lastActivity ==
      if n in m.cfg.members && m.state == Active && m.active == n then now else m.lastActivity
  {
  }

  lemma TickActivity(m: Mgr, t: Tick, now: int)
    requires Typed(m)
    ensures HandleTick(m, t, now).lastActivity == m.lastActivity
  {
  }

  lemma NoticeActivity(m: Mgr, container: Name, action: Action)
    requires Typed(m)
    ensures HandleExternalEvent(m, container, action).lastActivity == m.lastActivity
  {
  }

  lemma OtherActivity(s: Sys, e: Event)
    requires Kept(s) && Grounded(s.m) && Enabled(s, e) && !e.Report?
    ensures Apply(s, e).m.lastActivity == if Touches(s, e) then s.now else s.m.lastActivity
  {
    match e
    case Admit(n, reply) => AdmitActivity(s.m, n, reply, s.now);
    case Fire(t) => TickActivity(TakeTick(s.m, t), t, s.now);
    case Notice(c, action) => NoticeActivity(s.m, c, action);
    case _ =>
  }
}
