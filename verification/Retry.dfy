/** An operator's stop of a pool with a default service does not stick: its report lands in
    IDLE as a failed swap does, which arms the retry of the default. */
module Retry {
  import opened Names
  import opened State
  import opened Worker
  import opened Manager
  import opened Invariant
  import opened System
  import opened Safety
  import opened Exclusion
  import opened Waiters
  import opened Drain
  import opened Timing
  import opened Causes
  import opened Walks

  predicate Retries(c: Config)
  {
    c.defaultSvc != NONE && c.cooldown > 0
  }

  lemma StopChain(y: Mgr, now: int)
    requires Typed(y) && TimersOk(y.timers) && y.state == Idle && y.adminPending == NONE && NobodyWaits(y)
    requires !y.timers.armed
    ensures var x := ChainAfterTerminal(y, false, now);
      && x.state == Idle && x.cfg == y.cfg && (x.timers.armed <==> Retries(y.cfg))
      && (x.timers.armed ==>
            Current(x.timers, Tick(Cooldown, y.timers.cooldown + 1, now + y.cfg.cooldown, y.period)))
  {
    ArmsOne(y.timers, Cooldown, now + y.cfg.cooldown, y.period);
  }

  /** The report of a stop, with nobody waiting and nothing pending, lands in IDLE, and arms the
      retry exactly in a pool with a default service and a cooldown. */
  lemma StopReportArms(s: Sys, op: nat)
    requires SysInv(s) && Enabled(s, Report(op)) && op == s.m.crew.opSeq && s.m.crew.jobs[op].pc.kind.PoolStopped?
    requires !QueueNonempty(s.m) && s.m.adminPending == NONE
    ensures var t := Apply(s, Report(op));
      && t.m.state == Idle && (t.m.timers.armed <==> Retries(s.m.cfg))
      && (t.m.timers.armed ==> exists k :: CooldownTick(t, k) && k.due == s.now + s.m.cfg.cooldown)
  {
    BookIs(s, Report(op));
    var y, done := ReportLands(s, op);
    ChainBook(y, done, s.now);
    StopChain(y, s.now);
    if Retries(s.m.cfg) {
      var k := Tick(Cooldown, y.timers.cooldown + 1, s.now + y.cfg.cooldown, y.period);
      assert CooldownTick(Apply(s, Report(op)), k);
    }
  }

  /** And the retry, when it comes, starts the default. */
  lemma RetryStartsDefault(s: Sys, k: Tick)
    requires SysInv(s) && !s.closed && s.m.state == Idle && CooldownTick(s, k) && Enabled(s, Fire(k))
    ensures StartsSwap(s, Fire(k), s.m.cfg.defaultSvc)
  {
    assert s.m.timers.armed;
    NoOneWaits(TakeTick(s.m, k));
  }

  // --- from the operator's stop on ---

  /** After a quiet run the pool is on its way to a service. */
  ghost predicate RestartsBy(s: Sys, run: seq<Event>)
    requires Grounded(s.m)
  {
    && (forall e :: e in run ==> Quiet(e))
    && var t := Exec(s, run); !t.closed && t.m.state == Swapping && t.m.target != NONE && NobodyWaits(t.m)
  }

  /** The pool is stopped or being stopped, with nothing to do and no retry to come. */
  ghost predicate Resting(s: Sys)
  {
    && SysInv(s) && !s.closed && NobodyWaits(s.m) && s.m.adminPending == NONE && !Retries(s.m.cfg)
    && (s.m.state == Idle || (s.m.state == Swapping && s.m.target == NONE))
  }

  lemma RestingReport(s: Sys, op: nat)
    requires Resting(s) && Enabled(s, Report(op))
    ensures var t := Apply(s, Report(op)); t.m.adminPending == NONE && NobodyWaits(t.m) && t.m.cfg == s.m.cfg
    ensures var t := Apply(s, Report(op)); t.m.state == Idle || (t.m.state == Swapping && t.m.target == NONE)
  {
    if op != s.m.crew.opSeq {
      StaleReportIsIgnored(s, op);
    } else {
      JobAt(s.m, op);
      BookIs(s, Report(op));
      var y, done := ReportLands(s, op);
      ChainBook(y, done, s.now);
      StopChain(y, s.now);
    }
  }

  lemma RestingTick(s: Sys, k: Tick)
    requires Resting(s) && Enabled(s, Fire(k))
    ensures Apply(s, Fire(k)).m == TakeTick(s.m, k)
  {
  }

  lemma {:induction false} RestingStays(s: Sys, run: seq<Event>)
    requires Resting(s) && Grounded(s.m) && forall e :: e in run ==> Quiet(e)
    ensures Resting(Exec(s, run))
    decreases |run|
  {
    if run != [] {
      RestingStep(s, run[0]);
      ApplyGrounded(s, run[0]);
      RestingStays(Apply(s, run[0]), run[1..]);
    }
  }

  lemma RestingStep(s: Sys, e: Event)
    requires Resting(s) && Grounded(s.m) && Quiet(e)
    ensures Resting(Apply(s, e))
  {
    ApplySys(s, e);
    if Enabled(s, e) {
      match e
      case Report(op) => RestingReport(s, op);
      case Fire(k) => RestingTick(s, k);
      case Cancel(service, reply) =>
      case _ =>
    }
  }

  // --- the run that brings the default back ---

  lemma WaitOut(s: Sys, k: Tick) returns (run: seq<Event>, t: Sys)
    requires SysInv(s) && !s.closed && s.m.state == Idle && CooldownTick(s, k) && k.due == s.now + s.m.cfg.cooldown
    ensures Leads(s, run, t) && (forall e :: e in run ==> Quiet(e))
    ensures !t.closed && t.m.state == Swapping && t.m.target == s.m.cfg.defaultSvc
  {
    var d: nat := s.m.cfg.cooldown;
    var a := LeadsBy(s, Pass(d));
    ApplySys(s, Pass(d));
    assert CooldownTick(a, k);
    RetryStartsDefault(a, k);
    t := LeadsBy(a, Fire(k));
    run := [Pass(d)] + [Fire(k)];
    LeadsOn(s, [Pass(d)], a, [Fire(k)], t);
  }

  lemma StopReportRuns(s: Sys, op: nat) returns (t: Sys)
    requires SysInv(s) && Grounded(s.m) && !s.closed && op == s.m.crew.opSeq && op in s.m.crew.jobs
    requires s.m.crew.jobs[op].pc == Done(PoolStopped, false) && NobodyWaits(s.m) && s.m.adminPending == NONE
    ensures Leads(s, [Report(op)], t) && SysInv(t) && !t.closed && t.m.cfg == s.m.cfg && t.m.state == Idle
    ensures Retries(s.m.cfg) ==> exists k :: CooldownTick(t, k) && k.due == t.now + t.m.cfg.cooldown
  {
    StopReportArms(s, op);
    t := LeadsBy(s, Report(op));
    ApplySys(s, Report(op));
  }

  lemma StopWalked(s: Sys, op: nat) returns (run: seq<Event>, t: Sys)
    requires SysInv(s) && Stopping(s, op, 0) && op == s.m.crew.opSeq && !s.m.crew.jobs[op].firstErr
    ensures Leads(s, run, t) && (forall e :: e in run ==> Quiet(e)) && SysInv(t) && Grounded(t.m) && !t.closed
    ensures t.m.cfg == s.m.cfg && t.m.book == s.m.book && t.m.adminPending == s.m.adminPending
    ensures t.m.crew.opSeq == op && op in t.m.crew.jobs && t.m.crew.jobs[op].pc == Done(PoolStopped, false)
  {
    run, t := StopWalk(s, op, 0);
    ExecSys(s, run);
  }

  lemma StopRuns(s: Sys, op: nat) returns (run: seq<Event>, t: Sys)
    requires SysInv(s) && Stopping(s, op, 0) && op == s.m.crew.opSeq && !s.m.crew.jobs[op].firstErr
    requires NobodyWaits(s.m) && s.m.adminPending == NONE
    ensures Leads(s, run, t) && (forall e :: e in run ==> Quiet(e)) && SysInv(t) && !t.closed
    ensures t.m.cfg == s.m.cfg && t.m.state == Idle
    ensures Retries(s.m.cfg) ==> exists k :: CooldownTick(t, k) && k.due == t.now + t.m.cfg.cooldown
  {
    var a, u := StopWalked(s, op);
    t := StopReportRuns(u, op);
    run := a + [Report(op)];
    LeadsOn(s, a, u, [Report(op)], t);
  }

  lemma LedToRestart(s: Sys, run: seq<Event>, t: Sys)
    requires SysInv(s) && Leads(s, run, t) && (forall e :: e in run ==> Quiet(e)) && NobodyWaits(s.m)
    requires !t.closed && t.m.state == Swapping && t.m.target != NONE
    ensures RestartsBy(s, run)
  {
    QuietKeepsEmpty(s, run);
  }

  /** Without admits nobody comes to wait. */
  lemma {:induction false} QuietKeepsEmpty(s: Sys, run: seq<Event>)
    requires Grounded(s.m) && NobodyWaits(s.m) && forall e :: e in run ==> Quiet(e)
    ensures NobodyWaits(Exec(s, run).m)
    decreases |run|
  {
    if run != [] {
      if Enabled(s, run[0]) { QuietAddsNobody(s, run[0]); }
      ApplyGrounded(s, run[0]);
      QuietKeepsEmpty(Apply(s, run[0]), run[1..]);
    }
  }

  lemma QuietAddsNobody(s: Sys, e: Event)
    requires Grounded(s.m) && NobodyWaits(s.m) && Quiet(e) && Enabled(s, e)
    ensures NobodyWaits(Apply(s, e).m)
  {
    BookIs(s, e);
  }

  lemma DefaultComesBack(s: Sys, op: nat) returns (run: seq<Event>)
    requires SysInv(s) && Stopping(s, op, 0) && op == s.m.crew.opSeq && !s.m.crew.jobs[op].firstErr
    requires NobodyWaits(s.m) && s.m.adminPending == NONE && Retries(s.m.cfg)
    ensures Grounded(s.m) && RestartsBy(s, run)
  {
    var a, t := StopRuns(s, op);
    var k :| CooldownTick(t, k) && k.due == t.now + t.m.cfg.cooldown;
    var b, u := WaitOut(t, k);
    run := a + b;
    LeadsOn(s, a, t, b, u);
    LedToRestart(s, run, u);
  }

  /** After a stop that the operator was told is under way, some run without requests, operators
      and external events, and with nobody waiting, starts a swap again if and only if the pool
      has a default service and a cooldown. */
  lemma StopSticksExactly(s: Sys, order: seq<Name>)
    requires SysInv(s) && Grounded(s.m) && Enabled(s, AdminStop(order))
    requires HandleAdminStop(s.m, order).1 == Initiated
    ensures Grounded(Apply(s, AdminStop(order)).m)
    ensures (exists run :: RestartsBy(Apply(s, AdminStop(order)), run)) <==> Retries(s.m.cfg)
  {
    var t := OperatorStops(s, order);
    ApplySys(s, AdminStop(order));
    if Retries(s.m.cfg) {
      var run := DefaultComesBack(t, t.m.crew.opSeq);
    } else {
      forall run ensures !RestartsBy(t, run) {
        if forall e :: e in run ==> Quiet(e) { RestingStays(t, run); }
      }
    }
  }
}
