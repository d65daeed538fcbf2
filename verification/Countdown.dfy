/** The idle countdown is started when a period of ACTIVE opens, or not at all in that period. If
    someone waits for another service at that moment it is not; and if they cancel while the grace
    period lasts, the service keeps the GPU for good, used or not. This happens in every pool of
    two members with a grace period and a cooldown, and in no other. */
module Countdown {
  import opened Names
  import opened State
  import opened Ledger
  import opened Worker
  import opened Manager
  import opened Invariant
  import opened System
  import opened Safety
  import opened Exclusion
  import opened Waiters
  import opened AdmitGo
  import opened Timing
  import opened Causes
  import opened Walks
  import opened Overtaking
  import opened Overlap

  // --- on for the whole period, or off for the whole period ---

  lemma TickRearms(s: Sys, t: Tick)
    requires SysInv(s) && Enabled(s, Fire(t)) && s.m.state == Active && CooldownTick(s, t)
    requires Apply(s, Fire(t)).m.state == Active
    ensures s.m.timers.armed && Apply(s, Fire(t)).m.timers.armed && Apply(s, Fire(t)).m.active == s.m.active
  {
    assert s.m.timers.armed;
  }

  lemma SamePeriodOn(s: Sys, e: Event)
    requires SysInv(s) && Enabled(s, e) && ActiveOn(s, s.m.active) && !Apply(s, e).closed
    requires Apply(s, e).m.state == Active
    ensures Apply(s, e).m.period == s.m.period && Apply(s, e).m.active == s.m.active
  {
    match e
    case Report(op) => StaleReportIsIgnored(s, op);
    case Admit(service, reply) => AdmitSamePeriod(s.m, service, reply, s.now);
    case Fire(t) => TickSamePeriod(TakeTick(s.m, t), t, s.now);
    case Notice(container, action) => NoticeSamePeriod(s.m, container, action);
    case _ =>
  }

  lemma AdmitSamePeriod(m: Mgr, service: Name, reply: nat, now: int)
    requires Typed(m) && m.state == Active && HandleAdmit(m, service, reply, now).state == Active
    ensures var r := HandleAdmit(m, service, reply, now); r.period == m.period && r.active == m.active
  {
  }

  lemma TickSamePeriod(m: Mgr, t: Tick, now: int)
    requires Typed(m) && m.state == Active && HandleTick(m, t, now).state == Active
    ensures HandleTick(m, t, now).period == m.period && HandleTick(m, t, now).active == m.active
  {
  }

  lemma NoticeSamePeriod(m: Mgr, container: Name, action: Action)
    requires Typed(m) && m.state == Active && HandleExternalEvent(m, container, action).state == Active
    ensures var r := HandleExternalEvent(m, container, action); r.period == m.period && r.active == m.active
  {
  }

  /** As long as ACTIVE lasts no step switches the countdown on or off. */
  lemma ArmedStays(s: Sys, e: Event)
    requires SysInv(s) && Grounded(s.m) && ActiveOn(s, s.m.active)
    requires !Apply(s, e).closed && Apply(s, e).m.state == Active
    ensures Apply(s, e).m.timers.armed == s.m.timers.armed && Apply(s, e).m.active == s.m.active
  {
    if Enabled(s, e) {
      ApplySys(s, e);
      SamePeriodOn(s, e);
      if Touches(s, e) { TouchCools(s, e); }
      else if e.Fire? && CooldownTick(s, e.tick) { TickRearms(s, e.tick); }
      else if !e.Pass? { OthersCool(s, e); }
    }
  }

  ghost predicate ActiveThroughout(s: Sys, run: seq<Event>)
    requires Grounded(s.m)
    decreases |run|
  {
    ActiveOn(s, s.m.active) && (run == [] || (ApplyGrounded(s, run[0]); ActiveThroughout(Apply(s, run[0]), run[1..])))
  }

  lemma {:induction false} ArmedThroughout(s: Sys, run: seq<Event>)
    requires SysInv(s) && Grounded(s.m) && ActiveThroughout(s, run)
    ensures Exec(s, run).m.timers.armed == s.m.timers.armed
    decreases |run|
  {
    if run != [] {
      ApplySys(s, run[0]);
      ArmedStays(s, run[0]);
      ArmedThroughout(Apply(s, run[0]), run[1..]);
    }
  }

  /** The countdown is on at any moment of a period if and only if the service may be cooled down
      and nobody waited for another one when the period opened. */
  lemma CountdownIsOnExactly(s: Sys, op: nat, run: seq<Event>)
    requires SysInv(s) && Enabled(s, Report(op)) && op == s.m.crew.opSeq
    requires Grounded(Apply(s, Report(op)).m) && ActiveThroughout(Apply(s, Report(op)), run)
    ensures var t := Apply(s, Report(op));
      Exec(t, run).m.timers.armed <==> Cools(t.m) && !QueueNonempty(t.m)
  {
    ApplySys(s, Report(op));
    ActivationStartsCooling(s, op);
    ArmedThroughout(Apply(s, Report(op)), run);
  }

  // --- lost for good ---

  /** The service may be cooled down, and nobody waits, but nothing counts down. */
  ghost predicate Lost(s: Sys)
  {
    !s.closed && s.m.state == Active && Cools(s.m) && NobodyWaits(s.m) && !s.m.timers.armed
  }

  /** Another service is asked for, the operator steps in, the container goes away, or the pool closes. */
  ghost predicate Intervenes(s: Sys, e: Event)
  {
    match e
    case Admit(service, _) => service in s.m.cfg.members && service != s.m.active
    case AdminSwap(service) => service in s.m.cfg.members && service != s.m.active
    case AdminStop(_) => true
    case Notice(container, action) => !action.ActStart? && OwnsContainer(s.m.cfg, container, s.m.active)
    case Close(_) => true
    case _ => false
  }

  lemma LostTick(s: Sys, t: Tick)
    requires SysInv(s) && Lost(s) && Enabled(s, Fire(t))
    ensures Apply(s, Fire(t)).m == TakeTick(s.m, t)
  {
    NoOneWaits(TakeTick(s.m, t));
    assert !CooldownTick(s, t);
  }

  lemma LostNotice(s: Sys, container: Name, action: Action)
    requires SysInv(s) && Lost(s) && !Intervenes(s, Notice(container, action))
    ensures HandleExternalEvent(s.m, container, action).state == Active
    ensures HandleExternalEvent(s.m, container, action).book == s.m.book
  {
  }

  lemma StillActive(s: Sys, e: Event)
    requires SysInv(s) && Grounded(s.m) && Lost(s) && !Intervenes(s, e)
    ensures Apply(s, e).m.state == Active && !Apply(s, e).closed && NobodyWaits(Apply(s, e).m)
  {
    if Enabled(s, e) {
      BookIs(s, e);
      match e
      case Fire(t) => LostTick(s, t);
      case Report(op) => StaleReportIsIgnored(s, op);
      case Notice(container, action) => LostNotice(s, container, action);
      case _ =>
    }
  }

  lemma StaysLost(s: Sys, e: Event)
    requires SysInv(s) && Grounded(s.m) && Lost(s) && !Intervenes(s, e)
    ensures Lost(Apply(s, e)) && Apply(s, e).m.active == s.m.active
  {
    StillActive(s, e);
    ArmedStays(s, e);
    ApplyGrounded(s, e);
  }

  ghost predicate LeftAlone(s: Sys, run: seq<Event>)
    requires Grounded(s.m)
    decreases |run|
  {
    run == [] || (!Intervenes(s, run[0]) && (ApplyGrounded(s, run[0]); LeftAlone(Apply(s, run[0]), run[1..])))
  }

  lemma {:induction false} LostThroughout(s: Sys, run: seq<Event>)
    requires SysInv(s) && Grounded(s.m) && Lost(s) && LeftAlone(s, run)
    ensures Lost(Exec(s, run)) && Exec(s, run).m.active == s.m.active
    decreases |run|
  {
    if run != [] {
      ApplySys(s, run[0]);
      StaysLost(s, run[0]);
      LostThroughout(Apply(s, run[0]), run[1..]);
    }
  }

  /** However long the service is left alone, its traffic and all ticks and workers included, it
      stays ACTIVE, with nobody waiting and nothing counting down. */
  ghost predicate LostForGood(s: Sys)
    requires Grounded(s.m)
  {
    Lost(s) && forall run :: LeftAlone(s, run) ==> Lost(Exec(s, run)) && Exec(s, run).m.active == s.m.active
  }

  ghost predicate LosesBy(c: Config, run: seq<Event>)
    requires CfgOk(c)
  {
    BootGrounded(c, {}, {});
    LostForGood(Exec(Boot(c, {}, {}), run))
  }

  // --- a pool that can: two members, a grace period and a cooldown ---

  /** During the first swap someone asks for another service. */
  lemma AskedMeanwhile(s: Sys, b: Name) returns (t: Sys)
    requires Grounded(s.m) && CfgOk(s.m.cfg) && !s.closed && s.m.state == Swapping && b in s.m.cfg.members
    requires s.m.book.queues[b] == [] && 2 !in s.m.book.asked
    ensures Leads(s, [Admit(b, 2)], t) && Grounded(t.m) && t == s.(m := s.m.(book := t.m.book))
    ensures t.m.book == Enqueue(s.m.book, b, 2, s.m.cfg.members[b].maxQueue)
    ensures |t.m.book.queues[b]| == 1 && t.m.book.queues[b][0].reply == 2 && t.m.book.asked == s.m.book.asked[2 := b]
    ensures forall n :: n in t.m.book.queues && n != b ==> t.m.book.queues[n] == s.m.book.queues[n]
  {
    t := LeadsBy(s, Admit(b, 2));
  }

  /** Request 2, for b, is the only one that does not wait for a. */
  ghost predicate OnlyOther(m: Mgr, a: Name, b: Name)
  {
    && b in m.book.queues && b != a && |m.book.queues[b]| == 1 && m.book.queues[b][0].reply == 2
    && (forall n :: n in m.book.queues && n != a && n != b ==> m.book.queues[n] == [])
    && 2 in m.book.asked && m.book.asked[2] == b
  }

  lemma TargetFlushed(s: Sys, op: nat, b: Name)
    requires Grounded(s.m) && Enabled(s, Report(op)) && op == s.m.crew.opSeq
    requires s.m.crew.jobs[op].pc == Done(SwapComplete, false) && s.m.crew.jobs[op].target in s.m.book.queues
    requires OnlyOther(s.m, s.m.crew.jobs[op].target, b)
    ensures OnlyOther(Apply(s, Report(op)).m, s.m.crew.jobs[op].target, b)
    ensures forall n :: n in s.m.book.queues && n != b ==>
      n in Apply(s, Report(op)).m.book.queues && Apply(s, Report(op)).m.book.queues[n] == []
  {
    BookIs(s, Report(op));
  }

  lemma OpensInGrace(s: Sys, op: nat, b: Name)
    requires Grounded(s.m) && Enabled(s, Report(op)) && op == s.m.crew.opSeq && s.m.adminPending == NONE
    requires s.m.crew.jobs[op].pc.kind == SwapComplete && s.m.cfg.grace > 0
    requires Waiting(Apply(s, Report(op)).m.book.queues, b)
    ensures Apply(s, Report(op)).m.state == Active && Apply(s, Report(op)).m.active == s.m.crew.jobs[op].target
  {
    var y, done := ReportLands(s, op);
    ChainBook(y, done, s.now);
    WaitsInGrace(y, b, s.now);
  }

  /** The swap is over; the other request still waits, for the grace period. */
  lemma OpensWaited(s: Sys, op: nat, b: Name) returns (t: Sys)
    requires SysInv(s) && Grounded(s.m) && !s.closed && op == s.m.crew.opSeq
    requires s.m.adminPending == NONE && s.m.cfg.grace > 0
    requires op in s.m.crew.jobs && s.m.crew.jobs[op].pc == Done(SwapComplete, false)
    requires OnlyOther(s.m, s.m.crew.jobs[op].target, b) && s.m.crew.jobs[op].target in s.m.book.queues
    ensures Grounded(t.m) && SysInv(t) && Leads(s, [Report(op)], t) && !t.closed && t.m.cfg == s.m.cfg
    ensures t.m.state == Active && t.m.active == s.m.crew.jobs[op].target && !t.m.timers.armed
    ensures OnlyOther(t.m, t.m.active, b) && t.m.active in t.m.book.queues && t.m.book.queues[t.m.active] == []
  {
    t := LeadsBy(s, Report(op));
    ApplySys(s, Report(op));
    ApplyGrounded(s, Report(op));
    TargetFlushed(s, op, b);
    assert b != NONE by { NamedMember(s.m, b); }
    OpensInGrace(s, op, b);
    ActivationStartsCooling(s, op);
    assert QueueNonempty(t.m);
  }

  lemma NamedMember(m: Mgr, b: Name)
    requires Grounded(m) && NoEmptyName(m.cfg) && b in m.book.queues
    ensures b != NONE
  {
  }

  lemma WaitsInGrace(y: Mgr, b: Name, now: int)
    requires Typed(y) && y.state == Active && y.adminPending == NONE && y.cfg.grace > 0 && Waiting(y.book.queues, b)
    ensures ChainAfterTerminal(y, true, now).state == Active && ChainAfterTerminal(y, true, now).active == y.active
  {
  }

  /** It is withdrawn. */
  lemma Withdrawn(s: Sys, b: Name) returns (t: Sys)
    requires SysInv(s) && Grounded(s.m) && !s.closed && s.m.state == Active && !s.m.timers.armed && Cools(s.m)
    requires OnlyOther(s.m, s.m.active, b) && s.m.book.queues[s.m.active] == []
    ensures Leads(s, [Cancel(b, 2)], t) && Lost(t)
  {
    t := LeadsBy(s, Cancel(b, 2));
    BookIs(s, Cancel(b, 2));
  }

  /** A swap to a comes to its end while someone waits for b. */
  lemma SwapsWhileAsked(c: Config, a: Name, b: Name) returns (run: seq<Event>, s: Sys)
    requires CfgOk(c) && a in c.members && b in c.members && a != b && Grounded(Boot(c, {}, {}).m)
    ensures Leads(Boot(c, {}, {}), run, s) && Grounded(s.m) && !s.closed && s.m.cfg == c
    ensures s.m.crew.opSeq == 1 && s.m.adminPending == NONE && OnlyOther(s.m, a, b)
    ensures 1 in s.m.crew.jobs && s.m.crew.jobs[1].target == a && s.m.crew.jobs[1].pc == Done(SwapComplete, false)
  {
    var s0 := Boot(c, {}, {});
    var s1 := FirstSwap(c, a);
    var s2 := AskedMeanwhile(s1, b);
    LeadsOn(s0, [Admit(a, 1)], s1, [Admit(b, 2)], s2);
    var r3, s3 := ReachStart(s2, 1);
    LeadsOn(s0, [Admit(a, 1)] + [Admit(b, 2)], s2, r3, s3);
    var r4;
    r4, s := FinishSwap(s3, 1);
    run := [Admit(a, 1)] + [Admit(b, 2)] + r3 + r4;
    LeadsOn(s0, [Admit(a, 1)] + [Admit(b, 2)] + r3, s3, r4, s);
  }

  lemma TwoLose(c: Config, a: Name, b: Name) returns (run: seq<Event>)
    requires CfgOk(c) && a in c.members && b in c.members && a != b && c.grace > 0 && c.cooldown > 0
    requires a != c.defaultSvc
    ensures LosesBy(c, run)
  {
    BootGrounded(c, {}, {});
    var s0 := Boot(c, {}, {});
    var r1, s1 := SwapsWhileAsked(c, a, b);
    SysAfter(c, r1, s1);
    var s2 := OpensWaited(s1, 1, b);
    LeadsOn(s0, r1, s1, [Report(1)], s2);
    var s3 := Withdrawn(s2, b);
    run := r1 + [Report(1)] + [Cancel(b, 2)];
    LeadsOn(s0, r1 + [Report(1)], s2, [Cancel(b, 2)], s3);
    SysAfter(c, run, s3);
    LostMeansForGood(s3);
  }

  lemma LostMeansForGood(s: Sys)
    requires SysInv(s) && Grounded(s.m) && Lost(s)
    ensures LostForGood(s)
  {
    forall run | LeftAlone(s, run) ensures Lost(Exec(s, run)) && Exec(s, run).m.active == s.m.active {
      LostThroughout(s, run);
    }
  }

  // --- a pool that cannot ---

  /** A service that may be cooled down has its countdown on. */
  ghost predicate Wound(s: Sys)
  {
    !s.closed && s.m.state == Active && Cools(s.m) ==> s.m.timers.armed
  }

  /** Without a grace period, or without a second member, nobody waits while the pool is ACTIVE. */
  lemma NoneElsewhere(s: Sys)
    requires SysInv(s) && Prompt(s) && !s.closed && s.m.state == Active
    requires |s.m.cfg.members| <= 1 || s.m.cfg.grace == 0
    ensures NobodyWaits(s.m)
  {
    if s.m.cfg.grace != 0 {
      forall n | n in s.m.book.queues ensures s.m.book.queues[n] == [] {
        if n != s.m.active { SubsetSize({n, s.m.active}, s.m.cfg.members.Keys); }
      }
    }
  }

  lemma StepWound(s: Sys, e: Event)
    requires SysInv(s) && Grounded(s.m) && Prompt(s) && Wound(s) && (|s.m.cfg.members| <= 1 || s.m.cfg.grace == 0)
    ensures Wound(Apply(s, e))
  {
    var t := Apply(s, e);
    if Enabled(s, e) && !t.closed && t.m.state == Active {
      ApplySys(s, e);
      ApplyGrounded(s, e);
      if e.Report? && e.op == s.m.crew.opSeq {
        StepPrompt(s, e);
        NoneElsewhere(t);
        ActivationStartsCooling(s, e.op);
      } else {
        if e.Report? { StaleReportIsIgnored(s, e.op); } else { NothingElseOpens(s, e, t.m.active); }
        ArmedStays(s, e);
      }
    }
  }

  lemma {:induction false} RunWound(s: Sys, run: seq<Event>)
    requires SysInv(s) && Grounded(s.m) && Prompt(s) && Wound(s) && (|s.m.cfg.members| <= 1 || s.m.cfg.grace == 0)
    ensures Wound(Exec(s, run))
    decreases |run|
  {
    if run != [] {
      ApplySys(s, run[0]);
      ApplyGrounded(s, run[0]);
      StepPrompt(s, run[0]);
      StepWound(s, run[0]);
      RunWound(Apply(s, run[0]), run[1..]);
    }
  }

  lemma NeverLoses(c: Config, run: seq<Event>)
    requires CfgOk(c) && !(|c.members| >= 2 && c.grace > 0 && c.cooldown > 0)
    ensures !LosesBy(c, run)
  {
    BootSys(c, {}, {});
    BootGrounded(c, {}, {});
    if c.cooldown > 0 { RunWound(Boot(c, {}, {}), run); }
  }

  lemma OtherThanDefault(c: Config) returns (a: Name, b: Name)
    requires CfgOk(c) && |c.members| >= 2
    ensures a in c.members && b in c.members && a != b && a != c.defaultSvc
  {
    var x, y := TwoMembers(c.members.Keys);
    if x != c.defaultSvc { a, b := x, y; } else { a, b := y, x; }
  }

  /** In some run the pool is left ACTIVE for good with its countdown lost if and only if it has two
      members, a grace period and a cooldown. */
  lemma CountdownIsLostExactly(c: Config)
    requires CfgOk(c)
    ensures (exists run :: LosesBy(c, run)) <==> |c.members| >= 2 && c.grace > 0 && c.cooldown > 0
  {
    if |c.members| >= 2 && c.grace > 0 && c.cooldown > 0 {
      var a, b := OtherThanDefault(c);
      var run := TwoLose(c, a, b);
    } else {
      forall run ensures !LosesBy(c, run) { NeverLoses(c, run); }
    }
  }
}
