/** Why and when an ACTIVE service is swapped out: the grace period, and the lazy cooldown
    as a refinement of a timer reset on every touch. */
module Timing {
  import opened Names
  import opened State
  import opened Worker
  import opened Manager
  import opened Invariant
  import opened System
  import opened Safety
  import opened Waiters
  import opened AdmitGo
  import opened Course

  // --- why ACTIVE is left ---

  ghost predicate Reason(s: Sys, e: Event)
    requires Grounded(s.m)
  {
    match e
    // traffic, once the grace period is over and someone waits for another service
    case Admit(service, _) =>
      service in s.m.cfg.members && service != s.m.active && s.now - s.m.startedAt >= s.m.cfg.grace
      && Apply(s, e).m.book.queues[service] != []
    case Fire(t) =>
      Current(s.m.timers, t) &&
      (if t.kind == Grace then
         s.now - s.m.startedAt >= s.m.cfg.grace && QueueNonempty(s.m)
       else
         // idleness, for the whole cooldown and with nobody waiting
         s.now - s.m.lastActivity >= s.m.cfg.cooldown > 0 && !QueueNonempty(s.m) && s.m.active != s.m.cfg.defaultSvc)
    // the operator, the container's death, or the end
    case AdminSwap(service) => service in s.m.cfg.members && service != s.m.active
    case AdminStop(_) => true
    case Notice(container, action) =>
      !action.ActStart? && s.m.active in s.m.cfg.members && container == s.m.cfg.members[s.m.active].containerName
    case Close(_) => true
    case _ => false
  }

  lemma AdmitReason(s: Sys, service: Name, reply: nat)
    requires SysInv(s) && Enabled(s, Admit(service, reply)) && ActiveOn(s, s.m.active)
    requires !ActiveOn(Apply(s, Admit(service, reply)), s.m.active)
    ensures Reason(s, Admit(service, reply))
  {
    BookIs(s, Admit(service, reply));
  }

  lemma FireReason(s: Sys, t: Tick)
    requires SysInv(s) && Enabled(s, Fire(t)) && ActiveOn(s, s.m.active)
    requires !ActiveOn(Apply(s, Fire(t)), s.m.active)
    ensures Reason(s, Fire(t))
  {
    assert Current(s.m.timers, t);
    var k := TakeTick(s.m, t);
    NoOneWaits(k);
    if t.kind == Cooldown { assert s.m.timers.armed; }
  }

  lemma NoticeReason(s: Sys, container: Name, action: Action)
    requires SysInv(s) && Enabled(s, Notice(container, action)) && ActiveOn(s, s.m.active)
    requires !ActiveOn(Apply(s, Notice(container, action)), s.m.active)
    ensures Reason(s, Notice(container, action))
  {
  }

  lemma StaleReport(s: Sys, op: nat)
    requires SysInv(s) && Enabled(s, Report(op)) && ActiveOn(s, s.m.active)
    ensures ActiveOn(Apply(s, Report(op)), s.m.active)
  {
    StaleReportIsIgnored(s, op);
  }

  /** An ACTIVE service is swapped out only with at least `grace` elapsed since it started and a
      waiter queued elsewhere, or with at least `cooldown` since the last activity and all queues
      empty, or by an admin command, an external stop of its container, or Close. */
  lemma WhyActiveIsLeft(s: Sys, e: Event)
    requires SysInv(s) && Enabled(s, e) && ActiveOn(s, s.m.active) && !ActiveOn(Apply(s, e), s.m.active)
    ensures Reason(s, e)
  {
    match e
    case Admit(service, reply) => AdmitReason(s, service, reply);
    case Fire(t) => FireReason(s, t);
    case Notice(container, action) => NoticeReason(s, container, action);
    case Report(op) => StaleReport(s, op);
    case AdminSwap(_) =>
    case AdminStop(_) =>
    case Close(_) =>
    case _ =>
  }

  // --- the lazy cooldown ---

  /** Traffic for the active service. */
  ghost predicate Touches(s: Sys, e: Event)
  {
    s.m.state == Active &&
    ((e.Ping? && e.service == s.m.active) ||
     (e.Admit? && e.service == s.m.active && e.service in s.m.cfg.members && e.reply !in s.m.book.asked))
  }

  /** The eager timer the lazy tick stands for: it is wound up to `cooldown` at every touch and
      runs down as time passes. `left` is what remains of it. */
  ghost function Eager(s: Sys, e: Event, left: int): int
  {
    if Touches(s, e) then s.m.cfg.cooldown
    else if e.Pass? then left - e.d
    else left
  }

  ghost predicate CooldownTick(s: Sys, t: Tick)
  {
    Current(s.m.timers, t) && t.kind == Cooldown
  }

  /** The pool is cooling: its tick comes no later than the eager timer runs out. */
  ghost predicate Cooling(s: Sys, left: int)
  {
    && SysInv(s) && !s.closed && s.m.state == Active
    && left == s.m.lastActivity + s.m.cfg.cooldown - s.now && left <= s.m.cfg.cooldown
    && (exists t :: CooldownTick(s, t))
    && forall t :: CooldownTick(s, t) ==> s.now <= t.due <= s.now + left
  }

  /** The period goes on, ticks are delivered when due, and a cooldown tick finds nobody waiting. */
  ghost predicate Punctual(s: Sys, e: Event)
    requires Grounded(s.m)
  {
    && Enabled(s, e) && Apply(s, e).m.state == Active && Apply(s, e).m.period == s.m.period && !e.Close?
    && (e.Pass? ==> forall t :: CooldownTick(s, t) ==> s.now + e.d <= t.due)
    && (e.Fire? && CooldownTick(s, e.tick) ==> !QueueNonempty(s.m))
  }

  /** The step leaves the cooldown alone. */
  ghost predicate SameCooldown(m: Mgr, r: Mgr)
  {
    && r.cfg == m.cfg && r.lastActivity == m.lastActivity
    && forall t: Tick :: t.kind == Cooldown ==> (Current(r.timers, t) <==> Current(m.timers, t))
  }

  lemma StartsNewPeriod(m: Mgr, target: Name)
    requires target in m.cfg.members
    ensures StartSwap(m, target).period == m.period + 1 && StartStopAll(m).period == m.period + 1
  {
  }

  lemma AdmitCools(m: Mgr, service: Name, reply: nat, now: int)
    requires Inv(m) && m.state == Active && service != m.active
    requires HandleAdmit(m, service, reply, now).period == m.period
    ensures SameCooldown(m, HandleAdmit(m, service, reply, now))
  {
    ArmsOne(m.timers, Grace, now + (m.cfg.grace - (now - m.startedAt)), m.period);
  }

  lemma OtherTickCools(m: Mgr, t: Tick, now: int)
    requires Inv(m) && m.state == Active && t in m.timers.ticks && !(Current(m.timers, t) && t.kind == Cooldown)
    requires HandleTick(TakeTick(m, t), t, now).period == m.period
    ensures SameCooldown(m, HandleTick(TakeTick(m, t), t, now))
  {
    TakeTimers(m.timers, t);
  }

  lemma StaleReportCools(s: Sys, op: nat)
    requires SysInv(s) && Enabled(s, Report(op)) && s.m.state == Active
    ensures SameCooldown(s.m, Apply(s, Report(op)).m)
  {
    StaleReportIsIgnored(s, op);
  }

  lemma EventCools(m: Mgr, container: Name, action: Action)
    requires Inv(m) && m.state == Active && HandleExternalEvent(m, container, action).period == m.period
    ensures SameCooldown(m, HandleExternalEvent(m, container, action))
  {
  }

  lemma OthersCool(s: Sys, e: Event)
    requires SysInv(s) && s.m.state == Active && Punctual(s, e)
    requires !Touches(s, e) && !e.Pass? && !(e.Fire? && CooldownTick(s, e.tick))
    ensures SameCooldown(s.m, Apply(s, e).m) && Apply(s, e).now == s.now
  {
    match e
    case Admit(service, reply) => AdmitCools(s.m, service, reply, s.now);
    case Fire(t) => OtherTickCools(s.m, t, s.now);
    case Report(op) => StaleReportCools(s, op);
    case Notice(container, action) => EventCools(s.m, container, action);
    case AdminSwap(service) => if service in s.m.cfg.members { StartsNewPeriod(s.m, service); }
    case AdminStop(order) => CoversQueues(s.m, order);
    case _ =>
  }

  lemma TouchCools(s: Sys, e: Event)
    requires SysInv(s) && Enabled(s, e) && Touches(s, e)
    ensures var t := Apply(s, e);
      t.m.lastActivity == s.now == t.now && t.m.timers == s.m.timers && t.m.state == Active && t.m.cfg == s.m.cfg
  {
  }

  /** The tick fires with nobody waiting. If the eager timer has run out the pool acts, now: it swaps
      to the default service, or stops if there is none. If it has not, the tick is re-armed for
      exactly what is left of it, which is positive. */
  lemma TickActsWithEager(s: Sys, t: Tick, left: int)
    requires Cooling(s, left) && CooldownTick(s, t) && Enabled(s, Fire(t)) && !QueueNonempty(s.m)
    ensures left == 0 ==>
      Begins(s, Fire(t), if s.m.cfg.defaultSvc != NONE then Some(s.m.cfg.defaultSvc) else None)
    ensures left != 0 ==>
      && left > 0 && Apply(s, Fire(t)).m.state == Active && Apply(s, Fire(t)).m.lastActivity == s.m.lastActivity
      && forall u :: CooldownTick(Apply(s, Fire(t)), u) <==>
           u == Tick(Cooldown, s.m.timers.cooldown + 1, s.now + left, s.m.period)
  {
    var k := TakeTick(s.m, t);
    NoOneWaits(k);
    assert s.m.timers.armed;
    if left == 0 {
      BeginsExactly(s, Fire(t), if s.m.cfg.defaultSvc != NONE then Some(s.m.cfg.defaultSvc) else None);
    } else {
      assert HandleTick(k, t, s.now) == ArmTimer(k, Cooldown, left, s.now);
      Rewound(s, t, left);
    }
  }

  lemma Rewound(s: Sys, t: Tick, left: int)
    requires SysInv(s) && !s.closed && CooldownTick(s, t)
    ensures var r := ArmTimer(TakeTick(s.m, t), Cooldown, left, s.now);
      forall u: Tick :: u.kind == Cooldown ==>
        (Current(r.timers, u) <==> u == Tick(Cooldown, s.m.timers.cooldown + 1, s.now + left, s.m.period))
  {
    var k := TakeTick(s.m, t);
    TakeTimers(s.m.timers, t);
    ArmsOne(k.timers, Cooldown, s.now + left, s.m.period);
  }

  /** When the eager timer has run out the tick is due, and no more time passes before it fires. */
  lemma ExpiryIsDue(s: Sys, t: Tick, d: nat)
    requires Cooling(s, 0) && CooldownTick(s, t)
    ensures t.due == s.now && Enabled(s, Fire(t))
    ensures Punctual(s, Pass(d)) ==> d == 0
  {
  }

  lemma TickStep(s: Sys, t: Tick, left: int)
    requires Cooling(s, left) && Punctual(s, Fire(t)) && CooldownTick(s, t) && SysInv(Apply(s, Fire(t)))
    ensures Cooling(Apply(s, Fire(t)), left)
  {
    TickActsWithEager(s, t, left);
    assert CooldownTick(Apply(s, Fire(t)), Tick(Cooldown, s.m.timers.cooldown + 1, s.now + left, s.m.period));
  }

  lemma TouchStep(s: Sys, e: Event, left: int)
    requires Cooling(s, left) && Punctual(s, e) && Touches(s, e) && SysInv(Apply(s, e))
    ensures Cooling(Apply(s, e), s.m.cfg.cooldown)
  {
    TouchCools(s, e);
    var c :| CooldownTick(s, c);
    assert CooldownTick(Apply(s, e), c);
  }

  lemma PassStep(s: Sys, d: nat, left: int)
    requires Cooling(s, left) && Punctual(s, Pass(d)) && SysInv(Apply(s, Pass(d)))
    ensures Cooling(Apply(s, Pass(d)), left - d)
  {
    var c :| CooldownTick(s, c);
    assert CooldownTick(Apply(s, Pass(d)), c);
  }

  lemma OtherStep(s: Sys, e: Event, left: int)
    requires Cooling(s, left) && Punctual(s, e) && SysInv(Apply(s, e))
    requires !Touches(s, e) && !e.Pass? && !(e.Fire? && CooldownTick(s, e.tick))
    ensures Cooling(Apply(s, e), left)
  {
    OthersCool(s, e);
    var t := Apply(s, e);
    CoolsOn(s, t, left);
  }

  lemma CoolsOn(s: Sys, t: Sys, left: int)
    requires Cooling(s, left) && SysInv(t) && !t.closed && t.m.state == Active && t.now == s.now
    requires SameCooldown(s.m, t.m)
    ensures Cooling(t, left)
  {
    var c :| CooldownTick(s, c);
    assert CooldownTick(t, c);
    forall u | CooldownTick(t, u) ensures t.now <= u.due <= t.now + left { assert CooldownTick(s, u); }
  }

  lemma CoolingStep(s: Sys, e: Event, left: int)
    requires Cooling(s, left) && Punctual(s, e)
    ensures Cooling(Apply(s, e), Eager(s, e, left))
  {
    ApplySys(s, e);
    if Touches(s, e) { TouchStep(s, e, left); }
    else if e.Pass? { PassStep(s, e.d, left); }
    else if e.Fire? && CooldownTick(s, e.tick) { TickStep(s, e.tick, left); }
    else { OtherStep(s, e, left); }
  }

  ghost predicate PunctualRun(s: Sys, run: seq<Event>)
    requires Grounded(s.m)
    decreases |run|
  {
    run == [] || (Punctual(s, run[0]) && (ApplyGrounded(s, run[0]); PunctualRun(Apply(s, run[0]), run[1..])))
  }

  ghost function EagerAfter(s: Sys, run: seq<Event>, left: int): int
    requires Grounded(s.m)
    decreases |run|
  {
    if run == [] then left
    else ApplyGrounded(s, run[0]); EagerAfter(Apply(s, run[0]), run[1..], Eager(s, run[0], left))
  }

  /** The lazy cooldown refines the eager one: through a whole ACTIVE period in which the countdown
      is on (Countdown.CountdownIsOnExactly says which these are), whatever traffic comes and
      however often the tick re-arms itself, the tick never comes after the eager timer runs out
      (so time cannot pass that instant unnoticed), and by TickActsWithEager the pool acts at a tick
      exactly when the eager timer has run out. */
  lemma {:induction false} LazyRefinesEager(s: Sys, run: seq<Event>, left: int)
    requires Cooling(s, left) && PunctualRun(s, run)
    ensures Cooling(Exec(s, run), EagerAfter(s, run, left))
    ensures EagerAfter(s, run, left) >= 0
    decreases |run|
  {
    if run != [] {
      CoolingStep(s, run[0], left);
      LazyRefinesEager(Apply(s, run[0]), run[1..], Eager(s, run[0], left));
    } else {
      var t :| CooldownTick(s, t);
    }
  }

  /** Where the report that opens a period leaves the manager before it chains. */
  lemma OpeningLands(s: Sys, op: nat) returns (y: Mgr)
    requires SysInv(s) && Enabled(s, Report(op)) && op == s.m.crew.opSeq && Apply(s, Report(op)).m.state == Active
    ensures Typed(y) && y.state == Active && !y.timers.armed && TimersOk(y.timers) && y.cfg == s.m.cfg
    ensures Apply(s, Report(op)).m == ChainAfterTerminal(y, true, s.now)
  {
    JobAt(s.m, op);
    var w := s.m.crew.jobs[op];
    var r := ReleaseWorker(TakeJob(s.m, op));
    y := Land(r, Msg(w), s.now);
    LandFacts(r, Msg(w), s.now);
    ChainStays(y, w.pc.kind == SwapComplete, s.now);
  }

  lemma ChainStays(y: Mgr, activated: bool, now: int)
    requires Typed(y) && ChainAfterTerminal(y, activated, now).state == Active
    ensures y.state == Active
  {
  }

  /** A pool that becomes ACTIVE starts the idle countdown if and only if its service may be cooled
      down and nobody waits for another; and it starts it fully wound. */
  lemma ActivationStartsCooling(s: Sys, op: nat)
    requires SysInv(s) && Enabled(s, Report(op)) && op == s.m.crew.opSeq && Apply(s, Report(op)).m.state == Active
    ensures var t := Apply(s, Report(op));
      && (t.m.timers.armed <==> Cools(t.m) && !QueueNonempty(t.m))
      && (t.m.timers.armed ==> Cooling(t, s.m.cfg.cooldown))
  {
    ApplySys(s, Report(op));
    var y := OpeningLands(s, op);
    FreshlyWound(y, s.now);
    var t := Apply(s, Report(op));
    NoOneWaits(t.m);
    if t.m.timers.armed {
      assert CooldownTick(t, Tick(Cooldown, y.timers.cooldown + 1, s.now + s.m.cfg.cooldown, y.period));
    }
  }

  lemma FreshlyWound(y: Mgr, now: int)
    requires Typed(y) && y.state == Active && !y.timers.armed && TimersOk(y.timers)
    requires ChainAfterTerminal(y, true, now).state == Active
    ensures var x := ChainAfterTerminal(y, true, now);
      && x.cfg == y.cfg && Typed(x) && (x.timers.armed <==> Cools(x) && Oldest(x.book.queues) == NONE)
      && (x.timers.armed ==>
            && x.lastActivity == now
            && forall t: Tick :: t.kind == Cooldown ==>
                 (Current(x.timers, t) <==> t == Tick(Cooldown, y.timers.cooldown + 1, now + y.cfg.cooldown, y.period)))
  {
    ArmsOne(y.timers, Cooldown, now + y.cfg.cooldown, y.period);
    ArmsOne(y.timers, Grace, now + y.cfg.grace, y.period);
  }
}
