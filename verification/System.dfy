/** The pool together with everything it runs among: worker goroutines at any point of
    their programs, Docker, ticks, clients, operators and outsiders. A run is any
    interleaving of their steps. */
module System {
  import opened Names
  import opened State
  import opened Ledger
  import opened Worker
  import opened Manager
  import opened Invariant

  /** `running` is Docker's state for the pool's containers. `taint` is history: the
      running containers the pool cannot be blamed for, with opSeq at the time: started
      from outside, or left behind by a superseded worker whose clean-up failed. */
  datatype Docker = Docker(running: set<Name>, taint: map<Name, nat>)

  datatype Sys = Sys(m: Mgr, now: int, docker: Docker, closed: bool)

  datatype Event =
    | Admit(service: Name, reply: nat)
    | Cancel(service: Name, reply: nat)
    | AdminSwap(service: Name)
    | AdminStop(order: seq<Name>)
    | Ping(service: Name)                            // a fast-path activity ping
    | Report(op: nat)                                // the manager takes a terminal report
    | Fire(tick: Tick)                               // the manager takes a due tick
    | Notice(container: Name, action: Action)        // an event the registry let through
    | Work(op: nat, resp: Resp)                      // one step of a worker
    | Detached(container: Name, ok: bool)            // a detached stop call returns
    | OutsideStart(container: Name)
    | OutsideStop(container: Name)
    | Pass(d: nat)                                   // time passes
    | Close(order: seq<Name>)

  ghost function Containers(c: Config): set<Name>
  {
    set n | n in c.members :: c.members[n].containerName
  }

  /** A new pool, finding some containers running; `strays` are those of them it is not
      to be blamed for. */
  ghost function Boot(c: Config, running: set<Name>, strays: set<Name>): Sys
  {
    Sys(Initial(c), 0, Docker(running, map c' | c' in strays && c' in running :: 0), false)
  }

  /** A superseded worker that has started its target and not stopped it again. */
  predicate InWindow(w: Job)
  {
    w.cancelled && (w.pc.PostStart? || w.pc.CleanStop?)
  }

  function Restrict(taint: map<Name, nat>, running: set<Name>): map<Name, nat>
  {
    map c | c in taint && c in running :: taint[c]
  }

  /** The target leaves the window still running: the clean-up failed. */
  predicate Leaks(w: Job, v: Job)
  {
    InWindow(w) && !InWindow(v) && v.pc.Done?
  }

  function WorkStep(s: Sys, op: nat, r: Resp): Sys
    requires op in s.m.crew.jobs && InRange(s.m.crew.jobs[op])
  {
    var w := s.m.crew.jobs[op];
    var v := Worker.Step(w, r, s.now);
    var running := Effect(w, r, s.docker.running);
    var taint := if Leaks(w, v) && w.own in running then s.docker.taint[w.own := s.m.crew.opSeq] else s.docker.taint;
    s.(m := s.m.(crew := s.m.crew.(jobs := s.m.crew.jobs[op := v])),
       docker := Docker(running, Restrict(taint, running)))
  }

  function StopContainer(d: Docker, c: Name): Docker
  {
    Docker(d.running - {c}, d.taint - {c})
  }

  /** Someone else starts a container; a running one is not affected. */
  function StartOutside(d: Docker, c: Name, op: nat): Docker
  {
    if c in d.running then d else Docker(d.running + {c}, d.taint[c := op])
  }

  /** The lookups of every handler are defined, and every worker stands where its program can. */
  ghost predicate Grounded(m: Mgr)
  {
    Typed(m) && JobsOk(m.cfg, m.crew.jobs)
  }

  lemma JobAt(m: Mgr, op: nat)
    requires Grounded(m) && op in m.crew.jobs
    ensures JobOk(m.cfg, op, m.crew.jobs[op])
  {
  }

  /** Whether the step can be taken; a step that cannot leaves the system as it is. */
  ghost predicate Enabled(s: Sys, e: Event)
    requires Grounded(s.m)
  {
    !s.closed &&
    match e
    case Admit(_, reply) => reply !in s.m.book.asked
    case Cancel(service, reply) => reply in s.m.book.asked && s.m.book.asked[reply] == service
    case AdminStop(order) => Covers(order, s.m.cfg)
    case Report(op) => op in s.m.crew.jobs && s.m.crew.jobs[op].pc.Done?
    case Fire(tick) => tick in s.m.timers.ticks && tick.due <= s.now
    case Work(op, resp) =>
      op in s.m.crew.jobs && (JobAt(s.m, op); Fits(s.m.crew.jobs[op], resp, s.now, s.docker.running))
    case Detached(c, _) => c in s.m.stops
    case OutsideStart(c) => c in Containers(s.m.cfg)
    case Close(order) => Covers(order, s.m.cfg)
    case _ => true
  }

  ghost function Apply(s: Sys, e: Event): Sys
    requires Grounded(s.m)
  {
    if !Enabled(s, e) then s
    else
      match e
      case Admit(service, reply) => s.(m := HandleAdmit(s.m, service, reply, s.now))
      case Cancel(service, reply) => s.(m := HandleCancel(s.m, service, reply))
      case AdminSwap(service) => s.(m := HandleAdminSwap(s.m, service).0)
      case AdminStop(order) => s.(m := HandleAdminStop(s.m, order).0)
      case Ping(service) => s.(m := Touch(s.m, service, s.now))
      case Report(op) =>
        JobAt(s.m, op);
        s.(m := HandleSwap(TakeJob(s.m, op), Msg(s.m.crew.jobs[op]), s.now))
      case Fire(tick) => s.(m := HandleTick(TakeTick(s.m, tick), tick, s.now))
      case Notice(container, action) => s.(m := HandleExternalEvent(s.m, container, action))
      case Work(op, resp) => JobAt(s.m, op); WorkStep(s, op, resp)
      case Detached(c, ok) =>
        var t := s.(m := s.m.(stops := s.m.stops - multiset{c}));
        if ok then t.(docker := StopContainer(t.docker, c)) else t
      case OutsideStart(c) => s.(docker := StartOutside(s.docker, c, s.m.crew.opSeq))
      case OutsideStop(c) => s.(docker := StopContainer(s.docker, c))
      case Pass(d) => s.(now := s.now + d)
      case Close(order) => s.(m := HandleShutdown(s.m, order), closed := true)
  }

  // --- every lookup names a member, in every run and for every configuration ---

  lemma LaunchGrounded(b: Mgr, w: Job)
    requires Grounded(b) && JobOk(b.cfg, b.crew.opSeq, w)
    ensures Grounded(Launch(b, w))
  {
    var l := Launch(b, w);
    forall op | op in l.crew.jobs ensures JobOk(l.cfg, op, l.crew.jobs[op]) {
      if op != b.crew.opSeq { assert JobOk(b.cfg, op, b.crew.jobs[op]); }
    }
  }

  lemma ReleaseGrounded(c: Config, crew: Crew)
    requires JobsOk(c, crew.jobs)
    ensures JobsOk(c, Release(crew).jobs)
  {
    var r := Release(crew);
    forall op | op in r.jobs ensures JobOk(c, op, r.jobs[op]) {
      assert JobOk(c, op, crew.jobs[op]);
      CancelledTold(crew.jobs[op]);
    }
  }

  lemma StartSwapGrounded(m: Mgr, target: Name)
    requires Grounded(m) && target in m.cfg.members
    ensures Grounded(StartSwap(m, target)) && StartSwap(m, target).cfg == m.cfg
  {
    ReleaseGrounded(m.cfg, m.crew);
    var b := BeginTransition(m, target);
    SwapJobOk(b.cfg, b.crew.opSeq, target);
    LaunchGrounded(b, SwapJob(b.cfg, b.crew.opSeq, target));
  }

  lemma StartStopAllGrounded(m: Mgr)
    requires Grounded(m)
    ensures Grounded(StartStopAll(m)) && StartStopAll(m).cfg == m.cfg
  {
    ReleaseGrounded(m.cfg, m.crew);
    var b := BeginTransition(m, NONE);
    StopJobOk(b.cfg, b.crew.opSeq);
    LaunchGrounded(b, StopJob(b.cfg, b.crew.opSeq));
  }

  lemma ChainGrounded(m: Mgr, activated: bool, now: int)
    requires Grounded(m)
    ensures Grounded(ChainAfterTerminal(m, activated, now)) && ChainAfterTerminal(m, activated, now).cfg == m.cfg
  {
    var c := m.(adminPending := NONE);
    var next := Oldest(c.book.queues);
    if m.adminPending != NONE && m.adminPending != m.active { StartSwapGrounded(c, m.adminPending); }
    else if next != NONE && !(activated && c.cfg.grace > 0) { StartSwapGrounded(c, next); }
  }

  lemma AdmitGrounded(m: Mgr, service: Name, reply: nat, now: int)
    requires Grounded(m)
    ensures Grounded(HandleAdmit(m, service, reply, now)) && HandleAdmit(m, service, reply, now).cfg == m.cfg
  {
    if service in m.cfg.members {
      var e := m.(book := Enqueue(m.book, service, reply, m.cfg.members[service].maxQueue));
      StartSwapGrounded(e, service);
    }
  }

  lemma TickGrounded(m: Mgr, tick: Tick, now: int)
    requires Grounded(m)
    ensures Grounded(HandleTick(m, tick, now)) && HandleTick(m, tick, now).cfg == m.cfg
  {
    var next := Oldest(m.book.queues);
    if tick.kind == Grace {
      if next != NONE { StartSwapGrounded(m, next); }
    } else {
      CooldownGrounded(m, tick, now);
    }
  }

  lemma CooldownGrounded(m: Mgr, tick: Tick, now: int)
    requires Grounded(m) && tick.kind == Cooldown
    ensures Grounded(HandleTick(m, tick, now)) && HandleTick(m, tick, now).cfg == m.cfg
  {
    if m.cfg.defaultSvc != NONE { StartSwapGrounded(m, m.cfg.defaultSvc); }
    else { StartStopAllGrounded(m); }
  }

  lemma LandGrounded(k: Mgr, msg: SwapMsg, now: int)
    requires Grounded(k) && (!msg.kind.PoolStopped? ==> msg.target in k.cfg.members)
    ensures var y := Land(ReleaseWorker(k), msg, now); Grounded(y) && y.cfg == k.cfg
  {
    ReleaseGrounded(k.cfg, k.crew);
  }

  lemma TakenGrounded(m: Mgr, op: nat)
    requires Grounded(m)
    ensures Grounded(TakeJob(m, op))
  {
    var k := TakeJob(m, op);
    forall o | o in k.crew.jobs ensures JobOk(k.cfg, o, k.crew.jobs[o]) {
      assert JobOk(m.cfg, o, m.crew.jobs[o]);
    }
  }

  lemma ReportGrounded(m: Mgr, op: nat, now: int)
    requires Grounded(m) && op in m.crew.jobs && m.crew.jobs[op].pc.Done?
    ensures JobOk(m.cfg, op, m.crew.jobs[op])
    ensures Grounded(HandleSwap(TakeJob(m, op), Msg(m.crew.jobs[op]), now))
    ensures HandleSwap(TakeJob(m, op), Msg(m.crew.jobs[op]), now).cfg == m.cfg
  {
    JobAt(m, op);
    var w := m.crew.jobs[op];
    TakenGrounded(m, op);
    if op == m.crew.opSeq {
      LandGrounded(TakeJob(m, op), Msg(w), now);
      ChainGrounded(Land(ReleaseWorker(TakeJob(m, op)), Msg(w), now), w.pc.kind == SwapComplete, now);
    }
  }

  lemma EventGrounded(m: Mgr, container: Name, action: Action)
    requires Grounded(m)
    ensures Grounded(HandleExternalEvent(m, container, action))
    ensures HandleExternalEvent(m, container, action).cfg == m.cfg
  {
    var owner := MemberByContainer(m.cfg, container);
    if owner.Some? && !action.ActStart? && Serves(m, owner.value) {
      ReleaseGrounded(m.cfg, m.crew);
      var e := if m.state == Active then BumpEpochs(m) else SupersedeWorker(m).(target := NONE);
      var f := Publish(e.(state := Error, active := NONE));
      var g := f.(book := Flush(f.book, owner.value, DockerError));
      assert Grounded(g);
      if Oldest(g.book.queues) != NONE { StartSwapGrounded(g, Oldest(g.book.queues)); }
    }
  }

  lemma AdminGrounded(m: Mgr, service: Name)
    requires Grounded(m)
    ensures Grounded(HandleAdminSwap(m, service).0) && HandleAdminSwap(m, service).0.cfg == m.cfg
  {
    if service in m.cfg.members { StartSwapGrounded(m, service); }
  }

  lemma StopGrounded(m: Mgr, order: seq<Name>)
    requires Grounded(m) && Covers(order, m.cfg)
    ensures Grounded(HandleAdminStop(m, order).0) && HandleAdminStop(m, order).0.cfg == m.cfg
    ensures Grounded(HandleShutdown(m, order)) && HandleShutdown(m, order).cfg == m.cfg
  {
    CoversQueues(m, order);
    StartStopAllGrounded(m.(adminPending := NONE, book := FlushAll(m.book, order, Shutdown)));
  }

  lemma WorkGrounded(s: Sys, op: nat, r: Resp)
    requires Grounded(s.m) && op in s.m.crew.jobs
    ensures JobOk(s.m.cfg, op, s.m.crew.jobs[op]) && Grounded(WorkStep(s, op, r).m)
  {
    JobAt(s.m, op);
    var w := s.m.crew.jobs[op];
    StepTold(w, r, s.now);
    var t := WorkStep(s, op, r);
    forall o | o in t.m.crew.jobs ensures JobOk(t.m.cfg, o, t.m.crew.jobs[o]) {
      if o != op { assert JobOk(s.m.cfg, o, s.m.crew.jobs[o]); }
      else { StepKeepsPlan(w, r, s.now); }
    }
  }

  /** Every swap target is a member: whatever happens, no handler looks up a service the
      pool does not have, for any configuration whose default service is a member. */
  lemma ApplyGrounded(s: Sys, e: Event)
    requires Grounded(s.m)
    ensures Grounded(Apply(s, e).m) && Apply(s, e).m.cfg == s.m.cfg
  {
    if Enabled(s, e) {
      match e
      case Admit(service, reply) => AdmitGrounded(s.m, service, reply, s.now);
      case AdminSwap(service) => AdminGrounded(s.m, service);
      case AdminStop(order) => StopGrounded(s.m, order);
      case Report(op) => ReportGrounded(s.m, op, s.now);
      case Fire(tick) => TickGrounded(TakeTick(s.m, tick), tick, s.now);
      case Notice(container, action) => EventGrounded(s.m, container, action);
      case Work(op, resp) => WorkGrounded(s, op, resp);
      case Close(order) => StopGrounded(s.m, order);
      case _ =>
    }
  }

  // --- runs ---

  ghost function Exec(s: Sys, run: seq<Event>): (t: Sys)
    requires Grounded(s.m)
    ensures Grounded(t.m) && t.m.cfg == s.m.cfg
    decreases |run|
  {
    if run == [] then s
    else ApplyGrounded(s, run[0]); Exec(Apply(s, run[0]), run[1..])
  }

  lemma BootGrounded(c: Config, running: set<Name>, strays: set<Name>)
    requires c.defaultSvc == NONE || c.defaultSvc in c.members
    ensures Grounded(Boot(c, running, strays).m)
  {
  }
}
