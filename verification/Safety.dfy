/** The invariant of the whole system, in every run: mutual exclusion with its exact
    exceptions, and what the sweep of a worker guarantees. */
module Safety {
  import opened Names
  import opened State
  import opened Ledger
  import opened Worker
  import opened Manager
  import opened Invariant
  import opened System

  /** Some superseded worker started this container and has yet to stop it again. */
  ghost predicate Excepted(jobs: map<nat, Job>, c: Name)
  {
    exists op :: op in jobs && InWindow(jobs[op]) && jobs[op].own == c
  }

  /** A superseded worker is about to stop the container, or something outside the pool's
      control put it there at operation `since` or later. */
  ghost predicate Excused(jobs: map<nat, Job>, d: Docker, c: Name, since: nat)
  {
    Excepted(jobs, c) || (c in d.taint && d.taint[c] >= since)
  }

  ghost predicate Unexcused(jobs: map<nat, Job>, d: Docker, c: Name, since: nat)
  {
    c in d.running && !Excused(jobs, d, c, since)
  }

  ghost predicate TaintOk(c: Config, opSeq: nat, d: Docker)
  {
    && d.running <= Containers(c)
    && forall x :: x in d.taint ==> x in d.running && d.taint[x] <= opSeq
  }

  ghost predicate AtMostOne(jobs: map<nat, Job>, d: Docker)
  {
    forall a, b :: Unexcused(jobs, d, a, 0) && Unexcused(jobs, d, b, 0) ==> a == b
  }

  /** What the current worker has seen stopped is stopped still, or excused since. */
  ghost predicate SweepHolds(crew: Crew, d: Docker)
  {
    Working(crew) ==> forall c :: c in crew.jobs[crew.opSeq].seen ==> !Unexcused(crew.jobs, d, c, crew.opSeq)
  }

  /** Nothing runs but this container, and what is excused since operation `since`. */
  ghost predicate Alone(jobs: map<nat, Job>, d: Docker, own: Name, since: nat)
  {
    forall c :: Unexcused(jobs, d, c, since) ==> c == own
  }

  ghost predicate ActiveAlone(m: Mgr, d: Docker)
  {
    m.state == Active ==>
      m.active in m.cfg.members && Alone(m.crew.jobs, d, m.cfg.members[m.active].containerName, m.crew.opSeq)
  }

  ghost predicate CrewDocker(m: Mgr, d: Docker)
  {
    TaintOk(m.cfg, m.crew.opSeq, d) && AtMostOne(m.crew.jobs, d) && SweepHolds(m.crew, d)
  }

  ghost predicate DockerOk(m: Mgr, d: Docker)
  {
    CrewDocker(m, d) && ActiveAlone(m, d)
  }

  /** The invariant of the whole system, for every validated configuration. */
  ghost predicate Kept(s: Sys)
  {
    if s.closed then
      Grounded(s.m) && Balanced(s.m.book) && NobodyWaits(s.m) && s.m.snap == Snapshot(Idle, NONE)
    else
      Inv(s.m) && DockerOk(s.m, s.docker)
  }

  // --- a manager's step moves no container ---

  /** The worker is about to start or stop a container. */
  predicate Acting(w: Job)
  {
    w.pc.Stop? || w.pc.Start? || w.pc.CleanStop?
  }

  /** The worker is past its pre-start check. */
  predicate Begun(w: Job)
  {
    w.started || w.pc.Start? || w.pc.PostStart? || w.pc.CleanStop? || w.pc.CleanConfirm? || w.pc.Probe?
  }

  /** Workers inside the window stay as they are, a worker about to act, or past its check, is an old
      one, in the same place, and a new current worker has seen nothing. */
  ghost predicate Evolves(a: Crew, b: Crew)
  {
    && a.opSeq <= b.opSeq && NoneTakesUp(a, b)
    && (forall op :: op in a.jobs && InWindow(a.jobs[op]) ==> op in b.jobs && b.jobs[op] == a.jobs[op])
    && (Working(b) ==>
          || (b.opSeq == a.opSeq && Working(a) && b.jobs[b.opSeq] == a.jobs[a.opSeq])
          || b.jobs[b.opSeq].seen == {})
  }

  ghost predicate NoneTakesUp(a: Crew, b: Crew)
  {
    forall op :: op in b.jobs && (Acting(b.jobs[op]) || Begun(b.jobs[op])) ==>
      op in a.jobs && b.jobs[op] == a.jobs[op].(cancelled := b.jobs[op].cancelled)
  }

  ghost predicate Moved(m: Mgr, r: Mgr)
  {
    && r.cfg == m.cfg && Evolves(m.crew, r.crew)
    && (r.state == Active ==> m.state == Active && r.active == m.active && r.crew.opSeq == m.crew.opSeq)
  }

  lemma EvolvedBlame(a: Crew, b: Crew, d: Docker, c: Name, since: nat)
    requires Evolves(a, b) && Unexcused(b.jobs, d, c, since)
    ensures Unexcused(a.jobs, d, c, since)
  {
    forall op | op in a.jobs && InWindow(a.jobs[op]) ensures a.jobs[op].own != c {
      assert op in b.jobs && b.jobs[op] == a.jobs[op];
    }
  }

  lemma EvolvedDocker(m: Mgr, r: Mgr, d: Docker)
    requires CrewDocker(m, d) && r.cfg == m.cfg && Evolves(m.crew, r.crew)
    ensures CrewDocker(r, d)
  {
    forall c, since: nat | Unexcused(r.crew.jobs, d, c, since) ensures Unexcused(m.crew.jobs, d, c, since) {
      EvolvedBlame(m.crew, r.crew, d, c, since);
    }
  }

  lemma MovedDocker(m: Mgr, r: Mgr, d: Docker)
    requires DockerOk(m, d) && Moved(m, r)
    ensures DockerOk(r, d)
  {
    EvolvedDocker(m, r, d);
    forall c, since: nat | Unexcused(r.crew.jobs, d, c, since) ensures Unexcused(m.crew.jobs, d, c, since) {
      EvolvedBlame(m.crew, r.crew, d, c, since);
    }
  }

  lemma SupersedeEvolves(c: Crew)
    requires Numbered(c)
    ensures Evolves(c, Supersede(c)) && Supersede(c).opSeq == c.opSeq + 1 && !Working(Supersede(c))
  {
  }

  lemma HireEvolves(a: Crew, b: Crew, w: Job)
    requires Evolves(a, b) && !Working(b) && w.seen == {} && !w.cancelled && !Acting(w) && !Begun(w)
    ensures Evolves(a, Hire(b, w))
  {
  }

  lemma StartSwapMoves(m: Mgr, target: Name)
    requires Numbered(m.crew) && target in m.cfg.members
    ensures Moved(m, StartSwap(m, target)) && StartSwap(m, target).state == Swapping
  {
    SupersedeEvolves(m.crew);
    var b := BeginTransition(m, target);
    HireEvolves(m.crew, b.crew, SwapJob(b.cfg, b.crew.opSeq, target));
  }

  lemma StartStopAllMoves(m: Mgr)
    requires Numbered(m.crew)
    ensures Moved(m, StartStopAll(m)) && StartStopAll(m).state == Swapping
  {
    SupersedeEvolves(m.crew);
    var b := BeginTransition(m, NONE);
    HireEvolves(m.crew, b.crew, StopJob(b.cfg, b.crew.opSeq));
  }

  lemma AdmitMoves(m: Mgr, service: Name, reply: nat, now: int)
    requires Typed(m) && Numbered(m.crew)
    ensures Moved(m, HandleAdmit(m, service, reply, now))
  {
    if service in m.cfg.members {
      StartSwapMoves(m.(book := Enqueue(m.book, service, reply, m.cfg.members[service].maxQueue)), service);
    }
  }

  lemma AdminMoves(m: Mgr, service: Name)
    requires Numbered(m.crew)
    ensures Moved(m, HandleAdminSwap(m, service).0)
  {
    if service in m.cfg.members && m.state != Swapping && !(m.state == Active && m.active == service) {
      StartSwapMoves(m, service);
    } else {
      SameCrewMoves(m, HandleAdminSwap(m, service).0);
    }
  }

  lemma StopMoves(m: Mgr, order: seq<Name>)
    requires Typed(m) && Numbered(m.crew) && Covers(order, m.cfg)
    ensures Moved(m, HandleAdminStop(m, order).0)
  {
    CoversQueues(m, order);
    StartStopAllMoves(m.(adminPending := NONE, book := FlushAll(m.book, order, Shutdown)));
  }

  lemma SameCrewMoves(m: Mgr, r: Mgr)
    requires Numbered(m.crew) && r.cfg == m.cfg && r.crew == m.crew && r.state == m.state && r.active == m.active
    ensures Moved(m, r)
  {
  }

  lemma CooldownMoves(m: Mgr, tick: Tick, now: int)
    requires Typed(m) && Numbered(m.crew) && tick.kind == Cooldown
    ensures Moved(m, HandleTick(m, tick, now))
  {
    var r := HandleTick(m, tick, now);
    if r.crew == m.crew {
      SameCrewMoves(m, r);
    } else if m.cfg.defaultSvc != NONE {
      StartSwapMoves(m, m.cfg.defaultSvc);
    } else {
      StartStopAllMoves(m);
    }
  }

  lemma TickMoves(m: Mgr, tick: Tick, now: int)
    requires Typed(m) && Numbered(m.crew)
    ensures Moved(m, HandleTick(m, tick, now))
  {
    var next := Oldest(m.book.queues);
    if tick.kind == Cooldown {
      CooldownMoves(m, tick, now);
    } else {
      SameCrewMoves(m, m);
      if next != NONE { StartSwapMoves(m, next); }
    }
  }

  /** After a transition to a state other than ACTIVE, whatever started next. */
  lemma ChainNowMoves(m: Mgr, g: Mgr)
    requires Typed(g) && g.cfg == m.cfg && g.state != Active && Numbered(g.crew) && Evolves(m.crew, g.crew)
    requires !Working(g.crew)
    ensures Moved(m, ChainNow(g))
  {
    var next := Oldest(g.book.queues);
    if next != NONE {
      SupersedeEvolves(g.crew);
      var b := BeginTransition(g, next);
      HireEvolves(m.crew, b.crew, SwapJob(b.cfg, b.crew.opSeq, next));
    }
  }

  lemma AbortMoves(m: Mgr, service: Name)
    requires Inv(m) && service in m.cfg.members && Serves(m, service)
    ensures Moved(m, Abort(m, service))
  {
    SupersedeEvolves(m.crew);
    SupersedeClears(m.cfg, m.crew);
    var e := if m.state == Active then BumpEpochs(m) else SupersedeWorker(m).(target := NONE);
    var f := Publish(e.(state := Error, active := NONE));
    ChainNowMoves(m, f.(book := Flush(f.book, service, DockerError)));
  }

  lemma EventMoves(m: Mgr, container: Name, action: Action)
    requires Inv(m)
    ensures Moved(m, HandleExternalEvent(m, container, action))
  {
    var owner := MemberByContainer(m.cfg, container);
    if owner.Some? && !action.ActStart? && Serves(m, owner.value) { AbortMoves(m, owner.value); }
  }

  // --- a terminal report ---

  lemma ChainKeepsOrStarts(m: Mgr, activated: bool, now: int)
    requires Typed(m) && Numbered(m.crew) && m.state != Swapping
    ensures var r := ChainAfterTerminal(m, activated, now);
      r.cfg == m.cfg && (if r.state == Swapping then Moved(m, r)
                         else r.state == m.state && r.active == m.active && r.crew == m.crew)
  {
    var c := m.(adminPending := NONE);
    if m.adminPending != NONE && m.adminPending != m.active { StartSwapMoves(c, m.adminPending); }
    else if Oldest(c.book.queues) != NONE { StartSwapMoves(c, Oldest(c.book.queues)); }
  }

  lemma TakeEvolves(c: Crew, op: nat)
    requires Numbered(c) && op in c.jobs && c.jobs[op].pc.Done?
    ensures var k := c.(jobs := c.jobs - {op});
      && (op != c.opSeq ==> Evolves(c, k))
      && (op == c.opSeq ==> Evolves(c, Release(k)) && !Working(Release(k)) && Numbered(Release(k))
                            && Release(k).opSeq == c.opSeq)
  {
  }

  /** A report that ends a swap or stop: the pool moves, except that success makes it
      ACTIVE on the worker's target under the same operation number. */
  lemma ReportMoves(m: Mgr, op: nat, now: int)
    requires Inv(m) && op in m.crew.jobs && m.crew.jobs[op].pc.Done?
    ensures JobOk(m.cfg, op, m.crew.jobs[op])
    ensures var r := HandleSwap(TakeJob(m, op), Msg(m.crew.jobs[op]), now);
      && r.cfg == m.cfg && Evolves(m.crew, r.crew)
      && (r.state == Active ==>
            r.crew.opSeq == m.crew.opSeq &&
            (if op == m.crew.opSeq then m.crew.jobs[op].pc.kind == SwapComplete && r.active == m.crew.jobs[op].target
             else m.state == Active && r.active == m.active))
  {
    var w := m.crew.jobs[op];
    assert JobOk(m.cfg, op, w);
    TakeEvolves(m.crew, op);
    if op == m.crew.opSeq {
      LandedMoves(m, ReleaseWorker(TakeJob(m, op)), Msg(w), now);
    }
  }

  lemma LandedMoves(m: Mgr, r: Mgr, msg: SwapMsg, now: int)
    requires Typed(r) && Numbered(r.crew) && !Working(r.crew) && r.cfg == m.cfg
    requires Evolves(m.crew, r.crew) && r.crew.opSeq == m.crew.opSeq
    requires !msg.kind.PoolStopped? ==> msg.target in r.cfg.members
    ensures var x := ChainAfterTerminal(Land(r, msg, now), msg.kind == SwapComplete, now);
      && x.cfg == m.cfg && Evolves(m.crew, x.crew)
      && (x.state == Active ==> x.crew.opSeq == m.crew.opSeq && msg.kind == SwapComplete && x.active == msg.target)
  {
    var y := Land(r, msg, now);
    LandFacts(r, msg, now);
    ChainKeepsOrStarts(y, msg.kind == SwapComplete, now);
    var x := ChainAfterTerminal(y, msg.kind == SwapComplete, now);
    if x.state == Swapping { EvolvesTwice(m.crew, r.crew, x.crew); }
  }

  lemma EvolvesTwice(a: Crew, b: Crew, c: Crew)
    requires Evolves(a, b) && Evolves(b, c) && !Working(b)
    ensures Evolves(a, c)
  {
  }

  /** No step of the manager, nor of anybody but a worker, puts a worker where it is about to act. */
  lemma ManagerEvolves(s: Sys, e: Event)
    requires Kept(s) && Grounded(s.m) && Enabled(s, e) && !e.Work?
    ensures Evolves(s.m.crew, Apply(s, e).m.crew)
  {
    match e
    case Admit(service, reply) => AdmitMoves(s.m, service, reply, s.now);
    case AdminSwap(service) => AdminMoves(s.m, service);
    case AdminStop(order) => StopMoves(s.m, order);
    case Report(op) => ReportMoves(s.m, op, s.now);
    case Fire(tick) => TickMoves(TakeTick(s.m, tick), tick, s.now);
    case Notice(container, action) => EventMoves(s.m, container, action);
    case _ =>
  }

  // --- a worker's step ---

  /** Which workers are inside the window, and where, is a matter of one worker per step. */
  lemma OthersExcept(jobs: map<nat, Job>, op: nat, v: Job, c: Name)
    requires op in jobs && v.own == jobs[op].own && Excepted(jobs, c)
    ensures Excepted(jobs[op := v], c) || (InWindow(jobs[op]) && jobs[op].own == c && !InWindow(v))
  {
    var o :| o in jobs && InWindow(jobs[o]) && jobs[o].own == c;
    var next := jobs[op := v];
    assert o in next && next[o] == if o == op then v else jobs[o];
  }

  /** A step into the window covers the container the worker has just started, and a step
      out of it leaves the container stopped, or tainted. */
  lemma WindowSteps(w: Job, r: Resp, now: int, running: set<Name>)
    requires InRange(w) && !w.pc.Done?
    ensures var v := Worker.Step(w, r, now);
      && (w.cancelled && w.pc.Start? && r.Ok? ==> InWindow(v))
      && (InWindow(w) && !InWindow(v) ==> v.pc.Done? || (r.Ok? && w.pc.CleanStop?))
    ensures forall c :: c in Effect(w, r, running) && c !in running ==> w.pc.Start? && r.Ok? && c == w.own
  {
  }

  /** A worker of this system can take this step. */
  ghost predicate Steps(s: Sys, op: nat, r: Resp)
  {
    Inv(s.m) && TaintOk(s.m.cfg, s.m.crew.opSeq, s.docker) && op in s.m.crew.jobs && InRange(s.m.crew.jobs[op])
    && Fits(s.m.crew.jobs[op], r, s.now, s.docker.running)
  }

  /** Whoever steps, no container becomes unexcused, except the one that the current
      worker starts. */
  lemma NoNewBlame(s: Sys, op: nat, r: Resp, c: Name, since: nat)
    requires Steps(s, op, r) && since <= s.m.crew.opSeq
    requires Unexcused(WorkStep(s, op, r).m.crew.jobs, WorkStep(s, op, r).docker, c, since)
    ensures Unexcused(s.m.crew.jobs, s.docker, c, since) || (StartsTarget(s, op, r) && c == s.m.crew.jobs[op].own)
  {
    var w := s.m.crew.jobs[op];
    var v := Worker.Step(w, r, s.now);
    StepKeepsPlan(w, r, s.now);
    WindowSteps(w, r, s.now, s.docker.running);
    if Excepted(s.m.crew.jobs, c) {
      OthersExcept(s.m.crew.jobs, op, v, c);
    }
    var next := WorkStep(s, op, r).m.crew.jobs;
    assert next[op] == v;
    assert InWindow(v) ==> Excepted(next, w.own);
  }

  lemma WorkCrew(c: Config, crew: Crew, op: nat, r: Resp, now: int)
    requires CrewOk(c, crew) && op in crew.jobs && InRange(crew.jobs[op])
    ensures var v := Worker.Step(crew.jobs[op], r, now);
      CrewOk(c, crew.(jobs := crew.jobs[op := v])) && v.target == crew.jobs[op].target
  {
    var w := crew.jobs[op];
    assert JobOk(c, op, w);
    StepTold(w, r, now);
    StepKeepsPlan(w, r, now);
    var next := crew.jobs[op := Worker.Step(w, r, now)];
    forall o | o in next ensures JobOk(c, o, next[o]) {
      if o != op { assert JobOk(c, o, crew.jobs[o]); }
    }
  }

  lemma WorkInv(s: Sys, op: nat, r: Resp)
    requires Inv(s.m) && op in s.m.crew.jobs && InRange(s.m.crew.jobs[op])
    ensures Inv(WorkStep(s, op, r).m)
  {
    WorkCrew(s.m.cfg, s.m.crew, op, r, s.now);
    var t := WorkStep(s, op, r);
    assert Base(t.m);
    assert Phase(t.m);
  }

  lemma WorkTaint(s: Sys, op: nat, r: Resp)
    requires Steps(s, op, r)
    ensures TaintOk(s.m.cfg, s.m.crew.opSeq, WorkStep(s, op, r).docker)
  {
    assert JobOk(s.m.cfg, op, s.m.crew.jobs[op]);
  }

  ghost predicate StartsTarget(s: Sys, op: nat, r: Resp)
    requires op in s.m.crew.jobs
  {
    op == s.m.crew.opSeq && s.m.crew.jobs[op].pc.Start? && r.Ok?
  }

  /** A worker past its sweep has seen every running sibling stopped. */
  lemma SiblingsSeen(c: Config, op: nat, w: Job, d: Docker, x: Name)
    requires WellFormed(c) && JobOk(c, op, w) && w.swap && Behind(w) == |w.list|
    requires d.running <= Containers(c) && x in d.running && x != w.own
    ensures x in w.seen
  {
    OtherContainersAre(c, w.target);
    var n :| n in c.members && c.members[n].containerName == x;
    assert n != w.target;
    assert x in w.list;
    var j :| 0 <= j < |w.list| && w.list[j] == x;
  }

  lemma WorkExclusive(s: Sys, op: nat, r: Resp)
    requires Steps(s, op, r) && DockerOk(s.m, s.docker)
    ensures AtMostOne(WorkStep(s, op, r).m.crew.jobs, WorkStep(s, op, r).docker)
  {
    var t := WorkStep(s, op, r);
    var w := s.m.crew.jobs[op];
    if StartsTarget(s, op, r) {
      forall c | Unexcused(t.m.crew.jobs, t.docker, c, 0) ensures c == w.own {
        NoNewBlame(s, op, r, c, s.m.crew.opSeq);
        if c != w.own {
          assert JobOk(s.m.cfg, op, w);
          SiblingsSeen(s.m.cfg, op, w, s.docker, c);
        }
      }
    } else {
      forall c | Unexcused(t.m.crew.jobs, t.docker, c, 0) ensures Unexcused(s.m.crew.jobs, s.docker, c, 0) {
        NoNewBlame(s, op, r, c, 0);
      }
    }
  }

  /** A container enters `seen` only when an inspection found it not running. */
  lemma NewlySeen(w: Job, r: Resp, now: int, running: set<Name>, c: Name)
    requires Shaped(w) && !w.pc.Done? && Fits(w, r, now, running) && c in Worker.Step(w, r, now).seen
    ensures c in w.seen || c !in running
  {
    if Sweeping(w.pc) && !r.Panic? {
      if w.swap { SwapSweepSees(w, r, now); } else { StopSweepSees(w, r, now); }
    } else if !r.Panic? {
      TargetSees(w, r, now);
    }
  }

  lemma WorkSweep(s: Sys, op: nat, r: Resp)
    requires Steps(s, op, r) && DockerOk(s.m, s.docker)
    ensures SweepHolds(WorkStep(s, op, r).m.crew, WorkStep(s, op, r).docker)
  {
    var t := WorkStep(s, op, r);
    var o := s.m.crew.opSeq;
    if Working(s.m.crew) {
      forall c | c in t.m.crew.jobs[o].seen ensures !Unexcused(t.m.crew.jobs, t.docker, c, o) {
        if Unexcused(t.m.crew.jobs, t.docker, c, o) {
          NoNewBlame(s, op, r, c, o);
          var w := s.m.crew.jobs[o];
          assert JobOk(s.m.cfg, o, w);
          if w.swap { OtherContainersAre(s.m.cfg, w.target); }
          WorkCrew(s.m.cfg, s.m.crew, o, r, s.now);
          if op == o {
            NewlySeen(w, r, s.now, s.docker.running, c);
            StepKeepsPlan(w, r, s.now);
          }
        }
      }
    }
  }

  lemma WorkActive(s: Sys, op: nat, r: Resp)
    requires Steps(s, op, r) && DockerOk(s.m, s.docker)
    ensures ActiveAlone(WorkStep(s, op, r).m, WorkStep(s, op, r).docker)
  {
    var t := WorkStep(s, op, r);
    if s.m.state == Active {
      forall c | Unexcused(t.m.crew.jobs, t.docker, c, s.m.crew.opSeq)
        ensures c == s.m.cfg.members[s.m.active].containerName
      {
        NoNewBlame(s, op, r, c, s.m.crew.opSeq);
      }
    }
  }

  // --- every step ---

  lemma WorkSys(s: Sys, op: nat, r: Resp)
    requires Kept(s) && !s.closed && Steps(s, op, r)
    ensures Kept(WorkStep(s, op, r))
  {
    WorkInv(s, op, r);
    WorkTaint(s, op, r);
    WorkExclusive(s, op, r);
    WorkSweep(s, op, r);
    WorkActive(s, op, r);
  }

  /** Stopping a container, or a start the pool cannot be blamed for, makes nothing unexcused. */
  lemma OutsideDocker(m: Mgr, d: Docker, e: Docker)
    requires DockerOk(m, d) && TaintOk(m.cfg, m.crew.opSeq, e)
    requires forall c, since: nat :: since <= m.crew.opSeq && Unexcused(m.crew.jobs, e, c, since)
               ==> Unexcused(m.crew.jobs, d, c, since)
    ensures DockerOk(m, e)
  {
  }

  lemma StopSys(m: Mgr, d: Docker, c: Name)
    requires DockerOk(m, d)
    ensures DockerOk(m, StopContainer(d, c))
  {
    OutsideDocker(m, d, StopContainer(d, c));
  }

  lemma OutsideSys(m: Mgr, d: Docker, c: Name)
    requires DockerOk(m, d) && c in Containers(m.cfg)
    ensures DockerOk(m, StartOutside(d, c, m.crew.opSeq))
  {
    OutsideDocker(m, d, StartOutside(d, c, m.crew.opSeq));
  }

  lemma ManagerSys(s: Sys, r: Mgr)
    requires Kept(s) && !s.closed && Inv(r) && Moved(s.m, r)
    ensures Kept(s.(m := r))
  {
    MovedDocker(s.m, r, s.docker);
  }

  /** When its report of success is due, the sweep of the current worker still holds: nothing
      but its target runs, excuses since its spawn apart. */
  lemma SweptClean(s: Sys, op: nat, c: Name)
    requires Kept(s) && !s.closed && op == s.m.crew.opSeq && op in s.m.crew.jobs
    requires s.m.crew.jobs[op].pc.Done? && s.m.crew.jobs[op].pc.kind == SwapComplete
    requires Unexcused(s.m.crew.jobs, s.docker, c, op)
    ensures c == s.m.crew.jobs[op].own
  {
    var w := s.m.crew.jobs[op];
    assert JobOk(s.m.cfg, op, w);
    if c != w.own { SiblingsSeen(s.m.cfg, op, w, s.docker, c); }
  }

  /** Going ACTIVE on a report, the pool is alone with its container, excuses apart. */
  lemma ReportSys(s: Sys, op: nat)
    requires Kept(s) && !s.closed && op in s.m.crew.jobs && s.m.crew.jobs[op].pc.Done?
    ensures JobOk(s.m.cfg, op, s.m.crew.jobs[op])
    ensures Kept(s.(m := HandleSwap(TakeJob(s.m, op), Msg(s.m.crew.jobs[op]), s.now)))
  {
    ReportInv(s.m, op, s.now);
    ReportMoves(s.m, op, s.now);
    ReportAlone(s, op, HandleSwap(TakeJob(s.m, op), Msg(s.m.crew.jobs[op]), s.now));
  }

  lemma ReportAlone(s: Sys, op: nat, r: Mgr)
    requires Kept(s) && !s.closed && op in s.m.crew.jobs && s.m.crew.jobs[op].pc.Done?
    requires JobOk(s.m.cfg, op, s.m.crew.jobs[op])
    requires r.cfg == s.m.cfg && Evolves(s.m.crew, r.crew)
    requires r.state == Active ==>
      r.crew.opSeq == s.m.crew.opSeq &&
      (if op == s.m.crew.opSeq then s.m.crew.jobs[op].pc.kind == SwapComplete && r.active == s.m.crew.jobs[op].target
       else s.m.state == Active && r.active == s.m.active)
    ensures DockerOk(r, s.docker)
  {
    EvolvedDocker(s.m, r, s.docker);
    if r.state == Active {
      forall c | Unexcused(r.crew.jobs, s.docker, c, r.crew.opSeq)
        ensures r.active in r.cfg.members && c == r.cfg.members[r.active].containerName
      {
        EvolvedBlame(s.m.crew, r.crew, s.docker, c, r.crew.opSeq);
        if op == s.m.crew.opSeq { SweptClean(s, op, c); }
      }
    }
  }

  lemma CloseSys(s: Sys, order: seq<Name>)
    requires Kept(s) && !s.closed && Covers(order, s.m.cfg)
    ensures Kept(s.(m := HandleShutdown(s.m, order), closed := true))
  {
    CoversQueues(s.m, order);
    FlushAllKeeps(s.m.book, order, Shutdown);
    FlushAllEmpties(s.m.book, order, Shutdown);
    StopGrounded(s.m, order);
  }

  lemma DetachedSys(s: Sys, c: Name, ok: bool)
    requires Kept(s) && !s.closed && c in s.m.stops
    ensures Grounded(s.m) && Kept(Apply(s, Detached(c, ok)))
  {
    var stops := s.m.stops - multiset{c};
    StopsInv(s.m, stops);
    ManagerSys(s, s.m.(stops := stops));
    StopSys(s.m.(stops := stops), s.docker, c);
  }

  lemma ClientSys(s: Sys, e: Event)
    requires Kept(s) && Enabled(s, e) && (e.Admit? || e.Cancel? || e.Ping?)
    ensures Kept(Apply(s, e))
  {
    match e
    case Admit(service, reply) =>
      AdmitInv(s.m, service, reply, s.now);
      AdmitMoves(s.m, service, reply, s.now);
      ManagerSys(s, HandleAdmit(s.m, service, reply, s.now));
    case Cancel(service, reply) =>
      CancelInv(s.m, service, reply);
      ManagerSys(s, HandleCancel(s.m, service, reply));
    case Ping(service) =>
      TouchInv(s.m, service, s.now);
      ManagerSys(s, Touch(s.m, service, s.now));
  }

  lemma OperatorSys(s: Sys, e: Event)
    requires Kept(s) && Enabled(s, e) && (e.AdminSwap? || e.AdminStop?)
    ensures Kept(Apply(s, e))
  {
    match e
    case AdminSwap(service) =>
      AdminSwapInv(s.m, service);
      AdminMoves(s.m, service);
      ManagerSys(s, HandleAdminSwap(s.m, service).0);
    case AdminStop(order) =>
      AdminStopInv(s.m, order);
      StopMoves(s.m, order);
      ManagerSys(s, HandleAdminStop(s.m, order).0);
  }

  lemma SignalSys(s: Sys, e: Event)
    requires Kept(s) && Enabled(s, e)
    requires e.Fire? || e.Notice?
    ensures Kept(Apply(s, e))
  {
    match e
    case Fire(tick) =>
      TickInv(s.m, tick, s.now);
      TickMoves(TakeTick(s.m, tick), tick, s.now);
      ManagerSys(s, HandleTick(TakeTick(s.m, tick), tick, s.now));
    case Notice(container, action) =>
      EventInv(s.m, container, action);
      EventMoves(s.m, container, action);
      ManagerSys(s, HandleExternalEvent(s.m, container, action));
  }

  /** Every step of anyone keeps the invariant. */
  lemma ApplyKept(s: Sys, e: Event)
    requires Kept(s)
    ensures Grounded(s.m) && Kept(Apply(s, e))
  {
    if Enabled(s, e) {
      match e
      case Report(op) => ReportSys(s, op);
      case Work(op, resp) => JobAt(s.m, op); WorkSys(s, op, resp);
      case Detached(c, ok) => DetachedSys(s, c, ok);
      case OutsideStart(c) => OutsideSys(s.m, s.docker, c);
      case OutsideStop(c) => StopSys(s.m, s.docker, c);
      case Pass(d) =>
      case Close(order) => CloseSys(s, order);
      case Fire(_) => SignalSys(s, e);
      case Notice(_, _) => SignalSys(s, e);
      case AdminSwap(_) => OperatorSys(s, e);
      case AdminStop(_) => OperatorSys(s, e);
      case _ => ClientSys(s, e);
    }
  }

  /** And for pools without a member named "". */
  ghost predicate SysInv(s: Sys)
  {
    Kept(s) && NoEmptyName(s.m.cfg)
  }

  lemma ApplySys(s: Sys, e: Event)
    requires SysInv(s)
    ensures Grounded(s.m) && SysInv(Apply(s, e))
  {
    ApplyKept(s, e);
    ApplyGrounded(s, e);
  }
}
