/** Being ACTIVE does not mean that the container runs. A worker that was superseded while it started
    its target stops it again; if the next swap was to the same service, it stops it under the
    ACTIVE pool, whose registry takes the event for the pool's own. The manager is not told, and goes
    on saying AdmitGo. Every pool with a member has such a run. */
module StaleStop {
  import opened Names
  import opened State
  import opened Ledger
  import opened Worker
  import opened Manager
  import opened Invariant
  import opened System
  import opened Safety
  import opened Waiters
  import opened AdmitGo
  import opened Causes
  import opened Countdown
  import opened Registry
  import opened Walks
  import opened Overlap
  import opened Echo
  import opened LateEcho

  /** The first swap has passed its pre-start check. */
  lemma AtStart(c: Config, a: Name) returns (moves: seq<Move>, x: Wire)
    requires CfgOk(c) && a in c.members && Grounded(Boot(c, {}, {}).m)
    ensures Brings(Quietly(c, {}, {}), moves, x) && Grounded(x.s.m) && !x.s.closed && x.s.m.cfg == c
    ensures x.stream == [] && x.s.docker.running == {} && x.s.m.state == Swapping && x.s.m.book.asked.Keys == {1}
    ensures x.s.m.crew.opSeq == 1 && x.s.m.crew.swapCancel == Some(1) && x.s.m.crew.jobs.Keys == {1}
    ensures x.s.m.crew.jobs[1].pc == Start && x.s.m.crew.jobs[1].own == c.members[a].containerName
  {
    var x1 := Asked(c, a);
    var m2;
    m2, x := Announced(x1, 1);
    moves := [Step(Admit(a, 1), [])] + m2;
    BringsOn(Quietly(c, {}, {}), [Step(Admit(a, 1), [])], x1, m2, x);
  }

  /** The operator stops the pool; the first worker is superseded, and stands where it was. */
  lemma Superseded(x: Wire) returns (moves: seq<Move>, y: Wire)
    requires Grounded(x.s.m) && CfgOk(x.s.m.cfg) && !x.s.closed && x.stream == [] && x.s.docker.running == {}
    requires x.s.m.state == Swapping && x.s.m.crew.opSeq == 1 && x.s.m.crew.swapCancel == Some(1)
    requires x.s.m.crew.jobs.Keys == {1}
    ensures Brings(x, moves, y) && Grounded(y.s.m) && !y.s.closed && y.s.m.cfg == x.s.m.cfg
    ensures y.stream == [] && y.s.docker.running == {} && y.s.m.state == Idle && y.s.m.adminPending == NONE
    ensures NobodyWaits(y.s.m) && y.s.m.book.asked == x.s.m.book.asked
    ensures y.s.m.crew.opSeq == 2 && y.s.m.crew.swapCancel == None
    ensures y.s.m.crew.jobs == map[1 := x.s.m.crew.jobs[1].(cancelled := true)]
  {
    var order := Sorted(x.s.m.cfg.members.Keys);
    var m1, x1, x2 := WalkedOver(x, order);
    y := StopEnds(x2);
    moves := m1 + [Step(Report(2), [])];
    BringsOn(x, m1, x2, [Step(Report(2), [])], y);
    OnlyFirstLeft(x.s, x1.s, x2.s, y.s);
  }

  lemma WalkedOver(x: Wire, order: seq<Name>) returns (moves: seq<Move>, x1: Wire, x2: Wire)
    requires Grounded(x.s.m) && !x.s.closed && x.stream == [] && x.s.docker.running == {}
    requires x.s.m.state == Swapping && x.s.m.crew.opSeq == 1 && Covers(order, x.s.m.cfg)
    ensures x1 == Wire(Apply(x.s, AdminStop(order)), x.table, x.stream) && Grounded(x1.s.m)
    ensures x1.s.m.crew.jobs == Release(x.s.m.crew).jobs[2 := StopJob(x.s.m.cfg, 2)]
    ensures x1.s.m.crew.swapCancel == Some(2)
    ensures Brings(x, moves, x2) && OnlyWorker(x1, 2, x2) && Grounded(x2.s.m)
    ensures x2.s.docker.running == {} && x2.stream == [] && x2.s.m.crew.jobs[2].pc == Done(PoolStopped, false)
    ensures !x2.s.closed && x2.s.m.cfg == x.s.m.cfg && x2.s.m.crew.opSeq == 2 && x2.s.m.adminPending == NONE
    ensures NobodyWaits(x2.s.m) && x2.s.m.book.asked == x.s.m.book.asked && x2.s.m.crew.swapCancel == Some(2)
  {
    var t := OperatorStops(x.s, order);
    x1 := Plain(x, AdminStop(order));
    var m2;
    m2, x2 := StopCold(x1, 2, 0);
    moves := [Step(AdminStop(order), [])] + m2;
    BringsOn(x, [Step(AdminStop(order), [])], x1, m2, x2);
  }

  lemma StopEnds(x: Wire) returns (y: Wire)
    requires Grounded(x.s.m) && !x.s.closed && x.s.m.crew.opSeq == 2 && x.s.m.adminPending == NONE
    requires 2 in x.s.m.crew.jobs && x.s.m.crew.jobs[2].pc == Done(PoolStopped, false) && NobodyWaits(x.s.m)
    ensures Brings(x, [Step(Report(2), [])], y) && Grounded(y.s.m) && !y.s.closed && y.s.m.cfg == x.s.m.cfg
    ensures y.s.docker == x.s.docker && y.stream == x.stream && y.s.m.state == Idle && y.s.m.adminPending == NONE
    ensures y.s.m.book == x.s.m.book && y.s.m.crew.opSeq == 2 && y.s.m.crew.swapCancel == None
    ensures y.s.m.crew.jobs == Release(TakeJob(x.s.m, 2).crew).jobs
  {
    var u := StopReported(x.s, 2);
    y := Plain(x, Report(2));
  }

  /** The next swap is to the same service; when it has announced its start, the first worker makes
      its own. */
  lemma BothStart(x: Wire, a: Name) returns (moves: seq<Move>, y: Wire)
    requires Grounded(x.s.m) && CfgOk(x.s.m.cfg) && !x.s.closed && x.stream == [] && x.s.docker.running == {}
    requires a in x.s.m.cfg.members && x.s.m.state == Idle && x.s.m.adminPending == NONE
    requires NobodyWaits(x.s.m) && x.s.m.book.asked.Keys == {1}
    requires x.s.m.crew.opSeq == 2 && x.s.m.crew.swapCancel == None && x.s.m.crew.jobs.Keys == {1}
    requires var w := x.s.m.crew.jobs[1]; w.cancelled && w.pc == Start && w.own == x.s.m.cfg.members[a].containerName
    ensures Brings(x, moves, y) && Grounded(y.s.m) && !y.s.closed && y.s.m.cfg == x.s.m.cfg
    ensures y.stream == [] && y.s.docker.running == {x.s.m.cfg.members[a].containerName}
    ensures y.s.m.crew.opSeq == 3 && y.s.m.adminPending == NONE && OnlyOneWaits(y.s.m, a)
    ensures y.s.m.book.asked.Keys == {1, 2} && Halves(y.s.m, a)
  {
    var x1 := AskedAgain(x, a);
    var m2, x2 := Announced(x1, 3);
    assert x2.s.m.crew.jobs[1] == x.s.m.crew.jobs[1];
    var m3;
    m3, y := StartHeard(x2, 1);
    assert y.s.m.crew.jobs[3] == x2.s.m.crew.jobs[3];
    moves := [Step(Admit(a, 2), [])] + m2 + m3;
    BringsOn(x, [Step(Admit(a, 2), [])], x1, m2, x2);
    BringsOn(x, [Step(Admit(a, 2), [])] + m2, x2, m3, y);
  }

  /** Worker 1, superseded, has started the container; worker 3 is about to. */
  ghost predicate Halves(m: Mgr, a: Name)
  {
    && 1 in m.crew.jobs && 3 in m.crew.jobs && a in m.cfg.members
    && m.crew.jobs[1].pc == PostStart && m.crew.jobs[1].cancelled
    && m.crew.jobs[1].own == m.cfg.members[a].containerName
    && m.crew.jobs[3].pc == Start && !m.crew.jobs[3].cancelled && m.crew.jobs[3].target == a
    && m.crew.jobs[3].own == m.cfg.members[a].containerName
  }

  /** A swap that finds its target started already, and healthy. */
  lemma FindsHealthy(x: Wire, op: nat) returns (moves: seq<Move>, y: Wire)
    requires Grounded(x.s.m) && !x.s.closed && op in x.s.m.crew.jobs
    requires var w := x.s.m.crew.jobs[op]; w.pc == Start && !w.cancelled && w.own in x.s.docker.running
    ensures Brings(x, moves, y) && Grounded(y.s.m) && OnlyWorker(x, op, y)
    ensures y.s.docker.running == x.s.docker.running && y.stream == x.stream
    ensures y.s.m.crew.jobs[op].pc == Done(SwapComplete, false)
  {
    var a := WorkMove(x, op, Ok(true), []);
    assert x.s.docker.running + {x.s.m.crew.jobs[op].own} == x.s.docker.running;
    assert x.stream + [] == x.stream;
    var m2;
    m2, y := Polls(a, op);
    moves := [Step(Work(op, Ok(true)), [])] + m2;
    BringsOn(x, [Step(Work(op, Ok(true)), [])], a, m2, y);
  }

  lemma Polls(x: Wire, op: nat) returns (moves: seq<Move>, y: Wire)
    requires Grounded(x.s.m) && !x.s.closed && op in x.s.m.crew.jobs
    requires var w := x.s.m.crew.jobs[op]; w.pc == PostStart && !w.cancelled
    ensures Brings(x, moves, y) && Grounded(y.s.m) && OnlyWorker(x, op, y)
    ensures y.s.docker.running == x.s.docker.running && y.stream == x.stream
    ensures y.s.m.crew.jobs[op].pc == Done(SwapComplete, false)
  {
    var a := WorkMove(x, op, Ok(true), []);
    assert x.stream + [] == x.stream;
    y := WorkMove(a, op, Ok(true), []);
    moves := [Step(Work(op, Ok(true)), [])] + [Step(Work(op, Ok(true)), [])];
    BringsOn(x, [Step(Work(op, Ok(true)), [])], a, [Step(Work(op, Ok(true)), [])], y);
  }

  /** Its report opens a period of ACTIVE. */
  lemma Opens(x: Wire, a: Name) returns (y: Wire)
    requires Grounded(x.s.m) && CfgOk(x.s.m.cfg) && !x.s.closed && x.s.m.crew.opSeq == 3 && x.s.m.adminPending == NONE
    requires 1 in x.s.m.crew.jobs && 3 in x.s.m.crew.jobs && x.s.m.crew.jobs[3].pc == Done(SwapComplete, false)
    requires x.s.m.crew.jobs[3].target == a && OnlyOneWaits(x.s.m, a)
    requires x.s.m.crew.jobs[1].cancelled
    ensures Brings(x, [Step(Report(3), [])], y) && Grounded(y.s.m) && ActiveOn(y.s, a) && y.s.m.cfg == x.s.m.cfg
    ensures y.stream == x.stream && y.s.docker == x.s.docker && y.s.m.book.asked == x.s.m.book.asked
    ensures 1 in y.s.m.crew.jobs && y.s.m.crew.jobs[1] == x.s.m.crew.jobs[1]
  {
    var t := SwapReported(x.s, 3);
    y := Plain(x, Report(3));
    ReportKeeps(x.s, 3, 1);
  }

  lemma ReportKeeps(s: Sys, op: nat, other: nat)
    requires Grounded(s.m) && Enabled(s, Report(op)) && op == s.m.crew.opSeq && other in s.m.crew.jobs && other != op
    requires s.m.crew.jobs[other].cancelled && Apply(s, Report(op)).m.state == Active
    ensures other in Apply(s, Report(op)).m.crew.jobs && Apply(s, Report(op)).m.crew.jobs[other] == s.m.crew.jobs[other]
  {
    JobAt(s.m, op);
    var k, w := ReleaseWorker(TakeJob(s.m, op)), s.m.crew.jobs[op];
    LandFacts(k, Msg(w), s.now);
    ChainCrew(Land(k, Msg(w), s.now), w.pc.kind == SwapComplete, s.now);
    ReleasedKeeps(s.m.crew, op, other);
  }

  lemma ReleasedKeeps(c: Crew, op: nat, other: nat)
    requires other in c.jobs && other != op && c.jobs[other].cancelled
    ensures var r := Release(c.(jobs := c.jobs - {op})); other in r.jobs && r.jobs[other] == c.jobs[other]
  {
  }

  lemma ChainCrew(y: Mgr, activated: bool, now: int)
    requires Typed(y) && ChainAfterTerminal(y, activated, now).state == Active
    ensures ChainAfterTerminal(y, activated, now).crew == y.crew
  {
  }

  /** The superseded worker stops what it started; the event is absorbed. */
  lemma StopsLate(x: Wire, op: nat) returns (moves: seq<Move>, y: Wire)
    requires Grounded(x.s.m) && !x.s.closed && op in x.s.m.crew.jobs && x.stream == []
    requires var w := x.s.m.crew.jobs[op]; w.pc == PostStart && w.cancelled && x.s.docker.running == {w.own}
    ensures Brings(x, moves, y) && Grounded(y.s.m) && OnlyWorker(x, op, y)
    ensures y.s.docker.running == {} && y.stream == []
  {
    var a := WorkMove(x, op, Ok(true), []);
    assert x.stream + [] == x.stream;
    var m2;
    m2, y := CleansUp(a, op);
    moves := [Step(Work(op, Ok(true)), [])] + m2;
    BringsOn(x, [Step(Work(op, Ok(true)), [])], a, m2, y);
  }

  lemma CleansUp(x: Wire, op: nat) returns (moves: seq<Move>, y: Wire)
    requires Grounded(x.s.m) && !x.s.closed && op in x.s.m.crew.jobs && x.stream == []
    requires var w := x.s.m.crew.jobs[op];
      w.pc == CleanStop && x.s.docker.running == {w.own} && w.own in x.table
      && x.table[w.own] == OpEntry(StopOp, x.s.now, 3)
    ensures Brings(x, moves, y) && Grounded(y.s.m) && OnlyWorker(x, op, y)
    ensures y.s.docker.running == {} && y.stream == []
  {
    var a := WorkMove(x, op, Ok(true), [ActDie]);
    y := BringsBy(a, Deliver);
    moves := [Step(Work(op, Ok(true)), [ActDie])] + [Deliver];
    BringsOn(x, [Step(Work(op, Ok(true)), [ActDie])], a, [Deliver], y);
  }

  /** From the two starts on: the pool becomes ACTIVE, and its container is stopped. */
  lemma StopsUnderActive(x: Wire, a: Name) returns (moves: seq<Move>, y: Wire)
    requires Grounded(x.s.m) && CfgOk(x.s.m.cfg) && !x.s.closed && x.stream == [] && Halves(x.s.m, a)
    requires x.s.docker.running == {x.s.m.cfg.members[a].containerName}
    requires x.s.m.crew.opSeq == 3 && x.s.m.adminPending == NONE && OnlyOneWaits(x.s.m, a)
    ensures Brings(x, moves, y) && Grounded(y.s.m) && ActiveOn(y.s, a) && y.s.m.cfg == x.s.m.cfg
    ensures y.stream == [] && y.s.docker.running == {} && y.s.m.book.asked == x.s.m.book.asked
  {
    var m1, x1 := FindsHealthy(x, 3);
    assert x1.s.m.crew.jobs[1] == x.s.m.crew.jobs[1];
    var x2 := Opens(x1, a);
    var m3;
    m3, y := StopsLate(x2, 1);
    moves := m1 + [Step(Report(3), [])] + m3;
    BringsOn(x, m1, x1, [Step(Report(3), [])], x2);
    BringsOn(x, m1 + [Step(Report(3), [])], x2, m3, y);
  }

  /** In every pool, for each of its members, with nobody interfering, every call obeyed and every
      event delivered at once: the pool can be ACTIVE with its container stopped by the pool itself,
      and the next client is told AdmitGo all the same. */
  lemma ActiveButStopped(c: Config, a: Name) returns (moves: seq<Move>, x: Wire, y: Wire)
    requires CfgOk(c) && a in c.members && Grounded(Boot(c, {}, {}).m)
    ensures Brings(Quietly(c, {}, {}), moves, x) && ActiveOn(x.s, a) && x.s.docker.running == {} && x.stream == []
    ensures Brings(x, [Step(Admit(a, 3), [])], y) && Sent(3, Go) in y.s.m.book.sent
    ensures ActiveOn(y.s, a) && y.s.docker.running == {}
  {
    var q := Quietly(c, {}, {});
    var m1, x1 := AtStart(c, a);
    var m2, x2 := Superseded(x1);
    BringsOn(q, m1, x1, m2, x2);
    var m3, x3 := BothStart(x2, a);
    BringsOn(q, m1 + m2, x2, m3, x3);
    var m4;
    m4, x := StopsUnderActive(x3, a);
    moves := m1 + m2 + m3 + m4;
    BringsOn(q, m1 + m2 + m3, x3, m4, x);
    y := Plain(x, Admit(a, 3));
    assert y.s.m.book.sent[|x.s.m.book.sent|] == Sent(3, Go);
  }

  // --- who can do that ---

  /** The step is a call that stops the container: an outsider's, a detached one, or a worker's. */
  ghost predicate StopCall(s: Sys, e: Event, x: Name)
    requires Grounded(s.m) && Enabled(s, e)
  {
    match e
    case OutsideStop(c) => c == x
    case Detached(c, ok) => c == x && ok
    case Work(op, r) =>
      JobAt(s.m, op);
      var w := s.m.crew.jobs[op];
      r.Ok? && ((w.pc.Stop? && w.list[w.pc.i] == x) || (w.pc == CleanStop && w.own == x))
    case _ => false
  }

  /** A running container is stopped by such a call and by nothing else. */
  lemma StoppedExactly(s: Sys, e: Event, x: Name)
    requires Grounded(s.m) && Enabled(s, e) && x in s.docker.running
    ensures x !in Apply(s, e).docker.running <==> StopCall(s, e, x)
  {
    if e.Work? { WorkStops(s, e, x); } else { OtherStops(s, e); }
  }

  lemma WorkStops(s: Sys, e: Event, x: Name)
    requires Grounded(s.m) && Enabled(s, e) && x in s.docker.running && e.Work?
    ensures x !in Apply(s, e).docker.running <==> StopCall(s, e, x)
  {
    JobAt(s.m, e.op);
    CallStops(s.m.crew.jobs[e.op], e.resp, s.docker.running, x);
  }

  /** While the pool is ACTIVE a worker that makes one has been superseded. */
  lemma OnlySuperseded(m: Mgr, op: nat)
    requires Inv(m) && m.state == Active && op in m.crew.jobs
    ensures op < m.crew.opSeq && m.crew.jobs[op].cancelled
  {
  }

  lemma CallStops(w: Job, r: Resp, running: set<Name>, x: Name)
    requires InRange(w) && x in running
    ensures x !in Effect(w, r, running) <==>
      r.Ok? && ((w.pc.Stop? && w.list[w.pc.i] == x) || (w.pc == CleanStop && w.own == x))
  {
  }

  lemma OtherStops(s: Sys, e: Event)
    requires Grounded(s.m) && Enabled(s, e) && !e.Work?
    ensures Apply(s, e).docker.running ==
      match e
      case OutsideStop(c) => s.docker.running - {c}
      case Detached(c, ok) => if ok then s.docker.running - {c} else s.docker.running
      case OutsideStart(c) => s.docker.running + {c}
      case _ => s.docker.running
  {
  }

  /** Nobody is left who could stop the container but an outsider. */
  ghost predicate Unhaunted(s: Sys, x: Name)
  {
    x in s.docker.running && s.m.crew.jobs == map[] && x !in s.m.stops
  }

  lemma UnhauntedStays(s: Sys, e: Event, a: Name)
    requires Kept(s) && Grounded(s.m) && ActiveOn(s, a) && a in s.m.cfg.members && e != OutsideStop(Own(s, a))
    requires Unhaunted(s, Own(s, a)) && ActiveOn(Apply(s, e), a)
    ensures Unhaunted(Apply(s, e), Own(s, a))
  {
    if Enabled(s, e) {
      StoppedExactly(s, e, Own(s, a));
      StopsIssued(s, e);
      NoneHired(s, e, a);
    }
  }

  function Own(s: Sys, a: Name): Name
    requires a in s.m.cfg.members
  {
    s.m.cfg.members[a].containerName
  }

  /** A worker is sent off only with the pool leaving ACTIVE. */
  lemma NoneHired(s: Sys, e: Event, a: Name)
    requires Kept(s) && Grounded(s.m) && ActiveOn(s, a) && Enabled(s, e) && s.m.crew.jobs == map[]
    requires ActiveOn(Apply(s, e), a)
    ensures Apply(s, e).m.crew.jobs == map[]
  {
    match e
    case Admit(n, reply) => AdmitHires(s.m, n, reply, s.now);
    case Fire(t) => TickHires(TakeTick(s.m, t), t, s.now);
    case Notice(c, action) => NoticeHires(s.m, c, action);
    case _ =>
  }

  lemma AdmitHires(m: Mgr, n: Name, reply: nat, now: int)
    requires Typed(m) && HandleAdmit(m, n, reply, now).state == Active
    ensures HandleAdmit(m, n, reply, now).crew == m.crew
  {
  }

  lemma TickHires(m: Mgr, t: Tick, now: int)
    requires Typed(m) && HandleTick(m, t, now).state == Active
    ensures HandleTick(m, t, now).crew == m.crew
  {
  }

  lemma NoticeHires(m: Mgr, container: Name, action: Action)
    requires Typed(m) && HandleExternalEvent(m, container, action).state == Active
    ensures HandleExternalEvent(m, container, action).crew == m.crew
  {
  }

  /** With no superseded worker alive and no detached stop of it outstanding, the container of the
      ACTIVE service runs for as long as the service is ACTIVE and no outsider stops it. */
  lemma {:induction false} RunsWhileActive(s: Sys, run: seq<Event>, a: Name)
    requires Kept(s) && Grounded(s.m) && a in s.m.cfg.members && ActiveOn(s, a) && Unhaunted(s, Own(s, a))
    requires ActiveThroughout(s, run) && OutsideStop(Own(s, a)) !in run
    ensures Own(s, a) in Exec(s, run).docker.running
    decreases |run|
  {
    if run != [] {
      ApplyKept(s, run[0]);
      ApplyGrounded(s, run[0]);
      StaysOn(s, run[0], a);
      UnhauntedStays(s, run[0], a);
      RunsWhileActive(Apply(s, run[0]), run[1..], a);
    }
  }

  lemma StaysOn(s: Sys, e: Event, a: Name)
    requires Kept(s) && Grounded(s.m) && ActiveOn(s, a)
    requires Apply(s, e).m.state == Active && !Apply(s, e).closed
    ensures ActiveOn(Apply(s, e), a)
  {
    if Enabled(s, e) {
      if e.Report? { StaleReportIsIgnored(s, e.op); } else { NothingElseOpens(s, e, Apply(s, e).m.active); }
    }
  }
}
