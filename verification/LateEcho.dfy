/** Without calm the pool can take its own stop for a stranger's: a late echo of it, heard after
    the next swap to the same container has been announced, ends that swap. Every pool with a
    member has such a run. */
module LateEcho {
  import opened Names
  import opened State
  import opened Ledger
  import opened Worker
  import opened Manager
  import opened Invariant
  import opened System
  import opened Safety
  import opened Registry
  import opened Walks
  import opened Echo

  /** Nobody interferes: clients ask, operators stop the pool, the manager and its workers do their
      work, every call succeeds, and what Docker reports is delivered. */
  predicate Peaceful(mv: Move)
  {
    mv.Deliver? || mv.e.Admit? || mv.e.AdminStop? || mv.e.Report? || (mv.e.Work? && mv.e.resp.Ok?)
  }

  /** The moves lead from x to y, with nobody interfering. */
  ghost predicate Brings(x: Wire, moves: seq<Move>, y: Wire)
  {
    Grounded(x.s.m) && FeedAll(x, moves) == y && forall mv :: mv in moves ==> Peaceful(mv)
  }

  lemma BringsBy(x: Wire, mv: Move) returns (y: Wire)
    requires Grounded(x.s.m) && Peaceful(mv)
    ensures y == Feed(x, mv) && Grounded(y.s.m) && Brings(x, [mv], y)
  {
    FeedGrounded(x, mv);
    y := Feed(x, mv);
    assert [mv][1..] == [];
    assert FeedAll(y, []) == y;
  }

  lemma {:induction false} FeedOn(x: Wire, a: seq<Move>, b: seq<Move>)
    requires Grounded(x.s.m)
    ensures FeedAll(x, a + b) == FeedAll(FeedAll(x, a), b)
    decreases |a|
  {
    if a == [] {
      assert a + b == b;
    } else {
      FeedGrounded(x, a[0]);
      assert (a + b)[0] == a[0] && (a + b)[1..] == a[1..] + b;
      FeedOn(Feed(x, a[0]), a[1..], b);
    }
  }

  lemma BringsOn(x: Wire, a: seq<Move>, y: Wire, b: seq<Move>, z: Wire)
    requires Brings(x, a, y) && Brings(y, b, z)
    ensures Brings(x, a + b, z)
  {
    FeedOn(x, a, b);
  }

  // --- one move ---

  /** A move of the manager makes no echo, and tells the registry nothing. */
  lemma Plain(x: Wire, e: Event) returns (y: Wire)
    requires Grounded(x.s.m) && Enabled(x.s, e) && (e.Admit? || e.AdminStop? || e.Report?)
    ensures Brings(x, [Step(e, [])], y) && Grounded(y.s.m) && y == Wire(Apply(x.s, e), x.table, x.stream)
  {
    y := BringsBy(x, Step(e, []));
    assert x.stream + [] == x.stream;
  }

  /** Only worker `op` differs between the two, and it follows the same plan. */
  ghost predicate OnlyWorker(x: Wire, op: nat, y: Wire)
  {
    && op in x.s.m.crew.jobs && op in y.s.m.crew.jobs && y.s.now == x.s.now && y.s.closed == x.s.closed
    && y.s.m == x.s.m.(crew := x.s.m.crew.(jobs := x.s.m.crew.jobs[op := y.s.m.crew.jobs[op]]))
    && SamePlan(x.s.m.crew.jobs[op], y.s.m.crew.jobs[op])
    && y.s.m.crew.jobs[op].firstErr == x.s.m.crew.jobs[op].firstErr
  }

  /** What one step of worker `op` makes of the whole. */
  lemma WorkFeeds(x: Wire, op: nat, r: Resp, echo: seq<Action>)
    requires Grounded(x.s.m) && !x.s.closed && op in x.s.m.crew.jobs && InRange(x.s.m.crew.jobs[op])
    requires Fits(x.s.m.crew.jobs[op], r, x.s.now, x.s.docker.running)
    requires TakesEffect(x.s.m.crew.jobs[op], r, x.s.docker.running) ==> EchoOf(ActsOn(x.s.m.crew.jobs[op]).1, echo)
    ensures Happens(x, Step(Work(op, r), echo))
    ensures InRange(Worker.Step(x.s.m.crew.jobs[op], r, x.s.now))
    ensures var w := x.s.m.crew.jobs[op];
      var v := Worker.Step(w, r, x.s.now);
      Feed(x, Step(Work(op, r), echo)) == Wire(
        WorkStep(x.s, op, r),
        if Acting(v) then Table(x.table, Expected(ActsOn(v).0, ActsOn(v).1, x.s.now)) else x.table,
        x.stream + if TakesEffect(w, r, x.s.docker.running) then Burst(ActsOn(w).0, echo, true) else [])
  {
    JobAt(x.s.m, op);
    StepShaped(x.s.m.crew.jobs[op], r, x.s.now);
  }

  /** One step of worker `op`: what it does to itself, to Docker, to the registry and the stream. */
  lemma WorkMove(x: Wire, op: nat, r: Resp, echo: seq<Action>) returns (y: Wire)
    requires Grounded(x.s.m) && !x.s.closed && op in x.s.m.crew.jobs && InRange(x.s.m.crew.jobs[op])
    requires Fits(x.s.m.crew.jobs[op], r, x.s.now, x.s.docker.running)
    requires TakesEffect(x.s.m.crew.jobs[op], r, x.s.docker.running) ==> EchoOf(ActsOn(x.s.m.crew.jobs[op]).1, echo)
    requires Worker.Step(x.s.m.crew.jobs[op], r, x.s.now).firstErr == x.s.m.crew.jobs[op].firstErr && r.Ok?
    ensures Brings(x, [Step(Work(op, r), echo)], y) && Grounded(y.s.m) && OnlyWorker(x, op, y)
    ensures y.s.m.crew.jobs[op] == Worker.Step(x.s.m.crew.jobs[op], r, x.s.now)
    ensures y.s.docker.running == Effect(x.s.m.crew.jobs[op], r, x.s.docker.running)
    ensures y.stream == x.stream +
      if TakesEffect(x.s.m.crew.jobs[op], r, x.s.docker.running) then Burst(ActsOn(x.s.m.crew.jobs[op]).0, echo, true)
      else []
    ensures var v := y.s.m.crew.jobs[op];
      InRange(v) && y.table ==
        if Acting(v) then Table(x.table, Expected(ActsOn(v).0, ActsOn(v).1, x.s.now)) else x.table
  {
    WorkFeeds(x, op, r, echo);
    StepKeepsPlan(x.s.m.crew.jobs[op], r, x.s.now);
    y := BringsBy(x, Step(Work(op, r), echo));
  }

  /** The worker has moved unheard: nothing was started or stopped, nothing announced. */
  ghost predicate Unheard(x: Wire, op: nat, moves: seq<Move>, y: Wire)
  {
    Brings(x, moves, y) && Grounded(y.s.m) && OnlyWorker(x, op, y)
    && y.s.docker.running == x.s.docker.running && y.table == x.table && y.stream == x.stream
  }

  lemma UnheardOn(x: Wire, op: nat, a: seq<Move>, y: Wire, b: seq<Move>, z: Wire)
    requires Unheard(x, op, a, y) && Unheard(y, op, b, z)
    ensures Unheard(x, op, a + b, z)
  {
    BringsOn(x, a, y, b, z);
  }

  lemma LookMove(x: Wire, op: nat, b: bool) returns (y: Wire)
    requires Grounded(x.s.m) && !x.s.closed && op in x.s.m.crew.jobs && InRange(x.s.m.crew.jobs[op])
    requires var w := x.s.m.crew.jobs[op]; !w.cancelled && (w.pc.Check? || (w.pc.Inspect? && !b))
    requires Fits(x.s.m.crew.jobs[op], Ok(b), x.s.now, x.s.docker.running)
    ensures Unheard(x, op, [Step(Work(op, Ok(b)), [])], y)
    ensures y.s.m.crew.jobs[op] == Worker.Step(x.s.m.crew.jobs[op], Ok(b), x.s.now)
  {
    LooksOn(x.s.m.crew.jobs[op], b, x.s.now, x.s.docker.running);
    y := WorkMove(x, op, Ok(b), []);
    assert x.stream + [] == x.stream;
  }

  lemma LooksOn(w: Job, b: bool, now: int, running: set<Name>)
    requires InRange(w) && !w.cancelled && (w.pc.Check? || (w.pc.Inspect? && !b)) && Fits(w, Ok(b), now, running)
    ensures !Acting(Worker.Step(w, Ok(b), now)) && Worker.Step(w, Ok(b), now).firstErr == w.firstErr
    ensures !TakesEffect(w, Ok(b), running) && Effect(w, Ok(b), running) == running
  {
  }

  // --- a swap in a cold pool ---

  lemma {:induction false} SweepUnheard(x: Wire, op: nat, i: nat) returns (moves: seq<Move>, y: Wire)
    requires Grounded(x.s.m) && !x.s.closed && op in x.s.m.crew.jobs && x.s.docker.running == {}
    requires var w := x.s.m.crew.jobs[op]; w.swap && !w.cancelled && i <= |w.list| && w.pc == At(w, i)
    ensures Unheard(x, op, moves, y) && y.s.m.crew.jobs[op].pc == PreStart
    decreases |x.s.m.crew.jobs[op].list| - i
  {
    var w := x.s.m.crew.jobs[op];
    if i == |w.list| {
      moves, y := [], x;
      assert x.s.m.crew.jobs == x.s.m.crew.jobs[op := w];
      assert FeedAll(x, []) == x;
    } else {
      var a := LookMove(x, op, false);
      var rest;
      rest, y := SweepUnheard(a, op, i + 1);
      moves := [Step(Work(op, Ok(false)), [])] + rest;
      UnheardOn(x, op, [Step(Work(op, Ok(false)), [])], a, rest, y);
    }
  }

  /** The swap comes to its start, and announces it. */
  lemma Announced(x: Wire, op: nat) returns (moves: seq<Move>, y: Wire)
    requires Grounded(x.s.m) && !x.s.closed && op in x.s.m.crew.jobs && x.s.docker.running == {}
    requires var w := x.s.m.crew.jobs[op]; w.swap && !w.cancelled && w.pc == At(w, 0)
    ensures Brings(x, moves, y) && Grounded(y.s.m) && OnlyWorker(x, op, y)
    ensures y.s.docker.running == {} && y.stream == x.stream && y.s.m.crew.jobs[op].pc == Start
    ensures y.table == x.table[x.s.m.crew.jobs[op].own := OpEntry(StartOp, x.s.now, 1)]
  {
    var a, u := SweepUnheard(x, op, 0);
    y := WorkMove(u, op, Ok(true), []);
    assert u.stream + [] == u.stream;
    moves := a + [Step(Work(op, Ok(true)), [])];
    BringsOn(x, a, u, [Step(Work(op, Ok(true)), [])], y);
  }

  /** It starts its target, and the pool hears of it in time. */
  lemma StartHeard(x: Wire, op: nat) returns (moves: seq<Move>, y: Wire)
    requires Grounded(x.s.m) && !x.s.closed && op in x.s.m.crew.jobs && x.s.docker.running == {} && x.stream == []
    requires var w := x.s.m.crew.jobs[op];
      w.pc == Start && w.own in x.table && x.table[w.own] == OpEntry(StartOp, x.s.now, 1)
    ensures Brings(x, moves, y) && Grounded(y.s.m) && OnlyWorker(x, op, y) && y.stream == []
    ensures y.s.docker.running == {x.s.m.crew.jobs[op].own} && y.s.m.crew.jobs[op].pc == PostStart
  {
    var a := WorkMove(x, op, Ok(true), [ActStart]);
    y := BringsBy(a, Deliver);
    moves := [Step(Work(op, Ok(true)), [ActStart])] + [Deliver];
    BringsOn(x, [Step(Work(op, Ok(true)), [ActStart])], a, [Deliver], y);
  }

  // --- the operator's stop ---

  lemma {:induction false} StopCold(x: Wire, op: nat, i: nat) returns (moves: seq<Move>, y: Wire)
    requires Grounded(x.s.m) && Stopping(x.s, op, i) && !x.s.m.crew.jobs[op].firstErr && x.s.docker.running == {}
    ensures Unheard(x, op, moves, y) && y.s.m.crew.jobs[op].pc == Done(PoolStopped, false)
    decreases |x.s.m.crew.jobs[op].list| - i
  {
    var w := x.s.m.crew.jobs[op];
    if i == |w.list| {
      moves, y := [], x;
      assert x.s.m.crew.jobs == x.s.m.crew.jobs[op := w];
      assert FeedAll(x, []) == x;
    } else {
      var two, a := PassCold(x, op, i);
      var rest;
      rest, y := StopCold(a, op, i + 1);
      moves := two + rest;
      UnheardOn(x, op, two, a, rest, y);
    }
  }

  /** Member i is looked at and found stopped. */
  lemma PassCold(x: Wire, op: nat, i: nat) returns (moves: seq<Move>, y: Wire)
    requires Grounded(x.s.m) && Stopping(x.s, op, i) && i < |x.s.m.crew.jobs[op].list|
    requires x.s.m.crew.jobs[op].list[i] !in x.s.docker.running
    ensures Unheard(x, op, moves, y) && Stopping(y.s, op, i + 1)
  {
    var a := LookMove(x, op, true);
    y := LookMove(a, op, false);
    moves := [Step(Work(op, Ok(true)), [])] + [Step(Work(op, Ok(false)), [])];
    UnheardOn(x, op, [Step(Work(op, Ok(true)), [])], a, [Step(Work(op, Ok(false)), [])], y);
  }

  /** Member i is running: the stop comes to it, and announces that it will stop it. */
  lemma ComesToStop(x: Wire, op: nat, i: nat) returns (moves: seq<Move>, y: Wire)
    requires Grounded(x.s.m) && Stopping(x.s, op, i) && i < |x.s.m.crew.jobs[op].list|
    requires x.s.m.crew.jobs[op].list[i] in x.s.docker.running
    ensures Brings(x, moves, y) && Grounded(y.s.m) && OnlyWorker(x, op, y)
    ensures y.s.m.crew.jobs[op].pc == Stop(i) && y.s.m.crew.jobs[op].cancelled == x.s.m.crew.jobs[op].cancelled
    ensures y.s.docker.running == x.s.docker.running && y.stream == x.stream
  {
    var a := LookMove(x, op, true);
    y := WorkMove(a, op, Ok(true), []);
    assert a.stream + [] == a.stream;
    moves := [Step(Work(op, Ok(true)), [])] + [Step(Work(op, Ok(true)), [])];
    BringsOn(x, [Step(Work(op, Ok(true)), [])], a, [Step(Work(op, Ok(true)), [])], y);
  }

  /** It stops the container and sees that it stopped; Docker reports the death, but not yet. */
  lemma StopsAndSees(x: Wire, op: nat, i: nat) returns (moves: seq<Move>, y: Wire)
    requires Grounded(x.s.m) && !x.s.closed && op in x.s.m.crew.jobs && x.stream == []
    requires var w := x.s.m.crew.jobs[op];
      !w.swap && !w.cancelled && i < |w.list| && w.pc == Stop(i) && x.s.docker.running == {w.list[i]}
    ensures Brings(x, moves, y) && Grounded(y.s.m) && OnlyWorker(x, op, y) && Stopping(y.s, op, i + 1)
    ensures y.s.docker.running == {} && y.stream == [Happening(x.s.m.crew.jobs[op].list[i], ActDie, true)]
  {
    var a := WorkMove(x, op, Ok(true), [ActDie]);
    y := WorkMove(a, op, Ok(false), []);
    assert a.stream + [] == a.stream;
    moves := [Step(Work(op, Ok(true)), [ActDie])] + [Step(Work(op, Ok(false)), [])];
    BringsOn(x, [Step(Work(op, Ok(true)), [ActDie])], a, [Step(Work(op, Ok(false)), [])], y);
  }

  /** Member i is running, and stopped, unheard so far. */
  lemma StopOne(x: Wire, op: nat, i: nat) returns (moves: seq<Move>, y: Wire)
    requires Grounded(x.s.m) && Stopping(x.s, op, i) && i < |x.s.m.crew.jobs[op].list| && x.stream == []
    requires x.s.docker.running == {x.s.m.crew.jobs[op].list[i]}
    ensures Brings(x, moves, y) && Grounded(y.s.m) && OnlyWorker(x, op, y) && Stopping(y.s, op, i + 1)
    ensures y.s.docker.running == {} && y.stream == [Happening(x.s.m.crew.jobs[op].list[i], ActDie, true)]
  {
    var m1, a := ComesToStop(x, op, i);
    var m2;
    m2, y := StopsAndSees(a, op, i);
    moves := m1 + m2;
    BringsOn(x, m1, a, m2, y);
  }

  /** The stop comes to the one running container, stops it, and goes through. */
  lemma {:induction false} StopWarm(x: Wire, op: nat, i: nat, d: Name) returns (moves: seq<Move>, y: Wire)
    requires Grounded(x.s.m) && Stopping(x.s, op, i) && !x.s.m.crew.jobs[op].firstErr && x.stream == []
    requires x.s.docker.running == {d} && d in x.s.m.crew.jobs[op].list[i..]
    ensures Brings(x, moves, y) && Grounded(y.s.m) && OnlyWorker(x, op, y) && y.s.docker.running == {}
    ensures y.stream == [Happening(d, ActDie, true)] && y.s.m.crew.jobs[op].pc == Done(PoolStopped, false)
    decreases |x.s.m.crew.jobs[op].list| - i
  {
    var w := x.s.m.crew.jobs[op];
    var first, a, rest;
    if w.list[i] == d {
      first, a := StopOne(x, op, i);
      rest, y := StopCold(a, op, i + 1);
    } else {
      first, a := PassCold(x, op, i);
      rest, y := StopWarm(a, op, i + 1, d);
    }
    moves := first + rest;
    BringsOn(x, first, a, rest, y);
  }

  // --- the run ---

  /** A request in a cold pool starts a swap. */
  lemma Asked(c: Config, a: Name) returns (x: Wire)
    requires CfgOk(c) && a in c.members && Grounded(Boot(c, {}, {}).m)
    ensures Brings(Quietly(c, {}, {}), [Step(Admit(a, 1), [])], x) && Grounded(x.s.m) && !x.s.closed && x.s.m.cfg == c
    ensures x.table == map[] && x.stream == [] && x.s.docker.running == {}
    ensures x.s.m.state == Swapping && x.s.m.crew.opSeq == 1 && x.s.m.book.asked.Keys == {1}
    ensures x.s.m.crew == Crew(1, Some(1), map[1 := SwapJob(c, 1, a)])
  {
    x := Plain(Quietly(c, {}, {}), Admit(a, 1));
  }

  /** It starts the container, and the pool hears of that. */
  lemma Warm(c: Config, a: Name) returns (moves: seq<Move>, x: Wire)
    requires CfgOk(c) && a in c.members && Grounded(Boot(c, {}, {}).m)
    ensures Brings(Quietly(c, {}, {}), moves, x) && Grounded(x.s.m) && !x.s.closed && x.s.m.cfg == c
    ensures x.stream == [] && x.s.docker.running == {c.members[a].containerName}
    ensures x.s.m.state == Swapping && x.s.m.crew.opSeq == 1 && x.s.m.book.asked.Keys == {1}
  {
    var x1 := Asked(c, a);
    var m2, x2 := Announced(x1, 1);
    var m3;
    m3, x := StartHeard(x2, 1);
    moves := [Step(Admit(a, 1), [])] + m2 + m3;
    BringsOn(Quietly(c, {}, {}), [Step(Admit(a, 1), [])], x1, m2, x2);
    BringsOn(Quietly(c, {}, {}), [Step(Admit(a, 1), [])] + m2, x2, m3, x);
  }

  /** The operator stops the pool; the container dies, but that is not heard yet. */
  lemma Stopped(x: Wire, d: Name) returns (moves: seq<Move>, y: Wire)
    requires Grounded(x.s.m) && CfgOk(x.s.m.cfg) && !x.s.closed && x.stream == [] && x.s.docker.running == {d}
    requires d in AllContainers(x.s.m.cfg) && x.s.m.state == Swapping && x.s.m.crew.opSeq == 1
    ensures Brings(x, moves, y) && Grounded(y.s.m) && !y.s.closed && y.s.m.cfg == x.s.m.cfg
    ensures y.s.docker.running == {} && y.stream == [Happening(d, ActDie, true)]
    ensures y.s.m.state == Idle && y.s.m.crew.opSeq == 2 && NobodyWaits(y.s.m) && y.s.m.book.asked == x.s.m.book.asked
  {
    var order := Sorted(x.s.m.cfg.members.Keys);
    var t := OperatorStops(x.s, order);
    var x1 := Plain(x, AdminStop(order));
    var m2, x2 := StopWarm(x1, 2, 0, d);
    var u := StopReported(x2.s, 2);
    y := Plain(x2, Report(2));
    moves := [Step(AdminStop(order), [])] + m2 + [Step(Report(2), [])];
    BringsOn(x, [Step(AdminStop(order), [])], x1, m2, x2);
    BringsOn(x, [Step(AdminStop(order), [])] + m2, x2, [Step(Report(2), [])], y);
  }

  lemma AskedAgain(x: Wire, a: Name) returns (y: Wire)
    requires Grounded(x.s.m) && CfgOk(x.s.m.cfg) && !x.s.closed && a in x.s.m.cfg.members
    requires x.s.m.state == Idle && x.s.m.crew.opSeq == 2 && NobodyWaits(x.s.m) && 2 !in x.s.m.book.asked
    ensures Brings(x, [Step(Admit(a, 2), [])], y) && Grounded(y.s.m) && !y.s.closed && y.s.m.cfg == x.s.m.cfg
    ensures y.stream == x.stream && y.s.docker == x.s.docker && y.s.m.state == Swapping && y.s.m.target == a
    ensures OnlyOneWaits(y.s.m, a) && y.s.m.crew.jobs == Release(x.s.m.crew).jobs[3 := SwapJob(x.s.m.cfg, 3, a)]
    ensures y.s.m.crew.opSeq == 3 && y.s.m.crew.swapCancel == Some(3) && y.s.m.adminPending == x.s.m.adminPending
    ensures y.table == x.table && y.s.m.book.asked.Keys == x.s.m.book.asked.Keys + {2}
  {
    assert |x.s.m.book.queues[a]| == 0;
    y := Plain(x, Admit(a, 2));
  }

  /** The second request is the only one that waits. */
  ghost predicate OnlyOneWaits(m: Mgr, a: Name)
  {
    && a in m.book.queues && |m.book.queues[a]| == 1 && m.book.queues[a][0].reply == 2
    && forall n :: n in m.book.queues && n != a ==> m.book.queues[n] == []
  }

  lemma AbortAnswers(m: Mgr, a: Name)
    requires Typed(m) && m.state == Swapping && a in m.cfg.members && OnlyOneWaits(m, a)
    ensures Abort(m, a).state == Error && Abort(m, a).crew.opSeq == m.crew.opSeq + 1
    ensures Sent(2, DockerError) in Abort(m, a).book.sent
  {
    var b := Flush(m.book, a, DockerError);
    assert b.sent[|m.book.sent|] == Sent(2, DockerError);
    assert forall k :: !Waiting(b.queues, k);
  }

  /** The late echo of a stop ends the swap to the same container, and the waiter is told that
      Docker failed. */
  lemma EchoAborts(x: Wire, a: Name) returns (y: Wire)
    requires Grounded(x.s.m) && CfgOk(x.s.m.cfg) && !x.s.closed && a in x.s.m.cfg.members
    requires x.s.m.state == Swapping && x.s.m.target == a && OnlyOneWaits(x.s.m, a)
    requires var d := x.s.m.cfg.members[a].containerName;
      x.stream == [Happening(d, ActDie, true)] && d in x.table && x.table[d].kind == StartOp
    ensures Escapes(x, Deliver) && Brings(x, [Deliver], y) && Grounded(y.s.m)
    ensures y.s.m.state == Error && y.s.m.crew.opSeq == x.s.m.crew.opSeq + 1
    ensures Sent(2, DockerError) in y.s.m.book.sent
  {
    var d := x.s.m.cfg.members[a].containerName;
    y := BringsBy(x, Deliver);
    assert OwnsContainer(x.s.m.cfg, d, a);
    assert MemberByContainer(x.s.m.cfg, d) == Some(a);
    assert y.s.m == HandleExternalEvent(x.s.m, d, ActDie);
    AbortAnswers(x.s.m, a);
  }

  /** In every pool, for each of its members, with nobody interfering and every call obeyed: the
      echo of the pool's own stop can be taken for a stranger's, and cost the next swap and its waiter. */
  lemma LateEchoEndsSwap(c: Config, a: Name) returns (moves: seq<Move>, x: Wire, y: Wire)
    requires CfgOk(c) && a in c.members && Grounded(Boot(c, {}, {}).m)
    ensures Brings(Quietly(c, {}, {}), moves, x) && x.s.m.state == Swapping && x.s.m.target == a
    ensures Escapes(x, Deliver) && Brings(x, [Deliver], y)
    ensures y.s.m.state == Error && y.s.m.crew.opSeq == x.s.m.crew.opSeq + 1
    ensures Sent(2, DockerError) in y.s.m.book.sent
  {
    var q := Quietly(c, {}, {});
    AllContainersAre(c);
    var m1, x1 := Warm(c, a);
    var m2, x2 := Stopped(x1, c.members[a].containerName);
    BringsOn(q, m1, x1, m2, x2);
    var x3 := AskedAgain(x2, a);
    BringsOn(q, m1 + m2, x2, [Step(Admit(a, 2), [])], x3);
    var m4;
    m4, x := Announced(x3, 3);
    moves := m1 + m2 + [Step(Admit(a, 2), [])] + m4;
    BringsOn(q, m1 + m2 + [Step(Admit(a, 2), [])], x3, m4, x);
    y := EchoAborts(x, a);
  }
}
