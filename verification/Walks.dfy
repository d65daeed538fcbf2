/** Pieces of runs: how a worker is walked through its program, and how the manager takes
    an operator's stop. The witnesses of other modules are put together from them. */
module Walks {
  import opened Names
  import opened State
  import opened Ledger
  import opened Worker
  import opened Manager
  import opened Invariant
  import opened System
  import opened Exclusion

  lemma ExecFirst(s: Sys, e: Event, rest: seq<Event>)
    requires Grounded(s.m)
    ensures Grounded(Apply(s, e).m) && Exec(s, [e] + rest) == Exec(Apply(s, e), rest)
  {
    ApplyGrounded(s, e);
    assert ([e] + rest)[0] == e && ([e] + rest)[1..] == rest;
  }

  /** The orderly run leads from s to t. */
  ghost predicate Leads(s: Sys, run: seq<Event>, t: Sys)
  {
    Grounded(s.m) && OrderlyRun(s, run) && Exec(s, run) == t
  }

  lemma LeadsBy(s: Sys, e: Event) returns (t: Sys)
    requires Grounded(s.m) && Orderly(s, e)
    ensures t == Apply(s, e) && Grounded(t.m) && Leads(s, [e], t)
  {
    t := Apply(s, e);
    ApplyGrounded(s, e);
    assert [e][1..] == [];
    ExecFirst(s, e, []);
    assert [e] + [] == [e];
    assert OrderlyRun(t, []);
  }

  lemma {:induction false} ExecOn(s: Sys, a: seq<Event>, b: seq<Event>)
    requires Grounded(s.m)
    ensures Exec(s, a + b) == Exec(Exec(s, a), b)
    decreases |a|
  {
    if a == [] {
      assert a + b == b;
    } else {
      ApplyGrounded(s, a[0]);
      assert (a + b)[0] == a[0] && (a + b)[1..] == a[1..] + b;
      ExecOn(Apply(s, a[0]), a[1..], b);
    }
  }

  lemma {:induction false} OrderlyOn(s: Sys, a: seq<Event>, b: seq<Event>)
    requires Grounded(s.m) && OrderlyRun(s, a) && OrderlyRun(Exec(s, a), b)
    ensures OrderlyRun(s, a + b)
    decreases |a|
  {
    if a == [] {
      assert a + b == b;
    } else {
      ApplyGrounded(s, a[0]);
      assert (a + b)[0] == a[0] && (a + b)[1..] == a[1..] + b;
      OrderlyOn(Apply(s, a[0]), a[1..], b);
    }
  }

  lemma LeadsOn(s: Sys, a: seq<Event>, t: Sys, b: seq<Event>, u: Sys)
    requires Leads(s, a, t) && Leads(t, b, u)
    ensures Leads(s, a + b, u)
  {
    OrderlyOn(s, a, b);
    ExecOn(s, a, b);
  }

  ghost predicate Cold(s: Sys, op: nat)
  {
    && Grounded(s.m) && !s.closed && s.docker.taint == map[]
    && op in s.m.crew.jobs && s.m.crew.jobs[op].swap
    && (forall x :: x in s.m.crew.jobs[op].list ==> x !in s.docker.running)
  }

  /** Only worker `op` has moved, to `pc`. */
  ghost predicate OnlyMoved(s: Sys, op: nat, t: Sys, pc: Pc)
  {
    && op in s.m.crew.jobs && op in t.m.crew.jobs
    && t.m == s.m.(crew := s.m.crew.(jobs := s.m.crew.jobs[op := t.m.crew.jobs[op]]))
    && t.now == s.now && t.closed == s.closed
    && SamePlan(s.m.crew.jobs[op], t.m.crew.jobs[op]) && t.m.crew.jobs[op].pc == pc
  }

  /** A worker whose siblings are all stopped comes to its pre-start check. */
  lemma {:induction false} SweepCold(s: Sys, op: nat, i: nat) returns (run: seq<Event>, t: Sys)
    requires Cold(s, op) && i <= |s.m.crew.jobs[op].list| && s.m.crew.jobs[op].pc == At(s.m.crew.jobs[op], i)
    ensures Leads(s, run, t) && Grounded(t.m) && OnlyMoved(s, op, t, PreStart) && t.docker == s.docker
    decreases |s.m.crew.jobs[op].list| - i
  {
    var w := s.m.crew.jobs[op];
    if i == |w.list| {
      run, t := [], s;
      assert s.m.crew.jobs == s.m.crew.jobs[op := w];
    } else {
      var s1 := LookCold(s, op, i);
      var rest, t1 := SweepCold(s1, op, i + 1);
      LeadsOn(s, [Work(op, Ok(false))], s1, rest, t1);
      run, t := [Work(op, Ok(false))] + rest, t1;
    }
  }

  lemma LookCold(s: Sys, op: nat, i: nat) returns (t: Sys)
    requires Cold(s, op) && i < |s.m.crew.jobs[op].list| && s.m.crew.jobs[op].pc == At(s.m.crew.jobs[op], i)
    ensures Leads(s, [Work(op, Ok(false))], t) && Cold(t, op) && t.docker == s.docker
    ensures OnlyMoved(s, op, t, At(s.m.crew.jobs[op], i + 1))
  {
    var w := s.m.crew.jobs[op];
    assert w.list[i] in w.list;
    StepKeepsPlan(w, Ok(false), s.now);
    t := LeadsBy(s, Work(op, Ok(false)));
  }

  /** From there it goes on to start its target, cancelled or not from then on. */
  lemma ReachStart(s: Sys, op: nat) returns (run: seq<Event>, t: Sys)
    requires Cold(s, op) && s.m.crew.jobs[op].pc == At(s.m.crew.jobs[op], 0) && !s.m.crew.jobs[op].cancelled
    ensures Leads(s, run, t) && Grounded(t.m) && OnlyMoved(s, op, t, Start) && t.docker == s.docker
  {
    var r1, s1 := SweepCold(s, op, 0);
    var s2 := LeadsBy(s1, Work(op, Ok(true)));
    LeadsOn(s, r1, s1, [Work(op, Ok(true))], s2);
    run, t := r1 + [Work(op, Ok(true))], s2;
    StepKeepsPlan(s1.m.crew.jobs[op], Ok(true), s1.now);
  }

  lemma StartTarget(s: Sys, op: nat) returns (t: Sys)
    requires Grounded(s.m) && !s.closed && s.docker.taint == map[]
    requires op in s.m.crew.jobs && s.m.crew.jobs[op].pc == Start
    ensures Leads(s, [Work(op, Ok(true))], t) && Grounded(t.m) && !t.closed
    ensures t.docker.taint == map[] && t.docker.running == s.docker.running + {s.m.crew.jobs[op].own}
    ensures forall o :: o in s.m.crew.jobs && o != op ==> o in t.m.crew.jobs && t.m.crew.jobs[o] == s.m.crew.jobs[o]
  {
    JobAt(s.m, op);
    t := LeadsBy(s, Work(op, Ok(true)));
  }

  // --- a swap, from the request to its report ---

  lemma FirstSwap(c: Config, a: Name) returns (s: Sys)
    requires CfgOk(c) && a in c.members && Grounded(Boot(c, {}, {}).m)
    ensures Leads(Boot(c, {}, {}), [Admit(a, 1)], s) && Grounded(s.m) && !s.closed && s.m.cfg == c
    ensures s.docker == Docker({}, map[]) && s.m.state == Swapping && s.m.target == a
    ensures s.m.crew == Crew(1, Some(1), map[1 := SwapJob(c, 1, a)]) && s.m.book.asked.Keys == {1}
    ensures s.m.adminPending == NONE && forall n :: n in c.members && n != a ==> s.m.book.queues[n] == []
  {
    var boot := Boot(c, {}, {});
    s := LeadsBy(boot, Admit(a, 1));
    assert s.m == StartSwap(boot.m.(book := Enqueue(boot.m.book, a, 1, c.members[a].maxQueue)), a);
  }

  /** A swap that is not superseded starts its target and finds it healthy. */
  lemma FinishSwap(s: Sys, op: nat) returns (run: seq<Event>, t: Sys)
    requires Grounded(s.m) && !s.closed && op in s.m.crew.jobs
    requires s.m.crew.jobs[op].pc == Start && !s.m.crew.jobs[op].cancelled
    ensures Leads(s, run, t) && Grounded(t.m) && OnlyMoved(s, op, t, Done(SwapComplete, false))
  {
    var head, a := StartAndLook(s, op);
    t := SwapStep(a, op, Ok(true));
    run := head + [Work(op, Ok(true))];
    LeadsOn(s, head, a, [Work(op, Ok(true))], t);
  }

  lemma StartAndLook(s: Sys, op: nat) returns (run: seq<Event>, t: Sys)
    requires Grounded(s.m) && !s.closed && op in s.m.crew.jobs
    requires s.m.crew.jobs[op].pc == Start && !s.m.crew.jobs[op].cancelled
    ensures Leads(s, run, t) && Grounded(t.m) && op in t.m.crew.jobs && !t.m.crew.jobs[op].cancelled
    ensures OnlyMoved(s, op, t, t.m.crew.jobs[op].pc)
    ensures InRange(t.m.crew.jobs[op]) && Fits(t.m.crew.jobs[op], Ok(true), t.now, t.docker.running)
    ensures Worker.Step(t.m.crew.jobs[op], Ok(true), t.now).pc == Done(SwapComplete, false)
  {
    var a := SwapStep(s, op, Ok(true));
    t := SwapStep(a, op, Ok(true));
    run := [Work(op, Ok(true))] + [Work(op, Ok(true))];
    LeadsOn(s, [Work(op, Ok(true))], a, [Work(op, Ok(true))], t);
  }

  lemma SwapStep(s: Sys, op: nat, r: Resp) returns (t: Sys)
    requires Grounded(s.m) && !s.closed && op in s.m.crew.jobs && !s.m.crew.jobs[op].cancelled && !r.Panic?
    requires InRange(s.m.crew.jobs[op]) && Fits(s.m.crew.jobs[op], r, s.now, s.docker.running)
    ensures Grounded(t.m) && Leads(s, [Work(op, r)], t) && op in t.m.crew.jobs
    ensures t.m.crew.jobs[op] == Worker.Step(s.m.crew.jobs[op], r, s.now)
    ensures OnlyMoved(s, op, t, t.m.crew.jobs[op].pc)
  {
    JobAt(s.m, op);
    StepKeepsPlan(s.m.crew.jobs[op], r, s.now);
    t := LeadsBy(s, Work(op, r));
  }

  /** Its report opens an ACTIVE period, and answers everyone who waits if all wait for the target. */
  lemma SwapReported(s: Sys, op: nat) returns (t: Sys)
    requires Grounded(s.m) && !s.closed && op == s.m.crew.opSeq && s.m.adminPending == NONE
    requires op in s.m.crew.jobs && s.m.crew.jobs[op].pc == Done(SwapComplete, false)
    requires forall n :: n in s.m.book.queues && n != s.m.crew.jobs[op].target ==> s.m.book.queues[n] == []
    ensures Leads(s, [Report(op)], t) && Grounded(t.m) && !t.closed && t.now == s.now && t.m.cfg == s.m.cfg
    ensures t.m.state == Active && t.m.active == s.m.crew.jobs[op].target && t.m.startedAt == t.now
    ensures NobodyWaits(t.m) && t.m.book.asked == s.m.book.asked && t == Apply(s, Report(op))
  {
    JobAt(s.m, op);
    t := LeadsBy(s, Report(op));
    var w := s.m.crew.jobs[op];
    var y := Land(ReleaseWorker(TakeJob(s.m, op)), Msg(w), s.now);
    LandFacts(ReleaseWorker(TakeJob(s.m, op)), Msg(w), s.now);
    assert y.book == Flush(s.m.book, w.target, Go);
    ChainRests(y, s.now);
  }

  lemma ChainRests(y: Mgr, now: int)
    requires Typed(y) && y.state == Active && y.adminPending == NONE && NobodyWaits(y)
    ensures var x := ChainAfterTerminal(y, true, now);
      x.state == Active && x.active == y.active && x.startedAt == y.startedAt && x.book == y.book && x.cfg == y.cfg
  {
    assert forall k :: !Waiting(y.book.queues, k);
  }

  // --- a stop of the whole pool ---

  /** Worker `op` is a stop that is not superseded, about to look at member i. */
  ghost predicate Stopping(s: Sys, op: nat, i: nat)
  {
    && Grounded(s.m) && !s.closed && op in s.m.crew.jobs
    && var w := s.m.crew.jobs[op]; !w.swap && !w.cancelled && i <= |w.list| && w.pc == At(w, i)
  }

  /** Only worker `op` has moved, to `pc`, and it started nothing. */
  ghost predicate Walked(s: Sys, op: nat, t: Sys, pc: Pc)
  {
    && OnlyMoved(s, op, t, pc) && t.m.crew.jobs[op].firstErr == s.m.crew.jobs[op].firstErr
    && t.docker.running <= s.docker.running && (s.docker.taint == map[] ==> t.docker.taint == map[])
  }

  /** The run walks worker `op` from s to t, and nobody else does anything. */
  ghost predicate Path(s: Sys, op: nat, run: seq<Event>, t: Sys)
  {
    && Leads(s, run, t) && (forall e :: e in run ==> e.Work?)
    && op in t.m.crew.jobs && Walked(s, op, t, t.m.crew.jobs[op].pc)
  }

  lemma PathOn(s: Sys, op: nat, a: seq<Event>, t: Sys, b: seq<Event>, u: Sys)
    requires Path(s, op, a, t) && Path(t, op, b, u)
    ensures Path(s, op, a + b, u)
  {
    LeadsOn(s, a, t, b, u);
  }

  /** One step of worker `op`, a stop. */
  lemma WalkStep(s: Sys, op: nat, r: Resp) returns (t: Sys)
    requires Grounded(s.m) && !s.closed && op in s.m.crew.jobs && !s.m.crew.jobs[op].swap && !r.Panic?
    requires InRange(s.m.crew.jobs[op]) && Fits(s.m.crew.jobs[op], r, s.now, s.docker.running)
    requires Worker.Step(s.m.crew.jobs[op], r, s.now).firstErr == s.m.crew.jobs[op].firstErr
    ensures Grounded(t.m) && Path(s, op, [Work(op, r)], t)
    ensures t.m.crew.jobs[op] == Worker.Step(s.m.crew.jobs[op], r, s.now)
    ensures t.docker.running == Effect(s.m.crew.jobs[op], r, s.docker.running)
  {
    JobAt(s.m, op);
    var w := s.m.crew.jobs[op];
    StepKeepsPlan(w, r, s.now);
    t := LeadsBy(s, Work(op, r));
  }

  /** Member i is looked at, and stopped if it runs. */
  lemma StopMember(s: Sys, op: nat, i: nat) returns (run: seq<Event>, t: Sys)
    requires Stopping(s, op, i) && i < |s.m.crew.jobs[op].list|
    ensures Path(s, op, run, t) && Stopping(t, op, i + 1)
  {
    var w := s.m.crew.jobs[op];
    var a := WalkStep(s, op, Ok(true));
    if w.list[i] !in s.docker.running {
      t := WalkStep(a, op, Ok(false));
      run := [Work(op, Ok(true))] + [Work(op, Ok(false))];
      PathOn(s, op, [Work(op, Ok(true))], a, [Work(op, Ok(false))], t);
    } else {
      var tail;
      tail, t := StopRunning(a, op, i);
      run := [Work(op, Ok(true))] + tail;
      PathOn(s, op, [Work(op, Ok(true))], a, tail, t);
    }
  }

  lemma StopRunning(s: Sys, op: nat, i: nat) returns (run: seq<Event>, t: Sys)
    requires Grounded(s.m) && !s.closed && op in s.m.crew.jobs
    requires var w := s.m.crew.jobs[op];
      !w.swap && !w.cancelled && i < |w.list| && w.pc == Inspect(i) && w.list[i] in s.docker.running
    ensures Path(s, op, run, t) && Stopping(t, op, i + 1)
  {
    var a := WalkStep(s, op, Ok(true));
    var b := WalkStep(a, op, Ok(true));
    PathOn(s, op, [Work(op, Ok(true))], a, [Work(op, Ok(true))], b);
    t := SeeStopped(b, op, i);
    run := [Work(op, Ok(true))] + [Work(op, Ok(true))] + [Work(op, Ok(false))];
    PathOn(s, op, [Work(op, Ok(true))] + [Work(op, Ok(true))], b, [Work(op, Ok(false))], t);
  }

  lemma SeeStopped(s: Sys, op: nat, i: nat) returns (t: Sys)
    requires Grounded(s.m) && !s.closed && op in s.m.crew.jobs
    requires var w := s.m.crew.jobs[op];
      !w.swap && !w.cancelled && i < |w.list| && w.pc.Confirm? && w.pc.i == i && w.pc.wake <= s.now
      && w.list[i] !in s.docker.running
    ensures Path(s, op, [Work(op, Ok(false))], t) && Stopping(t, op, i + 1)
  {
    t := WalkStep(s, op, Ok(false));
  }

  /** A stop that Docker obeys ends with every member looked at, and no error. */
  lemma {:induction false} StopWalk(s: Sys, op: nat, i: nat) returns (run: seq<Event>, t: Sys)
    requires Stopping(s, op, i) && !s.m.crew.jobs[op].firstErr
    ensures Path(s, op, run, t) && t.m.crew.jobs[op].pc == Done(PoolStopped, false)
    decreases |s.m.crew.jobs[op].list| - i
  {
    if i == |s.m.crew.jobs[op].list| {
      run, t := [], s;
      assert s.m.crew.jobs == s.m.crew.jobs[op := s.m.crew.jobs[op]];
      assert Exec(s, []) == s;
    } else {
      var a, u := StopMember(s, op, i);
      var b;
      b, t := StopWalk(u, op, i + 1);
      run := a + b;
      PathOn(s, op, a, u, b, t);
    }
  }

  /** The operator stops the pool: nobody waits any more, and a stop is at work. */
  lemma OperatorStops(s: Sys, order: seq<Name>) returns (t: Sys)
    requires Grounded(s.m) && !s.closed && s.m.state != Idle && Covers(order, s.m.cfg)
    ensures Grounded(t.m) && Leads(s, [AdminStop(order)], t) && t == Apply(s, AdminStop(order))
    ensures !t.closed && t.now == s.now && t.docker == s.docker && t.m.cfg == s.m.cfg
    ensures t.m.state == Swapping && t.m.adminPending == NONE && t.m.target == NONE && NobodyWaits(t.m)
    ensures t.m.book.asked == s.m.book.asked && t.m.crew.opSeq == s.m.crew.opSeq + 1
    ensures t.m.crew.jobs == Release(s.m.crew).jobs[t.m.crew.opSeq := StopJob(s.m.cfg, t.m.crew.opSeq)]
    ensures Stopping(t, t.m.crew.opSeq, 0) && !t.m.crew.jobs[t.m.crew.opSeq].firstErr
  {
    t := LeadsBy(s, AdminStop(order));
    CoversQueues(s.m, order);
    FlushAllEmpties(s.m.book, order, Shutdown);
  }

  /** Its report lands in IDLE, with nobody waiting. */
  lemma StopReported(s: Sys, op: nat) returns (t: Sys)
    requires Grounded(s.m) && !s.closed && op == s.m.crew.opSeq && s.m.adminPending == NONE
    requires op in s.m.crew.jobs && s.m.crew.jobs[op].pc == Done(PoolStopped, false)
    requires forall n :: !Waiting(s.m.book.queues, n)
    ensures Grounded(t.m) && Leads(s, [Report(op)], t) && t == Apply(s, Report(op))
    ensures !t.closed && t.now == s.now && t.docker == s.docker && t.m.cfg == s.m.cfg
    ensures t.m.state == Idle && t.m.adminPending == NONE && t.m.book == s.m.book && t.m.crew.opSeq == op
    ensures t.m.crew.jobs == Release(TakeJob(s.m, op).crew).jobs && t.m.crew.swapCancel == None
  {
    JobAt(s.m, op);
    t := LeadsBy(s, Report(op));
  }
}
