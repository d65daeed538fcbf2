/** Mutual exclusion over every run, its exact exceptions, and self-healing. */
module Exclusion {
  import opened Names
  import opened State
  import opened Worker
  import opened Invariant
  import opened System
  import opened Safety

  lemma BootKept(c: Config, running: set<Name>, strays: set<Name>)
    requires WellFormed(c) && running <= Containers(c)
    requires forall a, b :: a in running - strays && b in running - strays ==> a == b
    ensures Kept(Boot(c, running, strays))
  {
    var s := Boot(c, running, strays);
    assert Base(s.m);
    assert Phase(s.m);
    forall x | Unexcused(s.m.crew.jobs, s.docker, x, 0) ensures x in running - strays {
      assert x !in s.docker.taint;
    }
  }

  lemma BootSys(c: Config, running: set<Name>, strays: set<Name>)
    requires CfgOk(c) && running <= Containers(c)
    requires forall a, b :: a in running - strays && b in running - strays ==> a == b
    ensures SysInv(Boot(c, running, strays))
  {
    BootKept(c, running, strays);
  }

  lemma {:induction false} ExecKept(s: Sys, run: seq<Event>)
    requires Kept(s)
    ensures Grounded(s.m) && Kept(Exec(s, run))
    decreases |run|
  {
    if run != [] {
      ApplyKept(s, run[0]);
      ExecKept(Apply(s, run[0]), run[1..]);
    }
  }

  lemma ExecSys(s: Sys, run: seq<Event>)
    requires SysInv(s)
    ensures Grounded(s.m) && SysInv(Exec(s, run))
  {
    ExecKept(s, run);
  }

  /** The containers a pool answers for: running, not put there from outside nor left by
      a failed clean-up, and not about to be stopped by the superseded worker that started them. */
  ghost function Blamed(s: Sys): set<Name>
  {
    set c | c in s.docker.running && c !in s.docker.taint && !Excepted(s.m.crew.jobs, c)
  }

  // --- superseded workers, before and after their pre-start check ---

  /** Step j of the run is the pre-start check of worker op, which has not been superseded by then. */
  ghost predicate PassesAt(s: Sys, run: seq<Event>, j: int, op: nat)
    requires Grounded(s.m)
  {
    && 0 <= j < |run| && run[j].Work? && run[j].op == op && Enabled(Exec(s, run[..j]), run[j])
    && var w := Exec(s, run[..j]).m.crew.jobs[op]; w.pc == PreStart && !w.cancelled
  }

  /** A worker gets past its pre-start check in one way only. */
  lemma PassesNow(s: Sys, e: Event, op: nat)
    requires Kept(s) && Grounded(s.m) && Enabled(s, e) && !s.closed
    requires op in Apply(s, e).m.crew.jobs && Begun(Apply(s, e).m.crew.jobs[op])
    ensures op in s.m.crew.jobs
    ensures Begun(s.m.crew.jobs[op]) ||
      (e.Work? && e.op == op && s.m.crew.jobs[op].pc == PreStart && !s.m.crew.jobs[op].cancelled)
  {
    if e.Work? {
      JobAt(s.m, e.op);
      if e.op == op { StepPasses(s.m.crew.jobs[op], e.resp, s.now); }
    } else {
      ManagerEvolves(s, e);
    }
  }

  lemma StepPasses(w: Job, r: Resp, now: int)
    requires InRange(w) && Begun(Worker.Step(w, r, now))
    ensures Begun(w) || (w.pc == PreStart && !w.cancelled)
  {
    StepKeepsPlan(w, r, now);
  }

  lemma PassesEarlier(s: Sys, run: seq<Event>, e: Event, j: int, op: nat)
    requires Grounded(s.m) && PassesAt(s, run, j, op)
    ensures PassesAt(s, run + [e], j, op)
  {
    assert (run + [e])[..j] == run[..j] && (run + [e])[j] == run[j];
  }

  lemma PassesLast(s: Sys, run: seq<Event>, e: Event, op: nat)
    requires Grounded(s.m) && Enabled(Exec(s, run), e) && e.Work? && e.op == op
    requires Exec(s, run).m.crew.jobs[op].pc == PreStart && !Exec(s, run).m.crew.jobs[op].cancelled
    ensures PassesAt(s, run + [e], |run|, op)
  {
    assert (run + [e])[..|run|] == run && (run + [e])[|run|] == e;
  }

  lemma {:induction false} ExecLast(s: Sys, run: seq<Event>, e: Event)
    requires Grounded(s.m)
    ensures Exec(s, run + [e]) == Apply(Exec(s, run), e)
    decreases |run|
  {
    if run == [] {
      assert run + [e] == [e];
      ApplyGrounded(s, e);
      assert [e][1..] == [];
      assert Exec(Apply(s, e), []) == Apply(s, e);
    } else {
      ApplyGrounded(s, run[0]);
      assert (run + [e])[1..] == run[1..] + [e];
      ExecLast(Apply(s, run[0]), run[1..], e);
    }
  }

  /** Whoever is past its pre-start check made that check at some step of the run, and was not
      superseded then. */
  lemma {:induction false} BegunWasChecked(s: Sys, run: seq<Event>, op: nat)
    requires Kept(s) && Grounded(s.m) && s.m.crew.jobs == map[] && !Exec(s, run).closed
    requires op in Exec(s, run).m.crew.jobs && Begun(Exec(s, run).m.crew.jobs[op])
    ensures exists j :: PassesAt(s, run, j, op)
    decreases |run|
  {
    if run != [] {
      var init, e := run[..|run| - 1], run[|run| - 1];
      assert run == init + [e];
      ExecLast(s, init, e);
      ExecKept(s, init);
      var t := Exec(s, init);
      if Enabled(t, e) { PassesNow(t, e, op); }
      if Begun(t.m.crew.jobs[op]) {
        BegunWasChecked(s, init, op);
        var j :| PassesAt(s, init, j, op);
        PassesEarlier(s, init, e, j, op);
      } else {
        PassesLast(s, init, e, op);
      }
    }
  }

  /** Superseded, and not past its check. */
  ghost predicate Barred(s: Sys, op: nat)
  {
    op < s.m.crew.opSeq && (op in s.m.crew.jobs ==> !Begun(s.m.crew.jobs[op]))
  }

  lemma BarredStays(s: Sys, e: Event, op: nat)
    requires Kept(s) && Grounded(s.m) && !s.closed && Barred(s, op)
    ensures Barred(Apply(s, e), op)
  {
    if Enabled(s, e) {
      if op in Apply(s, e).m.crew.jobs && Begun(Apply(s, e).m.crew.jobs[op]) { PassesNow(s, e, op); }
      if !e.Work? { ManagerEvolves(s, e); }
    }
  }

  /** A worker that is superseded before its pre-start check never starts its target: no run has it
      past that check. */
  lemma {:induction false} SupersededNeverStarts(s: Sys, run: seq<Event>, op: nat)
    requires Kept(s) && Grounded(s.m) && !s.closed && Barred(s, op)
    ensures op in Exec(s, run).m.crew.jobs ==> !Begun(Exec(s, run).m.crew.jobs[op])
    decreases |run|
  {
    if run != [] {
      ApplyKept(s, run[0]);
      ApplyGrounded(s, run[0]);
      BarredStays(s, run[0], op);
      if Apply(s, run[0]).closed {
        ClosedStays(Apply(s, run[0]), run[1..]);
      } else {
        SupersededNeverStarts(Apply(s, run[0]), run[1..], op);
      }
    }
  }

  lemma {:induction false} ClosedStays(s: Sys, run: seq<Event>)
    requires Grounded(s.m) && s.closed
    ensures Exec(s, run) == s
    decreases |run|
  {
    if run != [] { ClosedStays(s, run[1..]); }
  }

  /** A superseded worker has started the container and has yet to stop it again; when it made its
      pre-start check, at some step of the run, it had not been superseded. */
  ghost predicate OvertakenStart(s: Sys, run: seq<Event>, c: Name)
    requires Grounded(s.m)
  {
    exists op, j :: PassesAt(s, run, j, op) && Leaves(Exec(s, run).m.crew.jobs, op, c)
  }

  ghost predicate Leaves(jobs: map<nat, Job>, op: nat, c: Name)
  {
    op in jobs && InWindow(jobs[op]) && jobs[op].own == c
  }

  lemma OvertakenExactly(s: Sys, run: seq<Event>, c: Name)
    requires Kept(s) && Grounded(s.m) && s.m.crew.jobs == map[] && !Exec(s, run).closed
    ensures OvertakenStart(s, run, c) <==> Excepted(Exec(s, run).m.crew.jobs, c)
  {
    if Excepted(Exec(s, run).m.crew.jobs, c) {
      var op :| op in Exec(s, run).m.crew.jobs && InWindow(Exec(s, run).m.crew.jobs[op])
        && Exec(s, run).m.crew.jobs[op].own == c;
      BegunWasChecked(s, run, op);
      assert Leaves(Exec(s, run).m.crew.jobs, op, c);
    }
  }

  lemma AtMostOneElement(a: set<Name>)
    requires forall x, y :: x in a && y in a ==> x == y
    ensures |a| <= 1
  {
    if x :| x in a {
      assert a == {x};
    }
  }

  /** Mutual exclusion. In every interleaving of the manager, the current worker, any number
      of superseded workers, clients, operators and outsiders, from a start with at most one
      container running besides strays, at most one container is running that no excuse covers,
      until the pool is closed. The excuses: it was started outside, or left by a failed clean-up;
      or a worker superseded only after its pre-start check has yet to stop it again. */
  lemma MutualExclusion(c: Config, running: set<Name>, strays: set<Name>, run: seq<Event>)
    requires WellFormed(c) && running <= Containers(c) && |running - strays| <= 1
    ensures Grounded(Boot(c, running, strays).m)
    ensures var boot := Boot(c, running, strays); var s := Exec(boot, run);
      !s.closed ==>
        |set x | x in s.docker.running && x !in s.docker.taint && !OvertakenStart(boot, run, x)| <= 1
  {
    forall a, b | a in running - strays && b in running - strays ensures a == b {
      if a != b {
        assert {a, b} <= running - strays;
        assert |{a, b}| == 2;
        SubsetSize({a, b}, running - strays);
      }
    }
    BootKept(c, running, strays);
    AnswersForOne(Boot(c, running, strays), run);
  }

  lemma AnswersForOne(boot: Sys, run: seq<Event>)
    requires Kept(boot) && Grounded(boot.m) && boot.m.crew.jobs == map[]
    ensures var s := Exec(boot, run);
      !s.closed ==>
        |set x | x in s.docker.running && x !in s.docker.taint && !OvertakenStart(boot, run, x)| <= 1
  {
    ExecKept(boot, run);
    var s := Exec(boot, run);
    if !s.closed {
      forall x, y | x in Blamed(s) && y in Blamed(s) ensures x == y {
        assert Unexcused(s.m.crew.jobs, s.docker, x, 0) && Unexcused(s.m.crew.jobs, s.docker, y, 0);
      }
      AtMostOneElement(Blamed(s));
      forall x ensures OvertakenStart(boot, run, x) <==> Excepted(s.m.crew.jobs, x) { OvertakenExactly(boot, run, x); }
      assert (set x | x in s.docker.running && x !in s.docker.taint && !OvertakenStart(boot, run, x)) == Blamed(s);
    }
  }

  // --- without outsiders and failed clean-ups the excuse of taint disappears ---

  /** Nobody outside starts a container, and no clean-up of a superseded worker fails. */
  ghost predicate Orderly(s: Sys, e: Event)
    requires Grounded(s.m)
  {
    Enabled(s, e) ==>
      match e
      case OutsideStart(c) => c in s.docker.running
      case Work(op, r) => JobAt(s.m, op); !Leaks(s.m.crew.jobs[op], Worker.Step(s.m.crew.jobs[op], r, s.now))
      case _ => true
  }

  ghost predicate OrderlyRun(s: Sys, run: seq<Event>)
    requires Grounded(s.m)
    decreases |run|
  {
    run == [] || (Orderly(s, run[0]) && (ApplyGrounded(s, run[0]); OrderlyRun(Apply(s, run[0]), run[1..])))
  }

  lemma OrderlyStep(s: Sys, e: Event)
    requires Grounded(s.m) && Orderly(s, e) && s.docker.taint == map[]
    ensures Apply(s, e).docker.taint == map[]
  {
  }

  lemma {:induction false} OrderlyUntainted(s: Sys, run: seq<Event>)
    requires Grounded(s.m) && OrderlyRun(s, run) && s.docker.taint == map[]
    ensures Exec(s, run).docker.taint == map[]
    decreases |run|
  {
    if run != [] {
      OrderlyStep(s, run[0]);
      ApplyGrounded(s, run[0]);
      OrderlyUntainted(Apply(s, run[0]), run[1..]);
    }
  }

  /** With no external starts and clean-ups that succeed, whatever runs beside one container
      is the target of a worker that was superseded after its pre-start check, has started it and is
      about to stop it. */
  lemma MutualExclusionOrderly(c: Config, running: set<Name>, run: seq<Event>)
    requires WellFormed(c) && running <= Containers(c) && |running| <= 1
    requires Grounded(Boot(c, running, {}).m) && OrderlyRun(Boot(c, running, {}), run)
    ensures var boot := Boot(c, running, {}); var s := Exec(boot, run);
      !s.closed ==> |set x | x in s.docker.running && !OvertakenStart(boot, run, x)| <= 1
  {
    assert running - {} == running;
    MutualExclusion(c, running, {}, run);
    OrderlyUntainted(Boot(c, running, {}), run);
    var boot := Boot(c, running, {});
    var s := Exec(boot, run);
    assert (set x | x in s.docker.running && !OvertakenStart(boot, run, x)) ==
      set x | x in s.docker.running && x !in s.docker.taint && !OvertakenStart(boot, run, x);
  }

  // --- self-healing ---

  /** Nothing runs but `own`, excuses since operation `since` apart. */
  ghost predicate RunsOnly(d: Docker, jobs: map<nat, Job>, own: set<Name>, since: nat)
  {
    forall x :: x in d.running ==> x in own || Excused(jobs, d, x, since)
  }

  lemma SwapHeals(s: Sys, op: nat)
    requires Kept(s) && Enabled(s, Report(op)) && op == s.m.crew.opSeq
    requires s.m.crew.jobs[op].pc.kind == SwapComplete
    ensures RunsOnly(s.docker, s.m.crew.jobs, {s.m.crew.jobs[op].own}, op)
  {
    forall x | x in s.docker.running && !Excused(s.m.crew.jobs, s.docker, x, op) ensures x == s.m.crew.jobs[op].own {
      SweptClean(s, op, x);
    }
  }

  lemma AllSeen(c: Config, op: nat, w: Job, x: Name)
    requires JobOk(c, op, w) && w.pc == Done(PoolStopped, false) && x in Containers(c)
    ensures x in w.seen
  {
    AllContainersAre(c);
    assert x in w.list;
    var j :| 0 <= j < |w.list| && w.list[j] == x;
  }

  lemma StopHeals(s: Sys, op: nat)
    requires Kept(s) && Enabled(s, Report(op)) && op == s.m.crew.opSeq
    requires s.m.crew.jobs[op].pc == Done(PoolStopped, false)
    ensures RunsOnly(s.docker, s.m.crew.jobs, {}, op)
  {
    assert JobOk(s.m.cfg, op, s.m.crew.jobs[op]);
    forall x | x in s.docker.running ensures Excused(s.m.crew.jobs, s.docker, x, op) {
      AllSeen(s.m.cfg, op, s.m.crew.jobs[op], x);
    }
  }

  /** Whatever was running when its worker was spawned: a report of success finds running only
      the target's container, targets of superseded workers inside their start window, and what
      was started from outside, or left by a failed clean-up, since the spawn. An error-free
      stop report finds only the latter two. */
  lemma SelfHealing(c: Config, running: set<Name>, run: seq<Event>, op: nat)
    requires WellFormed(c) && running <= Containers(c)
    ensures Grounded(Boot(c, running, running).m)
    ensures var s := Exec(Boot(c, running, running), run);
      Enabled(s, Report(op)) && op == s.m.crew.opSeq ==>
        var w := s.m.crew.jobs[op];
        && (w.pc.kind == SwapComplete ==> RunsOnly(s.docker, s.m.crew.jobs, {w.own}, op))
        && (w.pc == Done(PoolStopped, false) ==> RunsOnly(s.docker, s.m.crew.jobs, {}, op))
  {
    BootKept(c, running, running);
    ExecKept(Boot(c, running, running), run);
    var s := Exec(Boot(c, running, running), run);
    if Enabled(s, Report(op)) && op == s.m.crew.opSeq {
      if s.m.crew.jobs[op].pc.kind == SwapComplete { SwapHeals(s, op); }
      if s.m.crew.jobs[op].pc == Done(PoolStopped, false) { StopHeals(s, op); }
    }
  }

  lemma ActiveHolds(s: Sys)
    requires Kept(s) && !s.closed && s.m.state == Active
    ensures s.m.active in s.m.cfg.members
    ensures RunsOnly(s.docker, s.m.crew.jobs, {s.m.cfg.members[s.m.active].containerName}, s.m.crew.opSeq)
  {
    forall x | x in s.docker.running && !Excused(s.m.crew.jobs, s.docker, x, s.m.crew.opSeq)
      ensures x == s.m.cfg.members[s.m.active].containerName
    {
      assert Unexcused(s.m.crew.jobs, s.docker, x, s.m.crew.opSeq);
    }
  }

  /** And it stays so: while ACTIVE, nothing runs beside the active service's container but
      what is excused since the swap that opened the period. */
  lemma ActiveRunsAlone(c: Config, running: set<Name>, run: seq<Event>)
    requires WellFormed(c) && running <= Containers(c)
    ensures Grounded(Boot(c, running, running).m)
    ensures var s := Exec(Boot(c, running, running), run);
      !s.closed && s.m.state == Active ==>
        && s.m.active in c.members
        && RunsOnly(s.docker, s.m.crew.jobs, {c.members[s.m.active].containerName}, s.m.crew.opSeq)
  {
    BootKept(c, running, running);
    var boot := Boot(c, running, running);
    ExecKept(boot, run);
    if !Exec(boot, run).closed && Exec(boot, run).m.state == Active { ActiveHolds(Exec(boot, run)); }
  }
}
