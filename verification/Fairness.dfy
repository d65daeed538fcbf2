/** Everyone is served in the end. In every endless run in which workers and ticks get their
    turn, and nothing new arrives, there comes a time when nobody waits and everyone who asked
    has been answered, or has cancelled. */
module Fairness {
  import opened Names
  import opened State
  import opened Ledger
  import opened Worker
  import opened Invariant
  import opened System
  import opened Safety
  import opened Waiters
  import opened Drain

  // --- how many steps a worker has left ---

  /** The most looks a loop can still take that sleeps `every` between two of them. */
  function Looks(deadline: int, wake: int, every: int): (n: nat)
    requires every > 0
    ensures n >= 1
  {
    if wake >= deadline then 1 else (deadline - wake + every - 1) / every + 1
  }

  /** The steps after the sweep: start, checks, and the longer of clean-up and health poll. */
  function AfterSweep(w: Job): nat
  {
    if w.swap then 80 + Looks(w.timeout, 0, 250) else 0
  }

  function StepsLeft(w: Job): nat
    requires InRange(w)
  {
    match w.pc
    case Check(i) => 79 * (|w.list| - i) + AfterSweep(w)
    case Inspect(i) => 79 * (|w.list| - i) - 1 + AfterSweep(w)
    case Stop(i) => 79 * (|w.list| - i) - 2 + AfterSweep(w)
    case Confirm(i, deadline, wake) => 79 * (|w.list| - i) - 79 + Looks(deadline, wake, 200) + AfterSweep(w)
    case PreStart => 80 + Looks(w.timeout, 0, 250)
    case Start => 79 + Looks(w.timeout, 0, 250)
    case PostStart => 78 + Looks(w.timeout, 0, 250)
    case CleanStop => 77
    case CleanConfirm(deadline, wake) => Looks(deadline, wake, 200)
    case Probe(deadline, wake) => Looks(deadline, wake, 250)
    case Done(_, _) => 0
  }

  lemma LooksShift(now: int, budget: int, every: int)
    requires every > 0
    ensures Looks(now + budget, now, every) == Looks(budget, 0, every)
  {
  }

  /** Looking again, no earlier than the sleep allows, uses up a look. */
  lemma LooksAgain(deadline: int, wake: int, now: int, every: int)
    requires every == 200 || every == 250
    requires wake <= now < deadline
    ensures Looks(deadline, now + every, every) < Looks(deadline, wake, every)
  {
  }

  lemma StepsAt(w: Job, i: nat)
    requires i <= |w.list|
    ensures var v := w.(pc := At(w, i)); InRange(v) && StepsLeft(v) <= 79 * (|w.list| - i) + AfterSweep(w)
  {
  }

  /** Being done with member i, one way or the other, leaves what is behind it. */
  lemma MemberCounts(w: Job, i: nat)
    requires i < |w.list|
    ensures InRange(Saw(w, i)) && StepsLeft(Saw(w, i)) <= 79 * (|w.list| - i) - 79 + AfterSweep(w)
    ensures InRange(GiveUp(w, i)) && StepsLeft(GiveUp(w, i)) <= 79 * (|w.list| - i) - 79 + AfterSweep(w)
  {
    StepsAt(w.(firstErr := true), i + 1);
    StepsAt(w.(seen := w.seen + {w.list[i]}), i + 1);
  }

  ghost predicate Fewer(w: Job, v: Job)
    requires InRange(w)
  {
    InRange(v) && StepsLeft(v) < StepsLeft(w)
  }

  lemma StopCounts(w: Job, r: Resp, now: int)
    requires InRange(w) && w.pc.Stop? && !r.Panic?
    ensures Fewer(w, SweepStep(w, r, now))
  {
    MemberCounts(w, w.pc.i);
    LooksShift(now, STOP_CONFIRM_BUDGET, 200);
  }

  lemma ConfirmCounts(w: Job, r: Resp, now: int)
    requires InRange(w) && w.pc.Confirm? && !r.Panic? && w.pc.wake <= now
    ensures Fewer(w, SweepStep(w, r, now))
  {
    MemberCounts(w, w.pc.i);
    if now < w.pc.deadline { LooksAgain(w.pc.deadline, w.pc.wake, now, 200); }
  }

  lemma InspectCounts(w: Job, r: Resp, now: int)
    requires InRange(w) && w.pc.Inspect? && !r.Panic?
    ensures Fewer(w, SweepStep(w, r, now))
  {
    MemberCounts(w, w.pc.i);
  }

  lemma SweepCounts(w: Job, r: Resp, now: int, running: set<Name>)
    requires InRange(w) && Sweeping(w.pc) && !r.Panic? && Fits(w, r, now, running)
    ensures Fewer(w, SweepStep(w, r, now))
  {
    match w.pc
    case Check(_) =>
    case Inspect(_) => InspectCounts(w, r, now);
    case Stop(_) => StopCounts(w, r, now);
    case Confirm(_, _, _) => ConfirmCounts(w, r, now);
  }

  lemma CleanCounts(w: Job, r: Resp, now: int)
    requires w.pc.CleanConfirm? && !r.Panic? && w.pc.wake <= now
    ensures Fewer(w, TargetStep(w, r, now))
  {
    if now < w.pc.deadline { LooksAgain(w.pc.deadline, w.pc.wake, now, 200); }
  }

  lemma ProbeCounts(w: Job, r: Resp, now: int)
    requires w.pc.Probe? && !r.Panic? && w.pc.wake <= now
    ensures Fewer(w, TargetStep(w, r, now))
  {
    var deadline, wake := w.pc.deadline, w.pc.wake;
    if r == Ok(true) || now >= deadline {
      assert StepsLeft(w) >= 1;
    } else {
      LooksAgain(deadline, wake, now, 250);
    }
  }

  lemma StartCounts(w: Job, r: Resp, now: int)
    requires (w.pc.PreStart? || w.pc.Start? || w.pc.PostStart? || w.pc.CleanStop?) && !r.Panic?
    ensures Fewer(w, TargetStep(w, r, now))
  {
    LooksShift(now, w.timeout, 250);
    LooksShift(now, STOP_CONFIRM_BUDGET, 200);
  }

  lemma TargetCounts(w: Job, r: Resp, now: int, running: set<Name>)
    requires InRange(w) && !Sweeping(w.pc) && !r.Panic? && Fits(w, r, now, running)
    ensures Fewer(w, TargetStep(w, r, now))
  {
    if w.pc.CleanConfirm? { CleanCounts(w, r, now); }
    else if w.pc.Probe? { ProbeCounts(w, r, now); }
    else { StartCounts(w, r, now); }
  }

  /** Every step of a worker leaves it fewer, whatever it is answered. */
  lemma StepCounts(w: Job, r: Resp, now: int, running: set<Name>)
    requires InRange(w) && Fits(w, r, now, running)
    ensures Fewer(w, Worker.Step(w, r, now))
  {
    if !r.Panic? {
      if Sweeping(w.pc) { SweepCounts(w, r, now, running); } else { TargetCounts(w, r, now, running); }
    }
  }

  // --- progress ---

  /** The current worker's steps to its report. */
  ghost function WorkLeft(s: Sys): nat
    requires Grounded(s.m)
  {
    if s.m.crew.opSeq in s.m.crew.jobs then JobAt(s.m, s.m.crew.opSeq); StepsLeft(s.m.crew.jobs[s.m.crew.opSeq]) else 0
  }

  /** The steps that bring the end nearer: the current worker's, its report, and the grace tick. */
  ghost predicate Progress(s: Sys, e: Event)
    requires Grounded(s.m)
  {
    Enabled(s, e) && (Drives(s, e) || (e.Work? && e.op == s.m.crew.opSeq))
  }

  ghost predicate Open(s: Sys)
  {
    SysInv(s) && Grounded(s.m) && !s.closed
  }

  lemma OpenStays(s: Sys, e: Event)
    requires Open(s) && Quiet(e)
    ensures Open(Apply(s, e))
  {
    ApplySys(s, e);
    ApplyGrounded(s, e);
  }

  /** Lexicographically less: the chain is shorter, or as long with less work left. */
  ghost predicate Sooner(s: Sys, t: Sys)
    requires Grounded(s.m) && Grounded(t.m)
  {
    Rank(t.m) < Rank(s.m) || (Rank(t.m) == Rank(s.m) && WorkLeft(t) < WorkLeft(s))
  }

  lemma WorkerStepCounts(s: Sys, r: Resp)
    requires Open(s) && Enabled(s, Work(s.m.crew.opSeq, r))
    ensures var t := Apply(s, Work(s.m.crew.opSeq, r));
      Grounded(t.m) && Rank(t.m) == Rank(s.m) && WorkLeft(t) < WorkLeft(s)
  {
    var op := s.m.crew.opSeq;
    OpenStays(s, Work(op, r));
    UnmovedDrains(s, Work(op, r));
    JobAt(s.m, op);
    StepCounts(s.m.crew.jobs[op], r, s.now, s.docker.running);
  }

  lemma ProgressCounts(s: Sys, e: Event)
    requires Open(s) && Quiet(e) && QueueNonempty(s.m) && Progress(s, e)
    ensures Grounded(Apply(s, e).m) && Sooner(s, Apply(s, e))
  {
    OpenStays(s, e);
    if Drives(s, e) { StepDrains(s, e); } else { WorkerStepCounts(s, e.resp); }
  }

  /** Whatever else happens, the current worker stays where it is, and a grace tick outstanding. */
  ghost predicate Held(s: Sys, t: Sys)
  {
    Rank(t.m) <= Rank(s.m) && StaysPut(s, t)
  }

  ghost predicate StaysPut(s: Sys, t: Sys)
  {
    && t.m.crew.opSeq == s.m.crew.opSeq && t.m.state == s.m.state
    && (s.m.crew.opSeq in s.m.crew.jobs ==>
          s.m.crew.opSeq in t.m.crew.jobs && t.m.crew.jobs[s.m.crew.opSeq] == s.m.crew.jobs[s.m.crew.opSeq])
    && (s.m.crew.opSeq !in s.m.crew.jobs ==> s.m.crew.opSeq !in t.m.crew.jobs)
    && forall k :: k in s.m.timers.ticks && k.kind == Grace && Current(s.m.timers, k) ==>
         k in t.m.timers.ticks && Current(t.m.timers, k)
  }

  lemma TickHolds(s: Sys, k: Tick)
    requires Open(s) && QueueNonempty(s.m) && Enabled(s, Fire(k)) && !Drives(s, Fire(k))
    ensures Held(s, Apply(s, Fire(k)))
  {
    StepDrains(s, Fire(k));
    TickLeavesCrew(s, k);
    TickLeavesGrace(s, k);
  }

  lemma TickLeavesGrace(s: Sys, k: Tick)
    requires Open(s) && QueueNonempty(s.m) && Enabled(s, Fire(k)) && !Drives(s, Fire(k))
    ensures forall g :: g in s.m.timers.ticks && g.kind == Grace && Current(s.m.timers, g) ==>
      g in Apply(s, Fire(k)).m.timers.ticks && Current(Apply(s, Fire(k)).m.timers, g)
  {
    TakeTimers(s.m.timers, k);
    NoOneWaits(TakeTick(s.m, k));
  }

  /** With someone waiting, only the grace tick moves the pool; a cooldown tick is put off. */
  lemma TickLeavesCrew(s: Sys, k: Tick)
    requires Open(s) && QueueNonempty(s.m) && Enabled(s, Fire(k)) && !Drives(s, Fire(k))
    ensures Apply(s, Fire(k)).m.crew == s.m.crew && Apply(s, Fire(k)).m.state == s.m.state
  {
    NoOneWaits(TakeTick(s.m, k));
  }

  lemma ReportHolds(s: Sys, op: nat)
    requires Open(s) && QueueNonempty(s.m) && Enabled(s, Report(op)) && op != s.m.crew.opSeq
    ensures Held(s, Apply(s, Report(op)))
  {
    StepDrains(s, Report(op));
    StaleReportIsIgnored(s, op);
  }

  lemma OtherHolds(s: Sys, e: Event)
    requires Open(s) && QueueNonempty(s.m) && Quiet(e) && !e.Fire? && !e.Report? && !Progress(s, e)
    ensures Held(s, Apply(s, e))
  {
    StepDrains(s, e);
    OtherStays(s, e);
  }

  lemma OtherStays(s: Sys, e: Event)
    requires Grounded(s.m) && Quiet(e) && !e.Fire? && !e.Report? && !Progress(s, e)
    ensures StaysPut(s, Apply(s, e))
  {
  }

  lemma OthersHold(s: Sys, e: Event)
    requires Open(s) && QueueNonempty(s.m) && Quiet(e) && !Progress(s, e)
    ensures Grounded(Apply(s, e).m) && Held(s, Apply(s, e))
  {
    OpenStays(s, e);
    if e.Fire? && Enabled(s, e) { TickHolds(s, e.tick); }
    else if e.Report? && Enabled(s, e) { ReportHolds(s, e.op); }
    else if Enabled(s, e) { OtherHolds(s, e); }
  }

  // --- endless runs ---

  /** st(n) is the system after n steps, ev(n) the step it takes then. */
  ghost predicate StepsOn(st: nat -> Sys, ev: nat -> Event, n: nat)
  {
    Grounded(st(n).m) && st(n + 1) == Apply(st(n), ev(n)) && Quiet(ev(n))
  }

  /** A quiet run that never ends. */
  ghost predicate Endless(st: nat -> Sys, ev: nat -> Event)
  {
    Open(st(0)) && forall n: nat {:trigger StepsOn(st, ev, n)} :: StepsOn(st, ev, n)
  }

  /** The worker takes a step, or the manager its report, or it is gone already. */
  ghost predicate HasItsTurn(s: Sys, e: Event, op: nat)
  {
    op !in s.m.crew.jobs || (Grounded(s.m) && Enabled(s, e) && (e.Work? || e.Report?) && e.op == op)
  }

  ghost predicate TurnAfter(st: nat -> Sys, ev: nat -> Event, n: nat, op: nat)
  {
    exists m: nat :: m >= n && HasItsTurn(st(m), ev(m), op)
  }

  /** Every worker has its turn again and again. */
  ghost predicate WorkersServed(st: nat -> Sys, ev: nat -> Event)
  {
    forall n: nat, op: nat {:trigger TurnAfter(st, ev, n, op)} :: TurnAfter(st, ev, n, op)
  }

  ghost predicate DeliveredAfter(st: nat -> Sys, n: nat, k: Tick)
  {
    exists m: nat :: m >= n && k !in st(m).m.timers.ticks
  }

  /** Every tick that was armed is delivered some time. */
  ghost predicate TicksServed(st: nat -> Sys)
  {
    forall n: nat, k: Tick {:trigger DeliveredAfter(st, n, k)} :: DeliveredAfter(st, n, k)
  }

  lemma {:induction false} StaysOpen(st: nat -> Sys, ev: nat -> Event, n: nat)
    requires Endless(st, ev)
    ensures Open(st(n))
    decreases n
  {
    if n > 0 {
      var k: nat := n - 1;
      StaysOpen(st, ev, k);
      assert StepsOn(st, ev, k);
      NextOpen(st, ev, k, n);
    }
  }

  lemma NextOpen(st: nat -> Sys, ev: nat -> Event, n: nat, next: nat)
    requires StepsOn(st, ev, n) && Open(st(n)) && next == n + 1
    ensures Open(st(next))
  {
    OpenStays(st(n), ev(n));
  }

  ghost predicate NoLater(s: Sys, t: Sys)
    requires Grounded(s.m) && Grounded(t.m)
  {
    Rank(t.m) < Rank(s.m) || (Rank(t.m) == Rank(s.m) && WorkLeft(t) <= WorkLeft(s))
  }

  /** While waiting for the turn of the current worker, or the delivery of the grace tick, nobody
      is waiting any more, or progress is made, at the latest when it comes. */
  ghost predicate Turns(st: nat -> Sys, ev: nat -> Event, n: nat, m: nat)
  {
    && Grounded(st(n).m) && n <= m
    && if st(n).m.crew.opSeq in st(n).m.crew.jobs then HasItsTurn(st(m), ev(m), st(n).m.crew.opSeq)
       else
         exists k ::
           k in st(n).m.timers.ticks && k.kind == Grace && Current(st(n).m.timers, k) && k !in st(m).m.timers.ticks
  }

  lemma TurnComes(st: nat -> Sys, ev: nat -> Event, n: nat) returns (m: nat)
    requires Endless(st, ev) && WorkersServed(st, ev) && TicksServed(st) && QueueNonempty(st(n).m)
    ensures Turns(st, ev, n, m)
  {
    StaysOpen(st, ev, n);
    var s := st(n);
    if s.m.crew.opSeq in s.m.crew.jobs {
      assert TurnAfter(st, ev, n, s.m.crew.opSeq);
      m :| m >= n && HasItsTurn(st(m), ev(m), s.m.crew.opSeq);
    } else {
      ChainNeverStops(s);
      var k :| k in s.m.timers.ticks && Drives(s, Fire(k));
      assert DeliveredAfter(st, n, k);
      m :| m >= n && k !in st(m).m.timers.ticks;
    }
  }

  /** Until then the state may be held, but no longer. */
  lemma {:induction false} ComesNearer(st: nat -> Sys, ev: nat -> Event, n: nat, m: nat) returns (i: nat)
    requires Endless(st, ev) && Open(st(n)) && Turns(st, ev, n, m)
    ensures i >= n && Open(st(i)) && (QueueNonempty(st(i).m) ==> Sooner(st(n), st(i)))
    decreases m - n
  {
    assert StepsOn(st, ev, n);
    if !QueueNonempty(st(n).m) {
      i := n;
    } else if Progress(st(n), ev(n)) {
      i := n + 1;
      ProgressCounts(st(n), ev(n));
      OpenStays(st(n), ev(n));
    } else {
      OthersHold(st(n), ev(n));
      OpenStays(st(n), ev(n));
      TurnStillComes(st, ev, n, m);
      i := ComesNearer(st, ev, n + 1, m);
    }
  }

  lemma TurnStillComes(st: nat -> Sys, ev: nat -> Event, n: nat, m: nat)
    requires Turns(st, ev, n, m) && !Progress(st(n), ev(n)) && Held(st(n), st(n + 1)) && Grounded(st(n + 1).m)
    ensures Turns(st, ev, n + 1, m) && NoLater(st(n), st(n + 1))
  {
    var s := st(n);
    if s.m.crew.opSeq !in s.m.crew.jobs {
      var k :| k in s.m.timers.ticks && k.kind == Grace && Current(s.m.timers, k) && k !in st(m).m.timers.ticks;
      assert k in st(n + 1).m.timers.ticks && Current(st(n + 1).m.timers, k);
    }
  }

  /** The chain shortens, or the worker has less to do, at each turn; so there is an end. */
  lemma {:induction false} QueuesEmpty(st: nat -> Sys, ev: nat -> Event, n: nat, rank: nat, work: nat)
    returns (end: nat)
    requires Endless(st, ev) && WorkersServed(st, ev) && TicksServed(st)
    requires Open(st(n)) && rank == Rank(st(n).m) && work == WorkLeft(st(n))
    ensures end >= n && Open(st(end)) && !QueueNonempty(st(end).m)
    decreases rank, work
  {
    end := n;
    if QueueNonempty(st(n).m) {
      var m := TurnComes(st, ev, n);
      end := ComesNearer(st, ev, n, m);
      if QueueNonempty(st(end).m) {
        end := QueuesEmpty(st, ev, end, Rank(st(end).m), WorkLeft(st(end)));
      }
    }
  }

  /** With no new requests, operators or external events, and with workers and ticks getting their
      turn, whatever Docker and the probes answer: from any state on, some time nobody waits, and
      everyone who asked has been answered or has cancelled. */
  lemma EveryoneIsServed(st: nat -> Sys, ev: nat -> Event, n: nat) returns (end: nat)
    requires Endless(st, ev) && WorkersServed(st, ev) && TicksServed(st)
    ensures end >= n && NobodyWaits(st(end).m)
    ensures forall r :: r in st(end).m.book.asked ==>
      Answered(st(end).m.book.sent, r) || r in st(end).m.book.removed
  {
    StaysOpen(st, ev, n);
    end := QueuesEmpty(st, ev, n, Rank(st(n).m), WorkLeft(st(n)));
    forall r | r in st(end).m.book.asked ensures Answered(st(end).m.book.sent, r) || r in st(end).m.book.removed {
      EveryoneAnswered(st(end), r);
    }
  }
}
