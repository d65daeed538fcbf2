/** The chain of swaps that serves everyone who waits is short and comes to an end. */
module Drain {
  import opened Names
  import opened State
  import opened Ledger
  import opened Worker
  import opened Manager
  import opened Invariant
  import opened System
  import opened Safety
  import opened Waiters

  /** No arrival, no admin command, no external event, no Close. Clients may cancel, workers
      succeed, fail or time out, time pass, and containers come and go. */
  predicate Quiet(e: Event)
  {
    !(e.Admit? || e.AdminSwap? || e.AdminStop? || e.Notice? || e.Close?)
  }

  /** The services someone waits for, other than the one being swapped in. */
  ghost function Unserved(m: Mgr): set<Name>
  {
    set n | n in m.book.queues && m.book.queues[n] != [] && !(m.state == Swapping && n == m.target)
  }

  /** How many more swaps can be started before everyone is served. */
  ghost function Ahead(m: Mgr): nat
  {
    |Unserved(m)| + if m.adminPending != NONE then 1 else 0
  }

  ghost function Rank(m: Mgr): nat
  {
    2 * Ahead(m) + if m.state == Swapping then 1 else 0
  }

  /** The one event that moves the chain on: the current worker's report, or the grace tick. */
  ghost predicate Drives(s: Sys, e: Event)
  {
    || (e.Report? && e.op == s.m.crew.opSeq)
    || (e.Fire? && e.tick.kind == Grace && Current(s.m.timers, e.tick))
  }

  /** The step started a swap that brings the end nearer, or started none. */
  ghost predicate Nearer(m: Mgr, r: Mgr)
  {
    if r.crew.opSeq == m.crew.opSeq then Ahead(r) <= Ahead(m)
    else r.crew.opSeq == m.crew.opSeq + 1 && Ahead(r) < Ahead(m)
  }

  lemma StartsFor(m: Mgr, target: Name)
    requires Typed(m) && target in m.cfg.members && m.state != Swapping
    ensures var r := StartSwap(m, target);
      && r.crew.opSeq == m.crew.opSeq + 1 && r.state == Swapping && r.adminPending == m.adminPending
      && Unserved(r) == Unserved(m) - {target}
  {
  }

  /** Once the target's waiters are flushed, nobody new is unserved. */
  lemma LandServes(r: Mgr, msg: SwapMsg, now: int)
    requires Typed(r) && (!msg.kind.PoolStopped? ==> msg.target in r.cfg.members)
    requires r.state == Swapping && r.target == msg.target
    requires msg.kind.PoolStopped? ==> msg.target == NONE
    requires NoEmptyName(r.cfg)
    ensures Unserved(Land(r, msg, now)) == Unserved(r)
  {
    match msg.kind
    case SwapComplete =>
    case SwapFailed =>
    case SwapHealthTimeout =>
    case PoolStopped =>
  }

  lemma StartServes(c: Mgr, target: Name)
    requires Typed(c) && c.state != Swapping && target in Unserved(c)
    ensures Nearer(c, StartSwap(c, target)) && StartSwap(c, target).state == Swapping
  {
    StartsFor(c, target);
    SubsetSize(Unserved(c) - {target}, Unserved(c));
  }

  lemma ChainServes(y: Mgr, activated: bool, now: int)
    requires Typed(y) && y.state != Swapping
    ensures var x := ChainAfterTerminal(y, activated, now);
      Nearer(y, x) && (if x.crew.opSeq == y.crew.opSeq then x.state == y.state else x.state == Swapping)
  {
    var c := y.(adminPending := NONE);
    assert Unserved(c) == Unserved(y);
    if y.adminPending != NONE && y.adminPending != y.active {
      StartsFor(c, y.adminPending);
      SubsetSize(Unserved(c) - {y.adminPending}, Unserved(c));
    } else {
      var next := Oldest(c.book.queues);
      if next != NONE && !(activated && c.cfg.grace > 0) {
        StartServes(c, next);
      } else {
        RestServes(y, activated, now);
      }
    }
  }

  lemma RestServes(y: Mgr, activated: bool, now: int)
    requires Typed(y) && (y.adminPending == NONE || y.adminPending == y.active)
    requires Oldest(y.book.queues) == NONE || (activated && y.cfg.grace > 0)
    ensures var x := ChainAfterTerminal(y, activated, now);
      x.crew == y.crew && x.state == y.state && Ahead(x) <= Ahead(y)
  {
    var x := ChainAfterTerminal(y, activated, now);
    assert x.book == y.book && x.target == y.target && x.state == y.state && x.adminPending == NONE;
    assert Unserved(x) == Unserved(y);
  }

  lemma LandedDrains(m: Mgr, k: Mgr, msg: SwapMsg, now: int)
    requires Typed(k) && (!msg.kind.PoolStopped? ==> msg.target in k.cfg.members) && NoEmptyName(k.cfg)
    requires msg.kind.PoolStopped? ==> msg.target == NONE
    requires m.state == Swapping && m.target == msg.target
    requires k == m.(crew := k.crew) && k.crew.opSeq == m.crew.opSeq
    ensures var r := ChainAfterTerminal(Land(k, msg, now), msg.kind == SwapComplete, now);
      Nearer(m, r) && Rank(r) < Rank(m)
  {
    LandFacts(k, msg, now);
    LandServes(k, msg, now);
    assert Unserved(k) == Unserved(m);
    var y := Land(k, msg, now);
    assert Ahead(y) == Ahead(m);
    ChainServes(y, msg.kind == SwapComplete, now);
  }

  lemma ReportDrains(m: Mgr, op: nat, now: int)
    requires Inv(m) && NoEmptyName(m.cfg) && op in m.crew.jobs && m.crew.jobs[op].pc.Done?
    ensures JobOk(m.cfg, op, m.crew.jobs[op])
    ensures var r := HandleSwap(TakeJob(m, op), Msg(m.crew.jobs[op]), now);
      Nearer(m, r) && Rank(r) <= Rank(m) && (op == m.crew.opSeq ==> Rank(r) < Rank(m))
  {
    var w := m.crew.jobs[op];
    assert JobOk(m.cfg, op, w);
    if op == m.crew.opSeq {
      LandedDrains(m, ReleaseWorker(TakeJob(m, op)), Msg(w), now);
    } else {
      assert Unserved(TakeJob(m, op)) == Unserved(m);
    }
  }

  lemma SomeoneOldest(m: Mgr)
    requires NoEmptyName(m.cfg) && Typed(m) && QueueNonempty(m)
    ensures Oldest(m.book.queues) != NONE
  {
    NoOneWaits(m);
    var n :| n in m.book.queues && m.book.queues[n] != [];
    assert !NobodyWaits(m);
  }

  lemma GraceTickDrains(m: Mgr, t: Tick, now: int)
    requires Inv(m) && NoEmptyName(m.cfg) && Current(m.timers, t) && t.kind == Grace && QueueNonempty(m)
    ensures var r := HandleTick(TakeTick(m, t), t, now);
      Nearer(m, r) && Rank(r) < Rank(m)
  {
    var k := TakeTick(m, t);
    assert Unserved(k) == Unserved(m);
    SomeoneOldest(k);
    var next := Oldest(k.book.queues);
    assert GraceArmed(m.timers);
    StartsFor(k, next);
    assert next in Unserved(k);
    SubsetSize(Unserved(k) - {next}, Unserved(k));
  }

  lemma OtherTickDrains(m: Mgr, t: Tick, now: int)
    requires Inv(m) && NoEmptyName(m.cfg) && t in m.timers.ticks && QueueNonempty(m)
    requires !(Current(m.timers, t) && t.kind == Grace)
    ensures var r := HandleTick(TakeTick(m, t), t, now);
      r.crew == m.crew && r.state == m.state && Ahead(r) == Ahead(m)
  {
    var k := TakeTick(m, t);
    SomeoneOldest(k);
    var r := HandleTick(k, t, now);
    assert r.book == m.book && r.target == m.target && r.state == m.state && r.adminPending == m.adminPending;
    assert Unserved(r) == Unserved(m);
  }

  lemma TickDrains(m: Mgr, t: Tick, now: int)
    requires Inv(m) && NoEmptyName(m.cfg) && t in m.timers.ticks && QueueNonempty(m)
    ensures var r := HandleTick(TakeTick(m, t), t, now);
      Nearer(m, r) && Rank(r) <= Rank(m) && (t.kind == Grace && Current(m.timers, t) ==> Rank(r) < Rank(m))
  {
    if t.kind == Grace && Current(m.timers, t) { GraceTickDrains(m, t, now); } else { OtherTickDrains(m, t, now); }
  }

  lemma CancelDrains(m: Mgr, service: Name, reply: nat)
    ensures var r := HandleCancel(m, service, reply);
      Nearer(m, r) && Rank(r) <= Rank(m)
  {
    SubsetSize(Unserved(HandleCancel(m, service, reply)), Unserved(m));
  }

  /** While someone waits, no quiet step lengthens the chain, a swap shortens it, and the event
      that drives it always brings the end nearer. */
  lemma StepDrains(s: Sys, e: Event)
    requires SysInv(s) && !s.closed && Quiet(e) && QueueNonempty(s.m)
    ensures Grounded(s.m)
    ensures var t := Apply(s, e);
      && !t.closed && Nearer(s.m, t.m) && Rank(t.m) <= Rank(s.m)
      && (Enabled(s, e) && Drives(s, e) ==> Rank(t.m) < Rank(s.m))
  {
    if Enabled(s, e) {
      match e
      case Report(op) => ReportDrains(s.m, op, s.now);
      case Fire(tick) => TickDrains(s.m, tick, s.now);
      case Cancel(service, reply) => CancelDrains(s.m, service, reply);
      case _ => UnmovedDrains(s, e);
    }
  }

  lemma UnmovedDrains(s: Sys, e: Event)
    requires Grounded(s.m) && Enabled(s, e) && Quiet(e) && !e.Report? && !e.Fire? && !e.Cancel?
    ensures var t := Apply(s, e);
      !t.closed && t.m.crew.opSeq == s.m.crew.opSeq && t.m.state == s.m.state && Ahead(t.m) == Ahead(s.m)
  {
    var t := Apply(s, e);
    assert t.m.book == s.m.book && t.m.target == s.m.target && t.m.state == s.m.state;
    assert Unserved(t.m) == Unserved(s.m);
  }

  // --- over runs ---

  /** Every step is quiet, and someone waits before each. */
  ghost predicate WaitingRun(s: Sys, run: seq<Event>)
    requires Grounded(s.m)
    decreases |run|
  {
    run == [] ||
      (Quiet(run[0]) && QueueNonempty(s.m) && (ApplyGrounded(s, run[0]); WaitingRun(Apply(s, run[0]), run[1..])))
  }

  /** How many of the run's steps drive the chain. */
  ghost function Drivers(s: Sys, run: seq<Event>): nat
    requires Grounded(s.m)
    decreases |run|
  {
    if run == [] then 0
    else
      ApplyGrounded(s, run[0]);
      (if Enabled(s, run[0]) && Drives(s, run[0]) then 1 else 0) + Drivers(Apply(s, run[0]), run[1..])
  }

  /** With nothing new arriving, the swaps started before all queues are empty number at most
      the services waited for, plus one if an admin swap is pending, whether each swap succeeds,
      fails or times out; and the chain ends after at most twice as many, plus one, reports and
      grace ticks. */
  lemma {:induction false} ChainIsShort(s: Sys, run: seq<Event>)
    requires SysInv(s) && !s.closed && WaitingRun(s, run)
    ensures var t := Exec(s, run);
      && !t.closed && SysInv(t)
      && t.m.crew.opSeq - s.m.crew.opSeq + Ahead(t.m) <= Ahead(s.m)
      && Drivers(s, run) + Rank(t.m) <= Rank(s.m)
    decreases |run|
  {
    if run != [] {
      StepDrains(s, run[0]);
      ApplySys(s, run[0]);
      ChainIsShort(Apply(s, run[0]), run[1..]);
    }
  }

  /** The services waited for bound the swaps ahead. */
  lemma AheadIsBounded(m: Mgr)
    ensures Ahead(m) <= |set n | n in m.book.queues && m.book.queues[n] != []|
        + (if m.adminPending != NONE then 1 else 0)
  {
    SubsetSize(Unserved(m), set n | n in m.book.queues && m.book.queues[n] != []);
  }

  /** The bound in the book's own terms: one swap for each non-empty queue, and one more if an
      admin swap is pending. */
  lemma SwapsAreBounded(s: Sys, run: seq<Event>)
    requires SysInv(s) && !s.closed && WaitingRun(s, run)
    ensures Exec(s, run).m.crew.opSeq - s.m.crew.opSeq <=
      |set n | n in s.m.book.queues && s.m.book.queues[n] != []| + (if s.m.adminPending != NONE then 1 else 0)
  {
    ChainIsShort(s, run);
    AheadIsBounded(s.m);
  }

  /** While someone waits an event that drives the chain is outstanding, so the chain never
      stops short: the current worker is still at work, or a grace tick is on its way. */
  lemma ChainNeverStops(s: Sys)
    requires SysInv(s) && !s.closed && QueueNonempty(s.m)
    ensures (s.m.state == Swapping && s.m.crew.opSeq in s.m.crew.jobs) ||
            (s.m.state == Active && exists t :: t in s.m.timers.ticks && Drives(s, Fire(t)))
  {
    if s.m.state == Active {
      var n :| n in s.m.book.queues && s.m.book.queues[n] != [];
      assert Waiting(s.m.book.queues, n);
      var t :| Current(s.m.timers, t) && t.kind == Grace;
      assert Drives(s, Fire(t));
    }
  }

  /** And when nobody waits any more, everyone who asked was answered, or had cancelled. */
  lemma EveryoneAnswered(s: Sys, r: nat)
    requires SysInv(s) && !QueueNonempty(s.m) && r in s.m.book.asked
    ensures Answered(s.m.book.sent, r) || r in s.m.book.removed
  {
    assert Accounted(s.m.book, r);
  }
}
