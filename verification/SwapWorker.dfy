/** doSwap and doStopAll as the program writes them, with their loops and deadlines
    (swap.go), proved to walk the machine of module Worker from its first position to its
    one report, within bounds on the calls they make. */
module SwapWorker {
  import opened Names
  import opened State
  import opened Worker

  /** One answer a worker got: what, when, and whether its context was cancelled by then. */
  datatype Obs = Obs(resp: Resp, now: int, cancelled: bool)

  /** The machine after one answer. */
  function Advance(w: Job, o: Obs): Job
  {
    if InRange(w) then Worker.Step(w.(cancelled := w.cancelled || o.cancelled), o.resp, o.now) else w
  }

  /** The machine after a sequence of answers. */
  function Replay(w: Job, log: seq<Obs>): Job
  {
    if log == [] then w else Advance(Replay(w, log[..|log| - 1]), log[|log| - 1])
  }

  /** A look after a sleep comes no earlier than the sleep's end. */
  predicate Timely(w: Job, o: Obs)
  {
    match w.pc
    case Confirm(_, _, wake) => wake <= o.now
    case CleanConfirm(_, wake) => wake <= o.now
    case Probe(_, wake) => wake <= o.now
    case _ => true
  }

  /** Every answer was one the machine waited for: no step after the report, no look too early. */
  ghost predicate Legal(w: Job, log: seq<Obs>)
  {
    forall k {:trigger log[..k]} :: 0 <= k < |log| ==>
      !Replay(w, log[..k]).pc.Done? && Timely(Replay(w, log[..k]), log[k])
  }

  lemma ReplayNext(w: Job, log: seq<Obs>, o: Obs)
    ensures Replay(w, log + [o]) == Advance(Replay(w, log), o)
    ensures Legal(w, log) && !Replay(w, log).pc.Done? && Timely(Replay(w, log), o) ==> Legal(w, log + [o])
  {
    var next := log + [o];
    assert next[..|next| - 1] == log;
    if Legal(w, log) && !Replay(w, log).pc.Done? && Timely(Replay(w, log), o) {
      forall k | 0 <= k < |next| ensures !Replay(w, next[..k]).pc.Done? && Timely(Replay(w, next[..k]), next[k]) {
        if k < |log| { assert next[..k] == log[..k]; } else { assert next[..k] == log; }
      }
    }
  }

  /** Docker, the clock, the health endpoint and the swap context, as one worker meets them.
      Between two calls of the worker anything may happen to them, but time does not run
      backwards and a cancelled context stays cancelled. */
  class World {
    var now: int
    var cancelled: bool
    ghost const plan: Job        // the worker as it was spawned
    ghost var log: seq<Obs>      // every answer so far

    constructor (ghost w: Job, time: int)
      requires !w.cancelled
      ensures plan == w && log == [] && now == time && !cancelled && Walking(w)
    {
      now, cancelled := time, false;
      plan := w;
      log := [];
    }

    /** The machine stands at w, every step so far was legal, and it has not reported yet. */
    ghost predicate Walking(w: Job)
      reads this
    {
      Replay(plan, log) == w && Legal(plan, log) && (w.cancelled ==> cancelled)
    }

    /** Any answer at all, some time later. */
    method Call(ghost w: Job) returns (r: Resp)
      requires Walking(w) && !w.pc.Done? && Timely(w, Obs(Fail, now, cancelled))
      modifies this
      ensures old(now) <= now && (old(cancelled) ==> cancelled) && |log| == old(|log|) + 1
      ensures Walking(Advance(w, Obs(r, now, cancelled)))
    {
      var passed :| passed >= 0;
      var superseded: bool := *;
      r := *;
      now := now + passed;
      cancelled := cancelled || superseded;
      ReplayNext(plan, log, Obs(r, now, cancelled));
      StepKeepsPlanToo(w, Obs(r, now, cancelled));
      log := log + [Obs(r, now, cancelled)];
    }

    method Sleep(d: nat)
      modifies this`now
      ensures now >= old(now) + d
    {
      var over :| over >= 0;
      now := now + d + over;
    }
  }

  lemma StepKeepsPlanToo(w: Job, o: Obs)
    ensures Advance(w, o).cancelled ==> w.cancelled || o.cancelled
  {
    if InRange(w) { StepKeepsPlan(w.(cancelled := w.cancelled || o.cancelled), o.resp, o.now); }
  }

  const MOST_LOOKS := 76

  datatype Outcome = Stopped | Failed | Panicked

  /** w after a stop-and-confirm at position i of the sweep. */
  function AfterStop(w: Job, i: nat, outcome: Outcome, cancelled: bool): Job
    requires i < |w.list|
  {
    var v := w.(cancelled := cancelled);
    match outcome
    case Stopped => Saw(v, i)
    case Failed => GiveUp(v, i)
    case Panicked => v.(pc := Done(if w.swap then SwapFailed else PoolStopped, true))
  }

  lemma ConfirmAdvances(w: Job, i: nat, o: Obs)
    requires w.pc.Confirm? && w.pc.i == i && i < |w.list|
    ensures var v := Advance(w, o);
      if o.resp.Panic? then v == AfterStop(w, i, Panicked, v.cancelled)
      else if o.resp.Fail? then v == AfterStop(w, i, Failed, v.cancelled)
      else if !o.resp.b then v == AfterStop(w, i, Stopped, v.cancelled)
      else if o.now >= w.pc.deadline then v == AfterStop(w, i, Failed, v.cancelled)
      else v == w.(cancelled := v.cancelled, pc := Pc.Confirm(i, w.pc.deadline, o.now + STOP_CONFIRM_EVERY))
  {
  }

  /** Looking until Docker reports the i-th container exited, for at most 15 seconds and 76 looks. */
  method Confirm(world: World, ghost w: Job, ghost i: nat, deadline: int) returns (outcome: Outcome, ghost c: bool)
    requires i < |w.list| && w.pc == Pc.Confirm(i, deadline, world.now) && deadline == world.now + STOP_CONFIRM_BUDGET
    requires world.Walking(w)
    modifies world
    ensures world.Walking(AfterStop(w, i, outcome, c)) && world.now >= old(world.now)
    ensures |world.log| <= old(|world.log|) + MOST_LOOKS
  {
    ghost var v := w;
    ghost var looks := 0;
    while true
      invariant world.Walking(v) && v == w.(cancelled := v.cancelled, pc := v.pc)
      invariant v.pc.Confirm? && v.pc.i == i && v.pc.deadline == deadline && v.pc.wake <= world.now
      invariant 0 <= looks < MOST_LOOKS && world.now >= old(world.now) + looks * STOP_CONFIRM_EVERY
      invariant |world.log| == old(|world.log|) + looks
      decreases deadline - world.now
    {
      var r := world.Call(v);
      ConfirmAdvances(v, i, Obs(r, world.now, world.cancelled));
      ghost var u := v;
      v := Advance(v, Obs(r, world.now, world.cancelled));
      c := v.cancelled;
      AfterStopForgets(w, u, i, Stopped, c);
      AfterStopForgets(w, u, i, Failed, c);
      AfterStopForgets(w, u, i, Panicked, c);
      looks := looks + 1;
      if r.Panic? { return Panicked, c; }
      if r.Fail? { return Failed, c; }
      if !r.b { return Stopped, c; }
      if world.now >= deadline { return Failed, c; }
      world.Sleep(STOP_CONFIRM_EVERY);
    }
  }

  lemma AfterStopForgets(w: Job, v: Job, i: nat, outcome: Outcome, c: bool)
    requires i < |w.list| && v == w.(cancelled := v.cancelled, pc := v.pc)
    ensures AfterStop(v, i, outcome, c) == AfterStop(w, i, outcome, c)
  {
  }

  lemma StopAdvances(w: Job, i: nat, o: Obs)
    requires w.pc == Stop(i) && i < |w.list|
    ensures var v := Advance(w, o);
      if o.resp.Panic? then v == AfterStop(w, i, Panicked, v.cancelled)
      else if o.resp.Fail? then v == AfterStop(w, i, Failed, v.cancelled)
      else v == w.(cancelled := v.cancelled, pc := Pc.Confirm(i, o.now + STOP_CONFIRM_BUDGET, o.now))
  {
  }

  /** stopAndConfirm during a sweep. */
  method StopAndConfirm(world: World, ghost w: Job, ghost i: nat) returns (outcome: Outcome, ghost c: bool)
    requires world.Walking(w) && w.pc == Stop(i) && i < |w.list|
    modifies world
    ensures world.Walking(AfterStop(w, i, outcome, c)) && world.now >= old(world.now)
    ensures |world.log| <= old(|world.log|) + 1 + MOST_LOOKS
  {
    var r := world.Call(w);
    ghost var v := Advance(w, Obs(r, world.now, world.cancelled));
    c := v.cancelled;
    StopAdvances(w, i, Obs(r, world.now, world.cancelled));
    if r.Panic? { return Panicked, c; }
    if r.Fail? { return Failed, c; }
    outcome, c := Confirm(world, v, i, world.now + STOP_CONFIRM_BUDGET);
    AfterStopForgets(w, v, i, outcome, c);
  }

  /** The same after a superseded start, on the worker's own container; whatever comes of it,
      the report is a failure. */
  method ConfirmClean(world: World, ghost w: Job, deadline: int) returns (ghost v: Job)
    requires w.pc == CleanConfirm(deadline, world.now) && deadline == world.now + STOP_CONFIRM_BUDGET && w.swap
    requires world.Walking(w)
    modifies world
    ensures world.Walking(v) && v == w.(cancelled := v.cancelled, pc := Done(SwapFailed, true))
    ensures |world.log| <= old(|world.log|) + MOST_LOOKS
  {
    v := w;
    ghost var looks := 0;
    while true
      invariant world.Walking(v) && v == w.(cancelled := v.cancelled, pc := v.pc)
      invariant v.pc.CleanConfirm? && v.pc.deadline == deadline && v.pc.wake <= world.now
      invariant 0 <= looks < MOST_LOOKS && world.now >= old(world.now) + looks * STOP_CONFIRM_EVERY
      invariant |world.log| == old(|world.log|) + looks
      decreases deadline - world.now
    {
      var r := world.Call(v);
      v := Advance(v, Obs(r, world.now, world.cancelled));
      looks := looks + 1;
      if r.Panic? || r.Fail? || !r.b || world.now >= deadline { return; }
      world.Sleep(STOP_CONFIRM_EVERY);
    }
  }

  method CleanUp(world: World, ghost w: Job) returns (ghost v: Job)
    requires world.Walking(w) && w.pc == CleanStop && w.swap
    modifies world
    ensures world.Walking(v) && v == w.(cancelled := v.cancelled, pc := Done(SwapFailed, true))
    ensures |world.log| <= old(|world.log|) + 1 + MOST_LOOKS
  {
    var r := world.Call(w);
    v := Advance(w, Obs(r, world.now, world.cancelled));
    if r.Ok? {
      v := ConfirmClean(world, v, world.now + STOP_CONFIRM_BUDGET);
    }
  }

  /** The most health probes a startup budget allows: one more than it has intervals. */
  function MostProbes(timeout: int): nat
  {
    if timeout <= 0 then 1 else (timeout + HEALTH_PROBE_EVERY - 1) / HEALTH_PROBE_EVERY + 1
  }

  /** The health poll: until a probe answers 200 or the startup budget is spent. */
  method PollHealth(world: World, ghost w: Job, timeout: int) returns (msg: SwapMsg, ghost v: Job)
    requires w.pc == Probe(world.now + timeout, world.now) && w.swap && world.Walking(w)
    modifies world
    ensures world.Walking(v) && v.pc.Done? && msg.kind == v.pc.kind && msg.err == v.pc.err && !msg.kind.PoolStopped?
    ensures v == w.(cancelled := v.cancelled, pc := v.pc, healthy := v.healthy)
    ensures |world.log| <= old(|world.log|) + MostProbes(timeout)
  {
    v := w;
    var deadline := world.now + timeout;
    ghost var probes := 0;
    while true
      invariant world.Walking(v) && v == w.(cancelled := v.cancelled, pc := v.pc)
      invariant v.pc.Probe? && v.pc.deadline == deadline && v.pc.wake <= world.now
      invariant 0 <= probes && world.now >= old(world.now) + probes * HEALTH_PROBE_EVERY
      invariant probes > 0 ==> (probes - 1) * HEALTH_PROBE_EVERY < timeout
      invariant |world.log| == old(|world.log|) + probes
      decreases deadline - world.now
    {
      var r := world.Call(v);
      v := Advance(v, Obs(r, world.now, world.cancelled));
      probes := probes + 1;
      if r == Ok(true) { return SwapMsg(0, NONE, SwapComplete, false), v; }
      if r.Panic? { return SwapMsg(0, NONE, SwapFailed, true), v; }
      if world.now >= deadline { return SwapMsg(0, NONE, SwapHealthTimeout, true), v; }
      world.Sleep(HEALTH_PROBE_EVERY);
    }
  }

  // --- the two programs ---

  lemma InspectAdvances(w: Job, i: nat, o: Obs)
    requires w.pc == Inspect(i) && i < |w.list|
    ensures var v := Advance(w, o);
      if o.resp.Panic? then v == AfterStop(w, i, Panicked, v.cancelled)
      else if o.resp.Fail? then v == AfterStop(w, i, Failed, v.cancelled)
      else if !o.resp.b then v == AfterStop(w, i, Stopped, v.cancelled)
      else v == w.(cancelled := v.cancelled, pc := Stop(i))
  {
  }

  /** Inspect one container of the list, and stop it if it runs: one inspection, one stop and
      76 looks at most. */
  method SweepOne(world: World, ghost w: Job, ghost i: nat) returns (outcome: Outcome, ghost c: bool)
    requires world.Walking(w) && w.pc == Inspect(i) && i < |w.list|
    modifies world
    ensures world.Walking(AfterStop(w, i, outcome, c))
    ensures |world.log| <= old(|world.log|) + 78
  {
    var r := world.Call(w);
    ghost var v := Advance(w, Obs(r, world.now, world.cancelled));
    c := v.cancelled;
    InspectAdvances(w, i, Obs(r, world.now, world.cancelled));
    if r.Panic? { return Panicked, c; }
    if r.Fail? { return Failed, c; }
    if !r.b { return Stopped, c; }
    outcome, c := StopAndConfirm(world, v, i);
    AfterStopForgets(w, v, i, outcome, c);
  }

  /** Where a swap's sweep stands after member i. */
  lemma NextSibling(v: Job, i: nat, outcome: Outcome, c: bool)
    requires v.swap && i < |v.list|
    ensures At(v, i) == Inspect(i)
    ensures var x := AfterStop(v, i, outcome, c);
      x == v.(cancelled := x.cancelled, seen := x.seen, pc := x.pc)
      && x.pc == if outcome == Stopped then At(x, i + 1) else Done(SwapFailed, true)
  {
  }

  /** doSwap's sweep over the siblings. */
  method SweepSiblings(world: World, ghost w: Job, others: seq<Name>) returns (ok: bool, ghost v: Job)
    requires w.swap && w.list == others && w.pc == At(w, 0) && world.Walking(w)
    modifies world
    ensures world.Walking(v) && v == w.(cancelled := v.cancelled, seen := v.seen, pc := v.pc)
    ensures v.pc == if ok then PreStart else Done(SwapFailed, true)
    ensures |world.log| <= old(|world.log|) + 78 * |others|
  {
    v := w;
    var i := 0;
    while i < |others|
      invariant 0 <= i <= |others|
      invariant world.Walking(v) && v == w.(cancelled := v.cancelled, seen := v.seen, pc := v.pc) && v.pc == At(v, i)
      invariant |world.log| <= old(|world.log|) + 78 * i
    {
      ghost var c;
      var outcome;
      NextSibling(v, i, Stopped, false);
      outcome, c := SweepOne(world, v, i);
      NextSibling(v, i, outcome, c);
      v := AfterStop(v, i, outcome, c);
      if outcome != Stopped {
        return false, v;
      }
      i := i + 1;
    }
    ok := true;
  }

  /** From the pre-start check to the report. */
  method StartTarget(world: World, ghost w: Job, timeout: int) returns (kind: SwapKind, err: bool, ghost v: Job)
    requires w.swap && w.timeout == timeout && w.pc == PreStart && world.Walking(w)
    modifies world
    ensures world.Walking(v) && v.pc == Done(kind, err) && v.op == w.op && v.target == w.target && !kind.PoolStopped?
    ensures |world.log| <= old(|world.log|) + 4 + MOST_LOOKS + MostProbes(timeout)
  {
    var r := world.Call(w);
    v := Advance(w, Obs(r, world.now, world.cancelled));
    if r.Panic? || world.cancelled {
      return SwapFailed, true, v;
    }
    r := world.Call(v);
    v := Advance(v, Obs(r, world.now, world.cancelled));
    if r.Panic? || r.Fail? {
      return SwapFailed, true, v;
    }
    kind, err, v := AfterStart(world, v, timeout);
  }

  /** The post-start check, and then the clean-up or the health poll. */
  method AfterStart(world: World, ghost w: Job, timeout: int) returns (kind: SwapKind, err: bool, ghost v: Job)
    requires w.swap && w.timeout == timeout && w.pc == PostStart && world.Walking(w)
    modifies world
    ensures world.Walking(v) && v.pc == Done(kind, err) && v.op == w.op && v.target == w.target && !kind.PoolStopped?
    ensures |world.log| <= old(|world.log|) + 2 + MOST_LOOKS + MostProbes(timeout)
  {
    var r := world.Call(w);
    v := Advance(w, Obs(r, world.now, world.cancelled));
    if r.Panic? {
      return SwapFailed, true, v;
    }
    if world.cancelled {
      v := CleanUp(world, v);
      return SwapFailed, true, v;
    }
    var msg;
    msg, v := PollHealth(world, v, timeout);
    kind, err := msg.kind, msg.err;
  }

  /** The calls a swap worker can make at all. */
  function MostSwapCalls(siblings: nat, timeout: int): nat
  {
    78 * siblings + 4 + MOST_LOOKS + MostProbes(timeout)
  }

  /** doSwap, in an open pool: whatever Docker, the clock, the probes and the manager do, panics
      included, it ends, its steps are those of the machine, and it delivers the machine's one
      report, after no more than so many calls. */
  method DoSwap(world: World, op: nat, target: Name, own: Name, timeout: int, others: seq<Name>)
    returns (msg: SwapMsg, ghost v: Job)
    requires world.log == [] && world.Walking(world.plan)
    requires world.plan == Spawned(Job(op, true, target, own, timeout, others, false, {}, false, false, false,
        PreStart))
    modifies world
    ensures world.Walking(v) && v.pc.Done? && msg == Msg(v) && !msg.kind.PoolStopped?
    ensures msg.op == op && msg.target == target
    ensures |world.log| <= MostSwapCalls(|others|, timeout)
  {
    var ok;
    ok, v := SweepSiblings(world, world.plan, others);
    if !ok {
      return SwapMsg(op, target, SwapFailed, true), v;
    }
    var kind, err;
    kind, err, v := StartTarget(world, v, timeout);
    msg := SwapMsg(op, target, kind, err);
  }

  /** Where a stop-all stands after member i. */
  lemma NextMember(v: Job, i: nat, outcome: Outcome, c: bool)
    requires !v.swap && i < |v.list|
    ensures At(v, i) == Check(i)
    ensures var x := AfterStop(v, i, outcome, c);
      x == v.(cancelled := x.cancelled, seen := x.seen, firstErr := x.firstErr, pc := x.pc)
      && (outcome == Panicked ==> x.pc == Done(PoolStopped, true))
      && (outcome != Panicked ==> x.pc == At(x, i + 1) && x.firstErr == (v.firstErr || outcome == Failed))
  {
  }

  lemma CheckAdvances(w: Job, i: nat, o: Obs)
    requires w.pc == Check(i) && i < |w.list| && !w.swap && (w.cancelled ==> o.cancelled)
    ensures var v := Advance(w, o);
      v == w.(cancelled := o.cancelled,
              pc := if o.resp.Panic? || o.cancelled then Done(PoolStopped, true) else Inspect(i))
  {
  }

  /** One turn of doStopAll's loop: stop looking if superseded, else see to member i. */
  method StopOne(world: World, ghost w: Job, ghost i: nat)
    returns (ended: bool, failed: bool, ghost v: Job)
    requires !w.swap && i < |w.list| && w.pc == At(w, i) && world.Walking(w)
    modifies world
    ensures world.Walking(v) && v == w.(cancelled := v.cancelled, seen := v.seen, firstErr := v.firstErr, pc := v.pc)
    ensures ended ==> v.pc == Done(PoolStopped, true)
    ensures !ended ==> v.pc == At(v, i + 1) && v.firstErr == (w.firstErr || failed)
    ensures |world.log| <= old(|world.log|) + 79
  {
    NextMember(w, i, Stopped, false);
    var r := world.Call(w);
    ghost var k := Advance(w, Obs(r, world.now, world.cancelled));
    CheckAdvances(w, i, Obs(r, world.now, world.cancelled));
    if r.Panic? || world.cancelled {
      return true, true, k;
    }
    ghost var c;
    var outcome;
    outcome, c := SweepOne(world, k, i);
    NextMember(k, i, outcome, c);
    ended, failed, v := outcome == Panicked, outcome == Failed, AfterStop(k, i, outcome, c);
  }

  /** doStopAll, in an open pool: it ends with the machine's one report, an error if any member's
      stop failed, or if it was superseded or panicked on the way. */
  method DoStopAll(world: World, op: nat, containers: seq<Name>) returns (msg: SwapMsg, ghost v: Job)
    requires world.log == [] && world.Walking(world.plan)
    requires world.plan == Spawned(Job(op, false, NONE, NONE, 0, containers, false, {}, false, false, false, PreStart))
    modifies world
    ensures world.Walking(v) && v.pc.Done? && msg == Msg(v) && msg.kind.PoolStopped? && msg.op == op
    ensures |world.log| <= 79 * |containers|
  {
    v := world.plan;
    var firstErr := false;
    var i := 0;
    while i < |containers|
      invariant 0 <= i <= |containers|
      invariant world.Walking(v) && v.pc == At(v, i) && firstErr == v.firstErr
      invariant v == world.plan.(cancelled := v.cancelled, seen := v.seen, firstErr := v.firstErr, pc := v.pc)
      invariant |world.log| <= 79 * i
    {
      var ended, failed;
      ended, failed, v := StopOne(world, v, i);
      if ended {
        return SwapMsg(op, NONE, PoolStopped, true), v;
      }
      firstErr := firstErr || failed;
      i := i + 1;
    }
    msg := SwapMsg(op, NONE, PoolStopped, firstErr);
  }
}
