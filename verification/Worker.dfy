/** The two worker programs, doSwap and doStopAll, as machines that take one step
    for each Docker call, context check or health probe (swap.go). Between two steps
    anything may happen: the manager runs, other workers run, the context is cancelled. */
module Worker {
  import opened Names
  import opened State

  const STOP_CONFIRM_BUDGET := 15000
  const STOP_CONFIRM_EVERY := 200
  const HEALTH_PROBE_EVERY := 250

  /** Where a worker stands: the call or check it makes next. `wake` is the end of the
      sleep before the next look, `deadline` the end of the loop's budget. */
  datatype Pc =
    | Check(i: nat)
    | Inspect(i: nat)
    | Stop(i: nat)
    | Confirm(i: nat, deadline: int, wake: int)
    | PreStart
    | Start
    | PostStart
    | CleanStop
    | CleanConfirm(deadline: int, wake: int)
    | Probe(deadline: int, wake: int)
    | Done(kind: SwapKind, err: bool)

  /** `list` is the containers swept; `seen` is history: those an inspection of this
      worker reported as not running; `started` and `healthy` are history: its start call
      succeeded, a probe answered 200. */
  datatype Job = Job(
    op: nat, swap: bool, target: Name, own: Name, timeout: int, list: seq<Name>,
    cancelled: bool, seen: set<Name>, started: bool, healthy: bool, firstErr: bool, pc: Pc)

  /** What the world answers: a call's success and, for a look, what it saw; an error;
      or a panic inside the worker. */
  datatype Resp = Ok(b: bool) | Fail | Panic

  /** The next position once member i of the list is dealt with. */
  function At(w: Job, i: nat): Pc
  {
    if i < |w.list| then (if w.swap then Inspect(i) else Check(i))
    else if w.swap then PreStart
    else Done(PoolStopped, w.firstErr)
  }

  function Spawned(w: Job): Job
  {
    w.(cancelled := false, seen := {}, started := false, healthy := false, firstErr := false,
       pc := At(w.(firstErr := false), 0))
  }

  /** A docker error at member i ends a swap; a stop-all remembers it and goes on. */
  function GiveUp(w: Job, i: nat): Job
  {
    if w.swap then w.(pc := Done(SwapFailed, true))
    else var w1 := w.(firstErr := true); w1.(pc := At(w1, i + 1))
  }

  function Saw(w: Job, i: nat): Job
    requires i < |w.list|
  {
    w.(seen := w.seen + {w.list[i]}, pc := At(w, i + 1))
  }

  predicate InRange(w: Job)
  {
    match w.pc
    case Check(i) => i < |w.list|
    case Inspect(i) => i < |w.list|
    case Stop(i) => i < |w.list|
    case Confirm(i, _, _) => i < |w.list|
    case _ => true
  }

  predicate Sweeping(pc: Pc)
  {
    pc.Check? || pc.Inspect? || pc.Stop? || pc.Confirm?
  }

  /** One step of the sweep over the list (doSwap's first loop, and all of doStopAll). */
  function SweepStep(w: Job, r: Resp, now: int): Job
    requires Sweeping(w.pc) && InRange(w) && !r.Panic?
  {
    match w.pc
    case Check(i) => w.(pc := if w.cancelled then Done(PoolStopped, true) else Inspect(i))
    case Inspect(i) =>
      if r.Fail? then GiveUp(w, i)
      else if r.b then w.(pc := Stop(i))
      else Saw(w, i)
    case Stop(i) =>
      if r.Fail? then GiveUp(w, i) else w.(pc := Confirm(i, now + STOP_CONFIRM_BUDGET, now))
    case Confirm(i, deadline, _) =>
      if r.Fail? then GiveUp(w, i)
      else if !r.b then Saw(w, i)
      else if now >= deadline then GiveUp(w, i)
      else w.(pc := Confirm(i, deadline, now + STOP_CONFIRM_EVERY))
  }

  /** One step after the sweep: start the target, clean up if superseded, poll its health. */
  function TargetStep(w: Job, r: Resp, now: int): Job
    requires !Sweeping(w.pc) && !r.Panic?
  {
    match w.pc
    case PreStart => w.(pc := if w.cancelled then Done(SwapFailed, true) else Start)
    case Start => if r.Fail? then w.(pc := Done(SwapFailed, true)) else w.(started := true, pc := PostStart)
    case PostStart => w.(pc := if w.cancelled then CleanStop else Probe(now + w.timeout, now))
    case CleanStop =>
      w.(pc := if r.Fail? then Done(SwapFailed, true) else CleanConfirm(now + STOP_CONFIRM_BUDGET, now))
    case CleanConfirm(deadline, _) =>
      w.(pc := if r.Fail? || !r.b || now >= deadline then Done(SwapFailed, true)
               else CleanConfirm(deadline, now + STOP_CONFIRM_EVERY))
    case Probe(deadline, _) =>
      if r == Ok(true) then w.(healthy := true, pc := Done(SwapComplete, false))
      else if now >= deadline then w.(pc := Done(SwapHealthTimeout, true))
      else w.(pc := Probe(deadline, now + HEALTH_PROBE_EVERY))
    case Done(_, _) => w
  }

  /** One step of the worker. A panic is recovered and reported as a failure. */
  function Step(w: Job, r: Resp, now: int): Job
    requires InRange(w)
  {
    if w.pc.Done? then w
    else if r.Panic? then w.(pc := Done(if w.swap then SwapFailed else PoolStopped, true))
    else if Sweeping(w.pc) then SweepStep(w, r, now)
    else TargetStep(w, r, now)
  }

  /** What the step does to the set of running containers. A failed call has no effect,
      and starting a running or stopping a stopped container changes nothing. */
  function Effect(w: Job, r: Resp, running: set<Name>): set<Name>
    requires InRange(w)
  {
    if !r.Ok? then running
    else
      match w.pc
      case Stop(i) => running - {w.list[i]}
      case Start => running + {w.own}
      case CleanStop => running - {w.own}
      case _ => running
  }

  /** The answers Docker and the clock can give: an inspection tells the truth, and a
      loop looks again only after its sleep. */
  predicate Fits(w: Job, r: Resp, now: int, running: set<Name>)
    requires InRange(w)
  {
    match w.pc
    case Inspect(i) => r.Ok? ==> r.b == (w.list[i] in running)
    case Confirm(i, _, wake) => wake <= now && (r.Ok? ==> r.b == (w.list[i] in running))
    case CleanConfirm(_, wake) => wake <= now && (r.Ok? ==> r.b == (w.own in running))
    case Probe(_, wake) => wake <= now
    case Done(_, _) => false
    case _ => true
  }

  function Msg(w: Job): SwapMsg
    requires w.pc.Done?
  {
    SwapMsg(w.op, w.target, w.pc.kind, w.pc.err)
  }

  // --- what a position tells about the steps taken so far ---

  /** How much of the list lies behind a worker that met no error. */
  function Behind(w: Job): (n: nat)
    requires InRange(w)
    ensures n <= |w.list|
  {
    match w.pc
    case Check(i) => i
    case Inspect(i) => i
    case Stop(i) => i
    case Confirm(i, _, _) => i
    case Done(kind, err) => if kind.SwapFailed? || (kind.PoolStopped? && err) then 0 else |w.list|
    case _ => |w.list|
  }

  predicate SwapOnly(pc: Pc)
  {
    pc.PreStart? || pc.Start? || pc.PostStart? || pc.CleanStop? || pc.CleanConfirm? || pc.Probe?
    || (pc.Done? && !pc.kind.PoolStopped?)
  }

  predicate StopOnly(pc: Pc)
  {
    pc.Check? || (pc.Done? && pc.kind.PoolStopped?)
  }

  /** Everything behind the worker was looked at by it and found stopped. */
  ghost predicate SeenBehind(w: Job)
    requires InRange(w)
  {
    forall j :: 0 <= j < Behind(w) ==> w.list[j] in w.seen
  }

  /** The position fits the program, and the flags fit the position. */
  predicate Shaped(w: Job)
  {
    && InRange(w)
    && (if w.swap then !w.firstErr && !StopOnly(w.pc) else !SwapOnly(w.pc))
    && (w.pc == Done(PoolStopped, false) ==> !w.firstErr)
    && (w.pc.CleanStop? || w.pc.CleanConfirm? ==> w.cancelled)
    && (w.pc.PostStart? || w.pc.Probe? ==> w.started)
    && (w.pc.Done? && w.pc.kind.SwapComplete? ==> w.started && w.healthy)
  }

  /** The invariant of a worker's own run. */
  ghost predicate Told(w: Job)
  {
    && Shaped(w)
    && (forall c :: c in w.seen ==> c in w.list)
    && (!w.firstErr ==> SeenBehind(w))
  }

  /** Being done with member i, one way or the other. */
  lemma PassesOn(w: Job, i: nat)
    requires i < |w.list| && (w.swap ==> !w.firstErr)
    ensures var v := GiveUp(w, i);
      Shaped(v) && v.list == w.list && v.seen == w.seen && (w.firstErr ==> v.firstErr) && (v.firstErr || Behind(v) == 0)
    ensures var v := Saw(w, i);
      && Shaped(v) && v.list == w.list && v.seen == w.seen + {w.list[i]} && v.firstErr == w.firstErr
      && Behind(v) <= i + 1
  {
  }

  lemma SwapSweepShaped(w: Job, r: Resp, now: int)
    requires Shaped(w) && Sweeping(w.pc) && !r.Panic? && w.swap
    ensures Shaped(SweepStep(w, r, now))
  {
    match w.pc
    case Check(_) =>
    case Inspect(i) => PassesOn(w, i);
    case Stop(i) => PassesOn(w, i);
    case Confirm(i, _, _) => PassesOn(w, i);
  }

  lemma StopSweepShaped(w: Job, r: Resp, now: int)
    requires Shaped(w) && Sweeping(w.pc) && !r.Panic? && !w.swap
    ensures Shaped(SweepStep(w, r, now))
  {
    match w.pc
    case Check(_) =>
    case Inspect(i) => PassesOn(w, i);
    case Stop(i) => PassesOn(w, i);
    case Confirm(i, _, _) => PassesOn(w, i);
  }

  lemma TargetShaped(w: Job, r: Resp, now: int)
    requires Shaped(w) && !Sweeping(w.pc) && !r.Panic?
    ensures Shaped(TargetStep(w, r, now))
  {
  }

  lemma StepShaped(w: Job, r: Resp, now: int)
    requires Shaped(w)
    ensures Shaped(Step(w, r, now))
  {
    if !w.pc.Done? && !r.Panic? {
      if !Sweeping(w.pc) { TargetShaped(w, r, now); }
      else if w.swap { SwapSweepShaped(w, r, now); }
      else { StopSweepShaped(w, r, now); }
    }
  }

  /** A sweep step that does not see the container stopped passes over nothing, unless
      it records an error. */
  ghost predicate Sees(w: Job, r: Resp, v: Job)
    requires InRange(w) && InRange(v)
  {
    && v.list == w.list && (w.firstErr ==> v.firstErr)
    && if (w.pc.Inspect? || w.pc.Confirm?) && r == Ok(false) then
         Behind(w) < |w.list| && v.seen == w.seen + {w.list[Behind(w)]} && Behind(v) <= Behind(w) + 1
       else
         v.seen == w.seen && (v.firstErr || Behind(v) <= Behind(w))
  }

  lemma SwapSweepSees(w: Job, r: Resp, now: int)
    requires Shaped(w) && Sweeping(w.pc) && !r.Panic? && w.swap
    ensures InRange(SweepStep(w, r, now)) && Sees(w, r, SweepStep(w, r, now))
  {
    match w.pc
    case Check(_) =>
    case Inspect(i) => PassesOn(w, i);
    case Stop(i) => PassesOn(w, i);
    case Confirm(i, _, _) => PassesOn(w, i);
  }

  lemma StopSweepSees(w: Job, r: Resp, now: int)
    requires Shaped(w) && Sweeping(w.pc) && !r.Panic? && !w.swap
    ensures InRange(SweepStep(w, r, now)) && Sees(w, r, SweepStep(w, r, now))
  {
    match w.pc
    case Check(_) =>
    case Inspect(i) => PassesOn(w, i);
    case Stop(i) => PassesOn(w, i);
    case Confirm(i, _, _) => PassesOn(w, i);
  }

  lemma TargetSees(w: Job, r: Resp, now: int)
    requires Shaped(w) && !Sweeping(w.pc) && !r.Panic?
    ensures var v := TargetStep(w, r, now);
      v.list == w.list && v.seen == w.seen && v.firstErr == w.firstErr && Behind(v) <= Behind(w)
  {
  }

  /** A worker that reports success has seen every sibling stopped, and a probe of its
      target succeed; one that reports an error-free stop has seen every member stopped. */
  lemma StepTold(w: Job, r: Resp, now: int)
    requires Told(w)
    ensures Told(Step(w, r, now))
  {
    StepShaped(w, r, now);
    if !w.pc.Done? && !r.Panic? {
      if !Sweeping(w.pc) { TargetSees(w, r, now); }
      else if w.swap { SwapSweepSees(w, r, now); }
      else { StopSweepSees(w, r, now); }
    }
  }

  ghost predicate SamePlan(w: Job, v: Job)
  {
    v.op == w.op && v.swap == w.swap && v.target == w.target && v.own == w.own
    && v.timeout == w.timeout && v.list == w.list && v.cancelled == w.cancelled
  }

  lemma GiveUpKeepsPlan(w: Job, i: nat)
    ensures SamePlan(w, GiveUp(w, i))
    ensures i < |w.list| ==> SamePlan(w, Saw(w, i))
  {
  }

  lemma SweepKeepsPlan(w: Job, r: Resp, now: int)
    requires InRange(w) && Sweeping(w.pc) && !r.Panic?
    ensures SamePlan(w, SweepStep(w, r, now))
  {
    match w.pc
    case Check(_) =>
    case Inspect(i) => GiveUpKeepsPlan(w, i);
    case Stop(i) => GiveUpKeepsPlan(w, i);
    case Confirm(i, _, _) => GiveUpKeepsPlan(w, i);
  }

  lemma TargetKeepsPlan(w: Job, r: Resp, now: int)
    requires !Sweeping(w.pc) && !r.Panic?
    ensures SamePlan(w, TargetStep(w, r, now))
  {
    match w.pc
    case PreStart =>
    case Start =>
    case PostStart =>
    case CleanStop =>
    case CleanConfirm(_, _) =>
    case Probe(_, _) =>
    case Done(_, _) =>
  }

  /** A worker's operation, program and plan never change, nor its cancelled flag by its own doing. */
  lemma StepKeepsPlan(w: Job, r: Resp, now: int)
    requires InRange(w)
    ensures SamePlan(w, Step(w, r, now))
  {
    if !w.pc.Done? && !r.Panic? {
      if Sweeping(w.pc) { SweepKeepsPlan(w, r, now); } else { TargetKeepsPlan(w, r, now); }
    }
  }
}
