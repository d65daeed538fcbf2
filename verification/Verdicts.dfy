/** What a worker's report means: for every sequence of answers, when a worker reports what, how long
    it had waited by then, and that it heeded its context where it looks at it. */
module Verdicts {
  import opened Names
  import opened State
  import opened Worker
  import opened SwapWorker

  /** A worker as it is spawned. */
  ghost predicate Fresh(p: Job)
  {
    p == Spawned(p)
  }

  /** Its context was cancelled by the time of some answer. */
  ghost predicate Superseded(log: seq<Obs>)
  {
    exists j :: 0 <= j < |log| && log[j].cancelled
  }

  lemma Split(log: seq<Obs>) returns (init: seq<Obs>, o: Obs)
    requires log != []
    ensures log == init + [o] && |init| == |log| - 1 && forall k :: 0 <= k <= |init| ==> log[..k] == init[..k]
    ensures init[..|init|] == init
  {
    init, o := log[..|log| - 1], log[|log| - 1];
  }

  lemma {:induction false} ReplayShaped(p: Job, log: seq<Obs>)
    requires Fresh(p)
    ensures Shaped(Replay(p, log)) && SamePlan(Replay(p, log).(cancelled := p.cancelled), p)
    ensures Replay(p, log).cancelled <==> Superseded(log)
  {
    if log != [] {
      var init, o := Split(log);
      ReplayShaped(p, init);
      var u := Replay(p, init);
      StepShaped(u.(cancelled := u.cancelled || o.cancelled), o.resp, o.now);
      StepKeepsPlan(u.(cancelled := u.cancelled || o.cancelled), o.resp, o.now);
      SupersededNext(init, o);
    }
  }

  lemma SupersededNext(init: seq<Obs>, o: Obs)
    ensures Superseded(init + [o]) <==> Superseded(init) || o.cancelled
  {
    var log := init + [o];
    assert log[|init|] == o;
    if Superseded(init) {
      var j :| 0 <= j < |init| && init[j].cancelled;
      assert log[j].cancelled;
    }
  }

  /** The machine's next step. */
  lemma NextIs(p: Job, log: seq<Obs>, o: Obs)
    requires Fresh(p)
    ensures Shaped(Replay(p, log)) && Replay(p, log).swap == p.swap && Replay(p, log).list == p.list
    ensures Replay(p, log).timeout == p.timeout
    ensures Replay(p, log + [o]) ==
      Worker.Step(Replay(p, log).(cancelled := Superseded(log + [o])), o.resp, o.now)
  {
    ReplayShaped(p, log);
    ReplayNext(p, log, o);
    SupersededNext(log, o);
  }

  // --- the three loops: how long they last ---

  predicate Loops(pc: Pc)
  {
    pc.Confirm? || pc.CleanConfirm? || pc.Probe?
  }

  /** How long the loop at pc is patient, in milliseconds, and how long it sleeps between looks. */
  function Patience(p: Job, pc: Pc): int
  {
    if pc.Probe? then p.timeout else 15000
  }

  function Pause(pc: Pc): int
  {
    if pc.Probe? then 250 else 200
  }

  /** The deadline and the next look of the loop at pc. */
  function Deadline(pc: Pc): int
    requires Loops(pc)
  {
    match pc
    case Confirm(_, deadline, _) => deadline
    case CleanConfirm(deadline, _) => deadline
    case Probe(deadline, _) => deadline
  }

  function NextLook(pc: Pc): int
    requires Loops(pc)
  {
    match pc
    case Confirm(_, _, wake) => wake
    case CleanConfirm(_, wake) => wake
    case Probe(_, wake) => wake
  }

  /** The answer lets the loop go on. */
  predicate Unsettled(pc: Pc, r: Resp)
  {
    if pc.Probe? then r == Ok(false) || r == Fail else r == Ok(true)
  }

  /** Answer k is what the loop the worker stands in began with: a stop call that was accepted, or the
      post-start check. */
  ghost predicate Opens(p: Job, log: seq<Obs>, k: int, pc: Pc)
  {
    && 0 <= k < |log| && !log[k].resp.Panic?
    && match pc
       case Confirm(i, _, _) => Replay(p, log[..k]).pc == Stop(i) && log[k].resp.Ok?
       case CleanConfirm(_, _) => Replay(p, log[..k]).pc == CleanStop && log[k].resp.Ok?
       case Probe(_, _) => Replay(p, log[..k]).pc == PostStart && !Superseded(log[..k + 1])
       case _ => false
  }

  /** Since answer k the worker has been looking, at intervals and in vain, for less than its patience. */
  ghost predicate Looking(p: Job, log: seq<Obs>, k: int, pc: Pc)
  {
    && Opens(p, log, k, pc)
    && (forall j :: k < j < |log| ==> Unsettled(pc, log[j].resp) && log[j].now < log[k].now + Patience(p, pc))
    && Loops(pc) && Deadline(pc) == log[k].now + Patience(p, pc)
    && NextLook(pc) == if k == |log| - 1 then log[k].now else log[|log| - 1].now + Pause(pc)
  }

  /** The step that opened the loop at pc. */
  ghost predicate OpenedBy(w: Job, r: Resp, pc: Pc)
  {
    && !r.Panic?
    && match pc
       case Confirm(i, _, _) => w.pc == Stop(i) && r.Ok?
       case CleanConfirm(_, _) => w.pc == CleanStop && r.Ok?
       case Probe(_, _) => w.pc == PostStart && !w.cancelled
       case _ => false
  }

  lemma SweepOpens(w: Job, r: Resp, now: int)
    requires Shaped(w) && Sweeping(w.pc) && !Loops(w.pc) && Loops(Worker.Step(w, r, now).pc)
    ensures var v := Worker.Step(w, r, now).pc;
      Deadline(v) == now + Patience(w, v) && NextLook(v) == now && OpenedBy(w, r, v)
  {
  }

  lemma TargetOpens(w: Job, r: Resp, now: int)
    requires Shaped(w) && !Sweeping(w.pc) && !Loops(w.pc) && Loops(Worker.Step(w, r, now).pc)
    ensures var v := Worker.Step(w, r, now).pc;
      Deadline(v) == now + Patience(w, v) && NextLook(v) == now && OpenedBy(w, r, v)
  {
  }

  lemma StepOpens(w: Job, r: Resp, now: int)
    requires Shaped(w) && !Loops(w.pc) && Loops(Worker.Step(w, r, now).pc)
    ensures var v := Worker.Step(w, r, now).pc;
      Deadline(v) == now + Patience(w, v) && NextLook(v) == now && OpenedBy(w, r, v)
  {
    if Sweeping(w.pc) { SweepOpens(w, r, now); } else { TargetOpens(w, r, now); }
  }

  lemma StepLoops(w: Job, r: Resp, now: int)
    requires Shaped(w) && Loops(w.pc) && Loops(Worker.Step(w, r, now).pc)
    ensures var v := Worker.Step(w, r, now).pc;
      && Unsettled(w.pc, r) && now < Deadline(w.pc) == Deadline(v) && NextLook(v) == now + Pause(v)
      && (w.pc.Confirm? ==> v.Confirm? && v.i == w.pc.i)
      && (w.pc.CleanConfirm? ==> v.CleanConfirm?) && (w.pc.Probe? ==> v.Probe?)
  {
  }

  lemma OpensIs(p: Job, init: seq<Obs>, o: Obs, pc: Pc)
    requires OpenedBy(Replay(p, init).(cancelled := Superseded(init + [o])), o.resp, pc)
    ensures Opens(p, init + [o], |init|, pc)
  {
    var log := init + [o];
    assert log[..|init|] == init && log[..|init| + 1] == log && log[|init|] == o;
  }

  lemma LooksFirst(p: Job, log: seq<Obs>, pc: Pc)
    requires log != [] && Opens(p, log, |log| - 1, pc) && Loops(pc)
    requires Deadline(pc) == log[|log| - 1].now + Patience(p, pc) && NextLook(pc) == log[|log| - 1].now
    ensures Looking(p, log, |log| - 1, pc)
  {
  }

  lemma LoopOpens(p: Job, init: seq<Obs>, o: Obs, u: Job, v: Job)
    requires Fresh(p) && u == Replay(p, init) && v == Replay(p, init + [o]) && Loops(v.pc) && !Loops(u.pc)
    ensures Looking(p, init + [o], |init|, v.pc)
  {
    NextIs(p, init, o);
    StepOpens(u.(cancelled := Superseded(init + [o])), o.resp, o.now);
    OpensIs(p, init, o, v.pc);
    LooksFirst(p, init + [o], v.pc);
  }

  lemma LoopGoesOn(p: Job, init: seq<Obs>, o: Obs, k: int)
    requires Fresh(p) && Looking(p, init, k, Replay(p, init).pc) && Loops(Replay(p, init + [o]).pc)
    ensures Looking(p, init + [o], k, Replay(p, init + [o]).pc)
  {
    var log := init + [o];
    NextIs(p, init, o);
    SupersededNext(init, o);
    ReplayShaped(p, init);
    StepLoops(Replay(p, init).(cancelled := Superseded(log)), o.resp, o.now);
    assert log[..k] == init[..k] && log[..k + 1] == init[..k + 1];
    assert forall j :: k < j < |log| ==> log[j] == if j < |init| then init[j] else o;
  }

  /** A worker that stands in a loop has been looking since some answer. */
  lemma {:induction false} LookingSince(p: Job, log: seq<Obs>)
    requires Fresh(p) && Loops(Replay(p, log).pc)
    ensures exists k :: Looking(p, log, k, Replay(p, log).pc)
    decreases |log|
  {
    if log != [] {
      var init, o := Split(log);
      if Loops(Replay(p, init).pc) {
        LookingSince(p, init);
        var k :| Looking(p, init, k, Replay(p, init).pc);
        LoopGoesOn(p, init, o, k);
      } else {
        LoopOpens(p, init, o, Replay(p, init), Replay(p, log));
      }
    }
  }

  /** By now the worker's patience with the loop it stands in is over: 15 seconds since the stop call
      was accepted, or the startup budget since the post-start check. */
  ghost predicate Late(p: Job, log: seq<Obs>, o: Obs)
  {
    exists k :: Looking(p, log, k, Replay(p, log).pc) && o.now >= log[k].now + Patience(p, Replay(p, log).pc)
  }

  lemma LateIs(p: Job, log: seq<Obs>, o: Obs)
    requires Fresh(p) && Loops(Replay(p, log).pc)
    ensures Late(p, log, o) <==> o.now >= Deadline(Replay(p, log).pc)
  {
    LookingSince(p, log);
    var k :| Looking(p, log, k, Replay(p, log).pc);
  }

  // --- the context ---

  /** Where a worker looks at its context it does as it finds: a superseded one neither starts its
      target, nor lets it run, nor goes on to the next member of a stop; one that is not does. */
  lemma HeedsExactly(p: Job, log: seq<Obs>, o: Obs)
    requires Fresh(p) && !o.resp.Panic?
    ensures var u, v := Replay(p, log).pc, Replay(p, log + [o]).pc;
      && (u == PreStart ==> v == if Superseded(log + [o]) then Done(SwapFailed, true) else Start)
      && (u == PostStart ==> if Superseded(log + [o]) then v == CleanStop else v.Probe?)
      && (u.Check? ==> v == if Superseded(log + [o]) then Done(PoolStopped, true) else Inspect(u.i))
  {
    NextIs(p, log, o);
  }

  // --- the reports of a swap ---

  /** A call of the sweep or of the start, or a look, fails. */
  predicate CallFails(pc: Pc, r: Resp)
  {
    r == Fail && (pc.Inspect? || pc.Stop? || pc.Confirm? || pc.Start? || pc.CleanStop? || pc.CleanConfirm?)
  }

  /** A swap succeeds exactly on a healthy probe; it times out exactly when its startup budget is spent
      and the probe fails; and it fails exactly by a panic, by a call that fails, by a sibling still
      running 15 seconds after its stop call, by being superseded before its start, and in the end of
      every clean-up: when its container has stopped, cannot be stopped or looked at, or still runs
      after 15 seconds. */
  lemma SwapReportsExactly(p: Job, log: seq<Obs>, o: Obs)
    requires Fresh(p) && p.swap && !Replay(p, log).pc.Done?
    ensures var u, v := Replay(p, log).pc, Replay(p, log + [o]).pc;
      && (v == Done(SwapComplete, false) <==> u.Probe? && o.resp == Ok(true))
      && (v == Done(SwapHealthTimeout, true) <==> u.Probe? && Unsettled(u, o.resp) && Late(p, log, o))
      && (v == Done(SwapFailed, true) <==>
            || o.resp.Panic?
            || CallFails(u, o.resp)
            || (u == PreStart && Superseded(log + [o]))
            || (u.Confirm? && o.resp == Ok(true) && Late(p, log, o))
            || (u.CleanConfirm? && (o.resp == Ok(false) || Late(p, log, o))))
      && (v.Done? ==> v in {Done(SwapComplete, false), Done(SwapHealthTimeout, true), Done(SwapFailed, true)})
  {
    NextIs(p, log, o);
    if Loops(Replay(p, log).pc) { LateIs(p, log, o); }
    var w := Replay(p, log).(cancelled := Superseded(log + [o]));
    if Sweeping(w.pc) { SweepReports(w, o.resp, o.now); } else { TargetReports(w, o.resp, o.now); }
  }

  /** A worker of a swap fails. */
  predicate Fails(w: Job, r: Resp, late: bool)
  {
    || r.Panic?
    || CallFails(w.pc, r)
    || (w.pc == PreStart && w.cancelled)
    || (w.pc.Confirm? && r == Ok(true) && late)
    || (w.pc.CleanConfirm? && (r == Ok(false) || late))
  }

  lemma SweepReports(w: Job, r: Resp, now: int)
    requires InRange(w) && w.swap && Sweeping(w.pc) && !w.pc.Check?
    ensures var v := Worker.Step(w, r, now).pc; var late := Loops(w.pc) && now >= Deadline(w.pc);
      if Fails(w, r, late) then v == Done(SwapFailed, true) else !v.Done?
  {
  }

  lemma TargetReports(w: Job, r: Resp, now: int)
    requires w.swap && !Sweeping(w.pc) && !w.pc.Done?
    ensures var v := Worker.Step(w, r, now).pc; var late := Loops(w.pc) && now >= Deadline(w.pc);
      if Fails(w, r, late) then v == Done(SwapFailed, true)
      else if w.pc.Probe? && r == Ok(true) then v == Done(SwapComplete, false)
      else if w.pc.Probe? && late then v == Done(SwapHealthTimeout, true)
      else !v.Done?
  {
  }

  // --- the report of a stop ---

  /** Answer k says that a member could not be stopped. */
  ghost predicate FailsAt(p: Job, log: seq<Obs>, k: int)
  {
    && 0 <= k < |log|
    && var u := Replay(p, log[..k]).pc;
      || (log[k].resp == Fail && (u.Inspect? || u.Stop? || u.Confirm?))
      || (log[k].resp == Ok(true) && u.Confirm? && Late(p, log[..k], log[k]))
  }

  lemma FailsEarlier(p: Job, init: seq<Obs>, o: Obs)
    ensures (exists k :: FailsAt(p, init + [o], k)) <==>
      (exists k :: FailsAt(p, init, k)) || FailsAt(p, init + [o], |init|)
  {
    forall k | 0 <= k < |init| ensures FailsAt(p, init, k) <==> FailsAt(p, init + [o], k) {
      assert (init + [o])[..k] == init[..k];
    }
  }

  lemma StepFails(w: Job, r: Resp, now: int)
    requires InRange(w) && !w.swap
    ensures Worker.Step(w, r, now).firstErr <==>
      || w.firstErr
      || (r == Fail && (w.pc.Inspect? || w.pc.Stop? || w.pc.Confirm?))
      || (r == Ok(true) && w.pc.Confirm? && now >= Deadline(w.pc))
  {
  }

  lemma StopFails(p: Job, init: seq<Obs>, o: Obs)
    requires Fresh(p) && !p.swap
    ensures Replay(p, init + [o]).firstErr <==> Replay(p, init).firstErr || FailsAt(p, init + [o], |init|)
  {
    NextIs(p, init, o);
    assert (init + [o])[..|init|] == init && (init + [o])[|init|] == o;
    if Loops(Replay(p, init).pc) { LateIs(p, init, o); }
    StepFails(Replay(p, init).(cancelled := Superseded(init + [o])), o.resp, o.now);
  }

  lemma {:induction false} FirstErrIs(p: Job, log: seq<Obs>)
    requires Fresh(p) && !p.swap
    ensures Replay(p, log).firstErr <==> exists k :: FailsAt(p, log, k)
    decreases |log|
  {
    if log != [] {
      var init, o := Split(log);
      FirstErrIs(p, init);
      StopFails(p, init, o);
      FailsEarlier(p, init, o);
    }
  }

  /** A stop was cut short: by a panic, or by being superseded. */
  ghost predicate CutShort(p: Job, log: seq<Obs>)
  {
    exists k :: 0 <= k < |log| &&
      (log[k].resp.Panic? || (Superseded(log[..k + 1]) && Replay(p, log[..k]).pc.Check?))
  }

  ghost predicate CutAt(p: Job, log: seq<Obs>, o: Obs)
  {
    o.resp.Panic? || (Superseded(log + [o]) && Replay(p, log).pc.Check?)
  }

  /** The member has been looked at. */
  ghost predicate LookedAt(p: Job, log: seq<Obs>, i: nat)
  {
    exists k :: 0 <= k < |log| && Replay(p, log[..k]).pc == Inspect(i)
  }

  lemma LookedEarlier(p: Job, init: seq<Obs>, o: Obs, i: nat)
    ensures LookedAt(p, init + [o], i) <==> LookedAt(p, init, i) || Replay(p, init).pc == Inspect(i)
  {
    var log := init + [o];
    assert log[..|init|] == init;
    if LookedAt(p, init, i) {
      var k :| 0 <= k < |init| && Replay(p, init[..k]).pc == Inspect(i);
      assert log[..k] == init[..k];
    }
    if LookedAt(p, log, i) {
      var k :| 0 <= k < |log| && Replay(p, log[..k]).pc == Inspect(i);
      assert k < |init| ==> log[..k] == init[..k];
    }
  }

  /** How many members a stop that was not cut short has looked at. */
  function Visited(w: Job): nat
    requires InRange(w)
  {
    match w.pc
    case Check(i) => i
    case Inspect(i) => i
    case Stop(i) => i + 1
    case Confirm(i, _, _) => i + 1
    case _ => |w.list|
  }

  lemma StepVisits(w: Job, r: Resp, now: int)
    requires Shaped(w) && !w.swap && !r.Panic? && !(w.cancelled && w.pc.Check?)
    ensures var v := Worker.Step(w, r, now);
      InRange(v) && Visited(v) <= Visited(w) + (if w.pc.Inspect? then 1 else 0)
  {
    StepShaped(w, r, now);
  }

  lemma StepErrs(w: Job, r: Resp, now: int)
    requires Shaped(w) && !w.swap && !r.Panic? && !(w.cancelled && w.pc.Check?)
    ensures var v := Worker.Step(w, r, now);
      v.pc.Done? && (w.pc.Done? ==> w.pc.err == w.firstErr) ==> v.pc.err == v.firstErr
  {
  }

  lemma StopVisits(p: Job, init: seq<Obs>, o: Obs)
    requires Fresh(p) && !p.swap && !CutAt(p, init, o)
    ensures var u, v := Replay(p, init), Replay(p, init + [o]);
      InRange(u) && InRange(v) && Visited(v) <= Visited(u) + (if u.pc.Inspect? then 1 else 0)
    ensures var u, v := Replay(p, init), Replay(p, init + [o]);
      v.pc.Done? && (u.pc.Done? ==> u.pc.err == u.firstErr) ==> v.pc.err == v.firstErr
  {
    NextIs(p, init, o);
    ReplayShaped(p, init);
    SupersededNext(init, o);
    StepVisits(Replay(p, init).(cancelled := Superseded(init + [o])), o.resp, o.now);
    StepErrs(Replay(p, init).(cancelled := Superseded(init + [o])), o.resp, o.now);
  }

  lemma CutEarlier(p: Job, init: seq<Obs>, o: Obs)
    ensures CutShort(p, init) || CutAt(p, init, o) ==> CutShort(p, init + [o])
  {
    var log := init + [o];
    assert log[..|init|] == init && log[..|init| + 1] == log && log[|init|] == o;
    if CutShort(p, init) {
      var k :| 0 <= k < |init|
        && (init[k].resp.Panic? || (Superseded(init[..k + 1]) && Replay(p, init[..k]).pc.Check?));
      assert log[..k] == init[..k] && log[..k + 1] == init[..k + 1] && log[k] == init[k];
    }
  }

  lemma {:induction false} AllVisited(p: Job, log: seq<Obs>, i: nat)
    requires Fresh(p) && !p.swap && !CutShort(p, log)
    ensures Shaped(Replay(p, log)) && (i < Visited(Replay(p, log)) ==> LookedAt(p, log, i))
    decreases |log|
  {
    ReplayShaped(p, log);
    if log != [] {
      var init, o := Split(log);
      CutEarlier(p, init, o);
      AllVisited(p, init, i);
      StopVisits(p, init, o);
      LookedEarlier(p, init, o, i);
    }
  }

  /** A stop that was not cut short has looked at every member when it reports, whatever failed on the
      way, and reports an error exactly if some member could not be stopped: a call failed, or it
      still ran 15 seconds after its stop call. One that was cut short reports an error. */
  lemma StopReportsExactly(p: Job, log: seq<Obs>)
    requires Fresh(p) && !p.swap && Replay(p, log).pc.Done?
    ensures Replay(p, log).pc.kind == PoolStopped
    ensures !CutShort(p, log) ==> forall i: nat :: i < |p.list| ==> LookedAt(p, log, i)
    ensures !CutShort(p, log) ==> (Replay(p, log).pc.err <==> exists k :: FailsAt(p, log, k))
    ensures Legal(p, log) && CutShort(p, log) ==> Replay(p, log).pc.err
  {
    ReplayShaped(p, log);
    if !CutShort(p, log) {
      forall i: nat | i < |p.list| ensures LookedAt(p, log, i) { AllVisited(p, log, i); }
      DoneErr(p, log);
      FirstErrIs(p, log);
    } else if Legal(p, log) {
      CutErr(p, log);
    }
  }

  lemma {:induction false} DoneErr(p: Job, log: seq<Obs>)
    requires Fresh(p) && !p.swap && Replay(p, log).pc.Done? && !CutShort(p, log)
    ensures Replay(p, log).pc.err == Replay(p, log).firstErr
    decreases |log|
  {
    if log != [] {
      var init, o := Split(log);
      CutEarlier(p, init, o);
      StopVisits(p, init, o);
      if Replay(p, init).pc.Done? { DoneErr(p, init); }
    }
  }

  /** Whatever cuts a stop short is its last answer. */
  lemma CutErr(p: Job, log: seq<Obs>)
    requires Fresh(p) && !p.swap && Replay(p, log).pc.Done? && Legal(p, log) && CutShort(p, log)
    ensures Replay(p, log).pc.err
  {
    var k :| 0 <= k < |log| && (log[k].resp.Panic? || (Superseded(log[..k + 1]) && Replay(p, log[..k]).pc.Check?));
    NextIs(p, log[..k], log[k]);
    assert log[..k] + [log[k]] == log[..k + 1];
    assert Replay(p, log[..k + 1]).pc == Done(PoolStopped, true);
    assert k + 1 == |log|;
    assert log[..k + 1] == log;
  }
}
