/** Where the pool goes: for every step, whether it sends a worker off and for what, and when the
    pool becomes ACTIVE, IDLE or ERROR. */
module Course {
  import opened Names
  import opened State
  import opened Ledger
  import opened Worker
  import opened Manager
  import opened Invariant
  import opened System
  import opened Safety
  import opened Waiters
  import opened AdmitGo
  import opened Causes
  import opened Answers

  // --- a worker is sent off ---

  /** A new worker is current: to swap to the given member, or to stop the pool. */
  ghost predicate SentOff(before: nat, r: Mgr, target: Option<Name>)
  {
    && r.state == Swapping && before < r.crew.opSeq && r.crew.opSeq in r.crew.jobs
    && var w := r.crew.jobs[r.crew.opSeq];
      && !w.cancelled && w.seen == {} && !w.started && w.op == r.crew.opSeq
      && match target
         case Some(n) => w.swap && n in r.cfg.members && w.target == n && r.target == n
         case None => !w.swap && r.target == NONE
  }

  ghost predicate Begins(s: Sys, e: Event, target: Option<Name>)
    requires Grounded(s.m)
  {
    !Apply(s, e).closed && SentOff(s.m.crew.opSeq, Apply(s, e).m, target)
  }

  /** The member whose head has waited longest once the step is done, "" if nobody waits. */
  ghost function LongestAfter(s: Sys, e: Event): Name
    requires Grounded(s.m)
  {
    Oldest(Apply(s, e).m.book.queues)
  }

  /** The service a report of the current worker is the success of. */
  ghost function Brought(s: Sys, e: Event): Name
    requires Grounded(s.m) && Enabled(s, e) && e.Report?
  {
    var w := s.m.crew.jobs[e.op];
    if w.pc.kind == SwapComplete then w.target else NONE
  }

  /** An admin swap waits for the report, and the report has not brought it. */
  ghost predicate StillPending(s: Sys, e: Event)
    requires Grounded(s.m) && Enabled(s, e) && e.Report?
  {
    s.m.adminPending != NONE && s.m.adminPending != Brought(s, e)
  }

  ghost predicate GraceOver(s: Sys)
  {
    s.now - s.m.startedAt >= s.m.cfg.grace
  }

  /** The step is due to send a worker off for this. */
  ghost predicate Due(s: Sys, e: Event, target: Option<Name>)
    requires Grounded(s.m) && Enabled(s, e)
  {
    match e
    case Admit(n, _) =>
      target == Some(n) && Joins(s, e, n) && s.m.state != Swapping && (s.m.state == Active ==> GraceOver(s))
    case AdminSwap(n) =>
      target == Some(n) && n in s.m.cfg.members && s.m.state != Swapping && !ActiveOn(s, n)
    case AdminStop(_) =>
      target == None && s.m.state != Idle
    case Report(op) =>
      op == s.m.crew.opSeq &&
      if StillPending(s, e) then target == Some(s.m.adminPending)
      else
        LongestAfter(s, e) != NONE && target == Some(LongestAfter(s, e))
        && (Ends(s, e, SwapComplete) ==> s.m.cfg.grace == 0)
    case Fire(t) =>
      Current(s.m.timers, t) &&
      if t.kind == Grace then
        s.m.state == Active && LongestAfter(s, e) != NONE && target == Some(LongestAfter(s, e))
      else
        LongestAfter(s, e) == NONE &&
        if s.m.state == Idle then target == Some(s.m.cfg.defaultSvc)
        else
          s.now - s.m.lastActivity >= s.m.cfg.cooldown
          && target == if s.m.cfg.defaultSvc != NONE then Some(s.m.cfg.defaultSvc) else None
    case Notice(_, _) =>
      (exists n :: Kills(s, e, n)) && LongestAfter(s, e) != NONE && target == Some(LongestAfter(s, e))
    case _ => false
  }

  lemma SwapSentOff(m: Mgr, n: Name, target: Option<Name>)
    requires n in m.cfg.members
    ensures SentOff(m.crew.opSeq, StartSwap(m, n), target) <==> target == Some(n)
  {
  }

  lemma StopSentOff(m: Mgr, target: Option<Name>)
    ensures SentOff(m.crew.opSeq, StartStopAll(m), target) <==> target == None
  {
  }

  lemma AdmitBegins(s: Sys, e: Event, target: Option<Name>)
    requires Kept(s) && Grounded(s.m) && Enabled(s, e) && e.Admit?
    ensures Begins(s, e, target) <==> Due(s, e, target)
  {
    var m, n := s.m, e.service;
    if Joins(s, e, n) {
      var q := m.(book := Enqueue(m.book, n, e.reply, m.cfg.members[n].maxQueue));
      assert Apply(s, e).m == Requested(q, n, s.now);
      if m.state != Swapping && (m.state == Active ==> GraceOver(s)) { SwapSentOff(q, n, target); }
    }
  }

  lemma AdminBegins(s: Sys, e: Event, target: Option<Name>)
    requires Kept(s) && Grounded(s.m) && Enabled(s, e) && e.AdminSwap?
    ensures Begins(s, e, target) <==> Due(s, e, target)
  {
    if e.service in s.m.cfg.members { SwapSentOff(s.m, e.service, target); }
  }

  lemma StopBegins(s: Sys, e: Event, target: Option<Name>)
    requires Kept(s) && Grounded(s.m) && Enabled(s, e) && e.AdminStop?
    ensures Begins(s, e, target) <==> Due(s, e, target)
  {
    CoversQueues(s.m, e.order);
    StopSentOff(s.m.(adminPending := NONE, book := FlushAll(s.m.book, e.order, Shutdown)), target);
  }

  lemma ReportBegins(s: Sys, e: Event, target: Option<Name>)
    requires Kept(s) && Grounded(s.m) && Enabled(s, e) && e.Report?
    ensures Begins(s, e, target) <==> Due(s, e, target)
  {
    if e.op != s.m.crew.opSeq {
      StaleReportIsIgnored(s, e.op);
    } else {
      var y, done := ReportLands(s, e.op);
      ChainBook(y, done, s.now);
      ChainBegins(y, done, s.now, target);
    }
  }

  lemma ChainBegins(y: Mgr, activated: bool, now: int, target: Option<Name>)
    requires Typed(y) && y.state == (if activated then Active else Idle) && (!activated ==> y.active == NONE)
    requires 0 <= y.cfg.grace
    ensures SentOff(y.crew.opSeq, ChainAfterTerminal(y, activated, now), target) <==>
      if y.adminPending != NONE && y.adminPending != y.active then target == Some(y.adminPending)
      else Oldest(y.book.queues) != NONE && target == Some(Oldest(y.book.queues)) && (activated ==> y.cfg.grace == 0)
  {
    var c := y.(adminPending := NONE);
    var next := Oldest(y.book.queues);
    if y.adminPending != NONE && y.adminPending != y.active { SwapSentOff(c, y.adminPending, target); }
    else if next != NONE && !(activated && y.cfg.grace > 0) { SwapSentOff(c, next, target); }
  }

  lemma FireBegins(s: Sys, e: Event, target: Option<Name>)
    requires Kept(s) && Grounded(s.m) && Enabled(s, e) && e.Fire?
    ensures Begins(s, e, target) <==> Due(s, e, target)
  {
    var k := TakeTick(s.m, e.tick);
    TickBook(k, e.tick, s.now);
    TickPlaces(s.m, e.tick);
    TickBegins(k, e.tick, s.now, target);
  }

  /** What the invariant says of the state in which a tick counts. */
  lemma TickPlaces(m: Mgr, t: Tick)
    requires Inv(m)
    ensures Current(m.timers, t) && t.kind == Cooldown ==>
      || (m.state == Idle && m.cfg.defaultSvc != NONE && !SomeoneWaits(m.book.queues))
      || (m.state == Active && Cools(m))
  {
  }

  lemma TickBegins(k: Mgr, t: Tick, now: int, target: Option<Name>)
    requires Typed(k)
    requires t.epoch == Epoch(k.timers, t.kind) && t.kind == Cooldown ==>
      (k.state == Idle && k.cfg.defaultSvc != NONE) || (k.state == Active && Cools(k))
    ensures SentOff(k.crew.opSeq, HandleTick(k, t, now), target) <==>
      && t.epoch == Epoch(k.timers, t.kind)
      && var next := Oldest(k.book.queues);
        if t.kind == Grace then k.state == Active && next != NONE && target == Some(next)
        else
          next == NONE &&
          if k.state == Idle then target == Some(k.cfg.defaultSvc)
          else
            now - k.lastActivity >= k.cfg.cooldown
            && target == if k.cfg.defaultSvc != NONE then Some(k.cfg.defaultSvc) else None
  {
    if t.kind == Grace {
      if Oldest(k.book.queues) != NONE { SwapSentOff(k, Oldest(k.book.queues), target); }
    } else {
      CooldownBegins(k, t, now, target);
    }
  }

  lemma CooldownBegins(k: Mgr, t: Tick, now: int, target: Option<Name>)
    requires Typed(k) && t.kind == Cooldown
    requires t.epoch == Epoch(k.timers, t.kind) ==>
      (k.state == Idle && k.cfg.defaultSvc != NONE) || (k.state == Active && Cools(k))
    ensures SentOff(k.crew.opSeq, HandleTick(k, t, now), target) <==>
      t.epoch == Epoch(k.timers, t.kind) && Oldest(k.book.queues) == NONE &&
      if k.state == Idle then target == Some(k.cfg.defaultSvc)
      else
        now - k.lastActivity >= k.cfg.cooldown
        && target == if k.cfg.defaultSvc != NONE then Some(k.cfg.defaultSvc) else None
  {
    if k.cfg.defaultSvc != NONE { SwapSentOff(k, k.cfg.defaultSvc, target); }
    StopSentOff(k, target);
  }

  lemma NoticeBegins(s: Sys, e: Event, target: Option<Name>)
    requires Kept(s) && Grounded(s.m) && Enabled(s, e) && e.Notice?
    ensures Begins(s, e, target) <==> Due(s, e, target)
  {
    var owner := MemberByContainer(s.m.cfg, e.container);
    forall n | Kills(s, e, n) ensures owner == Some(n) {
      assert OwnsContainer(s.m.cfg, e.container, n);
    }
    if owner.Some? && !e.action.ActStart? && Serves(s.m, owner.value) {
      assert Kills(s, e, owner.value);
      AbortGoes(s.m, owner.value, target);
    }
  }

  /** After the death of its container the pool is in ERROR, or on its way to the longest waiter. */
  lemma AbortGoes(m: Mgr, n: Name, target: Option<Name>)
    requires Typed(m) && n in m.cfg.members && Serves(m, n)
    ensures var r := Abort(m, n); var next := Oldest(r.book.queues);
      && (SentOff(m.crew.opSeq, r, target) <==> next != NONE && target == Some(next))
      && (next == NONE ==> r.state == Error && r.active == NONE)
  {
    var e := if m.state == Active then BumpEpochs(m) else SupersedeWorker(m).(target := NONE);
    var f := Publish(e.(state := Error, active := NONE));
    var g := f.(book := Flush(f.book, n, DockerError));
    if Oldest(g.book.queues) != NONE { SwapSentOff(g, Oldest(g.book.queues), target); }
  }

  lemma OtherBegins(s: Sys, e: Event, target: Option<Name>)
    requires Grounded(s.m) && Enabled(s, e)
    requires !e.Admit? && !e.AdminSwap? && !e.AdminStop? && !e.Report? && !e.Fire? && !e.Notice?
    ensures !Begins(s, e, target)
  {
  }

  /** A worker is sent off, for a member or to stop the pool, if and only if it is due. */
  lemma BeginsExactly(s: Sys, e: Event, target: Option<Name>)
    requires Kept(s) && Grounded(s.m) && Enabled(s, e)
    ensures Begins(s, e, target) <==> Due(s, e, target)
  {
    if e.Admit? { AdmitBegins(s, e, target); }
    else if e.AdminSwap? { AdminBegins(s, e, target); }
    else if e.AdminStop? { StopBegins(s, e, target); }
    else if e.Report? { ReportBegins(s, e, target); }
    else if e.Fire? { FireBegins(s, e, target); }
    else if e.Notice? { NoticeBegins(s, e, target); }
    else { OtherBegins(s, e, target); }
  }

  // --- where it comes to rest ---

  /** The current worker's report is taken, and nothing follows from it. */
  ghost predicate Settles(s: Sys, e: Event)
    requires Grounded(s.m) && Enabled(s, e)
  {
    e.Report? && e.op == s.m.crew.opSeq && !StillPending(s, e)
    && (LongestAfter(s, e) == NONE || (Ends(s, e, SwapComplete) && s.m.cfg.grace > 0))
  }

  /** Where a step leaves a pool that it sends no worker off from: the state, and the service of
      an ACTIVE one. */
  ghost function RestsAt(s: Sys, e: Event): (PoolState, Name)
    requires Grounded(s.m) && Enabled(s, e)
  {
    if e.Close? then (Idle, NONE)
    else if Settles(s, e) then (if Ends(s, e, SwapComplete) then (Active, Brought(s, e)) else (Idle, NONE))
    else if exists n :: Kills(s, e, n) then (Error, NONE)
    else (s.m.state, s.m.active)
  }

  lemma ReportRests(s: Sys, e: Event)
    requires Kept(s) && Grounded(s.m) && Enabled(s, e) && e.Report? && e.op == s.m.crew.opSeq
    requires forall target :: !Due(s, e, target)
    ensures (Apply(s, e).m.state, Apply(s, e).m.active) == RestsAt(s, e)
  {
    var y, done := ReportLands(s, e.op);
    ChainBook(y, done, s.now);
    assert !Due(s, e, Some(s.m.adminPending)) && !Due(s, e, Some(LongestAfter(s, e)));
    assert Settles(s, e);
    ChainRestsAt(y, done, s.now);
  }

  lemma ChainRestsAt(y: Mgr, activated: bool, now: int)
    requires Typed(y) && (y.adminPending == NONE || y.adminPending == y.active)
    requires Oldest(y.book.queues) == NONE || (activated && y.cfg.grace > 0)
    ensures var x := ChainAfterTerminal(y, activated, now); x.state == y.state && x.active == y.active
  {
  }

  lemma NoticeRests(s: Sys, e: Event)
    requires Kept(s) && Grounded(s.m) && Enabled(s, e) && e.Notice?
    requires forall target :: !Due(s, e, target)
    ensures (Apply(s, e).m.state, Apply(s, e).m.active) == RestsAt(s, e)
  {
    var owner := MemberByContainer(s.m.cfg, e.container);
    assert !Due(s, e, Some(LongestAfter(s, e)));
    forall n | Kills(s, e, n) ensures owner == Some(n) {
      assert OwnsContainer(s.m.cfg, e.container, n);
    }
    if owner.Some? && !e.action.ActStart? && Serves(s.m, owner.value) {
      assert Kills(s, e, owner.value);
      AbortGoes(s.m, owner.value, None);
    }
  }

  lemma FireRests(s: Sys, e: Event)
    requires Kept(s) && Grounded(s.m) && Enabled(s, e) && e.Fire?
    requires forall target :: !Due(s, e, target)
    ensures Apply(s, e).m.state == s.m.state && Apply(s, e).m.active == s.m.active
  {
    var k := TakeTick(s.m, e.tick);
    TickBook(k, e.tick, s.now);
    TickPlaces(s.m, e.tick);
    assert !Due(s, e, Some(LongestAfter(s, e))) && !Due(s, e, Some(s.m.cfg.defaultSvc)) && !Due(s, e, None);
  }

  lemma OtherRests(s: Sys, e: Event)
    requires Kept(s) && Grounded(s.m) && Enabled(s, e) && !e.Report? && !e.Notice? && !e.Fire?
    requires forall target :: !Due(s, e, target)
    ensures (Apply(s, e).m.state, Apply(s, e).m.active) == RestsAt(s, e)
  {
    if e.Admit? {
      AdmitRests(s, e);
    } else {
      assert !Due(s, e, None) && (e.AdminSwap? ==> !Due(s, e, Some(e.service)));
    }
  }

  lemma AdmitRests(s: Sys, e: Event)
    requires Kept(s) && Grounded(s.m) && Enabled(s, e) && e.Admit? && !Due(s, e, Some(e.service))
    ensures Apply(s, e).m.state == s.m.state && Apply(s, e).m.active == s.m.active
  {
  }

  /** A step that is due to send no worker off leaves the pool exactly where it should: ACTIVE by a
      success that nothing overtakes, IDLE by a failure or a stop, ERROR by a death, and otherwise
      where it was. */
  lemma RestsExactly(s: Sys, e: Event)
    requires Kept(s) && Grounded(s.m) && Enabled(s, e) && forall target :: !Due(s, e, target)
    ensures (Apply(s, e).m.state, Apply(s, e).m.active) == RestsAt(s, e)
  {
    if e.Report? {
      if e.op == s.m.crew.opSeq { ReportRests(s, e); } else { StaleReportIsIgnored(s, e.op); }
    } else if e.Notice? {
      NoticeRests(s, e);
    } else if e.Fire? {
      FireRests(s, e);
    } else {
      OtherRests(s, e);
    }
  }

  lemma DueOrRests(s: Sys, e: Event)
    requires Kept(s) && Grounded(s.m) && Enabled(s, e)
    ensures (exists target :: Due(s, e, target)) ==> Apply(s, e).m.state == Swapping && !e.Close?
    ensures (forall target :: !Due(s, e, target)) ==> (Apply(s, e).m.state, Apply(s, e).m.active) == RestsAt(s, e)
  {
    if target :| Due(s, e, target) { BeginsExactly(s, e, target); } else { RestsExactly(s, e); }
  }

  lemma ReportDue(s: Sys, e: Event)
    requires Kept(s) && Grounded(s.m) && Enabled(s, e) && e.Report? && e.op == s.m.crew.opSeq
    ensures (exists target :: Due(s, e, target)) <==> !Settles(s, e)
  {
    if StillPending(s, e) {
      assert Due(s, e, Some(s.m.adminPending));
    } else if !Settles(s, e) {
      assert Due(s, e, Some(LongestAfter(s, e)));
    }
  }

  lemma NoticeDue(s: Sys, e: Event)
    requires Grounded(s.m) && Enabled(s, e) && e.Notice?
    ensures (exists target :: Due(s, e, target)) <==> (exists n :: Kills(s, e, n)) && LongestAfter(s, e) != NONE
  {
    if (exists n :: Kills(s, e, n)) && LongestAfter(s, e) != NONE { assert Due(s, e, Some(LongestAfter(s, e))); }
  }

  /** A pool that is not IDLE becomes IDLE exactly by a report of failure, or of a stop, that nothing
      follows from, and by Close. */
  lemma IdleExactly(s: Sys, e: Event)
    requires Kept(s) && Grounded(s.m) && Enabled(s, e) && s.m.state != Idle
    ensures Apply(s, e).m.state == Idle <==>
      || e.Close?
      || (e.Report? && e.op == s.m.crew.opSeq && !Ends(s, e, SwapComplete)
          && s.m.adminPending == NONE && LongestAfter(s, e) == NONE)
  {
    if e.Report? && e.op == s.m.crew.opSeq { ReportIdle(s, e); } else { OtherIdle(s, e); }
  }

  lemma ReportIdle(s: Sys, e: Event)
    requires Kept(s) && Grounded(s.m) && Enabled(s, e) && e.Report? && e.op == s.m.crew.opSeq
    ensures Apply(s, e).m.state == Idle <==>
      !Ends(s, e, SwapComplete) && s.m.adminPending == NONE && LongestAfter(s, e) == NONE
  {
    DueOrRests(s, e);
    ReportDue(s, e);
  }

  lemma OtherIdle(s: Sys, e: Event)
    requires Kept(s) && Grounded(s.m) && Enabled(s, e) && s.m.state != Idle
    requires !(e.Report? && e.op == s.m.crew.opSeq)
    ensures Apply(s, e).m.state == Idle <==> e.Close?
  {
    DueOrRests(s, e);
    assert !Settles(s, e);
  }

  /** It comes to ERROR exactly by the death of the container it serves, or is swapping in, with
      nobody left to wait. */
  lemma ErrorExactly(s: Sys, e: Event)
    requires Kept(s) && Grounded(s.m) && Enabled(s, e) && s.m.state != Error
    ensures Apply(s, e).m.state == Error <==> (exists n :: Kills(s, e, n)) && LongestAfter(s, e) == NONE
  {
    if e.Notice? { NoticeError(s, e); } else { OtherError(s, e); }
  }

  lemma NoticeError(s: Sys, e: Event)
    requires Kept(s) && Grounded(s.m) && Enabled(s, e) && e.Notice? && s.m.state != Error
    ensures Apply(s, e).m.state == Error <==> (exists n :: Kills(s, e, n)) && LongestAfter(s, e) == NONE
  {
    DueOrRests(s, e);
    NoticeDue(s, e);
  }

  lemma OtherError(s: Sys, e: Event)
    requires Kept(s) && Grounded(s.m) && Enabled(s, e) && !e.Notice? && s.m.state != Error
    ensures Apply(s, e).m.state != Error && forall n :: !Kills(s, e, n)
  {
    DueOrRests(s, e);
    RestsNoError(s, e);
  }

  lemma RestsNoError(s: Sys, e: Event)
    requires Grounded(s.m) && Enabled(s, e) && !e.Notice? && s.m.state != Error
    ensures RestsAt(s, e).0 != Error && forall n :: !Kills(s, e, n)
  {
  }

  /** It becomes ACTIVE on a service exactly by the current worker's report of its success, unless
      another admin swap is pending, or somebody waits and there is no grace period. */
  lemma ActiveExactly(s: Sys, e: Event, n: Name)
    requires Kept(s) && Grounded(s.m) && Enabled(s, e) && !ActiveOn(s, n)
    ensures ActiveOn(Apply(s, e), n) <==>
      && EndsFor(s, e, SwapComplete, n) && (s.m.adminPending == NONE || s.m.adminPending == n)
      && (LongestAfter(s, e) == NONE || s.m.cfg.grace > 0)
  {
    if e.Report? && e.op == s.m.crew.opSeq { ReportActive(s, e, n); } else { OtherActive(s, e, n); }
  }

  lemma ReportActive(s: Sys, e: Event, n: Name)
    requires Kept(s) && Grounded(s.m) && Enabled(s, e) && e.Report? && e.op == s.m.crew.opSeq
    ensures ActiveOn(Apply(s, e), n) <==>
      && EndsFor(s, e, SwapComplete, n) && (s.m.adminPending == NONE || s.m.adminPending == n)
      && (LongestAfter(s, e) == NONE || s.m.cfg.grace > 0)
  {
    DueOrRests(s, e);
    ReportDue(s, e);
  }

  lemma OtherActive(s: Sys, e: Event, n: Name)
    requires Kept(s) && Grounded(s.m) && Enabled(s, e) && !ActiveOn(s, n)
    requires !(e.Report? && e.op == s.m.crew.opSeq)
    ensures !ActiveOn(Apply(s, e), n)
  {
    DueOrRests(s, e);
    assert !Settles(s, e);
  }

  // --- what operators are told ---

  /** The answer to an operator's swap tells exactly what became of it. */
  lemma AdminSwapTold(s: Sys, n: Name)
    requires Kept(s) && Grounded(s.m) && !s.closed
    ensures var told := HandleAdminSwap(s.m, n).1; var t := Apply(s, AdminSwap(n)).m;
      && (told == Unknown <==> n !in s.m.cfg.members)
      && (told == AlreadyActive <==> n in s.m.cfg.members && ActiveOn(s, n))
      && (told == Initiated <==> Begins(s, AdminSwap(n), Some(n)))
      && (told == Superseded <==>
            n in s.m.cfg.members && s.m.state == Swapping && s.m.target != n && s.m.adminPending !in [NONE, n])
      && (told == Pending <==>
            n in s.m.cfg.members && s.m.state == Swapping && (s.m.target == n || s.m.adminPending in [NONE, n]))
      && (told != Initiated ==>
            t == s.m.(adminPending := if (told == Pending || told == Superseded) && s.m.target != n then n
                                      else s.m.adminPending))
  {
    BeginsExactly(s, AdminSwap(n), Some(n));
  }

  /** And so does the answer to a stop; either way nothing is pending and nobody waits any more. */
  lemma AdminStopTold(s: Sys, order: seq<Name>)
    requires Kept(s) && Grounded(s.m) && Enabled(s, AdminStop(order))
    ensures var told := HandleAdminStop(s.m, order).1; var t := Apply(s, AdminStop(order)).m;
      && (told == AlreadyIdle <==> s.m.state == Idle) && (told == AlreadyIdle ==> t.state == Idle && t.crew == s.m.crew)
      && (told == Initiated <==> Begins(s, AdminStop(order), None)) && (told == AlreadyIdle || told == Initiated)
      && t.adminPending == NONE && NobodyWaits(t)
  {
    CoversQueues(s.m, order);
    FlushAllEmpties(s.m.book, order, Shutdown);
    BeginsExactly(s, AdminStop(order), None);
  }

  /** What is pending after a step: the last member an operator asked for during a swap to another,
      until the current worker reports or an operator stops the pool. */
  lemma PendingExactly(s: Sys, e: Event)
    requires Kept(s) && Grounded(s.m) && Enabled(s, e)
    ensures Apply(s, e).m.adminPending ==
      if e.AdminSwap? && e.service in s.m.cfg.members && s.m.state == Swapping && s.m.target != e.service then e.service
      else if e.AdminStop? || (e.Report? && e.op == s.m.crew.opSeq) then NONE
      else s.m.adminPending
  {
    if e.Report? {
      if e.op == s.m.crew.opSeq {
        var y, done := ReportLands(s, e.op);
        ChainHonours(y, done, s.now);
      } else {
        StaleReportIsIgnored(s, e.op);
      }
    } else {
      OtherPending(s, e);
    }
  }

  lemma OtherPending(s: Sys, e: Event)
    requires Kept(s) && Grounded(s.m) && Enabled(s, e) && !e.Report?
    ensures Apply(s, e).m.adminPending ==
      if e.AdminSwap? && e.service in s.m.cfg.members && s.m.state == Swapping && s.m.target != e.service then e.service
      else if e.AdminStop? then NONE
      else s.m.adminPending
  {
    match e
    case Admit(n, reply) => AdmitKeepsPending(s.m, n, reply, s.now);
    case Fire(t) => TickKeepsPending(TakeTick(s.m, t), t, s.now);
    case Notice(c, action) => NoticeKeepsPending(s.m, c, action);
    case _ =>
  }

  lemma AdmitKeepsPending(m: Mgr, n: Name, reply: nat, now: int)
    requires Typed(m)
    ensures HandleAdmit(m, n, reply, now).adminPending == m.adminPending
  {
  }

  lemma TickKeepsPending(m: Mgr, t: Tick, now: int)
    requires Typed(m)
    ensures HandleTick(m, t, now).adminPending == m.adminPending
  {
  }

  lemma NoticeKeepsPending(m: Mgr, container: Name, action: Action)
    requires Typed(m)
    ensures HandleExternalEvent(m, container, action).adminPending == m.adminPending
  {
  }
}
