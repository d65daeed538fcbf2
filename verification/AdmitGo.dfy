/** AdmitGo: whom it is sent to, and what it is worth. */
module AdmitGo {
  import opened Names
  import opened State
  import opened Ledger
  import opened Manager
  import opened Invariant
  import opened System
  import opened Safety
  import opened Exclusion
  import opened Waiters

  // --- AdmitGo is sound ---

  /** The worker was never superseded, saw every sibling's container stopped, started its target,
      and the target answered a health probe. */
  ghost predicate Vouches(m: Mgr, op: nat)
  {
    && op in m.crew.jobs && op == m.crew.opSeq
    && var w := m.crew.jobs[op];
      && w.pc.Done? && w.pc.kind == SwapComplete && !w.cancelled && w.started && w.healthy
      && w.target in m.cfg.members
      && forall n :: n in m.cfg.members && n != w.target ==> m.cfg.members[n].containerName in w.seen
  }

  lemma CompleteVouches(m: Mgr, op: nat)
    requires Inv(m) && op in m.crew.jobs && op == m.crew.opSeq
    requires m.crew.jobs[op].pc.Done? && m.crew.jobs[op].pc.kind == SwapComplete
    ensures Vouches(m, op)
  {
    var w := m.crew.jobs[op];
    assert JobOk(m.cfg, op, w);
    OtherContainersAre(m.cfg, w.target);
    forall n | n in m.cfg.members && n != w.target ensures m.cfg.members[n].containerName in w.seen {
      var x := m.cfg.members[n].containerName;
      assert x in w.list;
      var j :| 0 <= j < |w.list| && w.list[j] == x;
    }
  }

  /** An AdmitGo sent by step e goes to a client of the service that is ACTIVE, or of the
      service whose vouched-for worker the step makes ACTIVE. */
  ghost predicate GoIsTrue(s: Sys, e: Event, service: Name)
  {
    || (e.Admit? && s.m.state == Active && s.m.active == service)
    || (e.Report? && Vouches(s.m, e.op) && s.m.crew.jobs[e.op].target == service)
  }

  lemma FlushSends(b: Book, n: Name, result: AdmitResult, i: nat)
    requires QueuesOk(b) && n in b.queues && |b.sent| <= i < |Flush(b, n, result).sent|
    ensures var x := Flush(b, n, result).sent[i];
      x.result == result && x.reply in b.asked && b.asked[x.reply] == n
  {
    assert QueueOk(b.queues[n], n, b.next, b.asked);
  }

  lemma ReportedGo(s: Sys, op: nat, i: nat)
    requires Kept(s) && Enabled(s, Report(op))
    requires |s.m.book.sent| <= i < |BookAfter(s, Report(op)).sent| && BookAfter(s, Report(op)).sent[i].result == Go
    ensures var x := BookAfter(s, Report(op)).sent[i];
      x.reply in s.m.book.asked && GoIsTrue(s, Report(op), s.m.book.asked[x.reply])
  {
    JobAt(s.m, op);
    var w := s.m.crew.jobs[op];
    FlushSends(s.m.book, w.target, ResultOf(w.pc.kind), i);
    CompleteVouches(s.m, op);
  }

  lemma FlushedNotGo(s: Sys, e: Event, i: nat)
    requires Kept(s) && Enabled(s, e) && (e.Notice? || e.AdminStop? || e.Close?)
    requires |s.m.book.sent| <= i < |BookAfter(s, e).sent|
    ensures BookAfter(s, e).sent[i].result != Go
  {
    match e
    case Notice(container, action) =>
      FlushSends(s.m.book, MemberByContainer(s.m.cfg, container).value, DockerError, i);
    case AdminStop(order) => CoversQueues(s.m, order); FlushAllEmpties(s.m.book, order, Shutdown);
    case Close(order) => CoversQueues(s.m, order); FlushAllEmpties(s.m.book, order, Shutdown);
  }

  /** AdmitGo is only sent in truth. */
  lemma GoIsSound(s: Sys, e: Event, i: nat)
    requires Kept(s) && Enabled(s, e)
    requires |s.m.book.sent| <= i < |Apply(s, e).m.book.sent| && Apply(s, e).m.book.sent[i].result == Go
    ensures var b := Apply(s, e).m.book;
      b.sent[i].reply in b.asked && GoIsTrue(s, e, b.asked[b.sent[i].reply])
  {
    BookIs(s, e);
    if e.Report? { ReportedGo(s, e.op, i); }
    if e.Notice? || e.AdminStop? || e.Close? { FlushedNotGo(s, e, i); }
  }

  // --- every ACTIVE period was opened by a worker that vouches for it ---

  ghost predicate ActiveOn(s: Sys, service: Name)
  {
    !s.closed && s.m.state == Active && s.m.active == service
  }

  lemma ReportOpens(s: Sys, op: nat, service: Name)
    requires Kept(s) && Enabled(s, Report(op)) && ActiveOn(Apply(s, Report(op)), service)
    ensures ActiveOn(s, service) || (Vouches(s.m, op) && s.m.crew.jobs[op].target == service)
  {
    ReportMoves(s.m, op, s.now);
    if op == s.m.crew.opSeq { CompleteVouches(s.m, op); }
  }

  lemma NothingElseOpens(s: Sys, e: Event, service: Name)
    requires Kept(s) && Enabled(s, e) && !e.Report? && ActiveOn(Apply(s, e), service)
    ensures ActiveOn(s, service)
  {
    match e
    case Admit(n, reply) => AdmitMoves(s.m, n, reply, s.now);
    case AdminSwap(n) => AdminMoves(s.m, n);
    case AdminStop(order) => StopMoves(s.m, order);
    case Fire(tick) => TickMoves(TakeTick(s.m, tick), tick, s.now);
    case Notice(container, action) => EventMoves(s.m, container, action);
    case Close(order) =>
    case _ =>
  }

  ghost predicate ActiveAt(s: Sys, run: seq<Event>, j: int, service: Name)
    requires Grounded(s.m)
  {
    0 <= j <= |run| && ActiveOn(Exec(s, run[..j]), service)
  }

  /** Step k of the run is the report of a worker that vouches for `service`. */
  ghost predicate VouchedAt(s: Sys, run: seq<Event>, k: int, service: Name)
    requires Grounded(s.m)
  {
    && 0 <= k < |run| && run[k].Report?
    && var t := Exec(s, run[..k]);
      Vouches(t.m, run[k].op) && t.m.crew.jobs[run[k].op].target == service
  }

  /** ... and the pool has been ACTIVE on it ever since. */
  ghost predicate OpenedAt(s: Sys, run: seq<Event>, service: Name, k: int)
    requires Grounded(s.m)
  {
    && VouchedAt(s, run, k, service)
    && forall j {:trigger ActiveAt(s, run, j, service)} :: k < j <= |run| ==> ActiveAt(s, run, j, service)
  }

  lemma PrefixOf(run: seq<Event>, e: Event, j: nat)
    requires j <= |run|
    ensures (run + [e])[..j] == run[..j]
  {
  }

  lemma ActiveEarlier(s: Sys, run: seq<Event>, e: Event, service: Name, j: int)
    requires Grounded(s.m) && ActiveAt(s, run, j, service)
    ensures ActiveAt(s, run + [e], j, service)
  {
    PrefixOf(run, e, j);
  }

  lemma VouchedEarlier(s: Sys, run: seq<Event>, e: Event, service: Name, k: int)
    requires Grounded(s.m) && VouchedAt(s, run, k, service)
    ensures VouchedAt(s, run + [e], k, service)
  {
    PrefixOf(run, e, k);
  }

  lemma ActiveAtEnd(s: Sys, run: seq<Event>, service: Name)
    requires Grounded(s.m) && ActiveOn(Exec(s, run), service)
    ensures ActiveAt(s, run, |run|, service)
  {
    assert run[..|run|] == run;
  }

  lemma OpenedEarlier(s: Sys, run: seq<Event>, e: Event, service: Name, k: int)
    requires Grounded(s.m) && OpenedAt(s, run, service, k) && ActiveAt(s, run + [e], |run| + 1, service)
    ensures OpenedAt(s, run + [e], service, k)
  {
    VouchedEarlier(s, run, e, service, k);
    forall j | k < j <= |run + [e]| ensures ActiveAt(s, run + [e], j, service) {
      ActiveStill(s, run, e, service, k, j);
    }
  }

  lemma ActiveStill(s: Sys, run: seq<Event>, e: Event, service: Name, k: int, j: int)
    requires Grounded(s.m) && OpenedAt(s, run, service, k) && ActiveAt(s, run + [e], |run| + 1, service)
    requires k < j <= |run| + 1
    ensures ActiveAt(s, run + [e], j, service)
  {
    if j <= |run| {
      assert ActiveAt(s, run, j, service);
      ActiveEarlier(s, run, e, service, j);
    }
  }

  lemma OpeningReport(s: Sys, before: seq<Event>, e: Event, service: Name)
    requires Kept(s)
    requires Grounded(s.m) && !ActiveOn(Exec(s, before), service) && ActiveOn(Exec(s, before + [e]), service)
    ensures e.Report? && Vouches(Exec(s, before).m, e.op) && Exec(s, before).m.crew.jobs[e.op].target == service
  {
    ExecLast(s, before, e);
    ExecKept(s, before);
    OpenedByReport(Exec(s, before), e, service);
  }

  lemma VouchedNow(s: Sys, before: seq<Event>, e: Event, service: Name)
    requires Grounded(s.m) && e.Report? && Vouches(Exec(s, before).m, e.op)
    requires Exec(s, before).m.crew.jobs[e.op].target == service
    ensures VouchedAt(s, before + [e], |before|, service)
  {
    assert (before + [e])[..|before|] == before;
  }

  lemma OpenedNow(s: Sys, run: seq<Event>, service: Name, k: int)
    requires Grounded(s.m) && k == |run| - 1 && VouchedAt(s, run, k, service) && ActiveAt(s, run, |run|, service)
    ensures OpenedAt(s, run, service, k)
  {
  }

  /** Whenever the pool is ACTIVE, the period was opened by the report of a worker that was not
      superseded, saw each sibling stopped, started the service and saw it healthy. */
  lemma {:induction false} ActivePeriodWasOpened(s: Sys, run: seq<Event>, service: Name) returns (k: int)
    requires Kept(s) && s.m.state != Active && ActiveOn(Exec(s, run), service)
    ensures OpenedAt(s, run, service, k)
    decreases |run|
  {
    var before, e := run[..|run| - 1], run[|run| - 1];
    assert run == before + [e];
    if ActiveOn(Exec(s, before), service) {
      k := ActivePeriodWasOpened(s, before, service);
      ActiveAtEnd(s, run, service);
      OpenedEarlier(s, before, e, service, k);
    } else {
      k := |before|;
      OpeningReport(s, before, e, service);
      VouchedNow(s, before, e, service);
      ActiveAtEnd(s, run, service);
      OpenedNow(s, run, service, k);
    }
  }

  lemma OpenedByReport(t: Sys, e: Event, service: Name)
    requires Kept(t) && !ActiveOn(t, service) && ActiveOn(Apply(t, e), service)
    ensures e.Report? && Vouches(t.m, e.op) && t.m.crew.jobs[e.op].target == service
  {
    if !e.Report? && Enabled(t, e) { NothingElseOpens(t, e, service); }
    if e.Report? && Enabled(t, e) { ReportOpens(t, e.op, service); }
  }

  /** The lock-free snapshot is the manager's state whenever the manager is between two
      handlers, so a fast-path Go agrees with it; once the pool is closed it says Go to nobody. */
  lemma SnapshotIsCurrent(s: Sys, c: Config, running: set<Name>, run: seq<Event>)
    requires Reached(s, c, running, run)
    ensures !s.closed ==> s.m.snap == Snapshot(s.m.state, s.m.active)
    ensures s.closed ==> s.m.snap.state == Idle
  {
    ReachedKept(s, c, running, run);
  }
}
