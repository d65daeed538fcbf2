/** Who is told what, and what becomes of the queues: for every step, and over every run. */
module Answers {
  import opened Names
  import opened State
  import opened Ledger
  import opened Worker
  import opened Manager
  import opened Invariant
  import opened System
  import opened Safety
  import opened Exclusion
  import opened Waiters
  import opened AdmitGo

  // --- what happens in a step, as clients may put it ---

  /** The current worker's report is taken, and says this. */
  ghost predicate Ends(s: Sys, e: Event, kind: SwapKind)
    requires Grounded(s.m)
  {
    Enabled(s, e) && e.Report? && e.op == s.m.crew.opSeq && s.m.crew.jobs[e.op].pc.kind == kind
  }

  /** ... about this service. */
  ghost predicate EndsFor(s: Sys, e: Event, kind: SwapKind, n: Name)
    requires Grounded(s.m)
  {
    Ends(s, e, kind) && s.m.crew.jobs[e.op].target == n
  }

  /** The container of a service that is ACTIVE, or being swapped in, dies, stops or is killed. */
  ghost predicate Kills(s: Sys, e: Event, n: Name)
  {
    && e.Notice? && (e.action == ActDie || e.action == ActStop || e.action == ActKill)
    && n in s.m.cfg.members && s.m.cfg.members[n].containerName == e.container
    && ((s.m.state == Active && s.m.active == n) || (s.m.state == Swapping && s.m.target == n))
  }

  /** A request for a member that is not ACTIVE. */
  ghost predicate AsksElsewhere(s: Sys, e: Event)
  {
    e.Admit? && e.service in s.m.cfg.members && !(s.m.state == Active && s.m.active == e.service)
  }

  ghost predicate WaitsFor(m: Mgr, n: Name, r: nat)
  {
    n in m.book.queues && Holds(m.book.queues[n], r)
  }

  /** The step tells reply channel r this. */
  ghost predicate Tells(s: Sys, e: Event, r: nat, x: AdmitResult)
    requires Grounded(s.m) && Enabled(s, e)
  {
    match x
    case Go =>
      || (e.Admit? && e.reply == r && s.m.state == Active && e.service == s.m.active)
      || (exists n :: EndsFor(s, e, SwapComplete, n) && WaitsFor(s.m, n, r))
    case QueueFull =>
      && AsksElsewhere(s, e) && e.reply == r && e.service in s.m.book.queues
      && |s.m.book.queues[e.service]| >= s.m.cfg.members[e.service].maxQueue
    case DockerError =>
      || (e.Admit? && e.reply == r && e.service !in s.m.cfg.members)
      || (exists n :: EndsFor(s, e, SwapFailed, n) && WaitsFor(s.m, n, r))
      || (exists n :: Kills(s, e, n) && WaitsFor(s.m, n, r))
    case StartupTimeout =>
      exists n :: EndsFor(s, e, SwapHealthTimeout, n) && WaitsFor(s.m, n, r)
    case Shutdown =>
      (e.AdminStop? || e.Close?) && exists n :: WaitsFor(s.m, n, r)
  }

  /** Between the two, r was told x. */
  ghost predicate Told(before: seq<Sent>, after: seq<Sent>, r: nat, x: AdmitResult)
  {
    exists i :: |before| <= i < |after| && after[i] == Sent(r, x)
  }

  // --- the book's operations ---

  lemma AnswerTells(b: Book, n: Name, reply: nat, result: AdmitResult, r: nat, x: AdmitResult)
    ensures b.sent <= Answer(b, n, reply, result).sent
    ensures Told(b.sent, Answer(b, n, reply, result).sent, r, x) <==> r == reply && x == result
  {
    var c := Answer(b, n, reply, result).sent;
    assert c[|b.sent|] == Sent(reply, result);
  }

  lemma FlushTells(b: Book, n: Name, result: AdmitResult, r: nat, x: AdmitResult)
    requires n in b.queues
    ensures b.sent <= Flush(b, n, result).sent
    ensures Told(b.sent, Flush(b, n, result).sent, r, x) <==> x == result && Holds(b.queues[n], r)
  {
    var q, c := b.queues[n], Flush(b, n, result).sent;
    assert forall i :: 0 <= i < |q| ==> c[|b.sent| + i] == Sent(q[i].reply, result);
    if Holds(q, r) {
      var i :| 0 <= i < |q| && q[i].reply == r;
      assert c[|b.sent| + i] == Sent(r, result);
    }
  }

  lemma ToldOn(a: seq<Sent>, b: seq<Sent>, c: seq<Sent>, r: nat, x: AdmitResult)
    requires a <= b <= c
    ensures Told(a, c, r, x) <==> Told(a, b, r, x) || Told(b, c, r, x)
  {
    if Told(a, c, r, x) {
      var i :| |a| <= i < |c| && c[i] == Sent(r, x);
      if i < |b| { assert b[i] == Sent(r, x); }
    }
    if Told(a, b, r, x) {
      var i :| |a| <= i < |b| && b[i] == Sent(r, x);
      assert c[i] == Sent(r, x);
    }
  }

  lemma {:induction false} FlushAllTells(b: Book, order: seq<Name>, result: AdmitResult, r: nat, x: AdmitResult)
    requires forall n :: n in order ==> n in b.queues
    ensures b.sent <= FlushAll(b, order, result).sent
    ensures Told(b.sent, FlushAll(b, order, result).sent, r, x) <==>
      x == result && exists n :: n in order && Holds(b.queues[n], r)
    decreases |order|
  {
    if order != [] {
      var d := Flush(b, order[0], result);
      FlushTells(b, order[0], result, r, x);
      FlushAllTells(d, order[1..], result, r, x);
      ToldOn(b.sent, d.sent, FlushAll(b, order, result).sent, r, x);
      forall n ensures n in order && Holds(b.queues[n], r) <==>
        (n == order[0] && Holds(b.queues[n], r)) || (n in order[1..] && Holds(d.queues[n], r))
      {
        assert n in order <==> n == order[0] || n in order[1..];
      }
    }
  }

  // --- every step ---

  lemma AdmitTells(s: Sys, e: Event, r: nat, x: AdmitResult)
    requires Grounded(s.m) && Enabled(s, e) && e.Admit? && (s.m.state == Active ==> s.m.active in s.m.cfg.members)
    ensures s.m.book.sent <= BookAfter(s, e).sent
    ensures Told(s.m.book.sent, BookAfter(s, e).sent, r, x) <==> Tells(s, e, r, x)
  {
    var m := s.m;
    AnswerTells(m.book, e.service, e.reply, DockerError, r, x);
    AnswerTells(m.book, e.service, e.reply, Go, r, x);
    AnswerTells(m.book, e.service, e.reply, QueueFull, r, x);
  }

  lemma ReportTells(s: Sys, e: Event, r: nat, x: AdmitResult)
    requires Grounded(s.m) && Enabled(s, e) && e.Report?
    ensures s.m.book.sent <= BookAfter(s, e).sent
    ensures Told(s.m.book.sent, BookAfter(s, e).sent, r, x) <==> Tells(s, e, r, x)
  {
    JobAt(s.m, e.op);
    var w := s.m.crew.jobs[e.op];
    if e.op == s.m.crew.opSeq && !w.pc.kind.PoolStopped? {
      FlushTells(s.m.book, w.target, ResultOf(w.pc.kind), r, x);
      assert EndsFor(s, e, w.pc.kind, w.target);
    }
  }

  lemma NoticeTells(s: Sys, e: Event, r: nat, x: AdmitResult)
    requires WellFormed(s.m.cfg) && Grounded(s.m) && Enabled(s, e) && e.Notice?
    ensures s.m.book.sent <= BookAfter(s, e).sent
    ensures Told(s.m.book.sent, BookAfter(s, e).sent, r, x) <==> Tells(s, e, r, x)
  {
    var owner := MemberByContainer(s.m.cfg, e.container);
    if owner.Some? {
      FlushTells(s.m.book, owner.value, DockerError, r, x);
      assert Kills(s, e, owner.value) <==> !e.action.ActStart? && Serves(s.m, owner.value);
    }
    forall n | Kills(s, e, n) ensures owner == Some(n) {
      assert OwnsContainer(s.m.cfg, e.container, n);
    }
  }

  lemma StopTells(s: Sys, e: Event, r: nat, x: AdmitResult)
    requires Grounded(s.m) && Enabled(s, e) && (e.AdminStop? || e.Close?)
    ensures s.m.book.sent <= BookAfter(s, e).sent
    ensures Told(s.m.book.sent, BookAfter(s, e).sent, r, x) <==> Tells(s, e, r, x)
  {
    CoversQueues(s.m, e.order);
    FlushAllTells(s.m.book, e.order, Shutdown, r, x);
    forall n ensures WaitsFor(s.m, n, r) <==> n in e.order && Holds(s.m.book.queues[n], r) {
    }
  }

  lemma OtherTells(s: Sys, e: Event, r: nat, x: AdmitResult)
    requires Grounded(s.m) && Enabled(s, e) && !e.Admit? && !e.Report? && !e.Notice? && !e.AdminStop? && !e.Close?
    ensures s.m.book.sent == BookAfter(s, e).sent && !Tells(s, e, r, x)
  {
  }

  lemma BookTells(s: Sys, e: Event, r: nat, x: AdmitResult)
    requires WellFormed(s.m.cfg) && Grounded(s.m) && Enabled(s, e)
    requires s.m.state == Active ==> s.m.active in s.m.cfg.members
    ensures s.m.book.sent <= BookAfter(s, e).sent
    ensures Told(s.m.book.sent, BookAfter(s, e).sent, r, x) <==> Tells(s, e, r, x)
  {
    if e.Admit? { AdmitTells(s, e, r, x); }
    else if e.Report? { ReportTells(s, e, r, x); }
    else if e.Notice? { NoticeTells(s, e, r, x); }
    else if e.AdminStop? || e.Close? { StopTells(s, e, r, x); }
    else { OtherTells(s, e, r, x); }
  }

  /** Every step tells every client exactly what it should, and takes nothing back. */
  lemma ToldExactly(s: Sys, e: Event, r: nat, x: AdmitResult)
    requires Kept(s) && Grounded(s.m) && Enabled(s, e)
    ensures s.m.book.sent <= Apply(s, e).m.book.sent
    ensures Told(s.m.book.sent, Apply(s, e).m.book.sent, r, x) <==> Tells(s, e, r, x)
  {
    BookIs(s, e);
    BookTells(s, e, r, x);
  }

  // --- the queues ---

  /** The request joins the queue of n. */
  ghost predicate Joins(s: Sys, e: Event, n: Name)
  {
    AsksElsewhere(s, e) && e.service == n && n in s.m.book.queues
    && |s.m.book.queues[n]| < s.m.cfg.members[n].maxQueue
  }

  /** Everyone who waits for n is answered. */
  ghost predicate Clears(s: Sys, e: Event, n: Name)
    requires Grounded(s.m)
  {
    || e.AdminStop? || e.Close? || Kills(s, e, n)
    || EndsFor(s, e, SwapComplete, n) || EndsFor(s, e, SwapFailed, n) || EndsFor(s, e, SwapHealthTimeout, n)
  }

  /** q without the first waiter of channel r, if it has one. */
  ghost predicate Loses(q: seq<Waiter>, p: seq<Waiter>, r: nat)
  {
    if Holds(q, r) then exists i :: FirstAt(q, r, i) && p == q[..i] + q[i + 1..] else p == q
  }

  lemma WithoutLoses(q: seq<Waiter>, r: nat)
    ensures Loses(q, Without(q, r), r)
  {
    if Holds(q, r) {
      var k :| 0 <= k < |q| && q[k].reply == r;
      var i := FirstExists(q, r, k);
      WithoutFirst(q, r, i);
    } else {
      WithoutNone(q, r);
    }
  }

  ghost predicate QueueAfter(s: Sys, e: Event, n: Name, q: seq<Waiter>)
    requires Grounded(s.m) && n in s.m.book.queues
  {
    var p := s.m.book.queues[n];
    if Joins(s, e, n) then
      // at the end, with a number above all others of the pool
      && |q| == |p| + 1 && q[..|p|] == p && q[|p|].reply == e.reply
      && forall k, i :: k in s.m.book.queues && 0 <= i < |s.m.book.queues[k]| ==>
           s.m.book.queues[k][i].seq_ < q[|p|].seq_
    else if Clears(s, e, n) then q == []
    else if e.Cancel? && e.service == n then Loses(p, q, e.reply)
    else q == p
  }

  lemma NumbersBelow(b: Book, k: Name, i: int)
    requires QueuesOk(b) && k in b.queues && 0 <= i < |b.queues[k]|
    ensures b.queues[k][i].seq_ <= b.next
  {
    assert QueueOk(b.queues[k], k, b.next, b.asked);
  }

  lemma AdmitQueue(s: Sys, e: Event, n: Name)
    requires QueuesOk(s.m.book) && Grounded(s.m) && Enabled(s, e) && e.Admit? && n in s.m.book.queues
    ensures n in BookAfter(s, e).queues && QueueAfter(s, e, n, BookAfter(s, e).queues[n])
  {
    if Joins(s, e, n) {
      forall k, i | k in s.m.book.queues && 0 <= i < |s.m.book.queues[k]|
        ensures s.m.book.queues[k][i].seq_ < s.m.book.next + 1
      {
        NumbersBelow(s.m.book, k, i);
      }
    }
  }

  lemma ReportQueue(s: Sys, e: Event, n: Name)
    requires Grounded(s.m) && Enabled(s, e) && e.Report? && n in s.m.book.queues
    ensures n in BookAfter(s, e).queues && QueueAfter(s, e, n, BookAfter(s, e).queues[n])
  {
    JobAt(s.m, e.op);
  }

  lemma NoticeQueue(s: Sys, e: Event, n: Name)
    requires WellFormed(s.m.cfg) && Grounded(s.m) && Enabled(s, e) && e.Notice? && n in s.m.book.queues
    ensures n in BookAfter(s, e).queues && QueueAfter(s, e, n, BookAfter(s, e).queues[n])
  {
    if Kills(s, e, n) { assert OwnsContainer(s.m.cfg, e.container, n); }
  }

  lemma StopQueue(s: Sys, e: Event, n: Name)
    requires Grounded(s.m) && Enabled(s, e) && (e.AdminStop? || e.Close?) && n in s.m.book.queues
    ensures n in BookAfter(s, e).queues && QueueAfter(s, e, n, BookAfter(s, e).queues[n])
  {
    CoversQueues(s.m, e.order);
    FlushAllEmpties(s.m.book, e.order, Shutdown);
  }

  lemma OtherQueue(s: Sys, e: Event, n: Name)
    requires Grounded(s.m) && Enabled(s, e) && n in s.m.book.queues
    requires !e.Admit? && !e.Report? && !e.Notice? && !e.AdminStop? && !e.Close?
    ensures n in BookAfter(s, e).queues && QueueAfter(s, e, n, BookAfter(s, e).queues[n])
  {
    if e.Cancel? { WithoutLoses(s.m.book.queues[n], e.reply); }
  }

  lemma BookQueue(s: Sys, e: Event, n: Name)
    requires Kept(s) && Grounded(s.m) && Enabled(s, e) && n in s.m.book.queues
    ensures n in BookAfter(s, e).queues && QueueAfter(s, e, n, BookAfter(s, e).queues[n])
  {
    if e.Admit? { AdmitQueue(s, e, n); }
    else if e.Report? { ReportQueue(s, e, n); }
    else if e.Notice? { NoticeQueue(s, e, n); }
    else if e.AdminStop? || e.Close? { StopQueue(s, e, n); }
    else { OtherQueue(s, e, n); }
  }

  /** Every step leaves each queue as it should. */
  lemma QueuesExactly(s: Sys, e: Event, n: Name)
    requires Kept(s) && Grounded(s.m) && Enabled(s, e) && n in s.m.book.queues
    ensures n in Apply(s, e).m.book.queues && QueueAfter(s, e, n, Apply(s, e).m.book.queues[n])
  {
    BookIs(s, e);
    BookQueue(s, e, n);
  }

  /** Those who are answered together are answered in the order in which they came. */
  lemma ToldInTurn(s: Sys, e: Event, n: Name, i: nat)
    requires Kept(s) && Grounded(s.m) && Enabled(s, e) && n in s.m.book.queues && i < |s.m.book.queues[n]|
    requires Clears(s, e, n) && !e.AdminStop? && !e.Close?
    ensures |s.m.book.sent| + i < |Apply(s, e).m.book.sent|
    ensures Apply(s, e).m.book.sent[|s.m.book.sent| + i].reply == s.m.book.queues[n][i].reply
    ensures forall j :: 0 <= j < i ==> s.m.book.queues[n][j].seq_ < s.m.book.queues[n][i].seq_
  {
    BookIs(s, e);
    ClearsByFlush(s, e, n);
    assert QueueOk(s.m.book.queues[n], n, s.m.book.next, s.m.book.asked);
  }

  lemma ClearsByFlush(s: Sys, e: Event, n: Name)
    requires Kept(s) && Grounded(s.m) && Enabled(s, e) && n in s.m.book.queues
    requires Clears(s, e, n) && !e.AdminStop? && !e.Close?
    ensures exists x :: BookAfter(s, e) == Flush(s.m.book, n, x)
  {
    if e.Notice? {
      assert OwnsContainer(s.m.cfg, e.container, n);
      assert BookAfter(s, e) == Flush(s.m.book, n, DockerError);
    } else {
      assert BookAfter(s, e) == Flush(s.m.book, n, ResultOf(s.m.crew.jobs[e.op].pc.kind));
    }
  }

  // --- over runs ---

  /** Step j of the run tells reply channel r this. */
  ghost predicate TellsAt(s: Sys, run: seq<Event>, j: int, r: nat, x: AdmitResult)
    requires Grounded(s.m)
  {
    0 <= j < |run| && Enabled(Exec(s, run[..j]), run[j]) && Tells(Exec(s, run[..j]), run[j], r, x)
  }

  lemma TellsEarlier(s: Sys, run: seq<Event>, e: Event, j: int, r: nat, x: AdmitResult)
    requires Grounded(s.m) && 0 <= j < |run|
    ensures TellsAt(s, run + [e], j, r, x) <==> TellsAt(s, run, j, r, x)
  {
    assert (run + [e])[..j] == run[..j] && (run + [e])[j] == run[j];
  }

  lemma TellsLast(s: Sys, run: seq<Event>, e: Event, r: nat, x: AdmitResult)
    requires Grounded(s.m)
    ensures TellsAt(s, run + [e], |run|, r, x) <==> Enabled(Exec(s, run), e) && Tells(Exec(s, run), e, r, x)
  {
    assert (run + [e])[..|run|] == run && (run + [e])[|run|] == e;
  }

  lemma ToldLast(t: Sys, e: Event, before: seq<Sent>, r: nat, x: AdmitResult)
    requires Kept(t) && Grounded(t.m) && before <= t.m.book.sent
    ensures before <= Apply(t, e).m.book.sent
    ensures Told(before, Apply(t, e).m.book.sent, r, x) <==>
      Told(before, t.m.book.sent, r, x) || (Enabled(t, e) && Tells(t, e, r, x))
  {
    if Enabled(t, e) {
      ToldExactly(t, e, r, x);
      ToldOn(before, t.m.book.sent, Apply(t, e).m.book.sent, r, x);
    }
  }

  /** In every run a client has been told something exactly if some step had reason to. */
  lemma {:induction false} ToldInRunExactly(s: Sys, run: seq<Event>, r: nat, x: AdmitResult)
    requires Kept(s) && Grounded(s.m)
    ensures s.m.book.sent <= Exec(s, run).m.book.sent
    ensures Told(s.m.book.sent, Exec(s, run).m.book.sent, r, x) <==> exists j :: TellsAt(s, run, j, r, x)
    decreases |run|
  {
    if run != [] {
      var init, e := run[..|run| - 1], run[|run| - 1];
      assert run == init + [e];
      ToldInRunExactly(s, init, r, x);
      ExecKept(s, init);
      ExecLast(s, init, e);
      ToldLast(Exec(s, init), e, s.m.book.sent, r, x);
      forall j | 0 <= j < |init| ensures TellsAt(s, run, j, r, x) <==> TellsAt(s, init, j, r, x) {
        TellsEarlier(s, init, e, j, r, x);
      }
      TellsLast(s, init, e, r, x);
      assert (exists j :: TellsAt(s, run, j, r, x)) <==>
        TellsAt(s, run, |init|, r, x) || exists j :: TellsAt(s, init, j, r, x);
    }
  }
}
