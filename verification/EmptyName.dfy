/** A service may be named "": validation lets it through, and the pool then takes its
    waiters for nobody. This is exactly when a waiter can be stranded. */
module EmptyName {
  import opened Names
  import opened State
  import opened Manager
  import opened Invariant
  import opened System
  import opened Waiters
  import opened Walks

  /** Someone waits, and nothing outstanding will ever make the pool look. */
  ghost predicate Stranded(s: Sys)
  {
    && !s.closed && QueueNonempty(s.m)
    && !(s.m.state == Swapping && s.m.crew.opSeq in s.m.crew.jobs)
    && !(s.m.state == Active && exists t :: t in s.m.timers.ticks && t.kind == Grace && t.epoch == s.m.timers.grace)
  }

  /** A first request for "" starts a swap to it. */
  lemma FirstRequest(c: Config) returns (s: Sys)
    requires WellFormed(c) && NONE in c.members && Grounded(Boot(c, {}, {}).m)
    ensures Leads(Boot(c, {}, {}), [Admit(NONE, 1)], s)
    ensures Grounded(s.m) && !s.closed && s.m.cfg == c && s.m.state == Swapping && s.m.book.asked.Keys == {1}
  {
    s := LeadsBy(Boot(c, {}, {}), Admit(NONE, 1));
  }

  /** A second one, while the pool is being stopped, waits. */
  lemma SecondRequest(s: Sys) returns (t: Sys)
    requires Grounded(s.m) && WellFormed(s.m.cfg) && NONE in s.m.cfg.members && !s.closed
    requires s.m.state == Swapping && 2 !in s.m.book.asked && NobodyWaits(s.m)
    ensures Leads(s, [Admit(NONE, 2)], t) && Grounded(t.m) && !t.closed
    ensures t == s.(m := s.m.(book := t.m.book))
    ensures NONE in t.m.book.queues && t.m.book.queues[NONE] != []
    ensures forall n :: !Waiting(t.m.book.queues, n)
  {
    t := LeadsBy(s, Admit(NONE, 2));
    var q := s.m.book.queues[NONE];
    assert q == [];
    assert t.m.book.queues == s.m.book.queues[NONE := q + [Waiter(s.m.book.next + 1, 2)]];
  }

  /** The stop goes through, and the pool takes its report. */
  lemma StopLands(s: Sys, op: nat) returns (run: seq<Event>, t: Sys)
    requires Stopping(s, op, 0) && !s.m.crew.jobs[op].firstErr && op == s.m.crew.opSeq && s.m.adminPending == NONE
    requires forall n :: !Waiting(s.m.book.queues, n)
    ensures Leads(s, run, t) && !t.closed && t.m.state == Idle && t.m.book == s.m.book
  {
    var a, u := StopWalk(s, op, 0);
    t := StopReported(u, op);
    run := a + [Report(op)];
    LeadsOn(s, a, u, [Report(op)], t);
  }

  /** With a service named "", two requests for it around an operator's stop leave the second
      waiting in an IDLE pool: oldestQueued answers "", which reads "nobody". */
  lemma EmptyNameStrands(c: Config) returns (run: seq<Event>)
    requires WellFormed(c) && NONE in c.members
    ensures StrandsBy(c, run)
  {
    BootGrounded(c, {}, {});
    var s0, stop := Boot(c, {}, {}), AdminStop(Sorted(c.members.Keys));
    var s1 := FirstRequest(c);
    var s2 := OperatorStops(s1, Sorted(c.members.Keys));
    LeadsOn(s0, [Admit(NONE, 1)], s1, [stop], s2);
    var s3 := SecondRequest(s2);
    LeadsOn(s0, [Admit(NONE, 1)] + [stop], s2, [Admit(NONE, 2)], s3);
    var tail, s4 := StopLands(s3, s3.m.crew.opSeq);
    run := [Admit(NONE, 1)] + [stop] + [Admit(NONE, 2)] + tail;
    LeadsOn(s0, [Admit(NONE, 1)] + [stop] + [Admit(NONE, 2)], s3, tail, s4);
    LedToStrand(c, run, s4);
  }

  lemma LedToStrand(c: Config, run: seq<Event>, t: Sys)
    requires WellFormed(c) && Leads(Boot(c, {}, {}), run, t) && !t.closed && t.m.state == Idle && QueueNonempty(t.m)
    ensures StrandsBy(c, run)
  {
  }

  ghost predicate StrandsBy(c: Config, run: seq<Event>)
    requires WellFormed(c)
  {
    BootGrounded(c, {}, {});
    Stranded(Exec(Boot(c, {}, {}), run))
  }

  /** A pool can strand a waiter if and only if one of its services is named "". */
  lemma StrandsExactlyWithEmptyName(c: Config)
    requires WellFormed(c)
    ensures (exists run :: StrandsBy(c, run)) <==> NONE in c.members
  {
    BootGrounded(c, {}, {});
    if NONE in c.members {
      var run := EmptyNameStrands(c);
    } else {
      forall run ensures !StrandsBy(c, run) {
        NeverStrands(c, run);
      }
    }
  }

  lemma NeverStrands(c: Config, run: seq<Event>)
    requires CfgOk(c)
    ensures !StrandsBy(c, run)
  {
    BootGrounded(c, {}, {});
    var s := Exec(Boot(c, {}, {}), run);
    if !s.closed { NoStrandedWaiter(s, c, {}, run); }
  }
}
