/** The exception in mutual exclusion is real. Even when nobody outside starts a container
    and every clean-up succeeds, two containers of one pool can run at once; this happens in
    every pool that has two members. */
module Overlap {
  import opened Names
  import opened State
  import opened Ledger
  import opened Worker
  import opened Manager
  import opened Invariant
  import opened System
  import opened Safety
  import opened Exclusion
  import opened Walks

  /** The operator stops the pool, and the stop goes through: the first swap's worker is
      superseded, and still where it was. */
  lemma StoppedMeanwhile(s: Sys, order: seq<Name>) returns (run: seq<Event>, t: Sys)
    requires Grounded(s.m) && !s.closed && s.docker == Docker({}, map[]) && s.m.state == Swapping
    requires s.m.crew.opSeq == 1 && s.m.crew.swapCancel == Some(1) && s.m.crew.jobs.Keys == {1}
    requires Covers(order, s.m.cfg)
    ensures Leads(s, run, t) && Grounded(t.m) && !t.closed && t.docker == s.docker && t.m.cfg == s.m.cfg
    ensures t.m.state == Idle && NobodyWaits(t.m) && t.m.book.asked == s.m.book.asked
    ensures t.m.crew.opSeq == 2 && t.m.crew.swapCancel == None
    ensures t.m.crew.jobs == map[1 := s.m.crew.jobs[1].(cancelled := true)]
  {
    var a := OperatorStops(s, order);
    var mid, b := StopWalk(a, 2, 0);
    WalkedDocker(a, 2, b);
    t := StopReported(b, 2);
    LeadsOn(s, [AdminStop(order)], a, mid, b);
    run := [AdminStop(order)] + mid + [Report(2)];
    LeadsOn(s, [AdminStop(order)] + mid, b, [Report(2)], t);
    OnlyFirstLeft(s, a, b, t);
  }

  lemma WalkedDocker(s: Sys, op: nat, t: Sys)
    requires op in t.m.crew.jobs && Walked(s, op, t, t.m.crew.jobs[op].pc) && s.docker == Docker({}, map[])
    ensures t.docker == s.docker
  {
  }

  lemma OnlyFirstLeft(s: Sys, a: Sys, b: Sys, t: Sys)
    requires s.m.crew.jobs.Keys == {1} && s.m.crew.swapCancel == Some(1)
    requires a.m.crew.jobs.Keys == {1, 2} && a.m.crew.jobs[1] == s.m.crew.jobs[1].(cancelled := true)
    requires 2 in b.m.crew.jobs && b.m.crew.jobs == a.m.crew.jobs[2 := b.m.crew.jobs[2]]
    requires b.m.crew.swapCancel == Some(2) && t.m.crew.jobs == Release(TakeJob(b.m, 2).crew).jobs
    ensures t.m.crew.jobs == map[1 := s.m.crew.jobs[1].(cancelled := true)]
  {
  }

  lemma SecondSwap(s: Sys, b: Name) returns (t: Sys)
    requires Grounded(s.m) && CfgOk(s.m.cfg) && !s.closed && b in s.m.cfg.members && s.m.state == Idle
    requires 2 !in s.m.book.asked && s.m.crew.opSeq == 2 && s.m.crew.swapCancel == None && s.m.book.queues[b] == []
    ensures Leads(s, [Admit(b, 2)], t) && Grounded(t.m) && !t.closed && t.docker == s.docker
    ensures t.m.crew.jobs == s.m.crew.jobs[3 := SwapJob(s.m.cfg, 3, b)]
  {
    t := LeadsBy(s, Admit(b, 2));
    assert t.m == StartSwap(s.m.(book := Enqueue(s.m.book, b, 2, s.m.cfg.members[b].maxQueue)), b);
  }

  /** A swap to `a` is superseded by the operator after its pre-start check ... */
  lemma FirstHalf(c: Config, a: Name, b: Name) returns (run: seq<Event>, s: Sys)
    requires CfgOk(c) && a in c.members && b in c.members && Grounded(Boot(c, {}, {}).m)
    ensures Leads(Boot(c, {}, {}), run, s) && Grounded(s.m) && !s.closed && s.docker == Docker({}, map[])
    ensures 1 in s.m.crew.jobs && s.m.crew.jobs[1].pc == Start && s.m.crew.jobs[1].own == c.members[a].containerName
    ensures s.m.crew.jobs == map[1 := s.m.crew.jobs[1], 3 := SwapJob(c, 3, b)]
  {
    var s0 := Boot(c, {}, {});
    var s1 := FirstSwap(c, a);
    var r2, s2 := ReachStart(s1, 1);
    LeadsOn(s0, [Admit(a, 1)], s1, r2, s2);
    var r3, s3 := StoppedMeanwhile(s2, Sorted(c.members.Keys));
    LeadsOn(s0, [Admit(a, 1)] + r2, s2, r3, s3);
    s := SecondSwap(s3, b);
    run := [Admit(a, 1)] + r2 + r3 + [Admit(b, 2)];
    LeadsOn(s0, [Admit(a, 1)] + r2 + r3, s3, [Admit(b, 2)], s);
  }

  /** ... a swap to `b` starts b, and only then does the first worker's start take effect. */
  lemma SecondHalf(s: Sys, c: Config, b: Name) returns (run: seq<Event>, t: Sys)
    requires Grounded(s.m) && !s.closed && s.docker == Docker({}, map[]) && b in c.members
    requires 1 in s.m.crew.jobs && s.m.crew.jobs[1].pc == Start
    requires s.m.crew.jobs == map[1 := s.m.crew.jobs[1], 3 := SwapJob(c, 3, b)]
    ensures Leads(s, run, t) && !t.closed
    ensures t.docker.running == {s.m.crew.jobs[1].own, c.members[b].containerName}
  {
    var r5, s5 := ReachStart(s, 3);
    var s6 := StartTarget(s5, 3);
    LeadsOn(s, r5, s5, [Work(3, Ok(true))], s6);
    t := StartTarget(s6, 1);
    run := r5 + [Work(3, Ok(true))] + [Work(1, Ok(true))];
    LeadsOn(s, r5 + [Work(3, Ok(true))], s6, [Work(1, Ok(true))], t);
  }

  ghost predicate OverlapsBy(c: Config, run: seq<Event>)
    requires CfgOk(c)
  {
    BootGrounded(c, {}, {});
    OrderlyRun(Boot(c, {}, {}), run)
    && !Exec(Boot(c, {}, {}), run).closed && |Exec(Boot(c, {}, {}), run).docker.running| >= 2
  }

  lemma FewContainers(c: Config, running: set<Name>)
    requires |c.members| <= 1 && running <= Containers(c)
    ensures |running| <= 1
  {
    forall x, y | x in running && y in running ensures x == y {
      var n :| n in c.members && c.members[n].containerName == x;
      var k :| k in c.members && c.members[k].containerName == y;
      if n != k { SubsetSize({n, k}, c.members.Keys); }
    }
    AtMostOneElement(running);
  }

  lemma RunningInside(s: Sys)
    requires SysInv(s) && !s.closed
    ensures s.docker.running <= Containers(s.m.cfg)
  {
  }

  lemma NoOverlap(c: Config, run: seq<Event>)
    requires CfgOk(c) && |c.members| <= 1
    ensures !OverlapsBy(c, run)
  {
    BootSys(c, {}, {});
    ExecSys(Boot(c, {}, {}), run);
    var s := Exec(Boot(c, {}, {}), run);
    if !s.closed {
      RunningInside(s);
      FewContainers(c, s.docker.running);
    }
  }

  lemma TwoMembers(names: set<Name>) returns (a: Name, b: Name)
    requires |names| >= 2
    ensures a in names && b in names && a != b
  {
    a :| a in names;
    assert |names - {a}| >= 1;
    b :| b in names - {a};
  }

  lemma LedToOverlap(c: Config, run: seq<Event>, t: Sys, x: Name, y: Name)
    requires CfgOk(c) && Leads(Boot(c, {}, {}), run, t) && !t.closed && t.docker.running == {x, y} && x != y
    ensures OverlapsBy(c, run)
  {
    assert |{x, y}| == 2;
  }

  lemma SiblingsOverlap(c: Config, a: Name, b: Name) returns (run: seq<Event>)
    requires CfgOk(c) && a in c.members && b in c.members && a != b
    ensures OverlapsBy(c, run)
  {
    BootGrounded(c, {}, {});
    var r1, s1 := FirstHalf(c, a, b);
    var r2, s2 := SecondHalf(s1, c, b);
    run := r1 + r2;
    LeadsOn(Boot(c, {}, {}), r1, s1, r2, s2);
    LedToOverlap(c, run, s2, c.members[a].containerName, c.members[b].containerName);
  }

  /** Two containers of a pool can run at once, in an orderly run from a cold start, if and
      only if the pool has two members: the exception cannot be dropped from MutualExclusion. */
  lemma OverlapsExactlyWithSiblings(c: Config)
    requires CfgOk(c)
    ensures (exists run :: OverlapsBy(c, run)) <==> |c.members| >= 2
  {
    if |c.members| >= 2 {
      var a, b := TwoMembers(c.members.Keys);
      var run := SiblingsOverlap(c, a, b);
    } else {
      forall run ensures !OverlapsBy(c, run) { NoOverlap(c, run); }
    }
  }
}
