/** A request that arrives after the grace period can start a swap ahead of an older one of another
    service. This happens in every pool of three members with a grace period, and in no other. */
module Overtaking {
  import opened Names
  import opened State
  import opened Ledger
  import opened Manager
  import opened Invariant
  import opened System
  import opened Safety
  import opened Exclusion
  import opened Waiters
  import opened AdmitGo
  import opened Causes
  import opened Walks

  /** After the run, the request `e` starts a swap to its service at once, though it is not the
      longest waiter. */
  ghost predicate Jumps(s: Sys, e: Event)
    requires Grounded(s.m)
  {
    e.Admit? && Enabled(s, e) && StartsSwap(s, e, e.service) && !HeadsAll(Apply(s, e).m.book.queues, e.service)
  }

  ghost predicate OvertakesBy(c: Config, run: seq<Event>, e: Event)
    requires CfgOk(c)
  {
    BootGrounded(c, {}, {});
    Jumps(Exec(Boot(c, {}, {}), run), e)
  }

  // --- a pool that can: three members and a grace period ---

  lemma ActiveOnFirst(c: Config, a: Name) returns (run: seq<Event>, s: Sys)
    requires CfgOk(c) && a in c.members && Grounded(Boot(c, {}, {}).m)
    ensures Leads(Boot(c, {}, {}), run, s) && Grounded(s.m) && !s.closed && s.m.cfg == c
    ensures s.m.state == Active && s.m.active == a && s.m.startedAt == s.now && NobodyWaits(s.m)
    ensures s.m.book.asked.Keys == {1}
  {
    var s0 := Boot(c, {}, {});
    var s1 := FirstSwap(c, a);
    var r2, s2 := ReachStart(s1, 1);
    LeadsOn(s0, [Admit(a, 1)], s1, r2, s2);
    var r3, s3 := FinishSwap(s2, 1);
    LeadsOn(s0, [Admit(a, 1)] + r2, s2, r3, s3);
    s := SwapReported(s3, 1);
    run := [Admit(a, 1)] + r2 + r3 + [Report(1)];
    LeadsOn(s0, [Admit(a, 1)] + r2 + r3, s3, [Report(1)], s);
  }

  lemma FirstInLine(b: Book, n: Name, reply: nat, max: int)
    requires n in b.queues && n != NONE && max >= 1 && forall k :: k in b.queues ==> b.queues[k] == []
    ensures var q := Enqueue(b, n, reply, max).queues; Oldest(q) == n && forall k :: k in q && k != n ==> q[k] == []
  {
    var q := Enqueue(b, n, reply, max).queues;
    assert |b.queues[n]| == 0;
    assert q == b.queues[n := b.queues[n] + [Waiter(b.next + 1, reply)]];
    assert Waiting(q, n);
  }

  /** A second request has to wait for the grace period to end. */
  lemma QueuedInGrace(s: Sys, b: Name) returns (t: Sys)
    requires Grounded(s.m) && CfgOk(s.m.cfg) && !s.closed && s.m.state == Active && s.m.startedAt == s.now
    requires NobodyWaits(s.m)
    requires b in s.m.cfg.members && b != s.m.active && s.m.cfg.grace > 0 && 2 !in s.m.book.asked
    ensures Leads(s, [Admit(b, 2)], t) && Grounded(t.m) && !t.closed && t.now == s.now && t.m.cfg == s.m.cfg
    ensures t.m.state == Active && t.m.active == s.m.active && t.m.startedAt == s.m.startedAt
    ensures t.m.book == Enqueue(s.m.book, b, 2, s.m.cfg.members[b].maxQueue)
  {
    t := LeadsBy(s, Admit(b, 2));
  }

  lemma WaitsForGrace(s: Sys, b: Name) returns (run: seq<Event>, t: Sys)
    requires Grounded(s.m) && CfgOk(s.m.cfg) && !s.closed && s.m.state == Active && s.m.startedAt == s.now
    requires NobodyWaits(s.m)
    requires b in s.m.cfg.members && b != s.m.active && s.m.cfg.grace > 0 && 2 !in s.m.book.asked
    ensures Leads(s, run, t) && Grounded(t.m) && !t.closed && t.m.cfg == s.m.cfg
    ensures t.m.state == Active && t.m.active == s.m.active && t.now - t.m.startedAt == s.m.cfg.grace
    ensures Oldest(t.m.book.queues) == b && t.m.book.asked.Keys == s.m.book.asked.Keys + {2}
    ensures forall n :: n in t.m.book.queues && n != b ==> t.m.book.queues[n] == []
  {
    var u := QueuedInGrace(s, b);
    FirstInLine(s.m.book, b, 2, s.m.cfg.members[b].maxQueue);
    var d: nat := s.m.cfg.grace;
    t := LeadsBy(u, Pass(d));
    run := [Admit(b, 2)] + [Pass(d)];
    LeadsOn(s, [Admit(b, 2)], u, [Pass(d)], t);
  }

  lemma GraceOverStarts(s: Sys, d: Name, reply: nat)
    requires Grounded(s.m) && CfgOk(s.m.cfg) && Enabled(s, Admit(d, reply)) && s.m.state == Active
    requires d in s.m.cfg.members && d != s.m.active && |s.m.book.queues[d]| < s.m.cfg.members[d].maxQueue
    requires s.now - s.m.startedAt >= s.m.cfg.grace
    ensures StartsSwap(s, Admit(d, reply), d)
  {
  }

  lemma ThirdJumps(s: Sys, b: Name, d: Name)
    requires SysInv(s) && Grounded(s.m) && !s.closed && s.m.state == Active && 3 !in s.m.book.asked
    requires d in s.m.cfg.members && d != s.m.active && d != b && b != NONE
    requires s.now - s.m.startedAt >= s.m.cfg.grace && Oldest(s.m.book.queues) == b
    requires d in s.m.book.queues && s.m.book.queues[d] == []
    ensures Jumps(s, Admit(d, 3))
  {
    GraceOverStarts(s, d, 3);
    NewcomerIsOldestExactly(s, d, 3);
  }

  lemma SysAfter(c: Config, run: seq<Event>, t: Sys)
    requires CfgOk(c) && Leads(Boot(c, {}, {}), run, t)
    ensures SysInv(t)
  {
    BootSys(c, {}, {});
    ExecSys(Boot(c, {}, {}), run);
  }

  lemma LedToJump(c: Config, run: seq<Event>, t: Sys, b: Name, d: Name)
    requires CfgOk(c) && Leads(Boot(c, {}, {}), run, t) && SysInv(t)
    requires Grounded(t.m) && Jumps(t, Admit(d, 3))
    ensures OvertakesBy(c, run, Admit(d, 3))
  {
  }

  /** One service is ACTIVE, a second has waited for the whole grace period. */
  lemma GraceEnds(c: Config, a: Name, b: Name) returns (run: seq<Event>, s: Sys)
    requires CfgOk(c) && a in c.members && b in c.members && a != b && c.grace > 0 && Grounded(Boot(c, {}, {}).m)
    ensures Leads(Boot(c, {}, {}), run, s) && Grounded(s.m) && !s.closed && s.m.cfg == c
    ensures s.m.state == Active && s.m.active == a && s.now - s.m.startedAt == c.grace && 3 !in s.m.book.asked
    ensures Oldest(s.m.book.queues) == b && forall n :: n in s.m.book.queues && n != b ==> s.m.book.queues[n] == []
  {
    var r1, s1 := ActiveOnFirst(c, a);
    var r2, s2 := WaitsForGrace(s1, b);
    run, s := r1 + r2, s2;
    LeadsOn(Boot(c, {}, {}), r1, s1, r2, s2);
  }

  lemma ThreeOvertake(c: Config, a: Name, b: Name, d: Name) returns (run: seq<Event>)
    requires CfgOk(c) && a in c.members && b in c.members && d in c.members && a != b && b != d && a != d && c.grace > 0
    ensures OvertakesBy(c, run, Admit(d, 3))
  {
    BootGrounded(c, {}, {});
    var s;
    run, s := GraceEnds(c, a, b);
    SysAfter(c, run, s);
    ThirdJumps(s, b, d);
    LedToJump(c, run, s, b, d);
  }

  // --- a pool that cannot ---

  /** Time since the start is no less than nothing, and without a grace period nobody is left
      waiting while a service is ACTIVE. */
  ghost predicate Prompt(s: Sys)
  {
    s.m.startedAt <= s.now && (s.m.cfg.grace == 0 && s.m.state == Active && !s.closed ==> NobodyWaits(s.m))
  }

  lemma AdmitPrompt(s: Sys, service: Name, reply: nat)
    requires SysInv(s) && Prompt(s) && Enabled(s, Admit(service, reply))
    ensures Prompt(Apply(s, Admit(service, reply)))
  {
    GraceClock(s, Admit(service, reply));
    BookIs(s, Admit(service, reply));
  }

  lemma ReportPrompt(s: Sys, op: nat)
    requires SysInv(s) && Prompt(s) && Enabled(s, Report(op))
    ensures Prompt(Apply(s, Report(op)))
  {
    if op != s.m.crew.opSeq {
      StaleReportIsIgnored(s, op);
    } else {
      GraceClock(s, Report(op));
      var y, done := ReportLands(s, op);
      ChainBook(y, done, s.now);
      ChainServesAtOnce(y, done, s.now);
    }
  }

  /** Without a grace period the chain leaves ACTIVE at once if someone waits. */
  lemma ChainServesAtOnce(y: Mgr, activated: bool, now: int)
    requires Typed(y) && NONE !in y.cfg.members
    ensures var x := ChainAfterTerminal(y, activated, now);
      x.cfg == y.cfg && (y.cfg.grace == 0 && x.state == Active ==> NobodyWaits(y))
  {
    if Oldest(y.book.queues) == NONE {
      forall n | n in y.book.queues ensures y.book.queues[n] == [] { assert !Waiting(y.book.queues, n); }
    }
  }

  lemma OtherPrompt(s: Sys, e: Event)
    requires SysInv(s) && Prompt(s) && Enabled(s, e) && !e.Report? && !e.Admit?
    ensures Prompt(Apply(s, e))
  {
    GraceClock(s, e);
    if Apply(s, e).m.state == Active && !Apply(s, e).closed { NothingElseOpens(s, e, Apply(s, e).m.active); }
    ApplyGrounded(s, e);
    if NobodyWaits(s.m) && !e.AdminStop? && !e.Close? { NobodyComes(s, e); }
  }

  lemma NobodyComes(s: Sys, e: Event)
    requires Grounded(s.m) && Enabled(s, e) && NobodyWaits(s.m)
    requires !e.Admit? && !e.Report? && !e.AdminStop? && !e.Close?
    ensures NobodyWaits(Apply(s, e).m)
  {
    BookIs(s, e);
  }

  lemma StepPrompt(s: Sys, e: Event)
    requires SysInv(s) && Grounded(s.m) && Prompt(s)
    ensures Prompt(Apply(s, e))
  {
    if Enabled(s, e) {
      if e.Report? { ReportPrompt(s, e.op); }
      else if e.Admit? { AdmitPrompt(s, e.service, e.reply); }
      else { OtherPrompt(s, e); }
    }
  }

  lemma {:induction false} RunPrompt(s: Sys, run: seq<Event>)
    requires SysInv(s) && Grounded(s.m) && Prompt(s)
    ensures Prompt(Exec(s, run))
    decreases |run|
  {
    if run != [] {
      ApplySys(s, run[0]);
      ApplyGrounded(s, run[0]);
      StepPrompt(s, run[0]);
      RunPrompt(Apply(s, run[0]), run[1..]);
    }
  }

  lemma ThreeDistinct(a: Name, b: Name, d: Name, names: set<Name>)
    requires a in names && b in names && d in names && a != b && b != d && a != d
    ensures |names| >= 3
  {
    SubsetSize({a, b, d}, names);
    assert |{a, b, d}| == 3;
  }

  /** The ACTIVE service, the longest waiter's and the newcomer's are three. */
  lemma JumpNeeds(s: Sys, e: Event)
    requires SysInv(s) && Grounded(s.m) && Prompt(s) && Jumps(s, e)
    ensures s.m.cfg.grace > 0 && |s.m.cfg.members| >= 3
  {
    AdmitCause(s, e.service, e.reply);
    ActiveIsMember(s);
    SomeoneElse(s, Oldest(s.m.book.queues));
    JumpIsForMember(s, e);
    ThreeDistinct(s.m.active, Oldest(s.m.book.queues), e.service, s.m.cfg.members.Keys);
  }

  lemma ActiveIsMember(s: Sys)
    requires SysInv(s) && !s.closed && s.m.state == Active
    ensures s.m.active in s.m.cfg.members && s.m.cfg.grace >= 0
  {
  }

  lemma SomeoneElse(s: Sys, k: Name)
    requires SysInv(s) && !s.closed && s.m.state == Active && Waiting(s.m.book.queues, k)
    ensures k in s.m.cfg.members && k != s.m.active && !NobodyWaits(s.m)
  {
  }

  lemma JumpIsForMember(s: Sys, e: Event)
    requires Grounded(s.m) && e.Admit? && StartsSwap(s, e, e.service)
    ensures e.service in s.m.cfg.members
  {
  }

  lemma ThreeMembers(names: set<Name>) returns (a: Name, b: Name, d: Name)
    requires |names| >= 3
    ensures a in names && b in names && d in names && a != b && b != d && a != d
  {
    a :| a in names;
    assert |names - {a}| >= 2;
    b :| b in names - {a};
    assert |names - {a} - {b}| >= 1;
    d :| d in names - {a} - {b};
  }

  /** In some run a request starts a swap ahead of an older one of another service if and only if the
      pool has three members and a grace period. */
  lemma OvertakesExactlyWithGrace(c: Config)
    requires CfgOk(c)
    ensures (exists run, e :: OvertakesBy(c, run, e)) <==> |c.members| >= 3 && c.grace > 0
  {
    if |c.members| >= 3 && c.grace > 0 {
      var a, b, d := ThreeMembers(c.members.Keys);
      var run := ThreeOvertake(c, a, b, d);
    } else {
      forall run, e ensures !OvertakesBy(c, run, e) { NeverOvertakes(c, run, e); }
    }
  }

  lemma NeverOvertakes(c: Config, run: seq<Event>, e: Event)
    requires CfgOk(c) && !(|c.members| >= 3 && c.grace > 0)
    ensures !OvertakesBy(c, run, e)
  {
    BootSys(c, {}, {});
    BootGrounded(c, {}, {});
    ExecSys(Boot(c, {}, {}), run);
    RunPrompt(Boot(c, {}, {}), run);
    if Jumps(Exec(Boot(c, {}, {}), run), e) { JumpNeeds(Exec(Boot(c, {}, {}), run), e); }
  }
}
