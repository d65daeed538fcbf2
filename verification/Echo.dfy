/** The pool hears the echo of its own calls: each start or stop that takes effect comes back as
    Docker events, later. Here the workers' calls, the registry that should recognise the echo,
    and the event stream are put together, and it is shown when the manager is not disturbed by
    the pool's own doing. */
module Echo {
  import opened Names
  import opened State
  import opened Worker
  import opened Manager
  import opened Invariant
  import opened System
  import opened Safety
  import opened Exclusion
  import opened Registry
  import opened Walks

  /** One Docker event on its way; `own` tells history whether the pool caused it. */
  datatype Happening = Happening(container: Name, action: Action, own: bool)

  datatype Wire = Wire(s: Sys, table: map<Name, OpEntry>, stream: seq<Happening>)

  /** A step of the system, and the events Docker makes of it if it starts or stops a container;
      or the delivery of the next event. */
  datatype Move = Step(e: Event, echo: seq<Action>) | Deliver

  /** A container that a step starts or stops. */
  datatype Change = Change(container: Name, kind: OpKind, own: bool)

  // --- what calls expect and cause ---

  /** The container a worker is about to act on, and how. */
  function ActsOn(w: Job): (Name, OpKind)
    requires Acting(w) && InRange(w)
  {
    match w.pc
    case Stop(i) => (w.list[i], StopOp)
    case Start => (w.own, StartOp)
    case CleanStop => (w.own, StopOp)
  }

  /** A worker's call takes effect: a stop of a running container, a start of a stopped one. */
  predicate TakesEffect(w: Job, r: Resp, running: set<Name>)
    requires InRange(w)
  {
    r.Ok? && Acting(w) && (ActsOn(w).1.StopOp? <==> ActsOn(w).0 in running)
  }

  lemma TakesEffectExactly(w: Job, r: Resp, running: set<Name>)
    requires InRange(w)
    ensures TakesEffect(w, r, running) <==> Effect(w, r, running) != running
  {
    if Acting(w) && r.Ok? {
      var c := ActsOn(w).0;
      assert c in running ==> c !in running - {c};
      assert c !in running ==> c in running + {c} && running - {c} == running;
      assert c in running ==> running + {c} == running;
    }
  }

  ghost function ChangeOf(x: Wire, e: Event): Option<Change>
    requires Grounded(x.s.m) && Enabled(x.s, e)
  {
    match e
    case Work(op, r) =>
      JobAt(x.s.m, op);
      var w := x.s.m.crew.jobs[op];
      if TakesEffect(w, r, x.s.docker.running) then Some(Change(ActsOn(w).0, ActsOn(w).1, true)) else None
    case Detached(c, ok) => if ok && c in x.s.docker.running then Some(Change(c, StopOp, true)) else None
    case OutsideStart(c) => if c !in x.s.docker.running then Some(Change(c, StartOp, false)) else None
    case OutsideStop(c) => if c in x.s.docker.running then Some(Change(c, StopOp, false)) else None
    case _ => None
  }

  /** A change makes at least one event of its kind: a start one, a stop up to three of kill, die and stop. */
  predicate EchoOf(kind: OpKind, echo: seq<Action>)
  {
    1 <= |echo| <= EventsOf(kind) && forall i :: 0 <= i < |echo| ==> OfKind(kind, echo[i])
  }

  function Burst(c: Name, echo: seq<Action>, own: bool): seq<Happening>
  {
    seq(|echo|, i requires 0 <= i < |echo| => Happening(c, echo[i], own))
  }

  function BurstOf(change: Option<Change>, echo: seq<Action>): seq<Happening>
  {
    if change.Some? then Burst(change.value.container, echo, change.value.own) else []
  }

  /** What the registry is told by the move: a worker that comes to act, or a detached stop, is
      recorded before its call; an event is asked about. */
  ghost function OpsOf(x: Wire, mv: Move): (ops: seq<RegOp>)
    requires Grounded(x.s.m)
    ensures |ops| <= 1 && forall o :: o in ops ==> o.time == x.s.now
  {
    match mv
    case Deliver =>
      if x.stream == [] then [] else [Occurred(x.stream[0].container, x.stream[0].action, x.s.now)]
    case Step(e, _) =>
      if !Happens(x, mv) then []
      else
        match e
        case Work(op, r) =>
          JobAt(x.s.m, op);
          var v := Worker.Step(x.s.m.crew.jobs[op], r, x.s.now);
          StepShaped(x.s.m.crew.jobs[op], r, x.s.now);
          if Acting(v) then [Expected(ActsOn(v).0, ActsOn(v).1, x.s.now)] else []
        case Detached(c, _) => [Expected(c, StopOp, x.s.now)]
        case _ => []
  }

  /** The step can be taken, and its echo fits it. Events reach the manager by delivery only. */
  ghost predicate Happens(x: Wire, mv: Move)
    requires Grounded(x.s.m)
  {
    match mv
    case Deliver => x.stream != []
    case Step(e, echo) =>
      !e.Notice? && Enabled(x.s, e) && (ChangeOf(x, e).Some? ==> EchoOf(ChangeOf(x, e).value.kind, echo))
  }

  function TableWith(t: map<Name, OpEntry>, ops: seq<RegOp>): map<Name, OpEntry>
  {
    if ops == [] then t else Table(t, ops[0])
  }

  /** The next event goes to the manager unless the registry explains it. */
  ghost function Feed(x: Wire, mv: Move): Wire
    requires Grounded(x.s.m)
  {
    if !Happens(x, mv) then x
    else
      var table := TableWith(x.table, OpsOf(x, mv));
      match mv
      case Step(e, echo) => Wire(Apply(x.s, e), table, x.stream + BurstOf(ChangeOf(x, e), echo))
      case Deliver =>
        var h := x.stream[0];
        var s := if Absorbs(x.table, h.container, h.action, x.s.now) then x.s
                 else Apply(x.s, Notice(h.container, h.action));
        Wire(s, table, x.stream[1..])
  }

  /** The next event is of the pool's own doing, and delivered. */
  ghost predicate OwnDelivery(x: Wire, mv: Move)
  {
    mv.Deliver? && x.stream != [] && x.stream[0].own
  }

  /** An event of the pool's own doing reaches the manager. */
  ghost predicate Escapes(x: Wire, mv: Move)
  {
    OwnDelivery(x, mv) && !Absorbs(x.table, x.stream[0].container, x.stream[0].action, x.s.now)
  }

  lemma FeedGrounded(x: Wire, mv: Move)
    requires Grounded(x.s.m)
    ensures Grounded(Feed(x, mv).s.m) && Feed(x, mv).s.m.cfg == x.s.m.cfg
  {
    match mv
    case Step(e, _) => ApplyGrounded(x.s, e);
    case Deliver => if x.stream != [] { ApplyGrounded(x.s, Notice(x.stream[0].container, x.stream[0].action)); }
  }

  // --- calm ---

  function Pending(stream: seq<Happening>, c: Name): nat
  {
    if stream == [] then 0
    else Pending(stream[..|stream| - 1], c) + if stream[|stream| - 1].container == c then 1 else 0
  }

  /** Nobody but `except` is about to act on the container, and no event of it is on its way. */
  ghost predicate Undisturbed(x: Wire, c: Name, except: Option<nat>)
    requires Grounded(x.s.m)
  {
    && Pending(x.stream, c) == 0
    && forall op :: op in x.s.m.crew.jobs && Acting(x.s.m.crew.jobs[op]) && except != Some(op) ==>
         (JobAt(x.s.m, op); ActsOn(x.s.m.crew.jobs[op]).0 != c)
  }

  /** Operations on one container do not overlap, none begins before the echo of the last is
      heard, an echo is heard within 30 seconds of the call, and outsiders keep out. */
  ghost predicate Calm(x: Wire, mv: Move)
    requires Grounded(x.s.m)
  {
    match mv
    case Deliver =>
      x.stream != [] && x.stream[0].container in x.table ==> x.s.now - x.table[x.stream[0].container].at <= OP_TTL
    case Step(e, _) =>
      Happens(x, mv) ==>
        match e
        case Work(op, r) =>
          JobAt(x.s.m, op);
          var v := Worker.Step(x.s.m.crew.jobs[op], r, x.s.now);
          StepShaped(x.s.m.crew.jobs[op], r, x.s.now);
          Acting(v) ==> Undisturbed(x, ActsOn(v).0, Some(op))
        case Detached(c, _) => Undisturbed(x, c, None)
        case OutsideStart(c) => c in x.s.docker.running
        case OutsideStop(c) => c !in x.s.docker.running
        case _ => true
  }

  // --- counting what is on its way ---

  lemma {:induction false} PendingSum(a: seq<Happening>, b: seq<Happening>, c: Name)
    ensures Pending(a + b, c) == Pending(a, c) + Pending(b, c)
    decreases |b|
  {
    if b == [] {
      assert a + b == a;
    } else {
      var init := b[..|b| - 1];
      assert (a + b)[..|a + b| - 1] == a + init;
      PendingSum(a, init, c);
    }
  }

  lemma PendingRest(stream: seq<Happening>, c: Name)
    requires stream != []
    ensures Pending(stream, c) == (if stream[0].container == c then 1 else 0) + Pending(stream[1..], c)
  {
    assert stream == [stream[0]] + stream[1..];
    PendingSum([stream[0]], stream[1..], c);
    assert [stream[0]][..0] == [];
  }

  lemma {:induction false} PendingBurst(d: Name, echo: seq<Action>, own: bool, c: Name)
    ensures Pending(Burst(d, echo, own), c) == if c == d then |echo| else 0
    decreases |echo|
  {
    var b := Burst(d, echo, own);
    if echo != [] {
      assert b[..|b| - 1] == Burst(d, echo[..|echo| - 1], own);
      PendingBurst(d, echo[..|echo| - 1], own, c);
    }
  }

  lemma {:induction false} OnItsWay(stream: seq<Happening>, h: Happening)
    requires h in stream
    ensures Pending(stream, h.container) > 0
    decreases |stream|
  {
    var init := stream[..|stream| - 1];
    assert stream == init + [stream[|stream| - 1]];
    if h in init { OnItsWay(init, h); }
  }

  // --- what calm keeps ---

  /** The registry holds the worker's own expectation, untouched, and nothing of the container is
      on its way. */
  ghost predicate Ready(table: map<Name, OpEntry>, stream: seq<Happening>, w: Job)
  {
    InRange(w) && (Acting(w) ==>
      var (c, kind) := ActsOn(w);
      c in table && table[c].kind == kind && table[c].remaining == Budget(kind) && Pending(stream, c) == 0)
  }

  ghost predicate OnesOwn(v: Job, w: Job)
  {
    InRange(v) && InRange(w) && (Acting(v) && Acting(w) ==> ActsOn(v).0 != ActsOn(w).0)
  }

  ghost predicate Prepared(jobs: map<nat, Job>, table: map<Name, OpEntry>, stream: seq<Happening>)
  {
    && (forall op :: op in jobs ==> Ready(table, stream, jobs[op]))
    && (forall o, p :: o in jobs && p in jobs && o != p ==> OnesOwn(jobs[o], jobs[p]))
  }

  /** Whatever is on its way is the pool's own, of the kind expected, and within the budget. */
  ghost predicate Explainable(table: map<Name, OpEntry>, stream: seq<Happening>)
  {
    && (forall h :: h in stream ==> h.own && h.container in table && Matches(table[h.container].kind, h.action))
    && (forall c {:trigger Pending(stream, c)} :: Pending(stream, c) > 0 ==>
          c in table && table[c].remaining >= Pending(stream, c))
  }

  ghost predicate Tidy(x: Wire)
  {
    Kept(x.s) && Grounded(x.s.m) && Prepared(x.s.m.crew.jobs, x.table, x.stream) && Explainable(x.table, x.stream)
  }

  /** An event that is heard in time is absorbed, and what is left is explainable still. */
  lemma HeardInTime(jobs: map<nat, Job>, table: map<Name, OpEntry>, stream: seq<Happening>, now: int)
    requires Prepared(jobs, table, stream) && Explainable(table, stream) && stream != []
    requires now - table[stream[0].container].at <= OP_TTL
    ensures Absorbs(table, stream[0].container, stream[0].action, now)
    ensures var t := Table(table, Occurred(stream[0].container, stream[0].action, now));
      Prepared(jobs, t, stream[1..]) && Explainable(t, stream[1..])
  {
    var h := stream[0];
    OnItsWay(stream, h);
    var t := Table(table, Occurred(h.container, h.action, now));
    forall c ensures Pending(stream[1..], c) == Pending(stream, c) - (if h.container == c then 1 else 0) {
      PendingRest(stream, c);
    }
    forall op | op in jobs ensures Ready(t, stream[1..], jobs[op]) {
      assert Ready(table, stream, jobs[op]);
    }
    forall k | k in stream[1..] ensures k.own && k.container in t && Matches(t[k.container].kind, k.action) {
      OnItsWay(stream[1..], k);
    }
  }

  /** A new expectation, for a container nobody else is busy with. */
  lemma Recorded(table: map<Name, OpEntry>, stream: seq<Happening>, c: Name, kind: OpKind, now: int)
    requires Explainable(table, stream) && Pending(stream, c) == 0
    ensures Explainable(Table(table, Expected(c, kind, now)), stream)
  {
    forall h | h in stream ensures h.container != c {
      OnItsWay(stream, h);
    }
  }

  /** A call that takes effect, on the strength of its own expectation. */
  lemma Echoed(table: map<Name, OpEntry>, stream: seq<Happening>, c: Name, kind: OpKind, echo: seq<Action>)
    requires Explainable(table, stream) && Pending(stream, c) == 0 && EchoOf(kind, echo)
    requires c in table && table[c].kind == kind && table[c].remaining == Budget(kind)
    ensures Explainable(table, stream + Burst(c, echo, true))
    ensures forall d :: d != c ==> Pending(stream + Burst(c, echo, true), d) == Pending(stream, d)
  {
    forall d ensures Pending(stream + Burst(c, echo, true), d) == Pending(stream, d) + (if d == c then |echo| else 0) {
      PendingSum(stream, Burst(c, echo, true), d);
      PendingBurst(c, echo, true, d);
    }
  }

  // --- every move keeps it ---

  lemma ActsThenLooks(w: Job, r: Resp, now: int)
    requires InRange(w) && Acting(w)
    ensures !Acting(Worker.Step(w, r, now))
  {
  }

  /** One worker has moved, the others are where they were. */
  lemma OneMoves(jobs: map<nat, Job>, op: nat, v: Job, table: map<Name, OpEntry>, t: map<Name, OpEntry>,
                 stream: seq<Happening>, u: seq<Happening>, c: Name)
    requires Prepared(jobs, table, stream) && op in jobs && Ready(t, u, v)
    requires Acting(v) ==> ActsOn(v).0 == c
    requires forall o :: o in jobs && o != op && Acting(jobs[o]) ==>
        Ready(table, stream, jobs[o]) && ActsOn(jobs[o]).0 != c
    requires forall d :: d != c ==> Pending(u, d) == Pending(stream, d) && (d in table ==> d in t && t[d] == table[d])
    ensures Prepared(jobs[op := v], t, u)
  {
    var next := jobs[op := v];
    forall o | o in next ensures Ready(t, u, next[o]) {
      if o != op { assert Ready(table, stream, jobs[o]); }
    }
    forall o, p | o in next && p in next && o != p ensures OnesOwn(next[o], next[p]) {
      if o != op && p != op { assert OnesOwn(jobs[o], jobs[p]); }
    }
  }

  /** A worker that was about to act has called, to no effect ... */
  lemma CallMade(jobs: map<nat, Job>, op: nat, v: Job, table: map<Name, OpEntry>, stream: seq<Happening>)
    requires Prepared(jobs, table, stream) && op in jobs && InRange(v) && !Acting(v)
    ensures Prepared(jobs[op := v], table, stream)
  {
    var next := jobs[op := v];
    forall o | o in next ensures Ready(table, stream, next[o]) {
      if o != op { assert Ready(table, stream, jobs[o]); }
    }
    forall o, p | o in next && p in next && o != p ensures OnesOwn(next[o], next[p]) {
      if o != op && p != op { assert OnesOwn(jobs[o], jobs[p]); }
    }
  }

  /** ... or with its effect, which has an echo. */
  lemma CallEchoed(jobs: map<nat, Job>, op: nat, v: Job, table: map<Name, OpEntry>, stream: seq<Happening>,
      echo: seq<Action>)
    requires Prepared(jobs, table, stream) && Explainable(table, stream) && op in jobs && Acting(jobs[op])
    requires InRange(jobs[op]) && InRange(v) && !Acting(v) && EchoOf(ActsOn(jobs[op]).1, echo)
    ensures var u := stream + Burst(ActsOn(jobs[op]).0, echo, true);
      Prepared(jobs[op := v], table, u) && Explainable(table, u)
  {
    var (c, kind) := ActsOn(jobs[op]);
    assert Ready(table, stream, jobs[op]);
    Echoed(table, stream, c, kind, echo);
    forall o | o in jobs && o != op && Acting(jobs[o]) ensures Ready(table, stream, jobs[o]) && ActsOn(jobs[o]).0 != c {
      assert Ready(table, stream, jobs[o]) && OnesOwn(jobs[o], jobs[op]);
    }
    OneMoves(jobs, op, v, table, table, stream, stream + Burst(c, echo, true), c);
  }

  /** A worker that comes to act on a container nobody is busy with is ready for it. */
  lemma ComesToAct(jobs: map<nat, Job>, op: nat, v: Job, table: map<Name, OpEntry>, stream: seq<Happening>, now: int)
    requires Prepared(jobs, table, stream) && Explainable(table, stream) && op in jobs
    requires InRange(v) && Acting(v) && Pending(stream, ActsOn(v).0) == 0
    requires forall o :: o in jobs && o != op && Acting(jobs[o]) ==>
        InRange(jobs[o]) && ActsOn(jobs[o]).0 != ActsOn(v).0
    ensures var t := Table(table, Expected(ActsOn(v).0, ActsOn(v).1, now));
      Prepared(jobs[op := v], t, stream) && Explainable(t, stream)
  {
    var (c, kind) := ActsOn(v);
    var t := Table(table, Expected(c, kind, now));
    Recorded(table, stream, c, kind, now);
    forall o | o in jobs && o != op && Acting(jobs[o]) ensures Ready(table, stream, jobs[o]) && ActsOn(jobs[o]).0 != c {
      assert Ready(table, stream, jobs[o]);
    }
    OneMoves(jobs, op, v, table, t, stream, stream, c);
  }

  ghost predicate TidyRest(y: Wire)
  {
    Prepared(y.s.m.crew.jobs, y.table, y.stream) && Explainable(y.table, y.stream)
  }

  /** The worker makes its call. */
  lemma ActingTidy(x: Wire, op: nat, r: Resp, echo: seq<Action>)
    requires Tidy(x) && Happens(x, Step(Work(op, r), echo)) && Acting(x.s.m.crew.jobs[op])
    ensures TidyRest(Feed(x, Step(Work(op, r), echo)))
  {
    JobAt(x.s.m, op);
    var w := x.s.m.crew.jobs[op];
    var v := Worker.Step(w, r, x.s.now);
    StepShaped(w, r, x.s.now);
    ActsThenLooks(w, r, x.s.now);
    if TakesEffect(w, r, x.s.docker.running) {
      CallEchoed(x.s.m.crew.jobs, op, v, x.table, x.stream, echo);
    } else {
      assert x.stream + [] == x.stream;
      CallMade(x.s.m.crew.jobs, op, v, x.table, x.stream);
    }
  }

  /** It does not, but may come to its next one. */
  lemma LookingTidy(x: Wire, op: nat, r: Resp, echo: seq<Action>)
    requires Tidy(x) && Happens(x, Step(Work(op, r), echo)) && !Acting(x.s.m.crew.jobs[op])
    requires Calm(x, Step(Work(op, r), echo))
    ensures TidyRest(Feed(x, Step(Work(op, r), echo)))
  {
    JobAt(x.s.m, op);
    var jobs, w := x.s.m.crew.jobs, x.s.m.crew.jobs[op];
    var v := Worker.Step(w, r, x.s.now);
    StepShaped(w, r, x.s.now);
    assert x.stream + [] == x.stream;
    if Acting(v) {
      forall o | o in jobs && o != op && Acting(jobs[o]) ensures InRange(jobs[o]) && ActsOn(jobs[o]).0 != ActsOn(v).0 {
        JobAt(x.s.m, o);
      }
      ComesToAct(jobs, op, v, x.table, x.stream, x.s.now);
    } else {
      CallMade(jobs, op, v, x.table, x.stream);
    }
  }

  lemma StillPrepared(a: Crew, b: Crew, table: map<Name, OpEntry>, stream: seq<Happening>)
    requires Prepared(a.jobs, table, stream) && NoneTakesUp(a, b) && forall op :: op in b.jobs ==> InRange(b.jobs[op])
    ensures Prepared(b.jobs, table, stream)
  {
    forall op | op in b.jobs ensures Ready(table, stream, b.jobs[op]) {
      if Acting(b.jobs[op]) { assert Ready(table, stream, a.jobs[op]); }
    }
    forall o, p | o in b.jobs && p in b.jobs && o != p ensures OnesOwn(b.jobs[o], b.jobs[p]) {
      if Acting(b.jobs[o]) && Acting(b.jobs[p]) { assert OnesOwn(a.jobs[o], a.jobs[p]); }
    }
  }

  lemma ManagerTidy(x: Wire, e: Event, echo: seq<Action>)
    requires Tidy(x) && Happens(x, Step(e, echo)) && !e.Work? && !e.Detached? && Calm(x, Step(e, echo))
    ensures TidyRest(Feed(x, Step(e, echo)))
  {
    ManagerEvolves(x.s, e);
    ApplyGrounded(x.s, e);
    var t := Apply(x.s, e);
    forall op | op in t.m.crew.jobs ensures InRange(t.m.crew.jobs[op]) { JobAt(t.m, op); }
    StillPrepared(x.s.m.crew, t.m.crew, x.table, x.stream);
    assert x.stream + [] == x.stream;
  }

  lemma DetachedTidy(x: Wire, c: Name, ok: bool, echo: seq<Action>)
    requires Tidy(x) && Happens(x, Step(Detached(c, ok), echo)) && Calm(x, Step(Detached(c, ok), echo))
    ensures TidyRest(Feed(x, Step(Detached(c, ok), echo)))
  {
    var jobs, y := x.s.m.crew.jobs, Feed(x, Step(Detached(c, ok), echo));
    var t := Table(x.table, Expected(c, StopOp, x.s.now));
    Recorded(x.table, x.stream, c, StopOp, x.s.now);
    if ChangeOf(x, Detached(c, ok)).Some? { Echoed(t, x.stream, c, StopOp, echo); }
    assert x.stream + [] == x.stream;
    forall op | op in jobs ensures Ready(t, y.stream, jobs[op]) {
      JobAt(x.s.m, op);
      assert Ready(x.table, x.stream, jobs[op]);
    }
  }

  lemma StepTidy(x: Wire, e: Event, echo: seq<Action>)
    requires Tidy(x) && Happens(x, Step(e, echo)) && Calm(x, Step(e, echo))
    ensures TidyRest(Feed(x, Step(e, echo)))
  {
    if e.Work? {
      if Acting(x.s.m.crew.jobs[e.op]) { ActingTidy(x, e.op, e.resp, echo); }
      else { LookingTidy(x, e.op, e.resp, echo); }
    } else if e.Detached? {
      DetachedTidy(x, e.container, e.ok, echo);
    } else {
      ManagerTidy(x, e, echo);
    }
  }

  /** In calm no event of the pool's own doing gets past the registry. */
  lemma CalmMove(x: Wire, mv: Move)
    requires Tidy(x) && Calm(x, mv)
    ensures Tidy(Feed(x, mv)) && !Escapes(x, mv)
    ensures mv.Deliver? ==> Feed(x, mv).s == x.s
  {
    FeedGrounded(x, mv);
    if Happens(x, mv) {
      match mv
      case Step(e, echo) =>
        ApplyKept(x.s, e);
        StepTidy(x, e, echo);
      case Deliver => HeardInTime(x.s.m.crew.jobs, x.table, x.stream, x.s.now);
    }
  }

  // --- runs ---

  ghost function FeedAll(x: Wire, moves: seq<Move>): (y: Wire)
    requires Grounded(x.s.m)
    ensures Grounded(y.s.m)
    decreases |moves|
  {
    if moves == [] then x else FeedGrounded(x, moves[0]); FeedAll(Feed(x, moves[0]), moves[1..])
  }

  ghost predicate CalmRun(x: Wire, moves: seq<Move>)
    requires Grounded(x.s.m)
    decreases |moves|
  {
    moves == [] || (Calm(x, moves[0]) && (FeedGrounded(x, moves[0]); CalmRun(Feed(x, moves[0]), moves[1..])))
  }

  /** No event of the pool's own doing reaches the manager anywhere in the run. */
  ghost predicate StaysOut(x: Wire, moves: seq<Move>)
    requires Grounded(x.s.m)
    decreases |moves|
  {
    moves == [] || (!Escapes(x, moves[0]) && (FeedGrounded(x, moves[0]); StaysOut(Feed(x, moves[0]), moves[1..])))
  }

  /** The system's steps of the run: everything but what was delivered. */
  ghost function StepsOf(x: Wire, moves: seq<Move>): seq<Event>
    requires Grounded(x.s.m)
    decreases |moves|
  {
    if moves == [] then []
    else
      FeedGrounded(x, moves[0]);
      (if moves[0].Step? && Happens(x, moves[0]) then [moves[0].e] else []) + StepsOf(Feed(x, moves[0]), moves[1..])
  }

  lemma {:induction false} CalmKeepsOut(x: Wire, moves: seq<Move>)
    requires Tidy(x) && Grounded(x.s.m) && CalmRun(x, moves)
    ensures StaysOut(x, moves) && FeedAll(x, moves).s == Exec(x.s, StepsOf(x, moves))
    decreases |moves|
  {
    if moves != [] {
      CalmMove(x, moves[0]);
      FeedGrounded(x, moves[0]);
      CalmKeepsOut(Feed(x, moves[0]), moves[1..]);
      SameSteps(x, moves[0], StepsOf(Feed(x, moves[0]), moves[1..]));
    }
  }

  lemma SameSteps(x: Wire, mv: Move, rest: seq<Event>)
    requires Grounded(x.s.m) && (mv.Deliver? ==> Feed(x, mv).s == x.s)
    ensures Grounded(Feed(x, mv).s.m)
    ensures Exec(Feed(x, mv).s, rest) == Exec(x.s, (if mv.Step? && Happens(x, mv) then [mv.e] else []) + rest)
  {
    FeedGrounded(x, mv);
    if mv.Step? && Happens(x, mv) {
      ExecFirst(x.s, mv.e, rest);
    } else {
      assert [] + rest == rest;
    }
  }

  ghost function Quietly(c: Config, running: set<Name>, strays: set<Name>): Wire
  {
    Wire(Boot(c, running, strays), map[], [])
  }

  /** From the start on, as long as it is calm, the manager is told nothing of the pool's own doing:
      it is where it would be if no event had ever been delivered. */
  lemma OwnEventsStayOut(c: Config, running: set<Name>, moves: seq<Move>)
    requires WellFormed(c) && running <= Containers(c) && Grounded(Boot(c, running, running).m)
    requires CalmRun(Quietly(c, running, running), moves)
    ensures var x := Quietly(c, running, running);
      StaysOut(x, moves) && FeedAll(x, moves).s == Exec(x.s, StepsOf(x, moves))
  {
    BootKept(c, running, running);
    CalmKeepsOut(Quietly(c, running, running), moves);
  }

  // --- in every run, calm or not ---

  /** All the registry was told in the run. */
  ghost function HistoryOf(x: Wire, moves: seq<Move>): seq<RegOp>
    requires Grounded(x.s.m)
    decreases |moves|
  {
    if moves == [] then []
    else FeedGrounded(x, moves[0]); OpsOf(x, moves[0]) + HistoryOf(Feed(x, moves[0]), moves[1..])
  }

  /** The history h is what made the table, and it lies in the past. */
  ghost predicate Recalls(x: Wire, h: seq<RegOp>)
  {
    x.table == TableAfter(h) && InOrder(h) && forall i :: 0 <= i < |h| ==> h[i].time <= x.s.now
  }

  lemma TableAfterOne(h: seq<RegOp>, ops: seq<RegOp>)
    requires |ops| <= 1
    ensures TableAfter(h + ops) == TableWith(TableAfter(h), ops)
  {
    if ops == [] {
      assert h + ops == h;
    } else {
      assert (h + ops)[..|h + ops| - 1] == h;
    }
  }

  lemma TimePasses(x: Wire, mv: Move)
    requires Grounded(x.s.m)
    ensures Feed(x, mv).s.now >= x.s.now
  {
  }

  lemma RecallsOn(x: Wire, h: seq<RegOp>, mv: Move)
    requires Grounded(x.s.m) && Recalls(x, h)
    ensures Recalls(Feed(x, mv), h + OpsOf(x, mv))
  {
    TableAfterOne(h, OpsOf(x, mv));
    TimePasses(x, mv);
    if !Happens(x, mv) { assert OpsOf(x, mv) == [] && h + [] == h; }
  }

  /** Every own event delivered in the run is explained by what the registry was told before it:
      the newest expectation for its container is of its kind, no more than 30 seconds old, and has
      not explained as many events already as it may. */
  ghost predicate AllExplained(x: Wire, h: seq<RegOp>, moves: seq<Move>)
    requires Grounded(x.s.m)
    decreases |moves|
  {
    moves == [] ||
      (FeedGrounded(x, moves[0]);
       (OwnDelivery(x, moves[0]) ==> Explained(h, x.stream[0].container, x.stream[0].action, x.s.now))
       && AllExplained(Feed(x, moves[0]), h + OpsOf(x, moves[0]), moves[1..]))
  }

  lemma EscapesUnexplained(x: Wire, h: seq<RegOp>, mv: Move)
    requires Recalls(x, h)
    ensures Escapes(x, mv) <==>
      OwnDelivery(x, mv) && !Explained(h, x.stream[0].container, x.stream[0].action, x.s.now)
  {
    if OwnDelivery(x, mv) { RegistryIsExact(h, x.stream[0].container, x.stream[0].action, x.s.now); }
  }

  lemma {:induction false} StaysOutExactly(x: Wire, h: seq<RegOp>, moves: seq<Move>)
    requires Grounded(x.s.m) && Recalls(x, h)
    ensures StaysOut(x, moves) <==> AllExplained(x, h, moves)
    decreases |moves|
  {
    if moves != [] {
      FeedGrounded(x, moves[0]);
      RecallsOn(x, h, moves[0]);
      EscapesUnexplained(x, h, moves[0]);
      StaysOutExactly(Feed(x, moves[0]), h + OpsOf(x, moves[0]), moves[1..]);
    }
  }

  lemma {:induction false} TableIsHistory(x: Wire, h: seq<RegOp>, moves: seq<Move>)
    requires Grounded(x.s.m) && Recalls(x, h)
    ensures Recalls(FeedAll(x, moves), h + HistoryOf(x, moves))
    decreases |moves|
  {
    if moves == [] {
      assert h + [] == h;
    } else {
      FeedGrounded(x, moves[0]);
      RecallsOn(x, h, moves[0]);
      TableIsHistory(Feed(x, moves[0]), h + OpsOf(x, moves[0]), moves[1..]);
      Reassociate(h, OpsOf(x, moves[0]), HistoryOf(Feed(x, moves[0]), moves[1..]));
    }
  }

  lemma Reassociate(a: seq<RegOp>, b: seq<RegOp>, c: seq<RegOp>)
    ensures a + (b + c) == (a + b) + c
  {
  }

  /** In every run, calm or not, the pool's own events stay out if and only if each is explained
      by the calls and events of the run before it. */
  lemma OwnEventsStayOutExactly(c: Config, running: set<Name>, moves: seq<Move>)
    requires Grounded(Boot(c, running, running).m)
    ensures StaysOut(Quietly(c, running, running), moves) <==>
      AllExplained(Quietly(c, running, running), [], moves)
    ensures FeedAll(Quietly(c, running, running), moves).table ==
      TableAfter(HistoryOf(Quietly(c, running, running), moves))
  {
    StaysOutExactly(Quietly(c, running, running), [], moves);
    TableIsHistory(Quietly(c, running, running), [], moves);
    assert [] + HistoryOf(Quietly(c, running, running), moves) == HistoryOf(Quietly(c, running, running), moves);
  }
}
