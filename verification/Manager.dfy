/** The manager's handlers as functions from state to state: the specification that
    the methods of class Pool are proved against, and that the laws about runs use. */
module Manager {
  import opened Names
  import opened State
  import opened Ledger
  import opened Worker

  /** The per-kind epochs, cooldownArmed, and the ticks armed and not yet handled. */
  datatype Timers = Timers(grace: nat, cooldown: nat, armed: bool, ticks: set<Tick>)

  /** opSeq, the context held in swapCancel (named by its operation), and the live
      workers by operation number. */
  datatype Crew = Crew(opSeq: nat, swapCancel: Option<nat>, jobs: map<nat, Job>)

  /** Everything the manager owns, and what it has set in motion: ticks, workers and
      detached stops. `period` is history: the number of transitions published. */
  datatype Mgr = Mgr(
    cfg: Config,
    state: PoolState, active: Name, target: Name, adminPending: Name,
    startedAt: int, lastActivity: int,
    timers: Timers, crew: Crew, snap: Snapshot, book: Book,
    stops: multiset<Name>, period: nat)

  function Initial(c: Config): Mgr
  {
    Mgr(c, Idle, NONE, NONE, NONE, 0, 0, Timers(0, 0, false, {}), Crew(0, None, map[]), Snapshot(Idle, NONE),
        Book(map n | n in c.members :: [], 0, map[], [], {}), multiset{}, 0)
  }

  /** What every lookup p.members[x] of a handler relies on. */
  predicate Typed(m: Mgr)
  {
    && (m.cfg.defaultSvc == NONE || m.cfg.defaultSvc in m.cfg.members)
    && m.book.queues.Keys == m.cfg.members.Keys
    && (m.adminPending == NONE || m.adminPending in m.cfg.members)
  }

  function Epoch(ts: Timers, kind: TimerKind): nat
  {
    if kind.Grace? then ts.grace else ts.cooldown
  }

  function Publish(m: Mgr): Mgr
  {
    m.(snap := Snapshot(m.state, m.active), period := m.period + 1)
  }

  function Bump(ts: Timers): Timers
  {
    ts.(grace := ts.grace + 1, cooldown := ts.cooldown + 1, armed := false)
  }

  function BumpEpochs(m: Mgr): Mgr
  {
    m.(timers := Bump(m.timers))
  }

  function Arm(ts: Timers, kind: TimerKind, due: int, period: nat): Timers
  {
    if kind.Grace? then
      ts.(grace := ts.grace + 1, ticks := ts.ticks + {Tick(Grace, ts.grace + 1, due, period)})
    else
      ts.(cooldown := ts.cooldown + 1, armed := true,
          ticks := ts.ticks + {Tick(Cooldown, ts.cooldown + 1, due, period)})
  }

  function ArmTimer(m: Mgr, kind: TimerKind, d: int, now: int): Mgr
  {
    m.(timers := Arm(m.timers, kind, now + d, m.period))
  }

  function Touch(m: Mgr, service: Name, now: int): Mgr
  {
    if m.state == Active && m.active == service then m.(lastActivity := now) else m
  }

  /** Cancelling the context held in swapCancel, if any. */
  function Release(c: Crew): Crew
  {
    if c.swapCancel.Some? && c.swapCancel.value in c.jobs then
      var op := c.swapCancel.value;
      c.(jobs := c.jobs[op := c.jobs[op].(cancelled := true)], swapCancel := None)
    else c.(swapCancel := None)
  }

  function ReleaseWorker(m: Mgr): Mgr
  {
    m.(crew := Release(m.crew))
  }

  function Supersede(c: Crew): Crew
  {
    Release(c).(opSeq := c.opSeq + 1)
  }

  function SupersedeWorker(m: Mgr): Mgr
  {
    m.(crew := Supersede(m.crew))
  }

  ghost function SwapJob(c: Config, op: nat, target: Name): Job
    requires target in c.members
  {
    var mc := c.members[target];
    Spawned(Job(op, true, target, mc.containerName, mc.startupTimeout, OtherContainers(c, target),
                false, {}, false, false, false, PreStart))
  }

  ghost function StopJob(c: Config, op: nat): Job
  {
    Spawned(Job(op, false, NONE, NONE, 0, AllContainers(c), false, {}, false, false, false, PreStart))
  }

  /** Go SWAPPING towards target ("" for a stop): drop the old ticks, orphan the old worker. */
  function BeginTransition(m: Mgr, target: Name): Mgr
  {
    SupersedeWorker(BumpEpochs(m.(state := Swapping, active := NONE, target := target)))
  }

  function Hire(c: Crew, w: Job): Crew
  {
    c.(jobs := c.jobs[c.opSeq := w], swapCancel := Some(c.opSeq))
  }

  function Launch(m: Mgr, w: Job): Mgr
  {
    Publish(m.(crew := Hire(m.crew, w)))
  }

  ghost function StartSwap(m: Mgr, target: Name): Mgr
    requires target in m.cfg.members
  {
    var b := BeginTransition(m, target);
    Launch(b, SwapJob(b.cfg, b.crew.opSeq, target))
  }

  ghost function StartStopAll(m: Mgr): Mgr
  {
    var b := BeginTransition(m, NONE);
    Launch(b, StopJob(b.cfg, b.crew.opSeq))
  }

  // --- the longest-waiting service ---

  ghost predicate Waiting(queues: map<Name, seq<Waiter>>, n: Name)
  {
    n in queues && n != NONE && queues[n] != []
  }

  ghost predicate HeadsAll(queues: map<Name, seq<Waiter>>, n: Name)
  {
    Waiting(queues, n) && forall k :: Waiting(queues, k) ==> queues[n][0].seq_ <= queues[k][0].seq_
  }

  /** oldestQueued: the member whose head waiter has the lowest number, "" if none waits.
      A member named "" is not seen (with others waiting too, the Go program's answer would
      depend on the order of the map). */
  ghost function Oldest(queues: map<Name, seq<Waiter>>): (n: Name)
    ensures n != NONE ==> HeadsAll(queues, n)
    ensures n == NONE ==> forall k :: !Waiting(queues, k)
  {
    if k :| Waiting(queues, k) then
      HeadExists(queues, k);
      var n :| HeadsAll(queues, n);
      n
    else NONE
  }

  lemma HeadExists(queues: map<Name, seq<Waiter>>, k: Name)
    requires Waiting(queues, k)
    ensures exists n :: HeadsAll(queues, n)
  {
    var best := k;
    var left := queues.Keys;
    while left != {}
      invariant Waiting(queues, best)
      invariant forall j :: Waiting(queues, j) && j !in left ==> queues[best][0].seq_ <= queues[j][0].seq_
    {
      var j :| j in left;
      if Waiting(queues, j) && queues[j][0].seq_ < queues[best][0].seq_ { best := j; }
      left := left - {j};
    }
    assert HeadsAll(queues, best);
  }

  // --- the handlers ---

  /** A new waiter is in the queue of `service`: what it sets in motion. */
  ghost function Requested(e: Mgr, service: Name, now: int): Mgr
    requires service in e.cfg.members
  {
    match e.state
    case Idle => StartSwap(e, service)
    case Error => StartSwap(e, service)
    case Active =>
      if now - e.startedAt >= e.cfg.grace then StartSwap(e, service)
      else ArmTimer(e, Grace, e.cfg.grace - (now - e.startedAt), now)
    case Swapping => e
  }

  ghost function HandleAdmit(m: Mgr, service: Name, reply: nat, now: int): Mgr
    requires Typed(m)
  {
    if service !in m.cfg.members then m.(book := Answer(m.book, service, reply, DockerError))
    else if m.state == Active && m.active == service then
      Touch(m.(book := Answer(m.book, service, reply, Go)), service, now)
    else
      var max := m.cfg.members[service].maxQueue;
      var e := m.(book := Enqueue(m.book, service, reply, max));
      if |m.book.queues[service]| >= max then e else Requested(e, service, now)
  }

  ghost function HandleCancel(m: Mgr, service: Name, reply: nat): Mgr
  {
    m.(book := Remove(m.book, service, reply))
  }

  /** Whether the pool, newly or still on `active`, starts its idle countdown. */
  predicate Cools(m: Mgr)
  {
    m.cfg.cooldown > 0 && !(m.cfg.defaultSvc != NONE && m.active == m.cfg.defaultSvc)
  }

  ghost function ChainAfterTerminal(m: Mgr, activated: bool, now: int): Mgr
    requires Typed(m)
  {
    if m.adminPending != NONE && m.adminPending != m.active then
      StartSwap(m.(adminPending := NONE), m.adminPending)
    else
      var c := m.(adminPending := NONE);
      var next := Oldest(c.book.queues);
      if next != NONE then
        if activated && c.cfg.grace > 0 then ArmTimer(c, Grace, c.cfg.grace, now)
        else StartSwap(c, next)
      else if activated && Cools(c) then
        ArmTimer(c.(lastActivity := now), Cooldown, c.cfg.cooldown, now)
      else if !activated && c.state == Idle && c.cfg.defaultSvc != NONE && c.cfg.cooldown > 0 then
        ArmTimer(c, Cooldown, c.cfg.cooldown, now)
      else c
  }

  function Settle(m: Mgr, state: PoolState, active: Name): Mgr
  {
    Publish(m.(state := state, active := active, target := NONE))
  }

  /** Taking in a terminal report: the new state, and the answer to the target's waiters. */
  function Land(r: Mgr, msg: SwapMsg, now: int): Mgr
    requires Typed(r)
    requires !msg.kind.PoolStopped? ==> msg.target in r.cfg.members
  {
    match msg.kind
    case SwapComplete =>
      var a := Settle(r.(startedAt := now), Active, msg.target);
      a.(book := Flush(a.book, msg.target, Go))
    case SwapFailed =>
      var i := Settle(r, Idle, NONE);
      i.(book := Flush(i.book, msg.target, DockerError))
    case SwapHealthTimeout =>
      var i := Settle(r.(stops := r.stops + multiset{r.cfg.members[msg.target].containerName}), Idle, NONE);
      i.(book := Flush(i.book, msg.target, StartupTimeout))
    case PoolStopped => Settle(r, Idle, NONE)
  }

  ghost function HandleSwap(m: Mgr, msg: SwapMsg, now: int): Mgr
    requires Typed(m)
    requires msg.op == m.crew.opSeq && !msg.kind.PoolStopped? ==> msg.target in m.cfg.members
  {
    if msg.op != m.crew.opSeq then m
    else ChainAfterTerminal(Land(ReleaseWorker(m), msg, now), msg.kind == SwapComplete, now)
  }

  ghost function HandleAdminSwap(m: Mgr, service: Name): (Mgr, AdminOutcome)
  {
    if service !in m.cfg.members then (m, Unknown)
    else
      match m.state
      case Active => if m.active == service then (m, AlreadyActive) else (StartSwap(m, service), Initiated)
      case Swapping =>
        if m.target == service then (m, Pending)
        else
          (m.(adminPending := service),
           if m.adminPending != NONE && m.adminPending != service then Superseded else Pending)
      case Idle => (StartSwap(m, service), Initiated)
      case Error => (StartSwap(m, service), Initiated)
  }

  predicate Covers(order: seq<Name>, c: Config)
  {
    Elements(order) == c.members.Keys
  }

  /** `order` is the order in which the map iteration visits the members. */
  ghost function HandleAdminStop(m: Mgr, order: seq<Name>): (Mgr, AdminOutcome)
    requires Typed(m) && Covers(order, m.cfg)
  {
    CoversQueues(m, order);
    var f := m.(adminPending := NONE, book := FlushAll(m.book, order, Shutdown));
    if m.state == Idle then (f, AlreadyIdle) else (StartStopAll(f), Initiated)
  }

  lemma CoversQueues(m: Mgr, order: seq<Name>)
    requires Typed(m) && Covers(order, m.cfg)
    ensures forall n :: n in order <==> n in m.book.queues
  {
    forall n ensures n in order <==> n in m.book.queues {
      assert n in order <==> n in Elements(order);
    }
  }

  ghost function HandleTick(m: Mgr, tick: Tick, now: int): Mgr
    requires Typed(m)
  {
    if tick.epoch != Epoch(m.timers, tick.kind) then m
    else
      var next := Oldest(m.book.queues);
      match tick.kind
      case Grace => if m.state == Active && next != NONE then StartSwap(m, next) else m
      case Cooldown =>
        if m.state == Idle then
          if m.cfg.defaultSvc != NONE && next == NONE then StartSwap(m, m.cfg.defaultSvc) else m
        else if m.state != Active then m
        else if next != NONE then ArmTimer(m, Cooldown, m.cfg.cooldown, now)
        else if now - m.lastActivity < m.cfg.cooldown then
          ArmTimer(m, Cooldown, m.cfg.cooldown - (now - m.lastActivity), now)
        else if m.cfg.defaultSvc != NONE then
          if m.active != m.cfg.defaultSvc then StartSwap(m, m.cfg.defaultSvc) else m
        else StartStopAll(m)
  }

  ghost function ChainNow(m: Mgr): Mgr
    requires Typed(m)
  {
    var next := Oldest(m.book.queues);
    if next != NONE then StartSwap(m, next) else m
  }

  ghost predicate OwnsContainer(c: Config, container: Name, n: Name)
  {
    n in c.members && c.members[n].containerName == container
  }

  /** memberByContainer; validated containers have one owner. */
  ghost function MemberByContainer(c: Config, container: Name): (r: Option<Name>)
    ensures r.Some? ==> OwnsContainer(c, container, r.value)
    ensures r.None? ==> forall n :: !OwnsContainer(c, container, n)
  {
    if n :| OwnsContainer(c, container, n) then Some(n) else None
  }

  /** Whether the pool is on, or heading for, this service. */
  predicate Serves(m: Mgr, service: Name)
  {
    (m.state == Active && m.active == service) || (m.state == Swapping && m.target == service)
  }

  /** The active container, or the swap target, went away behind the pool's back. */
  ghost function Abort(m: Mgr, service: Name): Mgr
    requires Typed(m) && service in m.cfg.members
  {
    var e := if m.state == Active then BumpEpochs(m) else SupersedeWorker(m).(target := NONE);
    var f := Publish(e.(state := Error, active := NONE));
    ChainNow(f.(book := Flush(f.book, service, DockerError)))
  }

  ghost function HandleExternalEvent(m: Mgr, container: Name, action: Action): Mgr
    requires Typed(m)
  {
    var owner := MemberByContainer(m.cfg, container);
    if owner.None? then m
    else if !action.ActStart? then
      if Serves(m, owner.value) then Abort(m, owner.value) else m
    else if Serves(m, owner.value) then m
    else m.(stops := m.stops + multiset{container})
  }

  ghost function HandleShutdown(m: Mgr, order: seq<Name>): Mgr
    requires Typed(m) && Covers(order, m.cfg)
  {
    CoversQueues(m, order);
    var s := Publish(m.(state := Idle, active := NONE));
    s.(book := FlushAll(s.book, order, Shutdown))
  }
}
