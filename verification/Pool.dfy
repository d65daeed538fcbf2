/** The pool as the program writes it: objects whose fields the manager updates in place
    (pool.go, queue.go, events.go). Every method is proved equal, on the state it reads and
    leaves, to the function of module Manager that specifies it. */
module PoolActor {
  import opened Names
  import opened State
  import opened Ledger
  import opened Worker
  import opened Manager
  import opened Invariant

  /** The reply channels of all clients. Each is buffered for one message. */
  class Outbox {
    var sent: seq<Sent>

    constructor ()
      ensures sent == []
    {
      sent := [];
    }

    method Send(reply: nat, result: AdmitResult)
      modifies this
      ensures sent == old(sent) + [Sent(reply, result)]
    {
      sent := sent + [Sent(reply, result)];
    }
  }

  class Member {
    const name: Name
    const containerName: Name
    const startupTimeout: int
    const maxQueue: int
    var queue: seq<Waiter>

    constructor (mc: MemberConfig)
      ensures name == mc.name && containerName == mc.containerName
      ensures startupTimeout == mc.startupTimeout && maxQueue == mc.maxQueue && queue == []
    {
      name, containerName := mc.name, mc.containerName;
      startupTimeout, maxQueue := mc.startupTimeout, mc.maxQueue;
      queue := [];
    }

    /** Appends a waiter, unless the queue is full. */
    method Enqueue(w: Waiter) returns (ok: bool)
      modifies this
      ensures ok == (|old(queue)| < maxQueue)
      ensures queue == if ok then old(queue) + [w] else old(queue)
    {
      if |queue| >= maxQueue {
        return false;
      }
      queue := queue + [w];
      ok := true;
    }

    /** Takes out the first waiter with this reply channel, and no other. */
    method RemoveByReply(reply: nat) returns (ghost found: bool)
      modifies this
      ensures queue == Without(old(queue), reply)
      ensures found == Holds(old(queue), reply)
    {
      var i := 0;
      while i < |queue|
        invariant 0 <= i <= |queue| && queue == old(queue)
        invariant forall j :: 0 <= j < i ==> queue[j].reply != reply
      {
        if queue[i].reply == reply {
          WithoutFirst(queue, reply, i);
          queue := queue[..i] + queue[i + 1..];
          return true;
        }
        i := i + 1;
      }
      WithoutNone(queue, reply);
      found := false;
    }

    /** Replies to every waiter, first come first, and empties the queue. */
    method Flush(result: AdmitResult, out: Outbox)
      modifies this, out
      ensures queue == [] && out.sent == old(out.sent) + Replies(old(queue), result)
    {
      var i := 0;
      while i < |queue|
        invariant 0 <= i <= |queue| && queue == old(queue)
        invariant out.sent == old(out.sent) + Replies(queue[..i], result)
      {
        assert Replies(queue[..i + 1], result) == Replies(queue[..i], result) + [Sent(queue[i].reply, result)];
        out.Send(queue[i].reply, result);
        i := i + 1;
      }
      assert queue[..i] == queue;
      queue := [];
    }
  }

  /** The member is the configured one. */
  ghost predicate IsMember(m: Member, c: MemberConfig, n: Name)
  {
    m.name == n && m.containerName == c.containerName && m.startupTimeout == c.startupTimeout
        && m.maxQueue == c.maxQueue
  }

  /** The table goes by the members' own names. */
  ghost predicate Keyed(c: Config)
  {
    forall n :: n in c.members ==> c.members[n].name == n
  }

  method MakeMembers(c: Config) returns (ms: map<Name, Member>)
    requires Keyed(c)
    ensures ms.Keys == c.members.Keys && fresh(ms.Values)
    ensures forall n :: n in ms ==> IsMember(ms[n], c.members[n], n) && ms[n].queue == []
    ensures forall a, b :: a in ms && b in ms && a != b ==> ms[a] != ms[b]
  {
    ms := map[];
    var left := c.members.Keys;
    while left != {}
      invariant left <= c.members.Keys && ms.Keys == c.members.Keys - left
      invariant forall n :: n in ms ==> fresh(ms[n]) && ms[n].queue == [] && IsMember(ms[n], c.members[n], n)
      invariant forall a, b :: a in ms && b in ms && a != b ==> ms[a] != ms[b]
    {
      var n :| n in left;
      var m := new Member(c.members[n]);
      ms := ms[n := m];
      left := left - {n};
    }
  }

  class Pool {
    const cfg: Config
    const members: map<Name, Member>
    const outbox: Outbox

    var state: PoolState
    var active: Name
    var target: Name
    var adminPending: Name
    var startedAt: int
    var lastActivity: int
    var cooldownArmed: bool
    var graceEpoch: nat
    var cooldownEpoch: nat
    var opSeq: nat
    var swapCancel: Option<nat>
    var seq_: nat
    var snap: Snapshot

    // What the manager has set in motion, and history.
    ghost var ticks: set<Tick>
    ghost var jobs: map<nat, Job>
    ghost var stops: multiset<Name>
    ghost var period: nat
    ghost var asked: map<nat, Name>
    ghost var removed: set<nat>

    /** The members are the configured ones, each an object of its own. */
    ghost predicate Shaped()
    {
      && members.Keys == cfg.members.Keys
      && (forall n :: n in members ==> IsMember(members[n], cfg.members[n], n))
      && (forall a, b :: a in members && b in members && a != b ==> members[a] != members[b])
    }

    /** A pool the handlers are proved for: validated, and with no member named "". */
    ghost predicate Valid()
    {
      Shaped() && CfgOk(cfg)
    }

    ghost function Queues(): map<Name, seq<Waiter>>
      reads members.Values
    {
      map n | n in members :: members[n].queue
    }

    ghost function TheBook(): Book
      reads this, members.Values, outbox
    {
      Book(Queues(), seq_, asked, outbox.sent, removed)
    }

    ghost function View(): Mgr
      reads this, members.Values, outbox
    {
      Mgr(cfg, state, active, target, adminPending, startedAt, lastActivity,
          Timers(graceEpoch, cooldownEpoch, cooldownArmed, ticks), Crew(opSeq, swapCancel, jobs),
          snap, TheBook(), stops, period)
    }

    /** NewPool. */
    constructor (c: Config)
      requires Keyed(c)
      ensures Shaped() && cfg == c && View() == Initial(c)
      ensures CfgOk(c) ==> Valid()
      ensures fresh(outbox) && fresh(members.Values)
    {
      var ms := MakeMembers(c);
      cfg, members := c, ms;
      outbox := new Outbox();
      state, active, target, adminPending := Idle, NONE, NONE, NONE;
      startedAt, lastActivity, cooldownArmed := 0, 0, false;
      graceEpoch, cooldownEpoch, opSeq, swapCancel, seq_ := 0, 0, 0, None, 0;
      snap := Snapshot(Idle, NONE);
      ticks, jobs, stops, period, asked, removed := {}, map[], multiset{}, 0, map[], {};
      new;
      assert Queues() == Initial(c).book.queues;
    }

    // --- the small steps ---

    method Publish()
      modifies this`snap, this`period
      ensures View() == Manager.Publish(old(View()))
    {
      snap := Snapshot(state, active);
      period := period + 1;
    }

    method BumpEpochs()
      modifies this`graceEpoch, this`cooldownEpoch, this`cooldownArmed
      ensures View() == Manager.BumpEpochs(old(View()))
    {
      graceEpoch := graceEpoch + 1;
      cooldownEpoch := cooldownEpoch + 1;
      cooldownArmed := false;
    }

    method ArmTimer(kind: TimerKind, d: int, now: int)
      modifies this`graceEpoch, this`cooldownEpoch, this`cooldownArmed, this`ticks
      ensures View() == Manager.ArmTimer(old(View()), kind, d, now)
    {
      var e: nat;
      if kind.Grace? {
        graceEpoch := graceEpoch + 1;
        e := graceEpoch;
      } else {
        cooldownEpoch := cooldownEpoch + 1;
        e := cooldownEpoch;
        cooldownArmed := true;
      }
      ticks := ticks + {Tick(kind, e, now + d, period)};
    }

    method Touch(service: Name, now: int)
      modifies this`lastActivity
      ensures View() == Manager.Touch(old(View()), service, now)
    {
      if state == Active && active == service {
        lastActivity := now;
      }
    }

    /** Calling the cancel function held in swapCancel. */
    method ReleaseWorker()
      modifies this`swapCancel, this`jobs
      ensures View() == Manager.ReleaseWorker(old(View()))
    {
      if swapCancel.Some? {
        ghost var op := swapCancel.value;
        if op in jobs { jobs := jobs[op := jobs[op].(cancelled := true)]; }
        swapCancel := None;
      }
    }

    method SupersedeWorker()
      modifies this`swapCancel, this`jobs, this`opSeq
      ensures View() == Manager.SupersedeWorker(old(View()))
    {
      ReleaseWorker();
      opSeq := opSeq + 1;
    }

    /** sortedMembers, by name. */
    method SortedMembers() returns (names: seq<Name>)
      ensures names == Sorted(members.Keys)
    {
      names := SortNames(members.Keys);
    }

    /** otherContainers: in sorted order, skipping the target. */
    method OtherContainers(target: Name) returns (out: seq<Name>)
      requires Valid() && target in members
      ensures out == State.OtherContainers(cfg, target)
    {
      var names := SortedMembers();
      SortedInside(members.Keys, cfg);
      out := [];
      var i := 0;
      while i < |names|
        invariant 0 <= i <= |names|
        invariant forall n :: n in Skip(names[..i], target) ==> n in cfg.members
        invariant out == ContainersOf(cfg, Skip(names[..i], target))
      {
        SkipNext(cfg, names, i, target);
        if names[i] != target {
          out := out + [members[names[i]].containerName];
        }
        i := i + 1;
      }
      assert names[..i] == names;
      SkipIsOthers(cfg, target);
    }

    // --- transitions ---

    method BeginTransition(service: Name)
      modifies this
      ensures View() == Manager.BeginTransition(old(View()), service)
    {
      state := Swapping;
      active := NONE;
      target := service;
      assert View() == old(View()).(state := Swapping, active := NONE, target := service);
      BumpEpochs();
      SupersedeWorker();
    }

    /** The new worker's context becomes the one held; the worker itself starts from `w`. */
    method Launch(ghost w: Job)
      modifies this
      ensures View() == Manager.Launch(old(View()), w)
    {
      swapCancel := Some(opSeq);
      jobs := jobs[opSeq := w];
      assert View() == old(View()).(crew := Hire(old(View()).crew, w));
      Publish();
    }

    method StartSwap(service: Name)
      requires Valid() && service in members
      modifies this
      ensures View() == Manager.StartSwap(old(View()), service)
    {
      var m := members[service];
      BeginTransition(service);
      var others := OtherContainers(service);
      Launch(Spawned(Job(opSeq, true, service, m.containerName, m.startupTimeout, others,
                         false, {}, false, false, false, PreStart)));
    }

    method StartStopAll()
      modifies this
      ensures View() == Manager.StartStopAll(old(View()))
    {
      BeginTransition(NONE);
      Launch(StopJob(cfg, opSeq));
    }

    // --- queues ---

    method FlushMember(n: Name, result: AdmitResult)
      requires Valid() && n in members
      modifies members.Values, outbox
      ensures TheBook() == Ledger.Flush(old(TheBook()), n, result)
    {
      members[n].Flush(result, outbox);
      assert Queues() == old(Queues())[n := []];
    }

    method FlushMembers(result: AdmitResult) returns (ghost order: seq<Name>)
      requires Valid()
      modifies members.Values, outbox
      ensures Covers(order, cfg) && (forall n :: n in order ==> n in old(TheBook()).queues)
      ensures View() == old(View()).(book := FlushAll(old(TheBook()), order, result))
    {
      order := FlushEach(result);
    }

    /** The members are visited in whatever order the map iteration takes. */
    method FlushEach(result: AdmitResult) returns (ghost order: seq<Name>)
      requires Valid()
      modifies members.Values, outbox
      ensures Covers(order, cfg) && (forall n :: n in order ==> n in old(TheBook()).queues)
      ensures TheBook() == FlushAll(old(TheBook()), order, result)
    {
      order := [];
      ghost var start := TheBook();
      var left := members.Keys;
      while left != {}
        invariant left <= members.Keys && Elements(order) == members.Keys - left
        invariant forall n :: n in order ==> n in start.queues
        invariant TheBook() == FlushAll(start, order, result)
      {
        var n :| n in left;
        FlushAllNext(start, order, n, result);
        OneMore(order, n);
        FlushMember(n, result);
        order := order + [n];
        left := left - {n};
      }
    }

    /** oldestQueued: one pass over the members, in any order, comparing heads. */
    method OldestQueued() returns (best: Name)
      requires Valid() && Balanced(TheBook())
      ensures best == Oldest(Queues())
    {
      best := NONE;
      var bestSeq := 0;
      var left := members.Keys;
      while left != {}
        invariant left <= members.Keys
        invariant best == NONE ==> forall k :: k in members.Keys - left ==> members[k].queue == []
        invariant best != NONE ==>
          && best in members && members[best].queue != [] && bestSeq == members[best].queue[0].seq_
          && forall k :: k in members.Keys - left && members[k].queue != [] ==> bestSeq <= members[k].queue[0].seq_
      {
        var name :| name in left;
        var m := members[name];
        if m.queue != [] {
          if best == NONE || m.queue[0].seq_ < bestSeq {
            best, bestSeq := name, m.queue[0].seq_;
          }
        }
        left := left - {name};
      }
      OldestIsUnique(TheBook(), best);
    }

    // --- the handlers ---

    /** A command answered without queueing. */
    method AnswerNow(service: Name, reply: nat, result: AdmitResult)
      modifies this`asked, outbox
      ensures View() == old(View()).(book := Answer(old(TheBook()), service, reply, result))
    {
      asked := asked[reply := service];
      outbox.Send(reply, result);
    }

    /** The queueing half of handleAdmit: the counter advances, and a full queue answers at once. */
    method QueueRequest(service: Name, reply: nat) returns (ok: bool)
      requires Valid() && service in members
      modifies this`seq_, this`asked, members.Values, outbox
      ensures ok == (|old(Queues())[service]| < cfg.members[service].maxQueue)
      ensures TheBook() == Ledger.Enqueue(old(TheBook()), service, reply, cfg.members[service].maxQueue)
    {
      ok := EnqueueNext(service, reply);
      if !ok {
        outbox.Send(reply, QueueFull);
      }
    }

    method EnqueueNext(service: Name, reply: nat) returns (ok: bool)
      requires Valid() && service in members
      modifies this`seq_, this`asked, members.Values
      ensures ok == (|old(Queues())[service]| < cfg.members[service].maxQueue)
      ensures seq_ == old(seq_) + 1 && asked == old(asked)[reply := service]
      ensures Queues() ==
        if ok then old(Queues())[service := old(Queues())[service] + [Waiter(seq_, reply)]] else old(Queues())
    {
      seq_ := seq_ + 1;
      asked := asked[reply := service];
      ok := EnqueueAt(service, Waiter(seq_, reply));
    }

    method EnqueueAt(service: Name, w: Waiter) returns (ok: bool)
      requires Valid() && service in members
      modifies members.Values
      ensures ok == (|old(Queues())[service]| < cfg.members[service].maxQueue)
      ensures Queues() == if ok then old(Queues())[service := old(Queues())[service] + [w]] else old(Queues())
    {
      ghost var q := Queues();
      ok := members[service].Enqueue(w);
      assert Queues() == if ok then q[service := q[service] + [w]] else q;
    }

    /** member.removeByReply on the member named. */
    method RemoveAt(service: Name, reply: nat) returns (ghost found: bool)
      requires Valid() && service in members
      modifies members.Values
      ensures Queues() == old(Queues())[service := Without(old(Queues())[service], reply)]
      ensures found == Holds(old(Queues())[service], reply)
    {
      ghost var q := Queues();
      found := members[service].RemoveByReply(reply);
      assert Queues() == q[service := Without(q[service], reply)];
    }

    /** What a newly queued waiter sets in motion. */
    method Requested(service: Name, now: int)
      requires Valid() && service in members
      modifies this
      ensures View() == Manager.Requested(old(View()), service, now)
    {
      match state
      case Idle => StartSwap(service);
      case Error => StartSwap(service);
      case Active =>
        var elapsed := now - startedAt;
        if elapsed >= cfg.grace {
          StartSwap(service);
        } else {
          ArmTimer(Grace, cfg.grace - elapsed, now);
        }
      case Swapping =>
    }

    method HandleAdmit(service: Name, reply: nat, now: int)
      requires Valid() && Typed(View())
      modifies this, members.Values, outbox
      ensures View() == Manager.HandleAdmit(old(View()), service, reply, now)
    {
      if service !in members {
        AnswerNow(service, reply, DockerError);
        return;
      }
      if state == Active && active == service {
        AnswerNow(service, reply, Go);
        Touch(service, now);
        return;
      }
      Admitted(service, reply, now);
    }

    method Admitted(service: Name, reply: nat, now: int)
      requires Valid() && service in members
      modifies this, members.Values, outbox
      ensures var max := cfg.members[service].maxQueue;
        var e := old(View()).(book := Ledger.Enqueue(old(TheBook()), service, reply, max));
        View() == if |old(Queues())[service]| >= max then e else Manager.Requested(e, service, now)
    {
      var ok := QueueRequest(service, reply);
      if ok {
        Requested(service, now);
      }
    }

    method HandleCancel(service: Name, reply: nat)
      requires Valid()
      modifies this`removed, members.Values
      ensures View() == Manager.HandleCancel(old(View()), service, reply)
    {
      if service in members {
        DropWaiter(service, reply);
      }
    }

    method DropWaiter(service: Name, reply: nat)
      requires Valid() && service in members
      modifies this`removed, members.Values
      ensures TheBook() == Ledger.Remove(old(TheBook()), service, reply)
    {
      ghost var found := RemoveAt(service, reply);
      removed := if found then removed + {reply} else removed;
    }

    method ForgetPending()
      modifies this`adminPending
      ensures View() == old(View()).(adminPending := NONE)
    {
      adminPending := NONE;
    }

    method ChainAfterTerminal(activated: bool, now: int)
      requires Valid() && Typed(View()) && Balanced(TheBook())
      modifies this
      ensures View() == Manager.ChainAfterTerminal(old(View()), activated, now)
    {
      if adminPending != NONE && adminPending != active {
        var next := adminPending;
        ForgetPending();
        StartSwap(next);
        return;
      }
      ForgetPending();
      RestOfChain(activated, now);
    }

    /** chainAfterTerminal once no admin swap is pending. */
    method RestOfChain(activated: bool, now: int)
      requires Valid() && Typed(View()) && Balanced(TheBook()) && adminPending == NONE
      modifies this
      ensures View() == Manager.ChainAfterTerminal(old(View()), activated, now)
    {
      assert View() == View().(adminPending := NONE);
      var next := OldestQueued();
      if next != NONE {
        if activated && cfg.grace > 0 {
          ArmTimer(Grace, cfg.grace, now);
        } else {
          StartSwap(next);
        }
        return;
      }
      if activated && cfg.cooldown > 0 && !(cfg.defaultSvc != NONE && active == cfg.defaultSvc) {
        lastActivity := now;
        assert View() == old(View()).(lastActivity := now);
        ArmTimer(Cooldown, cfg.cooldown, now);
        return;
      }
      if !activated && state == Idle && cfg.defaultSvc != NONE && cfg.cooldown > 0 {
        ArmTimer(Cooldown, cfg.cooldown, now);
      }
    }

    /** Publishing the state a finished worker leaves the pool in. */
    method Settle(newState: PoolState, newActive: Name)
      modifies this
      ensures View() == Manager.Settle(old(View()), newState, newActive)
    {
      state := newState;
      active := newActive;
      target := NONE;
      assert View() == old(View()).(state := newState, active := newActive, target := NONE);
      Publish();
    }

    method MarkStarted(now: int)
      modifies this`startedAt
      ensures View() == old(View()).(startedAt := now)
    {
      startedAt := now;
    }

    /** A goroutine that stops the container, off the manager's loop. */
    method DetachStop(container: Name)
      modifies this`stops
      ensures View() == old(View()).(stops := old(View()).stops + multiset{container})
    {
      stops := stops + multiset{container};
    }

    /** Going to a settled state and answering everyone who waited for `service`. */
    method SettleAndFlush(newState: PoolState, newActive: Name, service: Name, result: AdmitResult)
      requires Valid() && service in members
      modifies this, members.Values, outbox
      ensures var s := Manager.Settle(old(View()), newState, newActive);
        View() == s.(book := Ledger.Flush(s.book, service, result))
    {
      Settle(newState, newActive);
      FlushMember(service, result);
    }

    method Land(msg: SwapMsg, now: int)
      requires Valid() && Typed(View())
      requires !msg.kind.PoolStopped? ==> msg.target in members
      modifies this, members.Values, outbox
      ensures View() == Manager.Land(old(View()), msg, now)
    {
      match msg.kind
      case SwapComplete =>
        MarkStarted(now);
        SettleAndFlush(Active, msg.target, msg.target, Go);
      case SwapFailed =>
        SettleAndFlush(Idle, NONE, msg.target, DockerError);
      case SwapHealthTimeout =>
        DetachStop(members[msg.target].containerName);
        SettleAndFlush(Idle, NONE, msg.target, StartupTimeout);
      case PoolStopped =>
        Settle(Idle, NONE);
    }

    method HandleSwap(msg: SwapMsg, now: int)
      requires Valid() && Typed(View()) && Balanced(TheBook())
      requires msg.op == opSeq && !msg.kind.PoolStopped? ==> msg.target in members
      modifies this, members.Values, outbox
      ensures View() == Manager.HandleSwap(old(View()), msg, now)
    {
      if msg.op != opSeq {
        return;
      }
      ReleaseWorker();
      ghost var r := View();
      Land(msg, now);
      LandBook(r, msg, now);
      LandFacts(r, msg, now);
      ChainAfterTerminal(msg.kind == SwapComplete, now);
    }

    method HandleAdminSwap(service: Name) returns (outcome: AdminOutcome)
      requires Valid()
      modifies this
      ensures (View(), outcome) == Manager.HandleAdminSwap(old(View()), service)
    {
      if service !in members {
        return Unknown;
      }
      match state
      case Active =>
        if active == service {
          return AlreadyActive;
        }
        StartSwap(service);
        outcome := Initiated;
      case Swapping =>
        if target == service {
          return Pending;
        }
        var replaced := adminPending != NONE && adminPending != service;
        adminPending := service;
        outcome := if replaced then Superseded else Pending;
      case Idle =>
        StartSwap(service);
        outcome := Initiated;
      case Error =>
        StartSwap(service);
        outcome := Initiated;
    }

    method ClearAll() returns (ghost order: seq<Name>)
      requires Valid()
      modifies this`adminPending, members.Values, outbox
      ensures Covers(order, cfg) && (forall n :: n in order ==> n in old(TheBook()).queues)
      ensures View() == old(View()).(adminPending := NONE, book := FlushAll(old(TheBook()), order, Shutdown))
    {
      ForgetPending();
      order := FlushMembers(Shutdown);
    }

    method HandleAdminStop() returns (outcome: AdminOutcome, ghost order: seq<Name>)
      requires Valid() && Typed(View())
      modifies this, members.Values, outbox
      ensures Covers(order, cfg)
      ensures (View(), outcome) == Manager.HandleAdminStop(old(View()), order)
    {
      order := ClearAll();
      CoversQueues(old(View()), order);
      if state == Idle {
        return AlreadyIdle, order;
      }
      StartStopAll();
      outcome := Initiated;
    }

    method HandleTick(tick: Tick, now: int)
      requires Valid() && Typed(View()) && Balanced(TheBook())
      modifies this
      ensures View() == Manager.HandleTick(old(View()), tick, now)
    {
      if tick.epoch != (if tick.kind.Grace? then graceEpoch else cooldownEpoch) {
        return;
      }
      match tick.kind
      case Grace =>
        if state != Active { return; }
        var next := OldestQueued();
        if next != NONE {
          StartSwap(next);
        }
      case Cooldown =>
        HandleCooldown(tick, now);
    }

    method HandleCooldown(ghost tick: Tick, now: int)
      requires Valid() && Typed(View()) && Balanced(TheBook())
      requires tick.kind == Cooldown && tick.epoch == cooldownEpoch
      modifies this
      ensures View() == Manager.HandleTick(old(View()), tick, now)
    {
      var next := OldestQueued();
      if state == Idle {
        if cfg.defaultSvc != NONE && next == NONE {
          StartSwap(cfg.defaultSvc);
        }
        return;
      }
      if state != Active { return; }
      if next != NONE {
        ArmTimer(Cooldown, cfg.cooldown, now);
        return;
      }
      var idle := now - lastActivity;
      if idle < cfg.cooldown {
        ArmTimer(Cooldown, cfg.cooldown - idle, now);
        return;
      }
      if cfg.defaultSvc != NONE {
        if active != cfg.defaultSvc {
          StartSwap(cfg.defaultSvc);
        }
        return;
      }
      StartStopAll();
    }

    method ChainNow()
      requires Valid() && Typed(View()) && Balanced(TheBook())
      modifies this
      ensures View() == Manager.ChainNow(old(View()))
    {
      var next := OldestQueued();
      if next != NONE {
        StartSwap(next);
      }
    }

    /** memberByContainer: one pass over the members, in any order. */
    method MemberByContainer(container: Name) returns (owner: Option<Name>)
      requires Valid()
      ensures owner == Manager.MemberByContainer(cfg, container)
    {
      var left := members.Keys;
      while left != {}
        invariant left <= members.Keys
        invariant forall n :: n in members.Keys - left ==> !OwnsContainer(cfg, container, n)
      {
        var n :| n in left;
        if members[n].containerName == container {
          assert OwnsContainer(cfg, container, n);
          return Some(n);
        }
        left := left - {n};
      }
      owner := None;
    }

    method GoError()
      modifies this`state, this`active, this`snap, this`period
      ensures View() == Manager.Publish(old(View()).(state := Error, active := NONE))
    {
      state := Error;
      active := NONE;
      assert View() == old(View()).(state := Error, active := NONE);
      Publish();
    }

    /** ERROR, with the waiters of the dead service answered. */
    method Fault(service: Name)
      requires Valid() && service in members
      modifies this, members.Values, outbox
      ensures var f := Manager.Publish(old(View()).(state := Error, active := NONE));
        View() == f.(book := Ledger.Flush(f.book, service, DockerError))
    {
      GoError();
      FlushMember(service, DockerError);
    }

    method Abort(service: Name)
      requires Valid() && Typed(View()) && Balanced(TheBook()) && service in members
      modifies this, members.Values, outbox
      ensures View() == Manager.Abort(old(View()), service)
    {
      if state == Active {
        BumpEpochs();
      } else {
        SupersedeWorker();
        ghost var e := View();
        target := NONE;
        assert View() == e.(target := NONE);
      }
      FlushKeeps(TheBook(), service, DockerError);
      Fault(service);
      ChainNow();
    }

    method HandleExternalEvent(container: Name, action: Action)
      requires Valid() && Typed(View()) && Balanced(TheBook())
      modifies this, members.Values, outbox
      ensures View() == Manager.HandleExternalEvent(old(View()), container, action)
    {
      var owner := MemberByContainer(container);
      if owner.None? {
        return;
      }
      var svc := owner.value;
      if !action.ActStart? {
        if (state == Active && active == svc) || (state == Swapping && target == svc) {
          Abort(svc);
        }
      } else if !((state == Swapping && svc == target) || (state == Active && svc == active)) {
        DetachStop(container);
      }
    }

    /** A message comes from where messages come from: a fresh reply channel, a worker that is
        done, a tick that was armed. */
    ghost predicate Sendable(msg: Message)
      reads this
    {
      match msg
      case AdmitCmd(_, reply) => reply !in asked
      case SwapReport(report) => report.op in jobs && jobs[report.op].pc.Done? && report == Msg(jobs[report.op])
      case TimerTick(tick) => tick in ticks
      case _ => true
    }

    method ServeReport(report: SwapMsg, now: int)
      requires Valid() && Inv(View()) && Sendable(SwapReport(report))
      modifies this, members.Values, outbox
      ensures Inv(View()) && After(old(View()), SwapReport(report), now, [], View())
    {
      ghost var v := View();
      ReportReady(v, report.op, now);
      DropJob(report.op);
      HandleSwap(report, now);
    }

    /** The worker whose report the manager has taken is gone. */
    ghost method DropJob(op: nat)
      modifies this`jobs
      ensures View() == TakeJob(old(View()), op)
    {
      jobs := jobs - {op};
    }

    ghost method DropTick(tick: Tick)
      modifies this`ticks
      ensures View() == TakeTick(old(View()), tick)
    {
      ticks := ticks - {tick};
    }

    method ServeTick(tick: Tick, now: int)
      requires Valid() && Inv(View()) && Sendable(TimerTick(tick))
      modifies this, members.Values, outbox
      ensures Inv(View()) && After(old(View()), TimerTick(tick), now, [], View())
    {
      ghost var v := View();
      TickReady(v, tick, now);
      DropTick(tick);
      HandleTick(tick, now);
    }

    method ServeAdmin(msg: Message) returns (ghost order: seq<Name>)
      requires Valid() && Inv(View()) && (msg.AdminSwapCmd? || msg.AdminStopCmd?)
      modifies this, members.Values, outbox
      ensures Inv(View()) && forall now: int :: After(old(View()), msg, now, order, View())
    {
      ghost var v := View();
      order := [];
      if msg.AdminStopCmd? {
        var outcome;
        outcome, order := HandleAdminStop();
        AdminStopInv(v, order);
      } else {
        AdminSwapInv(v, msg.service);
        var outcome := HandleAdminSwap(msg.service);
      }
    }

    /** One turn of the manager's loop, whatever message comes: the state afterwards is the one the
        message leads to (for the order in which a stop walked the members), and the invariant is kept. */
    method Serve(msg: Message, now: int) returns (ghost order: seq<Name>)
      requires Valid() && Inv(View()) && Sendable(msg)
      modifies this, members.Values, outbox
      ensures Inv(View()) && After(old(View()), msg, now, order, View())
    {
      order := [];
      match msg
      case AdmitCmd(service, reply) =>
        AdmitInv(View(), service, reply, now);
        HandleAdmit(service, reply, now);
      case CancelCmd(service, reply) =>
        CancelInv(View(), service, reply);
        HandleCancel(service, reply);
      case AdminSwapCmd(_) => order := ServeAdmin(msg);
      case AdminStopCmd => order := ServeAdmin(msg);
      case SwapReport(report) => ServeReport(report, now);
      case TimerTick(tick) => ServeTick(tick, now);
      case Activity(service) =>
        TouchInv(View(), service, now);
        Touch(service, now);
      case DockerEvent(container, action) =>
        EventInv(View(), container, action);
        HandleExternalEvent(container, action);
    }

    /** Admit's lock-free fast path reads only the snapshot; between two turns of the manager it
        says Go exactly when the manager would. */
    method FastPath(service: Name) returns (go: bool)
      requires Inv(View())
      ensures go <==> state == Active && active == service
    {
      go := snap.state == Active && snap.active == service;
    }

    method GoDark()
      modifies this`state, this`active, this`snap, this`period
      ensures View() == Manager.Publish(old(View()).(state := Idle, active := NONE))
    {
      state := Idle;
      active := NONE;
      assert View() == old(View()).(state := Idle, active := NONE);
      Publish();
    }

    method HandleShutdown() returns (ghost order: seq<Name>)
      requires Valid() && Typed(View())
      modifies this, members.Values, outbox
      ensures Covers(order, cfg) && View() == Manager.HandleShutdown(old(View()), order)
    {
      GoDark();
      order := FlushMembers(Shutdown);
      CoversQueues(old(View()), order);
    }
  }

  /** What the manager's channels can hold. */
  datatype Message =
    | AdmitCmd(service: Name, reply: nat)
    | CancelCmd(service: Name, reply: nat)
    | AdminSwapCmd(service: Name)
    | AdminStopCmd
    | SwapReport(report: SwapMsg)
    | TimerTick(tick: Tick)
    | Activity(service: Name)
    | DockerEvent(container: Name, action: Action)

  /** m is where the message takes the manager, `order` being how a stop walked the members. */
  ghost predicate After(v: Mgr, msg: Message, now: int, order: seq<Name>, m: Mgr)
    requires Inv(v)
  {
    match msg
    case AdmitCmd(service, reply) => m == Manager.HandleAdmit(v, service, reply, now)
    case CancelCmd(service, reply) => m == Manager.HandleCancel(v, service, reply)
    case AdminSwapCmd(service) => m == Manager.HandleAdminSwap(v, service).0
    case AdminStopCmd => Covers(order, v.cfg) && m == Manager.HandleAdminStop(v, order).0
    case SwapReport(report) =>
      (report.op == v.crew.opSeq && !report.kind.PoolStopped? ==> report.target in v.cfg.members)
      && m == Manager.HandleSwap(TakeJob(v, report.op), report, now)
    case TimerTick(tick) => m == Manager.HandleTick(TakeTick(v, tick), tick, now)
    case Activity(service) => m == Manager.Touch(v, service, now)
    case DockerEvent(container, action) => m == Manager.HandleExternalEvent(v, container, action)
  }

  lemma ReportReady(v: Mgr, op: nat, now: int)
    requires Inv(v) && op in v.crew.jobs && v.crew.jobs[op].pc.Done?
    ensures var k, w := TakeJob(v, op), v.crew.jobs[op];
      && Typed(k) && Balanced(k.book)
      && (op == v.crew.opSeq && !w.pc.kind.PoolStopped? ==> w.target in v.cfg.members)
      && w.op == op && Inv(Manager.HandleSwap(k, Msg(w), now))
  {
    ReportInv(v, op, now);
  }

  lemma TickReady(v: Mgr, tick: Tick, now: int)
    requires Inv(v) && tick in v.timers.ticks
    ensures var k := TakeTick(v, tick);
      Typed(k) && Balanced(k.book) && Inv(Manager.HandleTick(k, tick, now))
  {
    TickInv(v, tick, now);
  }

  lemma OneMore(order: seq<Name>, n: Name)
    ensures Elements(order + [n]) == Elements(order) + {n}
    ensures forall k :: k in order + [n] <==> k in order || k == n
  {
  }

  lemma {:induction false} FlushAllNext(b: Book, order: seq<Name>, n: Name, result: AdmitResult)
    requires n in b.queues && forall k :: k in order ==> k in b.queues
    ensures FlushAll(b, order + [n], result) == Ledger.Flush(FlushAll(b, order, result), n, result)
    decreases |order|
  {
    if order == [] {
      assert [n][1..] == [];
      assert order + [n] == [n];
    } else {
      assert (order + [n])[1..] == order[1..] + [n];
      FlushAllNext(Ledger.Flush(b, order[0], result), order[1..], n, result);
    }
  }

  /** Numbers being distinct, the lowest head is one member's only; so the pass finds the same
      member in every order. */
  lemma OldestIsUnique(b: Book, best: Name)
    requires Balanced(b)
    requires if best == NONE then forall k :: !Waiting(b.queues, k) else HeadsAll(b.queues, best)
    ensures best == Oldest(b.queues)
  {
    var n := Oldest(b.queues);
    if n != NONE && best != NONE {
      assert Waiting(b.queues, best) && Waiting(b.queues, n);
      LowestHeadIsLowest(b, best, n, 0);
    }
  }
}
