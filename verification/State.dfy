/** The pool's states, messages, ticks and outcomes (state.go). */
module State {
  import opened Names

  datatype PoolState = Idle | Active | Swapping | Error

  /** The lock-free view the manager publishes after every transition. */
  datatype Snapshot = Snapshot(state: PoolState, active: Name)

  /** What the manager can send on a reply channel; AdmitCanceled never travels on one. */
  datatype AdmitResult = Go | QueueFull | DockerError | StartupTimeout | Shutdown

  datatype AdminOutcome = Initiated | Pending | AlreadyActive | AlreadyIdle | Unknown | Superseded

  datatype SwapKind = SwapComplete | SwapFailed | SwapHealthTimeout | PoolStopped

  datatype SwapMsg = SwapMsg(op: nat, target: Name, kind: SwapKind, err: bool)

  datatype TimerKind = Grace | Cooldown

  /** A tick that was armed and not handled yet. `due` is when its AfterFunc runs;
      `period` is a history variable: the number of transitions published when it was armed. */
  datatype Tick = Tick(kind: TimerKind, epoch: nat, due: int, period: nat)

  datatype Action = ActStart | ActDie | ActStop | ActKill

  /** One queued request. A reply channel is named by a number. */
  datatype Waiter = Waiter(seq_: nat, reply: nat)

  /** One message sent on a reply channel. */
  datatype Sent = Sent(reply: nat, result: AdmitResult)

  /** Times are in milliseconds. */
  datatype MemberConfig = MemberConfig(
    name: Name, containerName: Name, healthURL: string, startupTimeout: int, maxQueue: int)

  datatype Config = Config(
    grace: int, cooldown: int, defaultSvc: Name, members: map<Name, MemberConfig>)

  /** What validation establishes about the arguments of NewPool. */
  ghost predicate WellFormed(c: Config)
  {
    && 0 <= c.grace && 0 <= c.cooldown
    && (c.defaultSvc == NONE || c.defaultSvc in c.members)
    && (forall n :: n in c.members ==> c.members[n].name == n && c.members[n].maxQueue >= 1)
    && (forall a, b | a in c.members && b in c.members ::
          c.members[a].containerName == c.members[b].containerName ==> a == b)
  }

  /** Validation does not refuse a service named ""; the pool then confuses it with
      "no service" (see EmptyName). */
  predicate NoEmptyName(c: Config)
  {
    NONE !in c.members
  }

  /** The containers of the given members, in the given order. */
  function ContainersOf(c: Config, names: seq<Name>): (r: seq<Name>)
    requires forall n :: n in names ==> n in c.members
    ensures |r| == |names|
  {
    seq(|names|, i requires 0 <= i < |names| => assert names[i] in names; c.members[names[i]].containerName)
  }

  /** sortedMembers, as doStopAll walks them. */
  ghost function AllContainers(c: Config): seq<Name>
  {
    SortedInside(c.members.Keys, c);
    ContainersOf(c, Sorted(c.members.Keys))
  }

  /** otherContainers: every member's container except target's. */
  ghost function OtherContainers(c: Config, target: Name): seq<Name>
  {
    SortedInside(c.members.Keys - {target}, c);
    ContainersOf(c, Sorted(c.members.Keys - {target}))
  }

  lemma SortedInside(names: set<Name>, c: Config)
    requires names <= c.members.Keys
    ensures forall n :: n in Sorted(names) ==> n in c.members
  {
    forall n | n in Sorted(names) ensures n in c.members {
      assert n in Elements(Sorted(names));
    }
  }

  /** The sweep list of a swap to `target` holds every sibling's container and not the target's. */
  lemma OtherContainersAre(c: Config, target: Name)
    requires WellFormed(c) && target in c.members
    ensures c.members[target].containerName !in OtherContainers(c, target)
    ensures forall n :: n in c.members && n != target ==> c.members[n].containerName in OtherContainers(c, target)
  {
    var names := c.members.Keys - {target};
    SortedInside(names, c);
    var s := Sorted(names);
    var r := OtherContainers(c, target);
    forall i | 0 <= i < |r| ensures r[i] != c.members[target].containerName {
      assert s[i] in Elements(s);
    }
    forall n | n in c.members && n != target ensures c.members[n].containerName in r {
      assert n in Elements(s);
      var i :| 0 <= i < |s| && s[i] == n;
      assert r[i] == c.members[n].containerName;
    }
  }

  lemma AllContainersAre(c: Config)
    ensures forall n :: n in c.members ==> c.members[n].containerName in AllContainers(c)
  {
    SortedInside(c.members.Keys, c);
    var s := Sorted(c.members.Keys);
    var r := AllContainers(c);
    forall n | n in c.members ensures c.members[n].containerName in r {
      assert n in Elements(s);
      var i :| 0 <= i < |s| && s[i] == n;
      assert r[i] == c.members[n].containerName;
    }
  }

  /** The list without the name `out`. */
  function Skip(s: seq<Name>, out: Name): seq<Name>
  {
    if s == [] then []
    else
      var t := Skip(s[..|s| - 1], out);
      if s[|s| - 1] == out then t else t + [s[|s| - 1]]
  }

  lemma {:induction false} SkipElements(s: seq<Name>, out: Name)
    ensures forall n :: n in Skip(s, out) <==> n in s && n != out
  {
    if s != [] {
      SkipElements(s[..|s| - 1], out);
      assert s == s[..|s| - 1] + [s[|s| - 1]];
    }
  }

  lemma {:induction false} SkipSorted(s: seq<Name>, out: Name)
    requires StrictlySorted(s)
    ensures StrictlySorted(Skip(s, out))
  {
    if s != [] {
      var init := s[..|s| - 1];
      SkipSorted(init, out);
      SkipElements(init, out);
      var t := Skip(init, out);
      forall i | 0 <= i < |t| ensures Less(t[i], s[|s| - 1]) {
        assert t[i] in init;
        var k :| 0 <= k < |init| && init[k] == t[i];
        assert s[k] == t[i];
      }
    }
  }

  lemma SkipNext(c: Config, names: seq<Name>, i: nat, target: Name)
    requires i < |names| && forall n :: n in names ==> n in c.members
    ensures forall n :: n in Skip(names[..i], target) || n in Skip(names[..i + 1], target) ==> n in c.members
    ensures ContainersOf(c, Skip(names[..i + 1], target)) ==
      ContainersOf(c, Skip(names[..i], target))
        + (if names[i] == target then [] else [c.members[names[i]].containerName])
  {
    SkipElements(names[..i], target);
    SkipElements(names[..i + 1], target);
    assert names[..i + 1][..i] == names[..i];
  }

  /** Walking the sorted members and skipping the target gives the sweep list of a swap. */
  lemma SkipIsOthers(c: Config, target: Name)
    ensures (forall n :: n in Skip(Sorted(c.members.Keys), target) ==> n in c.members)
    ensures ContainersOf(c, Skip(Sorted(c.members.Keys), target)) == OtherContainers(c, target)
  {
    var all := Sorted(c.members.Keys);
    var kept := Skip(all, target);
    var others := c.members.Keys - {target};
    SkipElements(all, target);
    SkipSorted(all, target);
    forall n ensures n in kept <==> n in others {
      assert n in all <==> n in Elements(all);
    }
    assert Elements(kept) == others;
    SortedIsUnique(kept, Sorted(others));
    SortedInside(others, c);
  }
}
