/** The registry of self-initiated operations (events.go): it decides which Docker events
    are the pool's own doing. The table with its counters is proved to answer exactly what
    the whole history of expectations and events says it should. */
module Registry {
  import opened Names
  import opened State

  const OP_TTL := 30000

  datatype OpKind = StopOp | StartOp

  datatype OpEntry = OpEntry(kind: OpKind, at: int, remaining: int)

  /** How many events one expectation absorbs: kill, die and stop, or a single start. */
  function Budget(kind: OpKind): int
  {
    if kind.StopOp? then 3 else 1
  }

  predicate Matches(kind: OpKind, action: Action)
  {
    if kind.StopOp? then !action.ActStart? else action.ActStart?
  }

  class OpRegistry {
    var entries: map<Name, OpEntry>

    constructor ()
      ensures entries == map[]
    {
      entries := map[];
    }

    /** Records an imminent operation; the newest expectation replaces any other. */
    method Expect(container: Name, kind: OpKind, now: int)
      modifies this
      ensures entries == Table(old(entries), Expected(container, kind, now))
    {
      var remaining := 1;
      if kind.StopOp? {
        remaining := 3;
      }
      entries := entries[container := OpEntry(kind, now, remaining)];
    }

    /** Whether the event is explained, using up one unit of the expectation's budget. */
    method IsExpected(container: Name, action: Action, now: int) returns (absorbed: bool)
      modifies this
      ensures entries == Table(old(entries), Occurred(container, action, now))
      ensures absorbed == Absorbs(old(entries), container, action, now)
    {
      if container !in entries {
        return false;
      }
      var e := entries[container];
      if now - e.at > OP_TTL {
        entries := entries - {container};
        return false;
      }
      if !Matches(e.kind, action) {
        return false;
      }
      var left := e.remaining - 1;
      if left <= 0 {
        entries := entries - {container};
      } else {
        entries := entries[container := e.(remaining := left)];
      }
      absorbed := true;
    }
  }

  // --- the table as a function of what happens ---

  datatype RegOp =
    | Expected(container: Name, kind: OpKind, time: int)
    | Occurred(container: Name, action: Action, time: int)

  predicate Absorbs(t: map<Name, OpEntry>, container: Name, action: Action, now: int)
  {
    container in t && now - t[container].at <= OP_TTL && Matches(t[container].kind, action)
  }

  function Table(t: map<Name, OpEntry>, op: RegOp): map<Name, OpEntry>
  {
    match op
    case Expected(c, kind, now) => t[c := OpEntry(kind, now, Budget(kind))]
    case Occurred(c, action, now) =>
      if c !in t then t
      else if now - t[c].at > OP_TTL then t - {c}
      else if !Matches(t[c].kind, action) then t
      else if t[c].remaining - 1 <= 0 then t - {c}
      else t[c := t[c].(remaining := t[c].remaining - 1)]
  }

  function TableAfter(h: seq<RegOp>): map<Name, OpEntry>
  {
    if h == [] then map[] else Table(TableAfter(h[..|h| - 1]), h[|h| - 1])
  }

  // --- what the history says, without any table ---

  /** The event is one that an operation of this kind makes. */
  predicate OfKind(kind: OpKind, action: Action)
  {
    match action
    case ActStart => kind == StartOp
    case ActDie => kind == StopOp
    case ActStop => kind == StopOp
    case ActKill => kind == StopOp
  }

  /** How many events one operation of this kind can make. */
  function EventsOf(kind: OpKind): int
  {
    match kind
    case StartOp => 1
    case StopOp => 3
  }

  /** The clock does not run backwards. */
  predicate InOrder(h: seq<RegOp>)
  {
    forall i, j :: 0 <= i < j < |h| ==> h[i].time <= h[j].time
  }

  /** The latest expectation for the container: its kind and time. */
  function Latest(h: seq<RegOp>, c: Name): Option<(OpKind, int)>
  {
    if h == [] then None
    else
      var op := h[|h| - 1];
      if op.Expected? && op.container == c then Some((op.kind, op.time))
      else Latest(h[..|h| - 1], c)
  }

  /** How many events on the container since its latest expectation were of that expectation's kind. */
  function Hits(h: seq<RegOp>, c: Name): nat
  {
    if h == [] then 0
    else
      var op := h[|h| - 1];
      var before := h[..|h| - 1];
      if op.container != c then Hits(before, c)
      else if op.Expected? then 0
      else if Latest(before, c).Some? && OfKind(Latest(before, c).value.0, op.action) then Hits(before, c) + 1
      else Hits(before, c)
  }

  /** An event is the pool's own doing iff the latest expectation for its container is of its
      kind, at most 30 seconds old, and has not yet explained as many events as it may. */
  predicate Explained(h: seq<RegOp>, c: Name, action: Action, now: int)
  {
    match Latest(h, c)
    case None => false
    case Some((kind, at)) => OfKind(kind, action) && now - at <= 30000 && Hits(h, c) < EventsOf(kind)
  }

  /** The table's entry for the container, told by the history. */
  ghost predicate Mirrors(h: seq<RegOp>, t: map<Name, OpEntry>, c: Name, now: int)
  {
    match Latest(h, c)
    case None => c !in t
    case Some((kind, at)) =>
      if c in t then
        t[c] == OpEntry(kind, at, Budget(kind) - Hits(h, c)) && t[c].remaining >= 1
      else
        Hits(h, c) >= Budget(kind) || now - at > OP_TTL
  }

  lemma MirrorsNext(h: seq<RegOp>, op: RegOp, t: map<Name, OpEntry>, c: Name, before: int)
    requires Mirrors(h, t, c, before) && before <= op.time
    ensures Mirrors(h + [op], Table(t, op), c, op.time)
  {
    var next := h + [op];
    assert next[..|next| - 1] == h;
  }

  lemma {:induction false} TableMirrorsHistory(h: seq<RegOp>, c: Name, now: int)
    requires InOrder(h) && (forall i :: 0 <= i < |h| ==> h[i].time <= now)
    ensures Mirrors(h, TableAfter(h), c, now)
  {
    if h != [] {
      var init := h[..|h| - 1];
      var op := h[|h| - 1];
      assert h == init + [op];
      TableMirrorsHistory(init, c, op.time);
      MirrorsNext(init, op, TableAfter(init), c, op.time);
    }
  }

  /** The registry answers exactly what the history says, for every interleaving of expectations
      and events in clock order; and every entry it stores has at least one unit left. */
  lemma RegistryIsExact(h: seq<RegOp>, c: Name, action: Action, now: int)
    requires InOrder(h) && (forall i :: 0 <= i < |h| ==> h[i].time <= now)
    ensures Absorbs(TableAfter(h), c, action, now) <==> Explained(h, c, action, now)
    ensures c in TableAfter(h) ==> 1 <= TableAfter(h)[c].remaining <= Budget(TableAfter(h)[c].kind)
  {
    TableMirrorsHistory(h, c, now);
  }

  // --- the budget over a whole history ---

  /** Events on the container that the registry absorbed. */
  function Absorbed(h: seq<RegOp>, c: Name): nat
  {
    if h == [] then 0
    else
      var op := h[|h| - 1];
      var before := h[..|h| - 1];
      Absorbed(before, c) +
        if op.Occurred? && op.container == c && Absorbs(TableAfter(before), c, op.action, op.time) then 1 else 0
  }

  /** The budget granted: three for each expected stop and one for each expected start. */
  function Granted(h: seq<RegOp>, c: Name): nat
  {
    if h == [] then 0
    else
      var op := h[|h| - 1];
      Granted(h[..|h| - 1], c) + if op.Expected? && op.container == c then EventsOf(op.kind) else 0
  }

  function Unused(t: map<Name, OpEntry>, c: Name): int
  {
    if c in t then t[c].remaining else 0
  }

  lemma BudgetStep(t: map<Name, OpEntry>, op: RegOp, c: Name)
    requires forall x :: x in t ==> t[x].remaining >= 1
    ensures forall x :: x in Table(t, op) ==> Table(t, op)[x].remaining >= 1
    ensures op.Expected? && op.container == c ==> Unused(Table(t, op), c) == Budget(op.kind)
    ensures !(op.Expected? && op.container == c) ==>
      Unused(Table(t, op), c)
        + (if op.Occurred? && op.container == c && Absorbs(t, c, op.action, op.time) then 1 else 0)
        <= Unused(t, c)
  {
  }

  /** Over any history, in order or not, no more events are absorbed for a container than its
      expectations granted, even counting what is still unused. */
  lemma {:induction false} BudgetHolds(h: seq<RegOp>, c: Name)
    ensures Absorbed(h, c) + Unused(TableAfter(h), c) <= Granted(h, c)
    ensures forall x :: x in TableAfter(h) ==> TableAfter(h)[x].remaining >= 1
  {
    if h != [] {
      var init := h[..|h| - 1];
      BudgetHolds(init, c);
      BudgetStep(TableAfter(init), h[|h| - 1], c);
    }
  }
}
