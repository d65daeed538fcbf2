/** Building a runtime from a configuration, and swapping it under a running server (server.go). */
module Reload {
  import opened Names
  import opened State
  import opened Signature
  import opened Validation

  // --- the members of a pool ---

  function TrimSlash(url: string): string
  {
    if url != "" && url[|url| - 1] == '/' then url[..|url| - 1] else url
  }

  function QueueSize(c: Conf, s: Service): int
  {
    if s.maxQueueSize > 0 then s.maxQueueSize else c.server.maxQueueSize
  }

  function MemberOf(c: Conf, n: Name): MemberConfig
    requires n in c.services
  {
    var s := c.services[n];
    MemberConfig(n, s.containerName, TrimSlash(s.targetURL) + s.healthPath, s.startupTimeoutSeconds * 1000,
        QueueSize(c, s))
  }

  function InPool(c: Conf, p: Name): (r: set<Name>)
    ensures r <= c.services.Keys
  {
    set n | n in c.services && c.services[n].pool == Some(p)
  }

  function MembersNamed(c: Conf, names: seq<Name>): seq<MemberConfig>
    requires forall n :: n in names ==> n in c.services
  {
    seq(|names|, i requires 0 <= i < |names| => assert names[i] in names; MemberOf(c, names[i]))
  }

  lemma SortedServices(c: Conf, names: set<Name>)
    requires names <= c.services.Keys
    ensures forall n :: n in Sorted(names) ==> n in c.services
  {
    forall n | n in Sorted(names) ensures n in c.services { assert n in Elements(Sorted(names)); }
  }

  /** The pool's members by name. */
  ghost function MembersOf(c: Conf, p: Name): seq<MemberConfig>
  {
    SortedServices(c, InPool(c, p));
    MembersNamed(c, Sorted(InPool(c, p)))
  }

  /** poolMembers: whatever order the services are met in, the list is the same. */
  method PoolMembers(c: Conf, p: Name) returns (members: seq<MemberConfig>)
    ensures members == MembersOf(c, p)
  {
    var found: set<Name> := {};
    var left := c.services.Keys;
    while left != {}
      invariant left <= c.services.Keys
      invariant found == InPool(c, p) - left
    {
      var n :| n in left;
      left := left - {n};
      if c.services[n].pool == Some(p) { found := found + {n}; }
    }
    assert found == InPool(c, p);
    var names := SortNames(found);
    SortedServices(c, found);
    members := MembersNamed(c, names);
  }

  ghost function ArgsOf(c: Conf, p: Name): PoolArgs
    requires p in c.pools
  {
    Args(c.pools[p], MembersOf(c, p))
  }

  function Args(pool: VRAMPool, members: seq<MemberConfig>): PoolArgs
  {
    PoolArgs(pool.graceSeconds, pool.cooldownSeconds,
             if pool.defaultSvc.Some? then pool.defaultSvc.value else NONE, members)
  }

  // --- what validation gives a pool ---

  /** NewPool's member table. */
  function ByName(ms: seq<MemberConfig>): map<Name, MemberConfig>
  {
    if ms == [] then map[] else ByName(ms[..|ms| - 1])[ms[|ms| - 1].name := ms[|ms| - 1]]
  }

  /** The pool NewPool makes of its arguments, times in milliseconds. */
  function NewPool(a: PoolArgs): Config
  {
    Config(a.grace * 1000, a.cooldown * 1000, a.defaultSvc, ByName(a.members))
  }

  lemma LastNamed(c: Conf, names: seq<Name>)
    requires names != [] && forall n :: n in names ==> n in c.services
    ensures var ms := MembersNamed(c, names);
      |ms| == |names| && ms[..|ms| - 1] == MembersNamed(c, names[..|names| - 1])
      && ms[|ms| - 1] == MemberOf(c, names[|names| - 1])
  {
  }

  /** The table of a list of configured services: each under its name. */
  ghost predicate TableOf(c: Conf, t: map<Name, MemberConfig>, names: set<Name>)
  {
    t.Keys == names && forall n :: n in t ==> n in c.services && t[n] == MemberOf(c, n)
  }

  lemma TableGrows(c: Conf, t: map<Name, MemberConfig>, names: set<Name>, last: Name)
    requires TableOf(c, t, names) && last in c.services
    ensures TableOf(c, t[last := MemberOf(c, last)], names + {last})
  {
  }

  lemma {:induction false} ByNameIs(c: Conf, names: seq<Name>)
    requires forall n :: n in names ==> n in c.services
    ensures TableOf(c, ByName(MembersNamed(c, names)), Elements(names))
  {
    if names != [] {
      var init, last := names[..|names| - 1], names[|names| - 1];
      ByNameIs(c, init);
      LastNamed(c, names);
      TableGrows(c, ByName(MembersNamed(c, init)), Elements(init), last);
      assert names == init + [last];
      assert Elements(names) == Elements(init) + {last};
      assert MemberOf(c, last).name == last;
    }
  }

  lemma PoolTable(c: Conf, p: Name)
    requires p in c.pools
    ensures var t := NewPool(ArgsOf(c, p)).members;
      t.Keys == InPool(c, p) && forall n :: n in t ==> t[n] == MemberOf(c, n)
  {
    SortedServices(c, InPool(c, p));
    ByNameIs(c, Sorted(InPool(c, p)));
  }

  /** The URL without its last character, if that is a slash. */
  ghost predicate WithoutSlash(url: string, base: string)
  {
    url == base + "/" || (url == base && (url == "" || url[|url| - 1] != '/'))
  }

  lemma TrimmedSlash(url: string)
    ensures WithoutSlash(url, TrimSlash(url))
  {
  }

  /** What the orchestrator is told of a member, field by field. */
  ghost predicate TellsMember(c: Conf, n: Name, m: MemberConfig)
    requires n in c.services
  {
    var s := c.services[n];
    && m.name == n && m.containerName == s.containerName
    && (exists base :: WithoutSlash(s.targetURL, base) && m.healthURL == base + s.healthPath)
    && m.startupTimeout == 1000 * s.startupTimeoutSeconds
    && (s.maxQueueSize > 0 ==> m.maxQueue == s.maxQueueSize)
    && (s.maxQueueSize <= 0 ==> m.maxQueue == c.server.maxQueueSize)
  }

  /** NewPool gets the pool's times, its default, and just the services that name the pool, each as
      its own configuration has it, with the server's queue size where it sets none. */
  lemma NewPoolGets(c: Conf, p: Name)
    requires p in c.pools
    ensures var t := NewPool(ArgsOf(c, p)); var pool := c.pools[p];
      && t.grace == 1000 * pool.graceSeconds && t.cooldown == 1000 * pool.cooldownSeconds
      && t.defaultSvc == (match pool.defaultSvc case Some(d) => d case None => "")
      && (forall n :: n in t.members <==> n in c.services && c.services[n].pool == Some(p))
      && (forall n :: n in t.members ==> TellsMember(c, n, t.members[n]))
  {
    PoolTable(c, p);
    var t := NewPool(ArgsOf(c, p));
    forall n | n in t.members ensures n in c.services && TellsMember(c, n, t.members[n]) {
      TrimmedSlash(c.services[n].targetURL);
    }
  }

  /** A validated configuration gives every pool what the orchestrator relies on: ranges,
      a default that is a member, bounded queues, containers of one owner. */
  lemma ValidatedIsWellFormed(c: Conf, parse: string -> Url, p: Name)
    requires Sound(c, parse) && p in c.pools
    ensures WellFormed(NewPool(ArgsOf(c, p)))
  {
    PoolTable(c, p);
    var pool := c.pools[p];
    assert !BreaksPool(c, p, pool, BadGrace) && !BreaksPool(c, p, pool, BadCooldown);
    assert !BreaksPool(c, p, pool, UndeclaredDefault) && !BreaksPool(c, p, pool, ForeignDefault);
    var t := NewPool(ArgsOf(c, p)).members;
    assert !BreaksServer(c.server, QueueRange);
    forall a, b | a in t && b in t && t[a].containerName == t[b].containerName ensures a == b {
      assert !BreaksService(c, parse, c.services[a], NoContainer);
      assert !Share(c, a, b);
    }
  }

  // --- the server ---

  /** An orchestrator pool as the server holds it: what it was made from, and whether it was closed. */
  class Pool {
    const name: Name
    const args: PoolArgs
    var closed: bool

    constructor (name: Name, args: PoolArgs)
      ensures this.name == name && this.args == args && !closed
    {
      this.name := name;
      this.args := args;
      closed := false;
    }

    method Close()
      modifies this
      ensures closed
    {
      closed := true;
    }
  }

  /** A service of a runtime; `pool` is null for one that is always on. */
  datatype ServiceRt = ServiceRt(containerName: Name, pool: Pool?)

  datatype Runtime = Runtime(
    conf: Conf, adminToken: string, proxyToken: string, services: map<Name, ServiceRt>,
    pools: map<Name, Pool>, sigs: map<Name, string>)

  /** The table lists this very pool, under its own name. */
  predicate Holds(pools: map<Name, Pool>, h: Pool)
  {
    h.name in pools && pools[h.name] == h
  }

  /** Every pool of the configuration, each under its own name and its own signature. */
  ghost predicate PoolsBuilt(rt: Runtime)
  {
    && rt.pools.Keys == rt.conf.pools.Keys && rt.sigs.Keys == rt.conf.pools.Keys
    && forall p {:trigger rt.pools[p]} :: p in rt.pools ==>
         && rt.pools[p].name == p
         && rt.sigs[p] == SignatureOf(ArgsOf(rt.conf, p)) == SignatureOf(rt.pools[p].args)
  }

  /** Every service of the configuration, pointing at its pool in this same runtime. */
  ghost predicate ServicesBuilt(rt: Runtime)
  {
    && rt.services.Keys == rt.conf.services.Keys
    && forall n :: n in rt.services ==>
         var s := rt.conf.services[n];
         && rt.services[n].containerName == s.containerName
         && (s.pool.None? ==> rt.services[n].pool == null)
         && (s.pool.Some? && s.pool.value in rt.pools ==> rt.services[n].pool == rt.pools[s.pool.value])
  }

  /** The pools are what NewPool would now make of the configuration. */
  ghost predicate RightPools(rt: Runtime)
  {
    && rt.pools.Keys == rt.conf.pools.Keys
    && forall p {:trigger rt.pools[p]} :: p in rt.pools ==> rt.pools[p].args == ArgsOf(rt.conf, p)
  }

  ghost predicate CleanConf(c: Conf)
  {
    forall p :: p in c.pools ==> Clean(ArgsOf(c, p))
  }

  /** The pool of that name has the same signature in `prev`, and is taken over. */
  ghost predicate Reused(prev: Option<Runtime>, c: Conf, p: Name)
    requires p in c.pools
  {
    prev.Some? && p in prev.value.sigs && p in prev.value.pools && prev.value.sigs[p] == SignatureOf(ArgsOf(c, p))
  }

  /** The pool a rebuild keeps or makes under this name. */
  ghost predicate Taken(prev: Option<Runtime>, c: Conf, p: Name, h: Pool, built: set<Pool>)
    requires p in c.pools
  {
    if Reused(prev, c, p) then h == prev.value.pools[p] else h in built && h.name == p && h.args == ArgsOf(c, p)
  }

  ghost predicate AllTaken(prev: Option<Runtime>, c: Conf, pools: map<Name, Pool>, built: set<Pool>)
  {
    pools.Keys <= c.pools.Keys && forall p {:trigger pools[p]} :: p in pools ==> Taken(prev, c, p, pools[p], built)
  }

  ghost predicate AllSigned(c: Conf, sigs: map<Name, string>)
  {
    sigs.Keys <= c.pools.Keys && forall p {:trigger sigs[p]} :: p in sigs ==> sigs[p] == SignatureOf(ArgsOf(c, p))
  }

  lemma MoreTaken(prev: Option<Runtime>, c: Conf, pools: map<Name, Pool>, built: set<Pool>, p: Name, h: Pool,
      made: set<Pool>)
    requires AllTaken(prev, c, pools, built) && p in c.pools && Taken(prev, c, p, h, made)
    ensures AllTaken(prev, c, pools[p := h], built + made)
  {
    forall q | q in pools && q != p ensures Taken(prev, c, q, pools[q], built + made) {
      assert Taken(prev, c, q, pools[q], built);
    }
  }

  /** New pools are open, and listed under their names. */
  ghost predicate Listed(pools: map<Name, Pool>, built: set<Pool>)
    reads built
  {
    forall h :: h in built ==> !h.closed && Holds(pools, h)
  }

  ghost predicate Named(pools: map<Name, Pool>)
  {
    forall p {:trigger pools[p]} :: p in pools ==> pools[p].name == p
  }

  lemma MoreListed(pools: map<Name, Pool>, built: set<Pool>, p: Name, h: Pool, made: set<Pool>)
    requires Listed(pools, built) && p !in pools && h.name == p && made <= {h} && (h in made ==> !h.closed)
    ensures Listed(pools[p := h], built + made)
  {
  }

  lemma MoreSigned(c: Conf, sigs: map<Name, string>, p: Name, sig: string)
    requires AllSigned(c, sigs) && p in c.pools && sig == SignatureOf(ArgsOf(c, p))
    ensures AllSigned(c, sigs[p := sig])
  {
  }

  /** The pools and signatures made so far. */
  ghost predicate Built(prev: Option<Runtime>, c: Conf, pools: map<Name, Pool>, sigs: map<Name, string>,
      built: set<Pool>)
  {
    AllSigned(c, sigs) && AllTaken(prev, c, pools, built) && Named(pools)
  }

  lemma MoreBuilt(prev: Option<Runtime>, c: Conf, pools: map<Name, Pool>, sigs: map<Name, string>, built: set<Pool>,
                  p: Name, h: Pool, sig: string, made: set<Pool>)
    requires Built(prev, c, pools, sigs, built) && p in c.pools
    requires Taken(prev, c, p, h, made) && h.name == p && sig == SignatureOf(ArgsOf(c, p))
    ensures Built(prev, c, pools[p := h], sigs[p := sig], built + made)
  {
    MoreTaken(prev, c, pools, built, p, h, made);
    MoreSigned(c, sigs, p, sig);
  }

  /** The two configurations give no pool they share different arguments under one signature. */
  ghost predicate NoClash(c: Conf, d: Conf)
  {
    forall p {:trigger ArgsOf(d, p)} :: p in c.pools && p in d.pools ==> !Collide(ArgsOf(c, p), ArgsOf(d, p))
  }

  lemma KeptOrMade(prev: Runtime, next: Runtime, built: set<Pool>, p: Name)
    requires PoolsBuilt(prev) && RightPools(prev) && PoolsBuilt(next)
    requires AllTaken(Some(prev), next.conf, next.pools, built) && p in next.pools
    ensures next.pools[p].args == ArgsOf(next.conf, p) <==>
      !(p in prev.conf.pools && Collide(ArgsOf(prev.conf, p), ArgsOf(next.conf, p)))
  {
    assert Taken(Some(prev), next.conf, p, next.pools[p], built);
    if p in prev.pools {
      assert prev.pools[p].args == ArgsOf(prev.conf, p);
      assert prev.sigs[p] == SignatureOf(ArgsOf(prev.conf, p));
    }
  }

  /** A reload from right pools leaves right pools if and only if the two configurations do not
      clash: that can be told before the reload. */
  lemma ReuseIsRightExactly(prev: Runtime, next: Runtime, built: set<Pool>)
    requires PoolsBuilt(prev) && RightPools(prev) && PoolsBuilt(next)
    requires AllTaken(Some(prev), next.conf, next.pools, built)
    ensures RightPools(next) <==> NoClash(prev.conf, next.conf)
  {
    forall p | p in next.pools
      ensures next.pools[p].args == ArgsOf(next.conf, p) <==>
        !(p in prev.conf.pools && Collide(ArgsOf(prev.conf, p), ArgsOf(next.conf, p)))
    {
      KeptOrMade(prev, next, built, p);
    }
    if RightPools(next) {
      forall p | p in prev.conf.pools && p in next.conf.pools
        ensures !Collide(ArgsOf(prev.conf, p), ArgsOf(next.conf, p))
      {
        assert next.pools[p].args == ArgsOf(next.conf, p);
      }
    }
  }

  /** Clean configurations never clash. */
  lemma CleanNeverClash(c: Conf, d: Conf)
    requires CleanConf(c) && CleanConf(d)
    ensures NoClash(c, d)
  {
    forall p | p in c.pools && p in d.pools ensures !Collide(ArgsOf(c, p), ArgsOf(d, p)) {
      SignatureIsInjective(ArgsOf(c, p), ArgsOf(d, p));
    }
  }

  lemma BuiltPools(rt: Runtime, prev: Option<Runtime>, built: set<Pool>)
    requires prev.Some? ==> PoolsBuilt(prev.value)
    requires rt.pools.Keys == rt.conf.pools.Keys && rt.sigs.Keys == rt.conf.pools.Keys
    requires Built(prev, rt.conf, rt.pools, rt.sigs, built)
    ensures PoolsBuilt(rt)
  {
    forall p | p in rt.pools ensures rt.sigs[p] == SignatureOf(ArgsOf(rt.conf, p)) == SignatureOf(rt.pools[p].args) {
      assert Taken(prev, rt.conf, p, rt.pools[p], built);
    }
  }

  /** Service n is pooled, and container k is its own. */
  ghost predicate Feeds(rt: Runtime, n: Name, k: Name)
  {
    n in rt.services && rt.services[n].pool != null && rt.services[n].containerName == k
  }

  /** The watcher's table is the container-to-pool map of the runtime. */
  ghost predicate RoutesExact(rt: Runtime, routes: map<Name, Pool>)
  {
    && (forall n, k :: Feeds(rt, n, k) ==> k in routes && routes[k] == rt.services[n].pool)
    && (forall k :: k in routes ==> exists n :: Feeds(rt, n, k))
  }

  ghost predicate ContainersApart(rt: Runtime)
  {
    forall a, b, k :: Feeds(rt, a, k) && Feeds(rt, b, k) ==> a == b
  }

  lemma SoundApart(rt: Runtime, parse: string -> Url)
    requires Sound(rt.conf, parse) && ServicesBuilt(rt)
    ensures ContainersApart(rt)
  {
    forall a, b, k | Feeds(rt, a, k) && Feeds(rt, b, k) ensures a == b {
      assert !BreaksService(rt.conf, parse, rt.conf.services[a], NoContainer);
      assert !Share(rt.conf, a, b);
    }
  }

  ghost predicate RuntimeOk(rt: Runtime, parse: string -> Url)
  {
    Sound(rt.conf, parse) && PoolsBuilt(rt) && ServicesBuilt(rt)
  }

  ghost predicate Owned(rt: Runtime, made: set<Pool>)
  {
    forall p {:trigger rt.pools[p]} :: p in rt.pools ==> rt.pools[p] in made
  }

  ghost predicate NoneLoose(rt: Runtime, made: set<Pool>)
    reads made
  {
    forall h :: h in made && !h.closed ==> Holds(rt.pools, h)
  }

  /** Every pool of the next table was made for it, or stood under the same name before. */
  ghost predicate SameOrNew(prev: map<Name, Pool>, next: map<Name, Pool>, built: set<Pool>)
  {
    forall p {:trigger next[p]} :: p in next ==> next[p] in built || (p in prev && next[p] == prev[p])
  }

  lemma TakenIsSameOrNew(prev: Runtime, next: Runtime, built: set<Pool>)
    requires PoolsBuilt(prev) && AllTaken(Some(prev), next.conf, next.pools, built)
    ensures SameOrNew(prev.pools, next.pools, built)
  {
    forall p | p in next.pools ensures next.pools[p] in built || (p in prev.pools && next.pools[p] == prev.pools[p]) {
      assert Taken(Some(prev), next.conf, p, next.pools[p], built);
    }
  }

  /** Closing the pools that `keep` does not hold under the same name. */
  method ClosePools(pools: map<Name, Pool>, keep: map<Name, Pool>, ghost made: set<Pool>)
    requires Named(pools) && forall p :: p in pools ==> pools[p] in made
    modifies made
    ensures forall h :: h in made ==> (h.closed <==> old(h.closed) || (Holds(pools, h) && !Holds(keep, h)))
  {
    var left := pools.Keys;
    while left != {}
      invariant left <= pools.Keys
      invariant forall h :: h in made ==>
        (h.closed <==> old(h.closed) || (Holds(pools, h) && !Holds(keep, h) && h.name !in left))
    {
      var p :| p in left;
      left := left - {p};
      var h := pools[p];
      if p !in keep || keep[p] != h { h.Close(); }
    }
  }

  /** Closing what the next table drops leaves open nothing but what it lists, and closes
      nothing that it lists. */
  method Retire(prev: map<Name, Pool>, next: map<Name, Pool>, ghost made: set<Pool>, ghost built: set<Pool>)
    requires Named(prev) && (forall p :: p in prev ==> prev[p] in made) && built <= made
    requires forall h :: h in made - built && !h.closed ==> Holds(prev, h)
    requires Listed(next, built) && SameOrNew(prev, next, built)
    modifies made
    ensures forall h :: h in made && !h.closed ==> Holds(next, h)
    ensures forall h :: h in made && Holds(next, h) ==> h.closed == old(h.closed)
  {
    ClosePools(prev, next, made);
  }

  lemma AllNew(rt: Runtime, built: set<Pool>)
    requires rt.pools.Keys == rt.conf.pools.Keys && AllTaken(None, rt.conf, rt.pools, built)
    ensures Owned(rt, built) && RightPools(rt)
  {
    forall p | p in rt.pools ensures rt.pools[p] in built && rt.pools[p].args == ArgsOf(rt.conf, p) {
      assert Taken(None, rt.conf, p, rt.pools[p], built);
    }
  }

  lemma KeptStayClosed(prev: Runtime, next: Runtime, made: set<Pool>, built: set<Pool>)
    requires PoolsBuilt(prev) && PoolsBuilt(next) && AllTaken(Some(prev), next.conf, next.pools, built)
    requires Owned(prev, made) && built !! made
    requires forall h :: h in made && Holds(next.pools, h) ==> h.closed
    requires forall h :: h in built ==> !h.closed
    ensures forall p :: p in next.pools ==> (next.pools[p].closed <==> Reused(Some(prev), next.conf, p))
  {
    forall p | p in next.pools ensures next.pools[p].closed <==> Reused(Some(prev), next.conf, p) {
      assert Taken(Some(prev), next.conf, p, next.pools[p], built);
      assert Holds(next.pools, next.pools[p]);
    }
  }

  class Server {
    const adminDisabled: bool
    const genToken: string
    const parse: string -> Url
    var rt: Runtime
    /** The watcher's table: which pool hears about which container. */
    var routes: map<Name, Pool>
    /** Every pool this server ever made. */
    ghost var made: set<Pool>

    constructor Blank(adminDisabled: bool, genToken: string, parse: string -> Url)
      ensures this.adminDisabled == adminDisabled && this.genToken == genToken && this.parse == parse
      ensures made == {}
    {
      this.adminDisabled, this.genToken, this.parse := adminDisabled, genToken, parse;
      made := {};
    }

    function ResolveAdminToken(c: Conf): string
    {
      if adminDisabled then "" else if c.server.adminToken != "" then c.server.adminToken else genToken
    }

    predicate NoToken(c: Conf)
    {
      !adminDisabled && c.server.adminToken == "" && genToken == ""
    }

    /** Admin requests are let in without a token exactly if that was asked for when the server was
        made; the token is the configured one, or else the one generated then. */
    predicate Guarded(r: Runtime)
    {
      && (r.adminToken == "" <==> adminDisabled)
      && (!adminDisabled && r.conf.server.adminToken != "" ==> r.adminToken == r.conf.server.adminToken)
      && (!adminDisabled && r.conf.server.adminToken == "" ==> r.adminToken == genToken)
      && r.proxyToken == r.conf.server.proxyToken
    }

    ghost predicate Unparsable(c: Conf)
    {
      exists n :: n in c.services && parse(c.services[n].targetURL).BadUrl?
    }

    method BuildPool(c: Conf, prev: Option<Runtime>, p: Name) returns (h: Pool, sig: string, ghost made: set<Pool>)
      requires p in c.pools && (prev.Some? ==> PoolsBuilt(prev.value))
      ensures sig == SignatureOf(ArgsOf(c, p))
      ensures Taken(prev, c, p, h, made) && h.name == p
      ensures made <= {h} && fresh(made) && (h in made ==> !h.closed)
    {
      var members := PoolMembers(c, p);
      sig := PoolSignature(Args(c.pools[p], members));
      if prev.Some? && p in prev.value.sigs && prev.value.sigs[p] == sig {
        h, made := prev.value.pools[p], {};
      } else {
        h := new Pool(p, Args(c.pools[p], members));
        made := {h};
      }
    }

    /** The pools of the new runtime: taken over where the signature is the same, new where not. */
    method BuildPools(c: Conf, prev: Option<Runtime>)
      returns (pools: map<Name, Pool>, sigs: map<Name, string>, ghost built: set<Pool>)
      requires prev.Some? ==> PoolsBuilt(prev.value)
      ensures pools.Keys == c.pools.Keys && sigs.Keys == c.pools.Keys
      ensures Built(prev, c, pools, sigs, built)
      ensures fresh(built) && Listed(pools, built)
    {
      pools, sigs, built := map[], map[], {};
      var left := c.pools.Keys;
      while left != {}
        invariant left <= c.pools.Keys
        invariant pools.Keys == c.pools.Keys - left && sigs.Keys == c.pools.Keys - left
        invariant Built(prev, c, pools, sigs, built)
        invariant fresh(built) && Listed(pools, built)
      {
        var p :| p in left;
        left := left - {p};
        var h, sig;
        ghost var made;
        h, sig, made := BuildPool(c, prev, p);
        MoreBuilt(prev, c, pools, sigs, built, p, h, sig, made);
        MoreListed(pools, built, p, h, made);
        sigs := sigs[p := sig];
        pools := pools[p := h];
        built := built + made;
      }
    }

    method BuildServices(c: Conf, pools: map<Name, Pool>) returns (r: Option<map<Name, ServiceRt>>)
      ensures r.None? <==> Unparsable(c)
      ensures r.Some? ==> r.value.Keys == c.services.Keys
      ensures r.Some? ==> forall n :: n in r.value ==>
        var s := c.services[n];
        && r.value[n].containerName == s.containerName
        && (s.pool.None? ==> r.value[n].pool == null)
        && (s.pool.Some? && s.pool.value in pools ==> r.value[n].pool == pools[s.pool.value])
    {
      var services: map<Name, ServiceRt> := map[];
      var left := c.services.Keys;
      while left != {}
        invariant left <= c.services.Keys && services.Keys == c.services.Keys - left
        invariant forall n :: n in services ==>
          var s := c.services[n];
          && !parse(s.targetURL).BadUrl?
          && services[n].containerName == s.containerName
          && (s.pool.None? ==> services[n].pool == null)
          && (s.pool.Some? && s.pool.value in pools ==> services[n].pool == pools[s.pool.value])
      {
        var n :| n in left;
        left := left - {n};
        var s := c.services[n];
        if parse(s.targetURL).BadUrl? { return None; }
        var pool: Pool? := if s.pool.Some? && s.pool.value in pools then pools[s.pool.value] else null;
        services := services[n := ServiceRt(s.containerName, pool)];
      }
      return Some(services);
    }

    /** buildRuntime. It fails without an admin token, before any pool is made, or on a URL
        that does not parse, when the pools it made are left open and in nobody's hands. */
    method BuildRuntime(c: Conf, prev: Option<Runtime>) returns (r: Option<Runtime>, ghost built: set<Pool>)
      requires prev.Some? ==> PoolsBuilt(prev.value)
      ensures r.None? <==> NoToken(c) || Unparsable(c)
      ensures NoToken(c) ==> built == {}
      ensures r.Some? ==> r.value.conf == c && PoolsBuilt(r.value) && ServicesBuilt(r.value) && Guarded(r.value)
      ensures r.Some? ==> AllTaken(prev, c, r.value.pools, built) && Listed(r.value.pools, built)
      ensures fresh(built) && forall h :: h in built ==> !h.closed
    {
      built := {};
      var token := ResolveAdminToken(c);
      if !adminDisabled && token == "" { return None, {}; }
      var pools, sigs;
      pools, sigs, built := BuildPools(c, prev);
      var services := BuildServices(c, pools);
      if services.None? { return None, built; }
      var rt := Runtime(c, token, c.server.proxyToken, services.value, pools, sigs);
      BuiltPools(rt, prev, built);
      r := Some(rt);
    }

    /** The watcher's table and the open pools fit the current runtime: no pool is open
        that the runtime does not hold. */
    ghost predicate Linked()
      reads this, made
    {
      RoutesExact(rt, routes) && Owned(rt, made) && NoneLoose(rt, made)
    }

    /** The server's invariant. */
    ghost predicate Valid()
      reads this, made
    {
      RuntimeOk(rt, parse) && Guarded(rt) && Linked()
    }

    /** The open pools are exactly those of the current runtime. */
    ghost predicate Serving()
      reads this, made
    {
      forall h :: h in made ==> (!h.closed <==> Holds(rt.pools, h))
    }

    method SyncWatcher()
      requires ContainersApart(rt)
      modifies this`routes
      ensures RoutesExact(rt, routes)
    {
      var table: map<Name, Pool> := map[];
      var left := rt.services.Keys;
      while left != {}
        invariant left <= rt.services.Keys
        invariant forall n, k :: Feeds(rt, n, k) && n !in left ==> k in table && table[k] == rt.services[n].pool
        invariant forall k :: k in table ==> exists n :: n !in left && Feeds(rt, n, k)
      {
        var n :| n in left;
        left := left - {n};
        var s := rt.services[n];
        if s.pool != null {
          assert Feeds(rt, n, s.containerName);
          table := table[s.containerName := s.pool];
        }
      }
      routes := table;
    }

    /** From one runtime to the next: it is stored, the watcher is pointed at it, and the
        dropped pools are closed, the others left as they are. */
    method Replace(next: Runtime, ghost built: set<Pool>)
      requires Linked() && Named(rt.pools) && ContainersApart(next) && built !! made
      requires SameOrNew(rt.pools, next.pools, built) && Listed(next.pools, built)
      modifies this, made, built
      ensures Linked() && rt == next && made == old(made) + built
      ensures forall h :: h in made && Holds(rt.pools, h) ==> h.closed == old(h.closed)
      ensures old(Serving()) ==> Serving()
    {
      var prev := rt;
      rt := next;
      made := made + built;
      SyncWatcher();
      Retire(prev.pools, next.pools, made, built);
    }

    /** Reload. `found` is whether Docker knows every container of the configuration. It is
        accepted exactly when it is found and admin auth has a token; a rejected reload changes
        nothing, an accepted one keeps the pools of unchanged signature as they are, opens
        the others and closes those it drops. */
    method Reload(c: Conf, found: bool) returns (ok: bool)
      requires Valid() && Sound(c, parse)
      modifies this, made
      ensures Valid()
      ensures ok <==> found && !NoToken(c)
      ensures !ok ==> rt == old(rt) && routes == old(routes) && made == old(made)
      ensures !ok ==> forall h :: h in made ==> h.closed == old(h.closed)
      ensures ok ==> rt.conf == c && old(made) <= made && fresh(made - old(made))
      ensures ok ==> AllTaken(Some(old(rt)), c, rt.pools, made - old(made))
      ensures ok ==> forall h :: h in old(made) && Holds(rt.pools, h) ==> h.closed == old(h.closed)
      ensures ok ==> forall h :: h in made - old(made) ==> Holds(rt.pools, h) && !h.closed
      ensures old(Serving()) ==> Serving()
      ensures ok && old(RightPools(rt)) ==> (RightPools(rt) <==> NoClash(old(rt).conf, c))
    {
      if !found { return false; }
      var next;
      ghost var built;
      SoundParses(c);
      next, built := BuildRuntime(c, Some(rt));
      if next.None? { return false; }
      ghost var prev := rt;
      TakenIsSameOrNew(prev, next.value, built);
      SoundApart(next.value, parse);
      Replace(next.value, built);
      ok := true;
      assert made - old(made) == built;
      if RightPools(prev) { ReuseIsRightExactly(prev, next.value, built); }
    }

    lemma SoundParses(c: Conf)
      requires Sound(c, parse)
      ensures !Unparsable(c)
    {
      forall n | n in c.services ensures !parse(c.services[n].targetURL).BadUrl? {
        assert !BreaksService(c, parse, c.services[n], BadTarget);
        assert !BreaksService(c, parse, c.services[n], NoTarget);
      }
    }

    /** Close: every pool of the current runtime. */
    method Close()
      requires Valid()
      modifies made
      ensures Valid() && forall h :: h in made ==> h.closed
    {
      ClosePools(rt.pools, map[], made);
    }

    /** A reload that was waiting for the lock while Close held it. The pools it keeps stay
        closed, but those it has to make anew are open, on a server that was closed. */
    method ReloadAfterClose(c: Conf, found: bool) returns (ok: bool)
      requires Valid() && Sound(c, parse)
      modifies this, made
      ensures Valid()
      ensures ok <==> found && !NoToken(c)
      ensures ok ==> rt.conf == c && forall p :: p in rt.pools ==> (rt.pools[p].closed <==> Reused(Some(old(rt)), c, p))
      ensures !ok ==> forall h :: h in made ==> h.closed
    {
      Close();
      ghost var prev, before := rt, made;
      ok := Reload(c, found);
      if ok { KeptStayClosed(prev, rt, before, made - before); }
    }

    method Start(first: Runtime, ghost built: set<Pool>)
      requires ContainersApart(first) && Owned(first, built) && Listed(first.pools, built)
      modifies this
      ensures rt == first && made == built && Linked() && Serving()
    {
      rt := first;
      made := built;
      SyncWatcher();
    }

    /** New. */
    static method New(c: Conf, adminDisabled: bool, genToken: string, parse: string -> Url) returns (s: Server?)
      requires Sound(c, parse)
      ensures s == null <==> !adminDisabled && c.server.adminToken == "" && genToken == ""
      ensures s != null ==> fresh(s) && s.parse == parse && s.adminDisabled == adminDisabled
      ensures s != null ==> fresh(s.made) && s.Valid() && s.Serving()
      ensures s != null ==> s.rt.conf == c && RightPools(s.rt)
    {
      var t := new Server.Blank(adminDisabled, genToken, parse);
      t.SoundParses(c);
      var r;
      ghost var built;
      r, built := t.BuildRuntime(c, None);
      if r.None? { return null; }
      AllNew(r.value, built);
      SoundApart(r.value, parse);
      t.Start(r.value, built);
      s := t;
    }
  }
}
