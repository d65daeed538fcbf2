/** Two validated configurations that give one pool the same signature, and what a reload
    from one to the other does. */
module Clash {
  import opened Names
  import opened State
  import V = Validation
  import R = Reload
  import S = Signature

  const TWO_HOSTS := map["a" := V.Service("ca", "http://h", "/", 180, 0, Some("p")),
                         "b" := V.Service("cb", "http://g", "/", 180, 0, Some("p"))]

  function OnePool(services: map<Name, V.Service>): V.Conf
  {
    V.Conf(V.ServerConf(8080, 100, 0, "", ""), map["p" := V.VRAMPool(0, 0, None)], services, [V.Route("/", "a", map[])])
  }

  function Member(name: Name, container: Name, url: string): MemberConfig
  {
    MemberConfig(name, container, url, 180000, 100)
  }

  /** A health path that runs on over the rest of the entry of "a" into an entry for "b". */
  function LongPath(): string
  {
    var rest := [':'] + S.DurationText(180000) + [':'] + S.Itoa(100);
    "/" + (rest + ['|'] + ("b" + [':'] + ("cb" + [':'] + "http://g/")))
  }

  function OneHost(): map<Name, V.Service>
  {
    map["a" := V.Service("ca", "http://h", LongPath(), 180, 0, Some("p"))]
  }

  lemma OnePoolSound(services: map<Name, V.Service>, parse: string -> V.Url)
    requires "a" in services && services.Keys <= {"a", "b"}
    requires forall n :: n in services ==>
      var s := services[n];
      && s.containerName == (if n == "a" then "ca" else "cb") && V.Rooted(s.healthPath) && s.pool == Some("p")
      && s.startupTimeoutSeconds == 180 && s.maxQueueSize == 0 && V.TargetFault(s.targetURL, parse) == None
    ensures V.Sound(OnePool(services), parse)
  {
    var c := OnePool(services);
    forall n, r | n in c.services ensures !V.BreaksService(c, parse, c.services[n], r) {
    }
    forall a, b ensures !V.Share(c, a, b) {
    }
  }

  lemma OnePoolMembers(services: map<Name, V.Service>, names: seq<Name>)
    requires StrictlySorted(names) && Elements(names) == services.Keys && forall n :: n in services ==>
        services[n].pool == Some("p")
    ensures forall n :: n in names ==> n in services
    ensures R.MembersOf(OnePool(services), "p") == R.MembersNamed(OnePool(services), names)
  {
    var c := OnePool(services);
    assert R.InPool(c, "p") == services.Keys;
    SortedIsUnique(names, Sorted(R.InPool(c, "p")));
    forall n | n in names ensures n in services { assert n in Elements(names); }
  }

  lemma TwoMembers()
    ensures R.MembersOf(OnePool(TWO_HOSTS), "p") == [Member("a", "ca", "http://h/"), Member("b", "cb", "http://g/")]
  {
    assert Less("a", "b");
    assert "http://h" + "/" == "http://h/" && "http://g" + "/" == "http://g/";
    OnePoolMembers(TWO_HOSTS, ["a", "b"]);
  }

  lemma OneMember()
    ensures R.MembersOf(OnePool(OneHost()), "p") == [Member("a", "ca", "http://h" + LongPath())]
  {
    OnePoolMembers(OneHost(), ["a"]);
  }

  lemma LongPathRunsOn()
    ensures "http://h" + LongPath() == S.RunOn(Member("a", "ca", "http://h/"), Member("b", "cb", "http://g/"))
  {
    assert "http://h" + "/" == "http://h/";
  }

  lemma ArgsCollide(c: V.Conf, d: V.Conf)
    requires c == OnePool(TWO_HOSTS) && d == OnePool(OneHost())
    ensures S.Collide(R.ArgsOf(c, "p"), R.ArgsOf(d, "p"))
  {
    TwoMembers();
    OneMember();
    LongPathRunsOn();
    S.URLCollides(R.ArgsOf(c, "p"), Member("a", "ca", "http://h/"), Member("b", "cb", "http://g/"));
    assert |R.ArgsOf(c, "p").members| != |R.ArgsOf(d, "p").members|;
  }

  /** Validation does not prevent it: two sound configurations with different arguments for a
      pool can give it the same signature. */
  lemma SoundSignaturesCollide(parse: string -> V.Url)
    requires parse("http://h") == V.Url("http", "h") && parse("http://g") == V.Url("http", "g")
    ensures V.Sound(OnePool(TWO_HOSTS), parse) && V.Sound(OnePool(OneHost()), parse)
    ensures S.Collide(R.ArgsOf(OnePool(TWO_HOSTS), "p"), R.ArgsOf(OnePool(OneHost()), "p"))
  {
    OnePoolSound(TWO_HOSTS, parse);
    OnePoolSound(OneHost(), parse);
    ArgsCollide(OnePool(TWO_HOSTS), OnePool(OneHost()));
  }

  /** From a fresh server on, a reload between two sound configurations is accepted, and leaves the
      right pools if and only if they do not clash, as by SoundSignaturesCollide two such do. */
  method ReloadFromFresh(c: V.Conf, d: V.Conf, parse: string -> V.Url) returns (server: R.Server?)
    requires V.Sound(c, parse) && V.Sound(d, parse)
    ensures server != null && fresh(server) && server.Valid() && server.rt.conf == d
    ensures R.RightPools(server.rt) <==> R.NoClash(c, d)
  {
    server := R.Server.New(c, true, "", parse);
    var ok := server.Reload(d, true);
  }
}
