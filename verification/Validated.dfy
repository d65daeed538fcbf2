/** From the configuration file to the runs of its pools. */
module Validated {
  import opened Names
  import opened State
  import opened Invariant
  import V = Validation
  import R = Reload
  import E = EmptyName
  import O = Overlap

  /** A pool of a validated configuration can strand a waiter if and only if a service
      named "" is one of its members. */
  lemma ValidatedPoolStrands(c: V.Conf, parse: string -> V.Url, p: Name)
    requires V.Sound(c, parse) && p in c.pools
    ensures WellFormed(R.NewPool(R.ArgsOf(c, p)))
    ensures (exists run :: E.StrandsBy(R.NewPool(R.ArgsOf(c, p)), run)) <==> NONE in R.InPool(c, p)
  {
    R.ValidatedIsWellFormed(c, parse, p);
    R.PoolTable(c, p);
    E.StrandsExactlyWithEmptyName(R.NewPool(R.ArgsOf(c, p)));
  }

  /** A pool of a validated configuration can have two containers running at once, with nobody
      interfering, if and only if it has two services (and none is named ""). */
  lemma ValidatedPoolOverlaps(c: V.Conf, parse: string -> V.Url, p: Name)
    requires V.Sound(c, parse) && p in c.pools && NONE !in R.InPool(c, p)
    ensures CfgOk(R.NewPool(R.ArgsOf(c, p)))
    ensures (exists run :: O.OverlapsBy(R.NewPool(R.ArgsOf(c, p)), run)) <==> |R.InPool(c, p)| >= 2
  {
    R.ValidatedIsWellFormed(c, parse, p);
    R.PoolTable(c, p);
    var cfg := R.NewPool(R.ArgsOf(c, p));
    assert |cfg.members| == |cfg.members.Keys|;
    O.OverlapsExactlyWithSiblings(cfg);
  }

  /** Some configuration that breaks no rule has a pooled service named "", which a model
      mapping routes requests to. */
  lemma EmptyNamePasses(parse: string -> V.Url)
    returns (c: V.Conf)
    requires parse("http://m:80") == V.Url("http", "m:80")
    ensures V.Sound(c, parse) && "p" in c.pools && NONE in R.InPool(c, "p")
    ensures |c.routes| == 1 && c.routes[0].models == map["x" := NONE]
  {
    var service := V.Service("m", "http://m:80", "/", 180, 0, Some("p"));
    c := V.Conf(V.ServerConf(8080, 100, 0, "", ""), map["p" := V.VRAMPool(0, 0, None)],
                map["" := service], [V.Route("/", "m", map["x" := ""])]);
    c := c.(services := c.services["m" := service.(containerName := "n", pool := None)]);
    forall n, r | n in c.services ensures !V.BreaksService(c, parse, c.services[n], r) {
      assert n == "" || n == "m";
    }
    forall a, b ensures !V.Share(c, a, b) {
      assert a in c.services && b in c.services ==> (a == "" || a == "m") && (b == "" || b == "m");
    }
  }
}
