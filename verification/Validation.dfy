/** The configuration file's rules (validate.go) and what they give the pools. */
module Validation {
  import opened Names

  /** What url.Parse makes of a string. */
  datatype Url = BadUrl | Url(scheme: string, host: string)

  datatype ServerConf = ServerConf(
    port: int, maxQueueSize: int, maxRequestBytes: int, adminToken: string, proxyToken: string)

  /** `pool` is None for a service that is always on. */
  datatype Service = Service(
    containerName: Name, targetURL: string, healthPath: string,
    startupTimeoutSeconds: int, maxQueueSize: int, pool: Option<Name>)

  datatype VRAMPool = VRAMPool(graceSeconds: int, cooldownSeconds: int, defaultSvc: Option<Name>)

  datatype Route = Route(pathPrefix: string, service: Name, models: map<string, Name>)

  datatype Conf = Conf(
    server: ServerConf, pools: map<Name, VRAMPool>, services: map<Name, Service>, routes: seq<Route>)

  // --- the rules ---

  datatype ServerRule = PortRange | QueueRange | BytesRange | BlankAdmin | BlankProxy

  datatype ServiceRule =
    | NoContainer | NoTarget | BadTarget | NotHttp | NoHost | BadHealthPath | BadStartup | BadQueue | UndefinedPool

  datatype PoolRule = BadGrace | BadCooldown | UndeclaredDefault | ForeignDefault

  datatype RouteRule = BadPrefix | NoService | UndeclaredService | EmptyModel | UndeclaredModel(model: string)

  /** One entry of the joined error. SharedContainer(a, b, k): b, met after a, also claims container k. */
  datatype Violation =
    | OfServer(srule: ServerRule)
    | NoServices
    | OfService(service: Name, rule: ServiceRule)
    | SharedContainer(first: Name, second: Name, container: Name)
    | OfPool(pool: Name, prule: PoolRule)
    | NoRoutes
    | OfRoute(index: nat, rrule: RouteRule)

  predicate IsSpace(c: char)
  {
    || '\t' <= c <= '\r' || c == ' ' || c == '\U{0085}' || c == '\U{00A0}' || c == '\U{1680}'
    || '\U{2000}' <= c <= '\U{200A}' || c in {'\U{2028}', '\U{2029}', '\U{202F}', '\U{205F}', '\U{3000}'}
  }

  /** Not omitted, and nothing but white space. */
  predicate Blank(token: string)
  {
    token != "" && forall i :: 0 <= i < |token| ==> IsSpace(token[i])
  }

  /** strings.TrimSpace. */
  function TrimSpace(s: string): string
  {
    if s == "" then ""
    else if IsSpace(s[0]) then TrimSpace(s[1..])
    else if IsSpace(s[|s| - 1]) then TrimSpace(s[..|s| - 1])
    else s
  }

  lemma {:induction false} TrimmedAway(s: string)
    ensures TrimSpace(s) == "" <==> forall i :: 0 <= i < |s| ==> IsSpace(s[i])
    decreases |s|
  {
    if s != "" {
      if IsSpace(s[0]) {
        TrimmedAway(s[1..]);
        assert forall i :: 0 < i < |s| ==> s[i] == s[1..][i - 1];
      } else if IsSpace(s[|s| - 1]) {
        TrimmedAway(s[..|s| - 1]);
        assert s[..|s| - 1][0] == s[0];
      }
    }
  }

  /** A token is refused exactly if it is given, and trimming leaves nothing of it. */
  lemma BlankExactly(token: string)
    ensures Blank(token) <==> token != "" && TrimSpace(token) == ""
  {
    TrimmedAway(token);
  }

  /** White space is what Unicode says it is: 25 characters. */
  lemma SpacesAre(c: char)
    ensures IsSpace(c) <==> c as int in [
      9, 10, 11, 12, 13, 32, 0x85, 0xA0, 0x1680,
      0x2000, 0x2001, 0x2002, 0x2003, 0x2004, 0x2005, 0x2006, 0x2007, 0x2008, 0x2009, 0x200A,
      0x2028, 0x2029, 0x202F, 0x205F, 0x3000]
  {
  }

  predicate Rooted(path: string)
  {
    path != "" && path[0] == '/'
  }

  predicate BreaksServer(s: ServerConf, r: ServerRule)
  {
    match r
    case PortRange => s.port < 1 || s.port > 65535
    case QueueRange => s.maxQueueSize < 1
    case BytesRange => s.maxRequestBytes < 0
    case BlankAdmin => Blank(s.adminToken)
    case BlankProxy => Blank(s.proxyToken)
  }

  /** The first thing wrong with a target URL, if any. */
  function TargetFault(url: string, parse: string -> Url): Option<ServiceRule>
  {
    if url == "" then Some(NoTarget)
    else
      match parse(url)
      case BadUrl => Some(BadTarget)
      case Url(scheme, host) =>
        if scheme != "http" && scheme != "https" then Some(NotHttp)
        else if host == "" then Some(NoHost)
        else None
  }

  predicate BreaksService(c: Conf, parse: string -> Url, s: Service, r: ServiceRule)
  {
    match r
    case NoContainer => s.containerName == ""
    case BadHealthPath => !Rooted(s.healthPath)
    case BadStartup => s.startupTimeoutSeconds < 1
    case BadQueue => s.maxQueueSize < 0
    case UndefinedPool => s.pool.Some? && s.pool.value !in c.pools
    case _ => TargetFault(s.targetURL, parse) == Some(r)
  }

  predicate BreaksPool(c: Conf, name: Name, p: VRAMPool, r: PoolRule)
  {
    match r
    case BadGrace => p.graceSeconds < 0
    case BadCooldown => p.cooldownSeconds < 0
    case UndeclaredDefault => p.defaultSvc.Some? && p.defaultSvc.value !in c.services
    case ForeignDefault =>
      p.defaultSvc.Some? && p.defaultSvc.value in c.services && c.services[p.defaultSvc.value].pool != Some(name)
  }

  predicate BreaksRoute(c: Conf, route: Route, r: RouteRule)
  {
    match r
    case BadPrefix => !Rooted(route.pathPrefix)
    case NoService => route.service == ""
    case UndeclaredService => route.service != "" && route.service !in c.services
    case EmptyModel => "" in route.models
    case UndeclaredModel(model) => model in route.models && route.models[model] !in c.services
  }

  ghost predicate Share(c: Conf, a: Name, b: Name)
  {
    a in c.services && b in c.services && a != b
    && c.services[a].containerName == c.services[b].containerName != ""
  }

  /** No rule is broken. */
  ghost predicate Sound(c: Conf, parse: string -> Url)
  {
    && (forall r :: !BreaksServer(c.server, r))
    && c.services != map[] && c.routes != []
    && (forall n, r :: n in c.services ==> !BreaksService(c, parse, c.services[n], r))
    && (forall a, b :: !Share(c, a, b))
    && (forall p, r :: p in c.pools ==> !BreaksPool(c, p, c.pools[p], r))
    && (forall i, r :: 0 <= i < |c.routes| ==> !BreaksRoute(c, c.routes[i], r))
  }

  // --- what a sound configuration is, in one piece ---

  ghost predicate GoodToken(token: string)
  {
    token == "" || exists i :: 0 <= i < |token| && !IsSpace(token[i])
  }

  ghost predicate GoodTarget(url: string, parse: string -> Url)
  {
    url != "" && parse(url).Url? && parse(url).scheme in {"http", "https"} && parse(url).host != ""
  }

  ghost predicate GoodService(c: Conf, parse: string -> Url, n: Name)
    requires n in c.services
  {
    var s := c.services[n];
    && s.containerName != ""
    && (forall k :: k in c.services && c.services[k].containerName == s.containerName ==> k == n)
    && GoodTarget(s.targetURL, parse) && ['/'] <= s.healthPath
    && 1 <= s.startupTimeoutSeconds && 0 <= s.maxQueueSize
    && (s.pool == None || s.pool.value in c.pools)
  }

  ghost predicate GoodPool(c: Conf, p: Name)
    requires p in c.pools
  {
    var pool := c.pools[p];
    && 0 <= pool.graceSeconds && 0 <= pool.cooldownSeconds
    && (pool.defaultSvc == None
        || (pool.defaultSvc.value in c.services && c.services[pool.defaultSvc.value].pool == Some(p)))
  }

  ghost predicate GoodRoute(c: Conf, route: Route)
  {
    && ['/'] <= route.pathPrefix && route.service != "" && route.service in c.services
    && forall model :: model in route.models ==> model != "" && route.models[model] in c.services
  }

  lemma GoodTargetExactly(url: string, parse: string -> Url)
    ensures GoodTarget(url, parse) <==> TargetFault(url, parse) == None
  {
  }

  lemma GoodServiceExactly(c: Conf, parse: string -> Url, n: Name)
    requires n in c.services && forall a, b :: !Share(c, a, b)
    ensures GoodService(c, parse, n) <==> forall r :: !BreaksService(c, parse, c.services[n], r)
  {
    var s := c.services[n];
    GoodTargetExactly(s.targetURL, parse);
    if forall r :: !BreaksService(c, parse, s, r) {
      assert !BreaksService(c, parse, s, NoContainer) && !BreaksService(c, parse, s, BadHealthPath);
      assert !BreaksService(c, parse, s, BadStartup) && !BreaksService(c, parse, s, BadQueue);
      assert !BreaksService(c, parse, s, UndefinedPool) && !BreaksService(c, parse, s, NoTarget);
      assert !BreaksService(c, parse, s, BadTarget) && !BreaksService(c, parse, s, NotHttp);
      assert !BreaksService(c, parse, s, NoHost);
      forall k | k in c.services && c.services[k].containerName == s.containerName ensures k == n {
        assert !Share(c, k, n);
      }
    }
  }

  lemma GoodPoolExactly(c: Conf, p: Name)
    requires p in c.pools
    ensures GoodPool(c, p) <==> forall r :: !BreaksPool(c, p, c.pools[p], r)
  {
    var pool := c.pools[p];
    if forall r :: !BreaksPool(c, p, pool, r) {
      assert !BreaksPool(c, p, pool, BadGrace) && !BreaksPool(c, p, pool, BadCooldown);
      assert !BreaksPool(c, p, pool, UndeclaredDefault) && !BreaksPool(c, p, pool, ForeignDefault);
    }
  }

  lemma GoodRouteExactly(c: Conf, route: Route)
    ensures GoodRoute(c, route) <==> forall r :: !BreaksRoute(c, route, r)
  {
    if forall r :: !BreaksRoute(c, route, r) {
      assert !BreaksRoute(c, route, BadPrefix) && !BreaksRoute(c, route, NoService);
      assert !BreaksRoute(c, route, UndeclaredService) && !BreaksRoute(c, route, EmptyModel);
      forall model | model in route.models ensures model != "" && route.models[model] in c.services {
        assert !BreaksRoute(c, route, UndeclaredModel(model));
      }
    }
  }

  lemma GoodServerExactly(s: ServerConf)
    ensures (forall r :: !BreaksServer(s, r)) <==>
      1 <= s.port <= 65535 && 1 <= s.maxQueueSize && 0 <= s.maxRequestBytes
      && GoodToken(s.adminToken) && GoodToken(s.proxyToken)
  {
    if forall r :: !BreaksServer(s, r) {
      assert !BreaksServer(s, PortRange) && !BreaksServer(s, QueueRange) && !BreaksServer(s, BytesRange);
      assert !BreaksServer(s, BlankAdmin) && !BreaksServer(s, BlankProxy);
    }
  }

  /** No rule is broken exactly if everything is as the documentation of the file asks. */
  lemma SoundExactly(c: Conf, parse: string -> Url)
    ensures Sound(c, parse) <==>
      && 1 <= c.server.port <= 65535 && 1 <= c.server.maxQueueSize && 0 <= c.server.maxRequestBytes
      && GoodToken(c.server.adminToken) && GoodToken(c.server.proxyToken)
      && |c.services| >= 1 && (forall n :: n in c.services ==> GoodService(c, parse, n))
      && (forall p :: p in c.pools ==> GoodPool(c, p))
      && |c.routes| >= 1 && (forall i :: 0 <= i < |c.routes| ==> GoodRoute(c, c.routes[i]))
  {
    GoodServerExactly(c.server);
    NoneShareExactly(c, parse);
    forall p | p in c.pools ensures GoodPool(c, p) <==> forall r :: !BreaksPool(c, p, c.pools[p], r) {
      GoodPoolExactly(c, p);
    }
    forall i | 0 <= i < |c.routes|
      ensures GoodRoute(c, c.routes[i]) <==> forall r :: !BreaksRoute(c, c.routes[i], r)
    {
      GoodRouteExactly(c, c.routes[i]);
    }
  }

  lemma NoneShareExactly(c: Conf, parse: string -> Url)
    ensures (forall n :: n in c.services ==> GoodService(c, parse, n)) <==>
      && (forall n, r :: n in c.services ==> !BreaksService(c, parse, c.services[n], r))
      && (forall a, b :: !Share(c, a, b))
  {
    if forall n :: n in c.services ==> GoodService(c, parse, n) {
      forall a, b ensures !Share(c, a, b) {
        if a in c.services && b in c.services { assert GoodService(c, parse, a); }
      }
    }
    if forall a, b :: !Share(c, a, b) {
      forall n | n in c.services
        ensures GoodService(c, parse, n) <==> forall r :: !BreaksService(c, parse, c.services[n], r)
      {
        GoodServiceExactly(c, parse, n);
      }
    }
  }

  // --- the checks, in validate.go's order; map entries come in any order ---

  method CheckServer(s: ServerConf) returns (errs: seq<ServerRule>)
    ensures forall r :: r in errs <==> BreaksServer(s, r)
  {
    errs := [];
    if s.port < 1 || s.port > 65535 { errs := errs + [PortRange]; }
    if s.maxQueueSize < 1 { errs := errs + [QueueRange]; }
    if s.maxRequestBytes < 0 { errs := errs + [BytesRange]; }
    if Blank(s.adminToken) { errs := errs + [BlankAdmin]; }
    if Blank(s.proxyToken) { errs := errs + [BlankProxy]; }
  }

  method CheckTarget(url: string, parse: string -> Url) returns (errs: seq<ServiceRule>)
    ensures forall r :: r in errs <==> TargetFault(url, parse) == Some(r)
  {
    errs := [];
    if url == "" { return [NoTarget]; }
    var u := parse(url);
    if u.BadUrl? { return [BadTarget]; }
    if u.scheme != "http" && u.scheme != "https" { return [NotHttp]; }
    if u.host == "" { return [NoHost]; }
  }

  /** The switch of one service, and the checks after it. */
  method CheckService(c: Conf, parse: string -> Url, s: Service) returns (errs: seq<ServiceRule>)
    ensures forall r :: r in errs <==> BreaksService(c, parse, s, r)
  {
    errs := CheckTarget(s.targetURL, parse);
    assert forall r :: r in errs ==> r.NoTarget? || r.BadTarget? || r.NotHttp? || r.NoHost?;
    if s.containerName == "" { errs := [NoContainer] + errs; }
    if !Rooted(s.healthPath) { errs := errs + [BadHealthPath]; }
    if s.startupTimeoutSeconds < 1 { errs := errs + [BadStartup]; }
    if s.maxQueueSize < 0 { errs := errs + [BadQueue]; }
    if s.pool.Some? && s.pool.value !in c.pools { errs := errs + [UndefinedPool]; }
  }

  ghost predicate ServicesChecked(c: Conf, parse: string -> Url, done: set<Name>, errs: seq<Violation>)
  {
    forall n, r :: OfService(n, r) in errs <==>
      n in done && n in c.services && BreaksService(c, parse, c.services[n], r)
  }

  /** containerOwners: who was met first with each container. */
  ghost predicate OwnersKept(c: Conf, done: set<Name>, owners: map<Name, Name>)
  {
    && done <= c.services.Keys
    && (forall k :: k in owners ==> k != "" && owners[k] in done && c.services[owners[k]].containerName == k)
    && (forall n :: n in done && c.services[n].containerName != "" ==> c.services[n].containerName in owners)
  }

  /** Every claim on a container but the first is reported, against the first. */
  ghost predicate ClaimsChecked(c: Conf, done: set<Name>, owners: map<Name, Name>, errs: seq<Violation>)
  {
    forall a, b, k :: SharedContainer(a, b, k) in errs <==>
      b in done && b in c.services && k != "" && c.services[b].containerName == k && k in owners
          && owners[k] == a && a != b
  }

  method CheckServices(c: Conf, parse: string -> Url) returns (errs: seq<Violation>, ghost owners: map<Name, Name>)
    ensures ServicesChecked(c, parse, c.services.Keys, errs)
    ensures OwnersKept(c, c.services.Keys, owners) && ClaimsChecked(c, c.services.Keys, owners, errs)
    ensures forall v :: v in errs ==> v.OfService? || v.SharedContainer?
  {
    errs := [];
    var owned: map<Name, Name> := map[];
    var left := c.services.Keys;
    while left != {}
      invariant left <= c.services.Keys
      invariant ServicesChecked(c, parse, c.services.Keys - left, errs)
      invariant OwnersKept(c, c.services.Keys - left, owned)
      invariant ClaimsChecked(c, c.services.Keys - left, owned, errs)
      invariant forall v :: v in errs ==> v.OfService? || v.SharedContainer?
    {
      var name :| name in left;
      var s := c.services[name];
      left := left - {name};
      if s.containerName != "" {
        if s.containerName in owned {
          errs := errs + [SharedContainer(owned[s.containerName], name, s.containerName)];
        } else {
          owned := owned[s.containerName := name];
        }
      }
      var rules := CheckService(c, parse, s);
      errs := errs + Tagged(name, rules);
    }
    owners := owned;
  }

  function Tagged(name: Name, rules: seq<ServiceRule>): (r: seq<Violation>)
    ensures forall n, rule :: OfService(n, rule) in r <==> n == name && rule in rules
    ensures forall v :: v in r ==> v.OfService?
  {
    if rules == [] then [] else [OfService(name, rules[0])] + Tagged(name, rules[1..])
  }

  ghost predicate PoolsChecked(c: Conf, done: set<Name>, errs: seq<Violation>)
  {
    forall p, r :: OfPool(p, r) in errs <==> p in done && p in c.pools && BreaksPool(c, p, c.pools[p], r)
  }

  method CheckPools(c: Conf) returns (errs: seq<Violation>)
    ensures PoolsChecked(c, c.pools.Keys, errs)
    ensures forall v :: v in errs ==> v.OfPool?
  {
    errs := [];
    var left := c.pools.Keys;
    while left != {}
      invariant left <= c.pools.Keys
      invariant PoolsChecked(c, c.pools.Keys - left, errs)
      invariant forall v :: v in errs ==> v.OfPool?
    {
      var name :| name in left;
      var p := c.pools[name];
      left := left - {name};
      if p.graceSeconds < 0 { errs := errs + [OfPool(name, BadGrace)]; }
      if p.cooldownSeconds < 0 { errs := errs + [OfPool(name, BadCooldown)]; }
      if p.defaultSvc.Some? {
        var def := p.defaultSvc.value;
        if def !in c.services { errs := errs + [OfPool(name, UndeclaredDefault)]; }
        else if c.services[def].pool != Some(name) { errs := errs + [OfPool(name, ForeignDefault)]; }
      }
    }
  }

  method CheckModels(c: Conf, route: Route) returns (errs: seq<RouteRule>)
    ensures forall r :: r in errs <==> (r.EmptyModel? || r.UndeclaredModel?) && BreaksRoute(c, route, r)
  {
    errs := [];
    var left := route.models.Keys;
    while left != {}
      invariant left <= route.models.Keys
      invariant forall r :: r in errs <==>
        || (r.EmptyModel? && "" in route.models && "" !in left)
        || (r.UndeclaredModel? && r.model !in left && BreaksRoute(c, route, r))
    {
      var model :| model in left;
      left := left - {model};
      if model == "" { errs := errs + [EmptyModel]; }
      if route.models[model] !in c.services { errs := errs + [UndeclaredModel(model)]; }
    }
  }

  method CheckRoute(c: Conf, route: Route) returns (errs: seq<RouteRule>)
    ensures forall r :: r in errs <==> BreaksRoute(c, route, r)
  {
    errs := [];
    if !Rooted(route.pathPrefix) { errs := errs + [BadPrefix]; }
    if route.service == "" { errs := errs + [NoService]; }
    else if route.service !in c.services { errs := errs + [UndeclaredService]; }
    var models := CheckModels(c, route);
    errs := errs + models;
  }

  ghost predicate RoutesChecked(c: Conf, done: nat, errs: seq<Violation>)
  {
    forall i: nat, r :: OfRoute(i, r) in errs <==> i < done && i < |c.routes| && BreaksRoute(c, c.routes[i], r)
  }

  method CheckRoutes(c: Conf) returns (errs: seq<Violation>)
    ensures RoutesChecked(c, |c.routes|, errs)
    ensures forall v :: v in errs ==> v.OfRoute?
  {
    errs := [];
    for i := 0 to |c.routes|
      invariant RoutesChecked(c, i, errs)
      invariant forall v :: v in errs ==> v.OfRoute?
    {
      var rules := CheckRoute(c, c.routes[i]);
      errs := errs + Indexed(i, rules);
    }
  }

  function Indexed(i: nat, rules: seq<RouteRule>): (r: seq<Violation>)
    ensures forall k, rule :: OfRoute(k, rule) in r <==> k == i && rule in rules
    ensures forall v :: v in r ==> v.OfRoute?
  {
    if rules == [] then [] else [OfRoute(i, rules[0])] + Indexed(i, rules[1..])
  }

  function OfServers(rules: seq<ServerRule>): (r: seq<Violation>)
    ensures forall rule :: OfServer(rule) in r <==> rule in rules
    ensures forall v :: v in r ==> v.OfServer?
  {
    if rules == [] then [] else [OfServer(rules[0])] + OfServers(rules[1..])
  }

  ghost predicate Claims(c: Conf, n: Name, k: Name)
  {
    n in c.services && c.services[n].containerName == k
  }

  /** `first` is the claimant every other claimant of container k is reported against. */
  ghost predicate ReportedAgainst(c: Conf, errs: seq<Violation>, first: Name, k: Name)
  {
    Claims(c, first, k) && forall b :: Claims(c, b, k) && b != first ==> SharedContainer(first, b, k) in errs
  }

  ghost predicate ClaimsReported(c: Conf, errs: seq<Violation>)
  {
    && (forall a, b, k :: SharedContainer(a, b, k) in errs ==> Share(c, a, b) && Claims(c, a, k))
    && (forall n, k :: Claims(c, n, k) && k != "" ==> exists first :: ReportedAgainst(c, errs, first, k))
  }

  /** The joined error lists every broken rule and nothing else. */
  ghost predicate Reports(c: Conf, parse: string -> Url, errs: seq<Violation>)
  {
    && (forall r :: OfServer(r) in errs <==> BreaksServer(c.server, r))
    && (NoServices in errs <==> c.services == map[])
    && ServicesChecked(c, parse, c.services.Keys, errs)
    && ClaimsReported(c, errs)
    && PoolsChecked(c, c.pools.Keys, errs)
    && (NoRoutes in errs <==> c.routes == [])
    && RoutesChecked(c, |c.routes|, errs)
  }

  lemma OwnersReport(c: Conf, owners: map<Name, Name>, errs: seq<Violation>)
    requires OwnersKept(c, c.services.Keys, owners) && ClaimsChecked(c, c.services.Keys, owners, errs)
    ensures ClaimsReported(c, errs)
  {
    forall n, k | Claims(c, n, k) && k != "" ensures exists first :: ReportedAgainst(c, errs, first, k) {
      assert ReportedAgainst(c, errs, owners[k], k);
    }
  }

  lemma NothingReported(c: Conf, parse: string -> Url, errs: seq<Violation>)
    requires Reports(c, parse, errs) && errs == []
    ensures Sound(c, parse)
  {
    forall r ensures !BreaksServer(c.server, r) { assert OfServer(r) !in errs; }
    forall n, r | n in c.services ensures !BreaksService(c, parse, c.services[n], r) {
      assert OfService(n, r) !in errs;
    }
    forall p, r | p in c.pools ensures !BreaksPool(c, p, c.pools[p], r) { assert OfPool(p, r) !in errs; }
    forall i: nat, r | i < |c.routes| ensures !BreaksRoute(c, c.routes[i], r) { assert OfRoute(i, r) !in errs; }
    forall a, b ensures !Share(c, a, b) {
      if Share(c, a, b) { ShareIsReported(c, a, b, errs); }
    }
  }

  lemma ShareIsReported(c: Conf, a: Name, b: Name, errs: seq<Violation>)
    requires Share(c, a, b) && ClaimsReported(c, errs)
    ensures errs != []
  {
    var k := c.services[a].containerName;
    assert Claims(c, a, k) && Claims(c, b, k);
    var first :| ReportedAgainst(c, errs, first, k);
    assert SharedContainer(first, if first == a then b else a, k) in errs;
  }

  lemma ReportIsFault(c: Conf, parse: string -> Url, errs: seq<Violation>, v: Violation)
    requires Reports(c, parse, errs) && v in errs
    ensures !Sound(c, parse)
  {
    match v
    case SharedContainer(a, b, k) => assert Share(c, a, b);
    case OfServer(r) => assert BreaksServer(c.server, r);
    case OfService(n, r) => assert BreaksService(c, parse, c.services[n], r);
    case OfPool(p, r) => assert BreaksPool(c, p, c.pools[p], r);
    case OfRoute(i, r) => assert BreaksRoute(c, c.routes[i], r);
    case _ =>
  }

  /** validate: every violation in one pass, and none exactly for a sound configuration. */
  method Validate(c: Conf, parse: string -> Url) returns (errs: seq<Violation>)
    ensures Reports(c, parse, errs)
    ensures errs == [] <==> Sound(c, parse)
  {
    var serverErrs := CheckServer(c.server);
    errs := OfServers(serverErrs);
    if |c.services| == 0 { errs := errs + [NoServices]; }
    var serviceErrs, owners := CheckServices(c, parse);
    OwnersReport(c, owners, serviceErrs);
    var poolErrs := CheckPools(c);
    var noRoutes := if |c.routes| == 0 then [NoRoutes] else [];
    var routeErrs := CheckRoutes(c);
    ghost var head := errs;
    errs := errs + serviceErrs + poolErrs + noRoutes + routeErrs;
    Joined(c, parse, head, serviceErrs, poolErrs, noRoutes, routeErrs);
    if errs == [] { NothingReported(c, parse, errs); }
    else { ReportIsFault(c, parse, errs, errs[0]); }
  }

  lemma Joined(c: Conf, parse: string -> Url, head: seq<Violation>, services: seq<Violation>,
               pools: seq<Violation>, none: seq<Violation>, routes: seq<Violation>)
    requires forall v :: v in head ==> v.OfServer? || v.NoServices?
    requires forall r :: OfServer(r) in head <==> BreaksServer(c.server, r)
    requires NoServices in head <==> c.services == map[]
    requires forall v :: v in services ==> v.OfService? || v.SharedContainer?
    requires ServicesChecked(c, parse, c.services.Keys, services) && ClaimsReported(c, services)
    requires PoolsChecked(c, c.pools.Keys, pools) && forall v :: v in pools ==> v.OfPool?
    requires none == if c.routes == [] then [NoRoutes] else []
    requires RoutesChecked(c, |c.routes|, routes) && forall v :: v in routes ==> v.OfRoute?
    ensures Reports(c, parse, head + services + pools + none + routes)
  {
    var errs := head + services + pools + none + routes;
    forall n, k | Claims(c, n, k) && k != "" ensures exists first :: ReportedAgainst(c, errs, first, k) {
      var first :| ReportedAgainst(c, services, first, k);
      assert ReportedAgainst(c, errs, first, k);
    }
  }
}
