/**
The gateway process: what main builds from a directory of files, what its requests then get, and how
configuration reloads and requests share it afterwards.
*/
module Process {
  import opened Prelude
  import opened Config
  import opened Http
  import opened Loader
  import opened Routing
  import Layers
  import Upstream
  import Chain
  import PolicyEngine
  import opened Factory
  import opened OrderFree

  class SharedConfig {
    var current: ConfigStore

    constructor (store: ConfigStore)
      ensures current == store
    {
      current := store;
    }
  }

  /** What walking the configuration directory meets: whether it exists, the entries in the order they come, and the
      text of an exception the walk itself ends with. */
  datatype Scan = Scan(found: bool, entries: seq<DirEntry>, error: Option<string>)

  function FilesOf(scan: Scan): seq<DirEntry> {
    if scan.found then scan.entries else []
  }

  // ---------------------------------------------------------------- startup

  /** main up to the point where traffic is accepted: the process lives exactly when the walk does not throw and every
      JWT policy's key set can be fetched. Then the factory holds a gateway for these files with the given sort, and
      the shared configuration is its snapshot. */
  method Start(w: World, scan: Scan, sortRoutes: seq<PrefixRoute> -> seq<PrefixRoute>,
               sortPolicies: seq<PolicyConfig> -> seq<PolicyConfig>)
    returns (factory: GatewayHandlerFactory?, shared: SharedConfig?)
    requires Sorts(sortRoutes, LongestFirst()) && Sorts(sortPolicies, PolicyEngine.OrderOf())
    ensures factory != null <==> Starts(w, scan)
    ensures factory != null ==>
      && fresh(factory) && factory.Valid() && factory.rx == w.rx && factory.resolve == w.resolve
      && factory.engine.sort == sortPolicies
      && Boots(w, FilesOf(scan), factory.Snapshot())
      && shared != null && fresh(shared) && shared.current == factory.store
  {
    var loader := new ConfigLoader(w.conv, w.parse);
    loader.LoadFromDirectory(scan.found, scan.entries);
    if scan.error.Some? {
      return null, null;
    }
    var store := loader.store;
    var caches := PolicyEngine.FetchKeySets(store.policies, w.fetch);
    if caches.None? {
      return null, null;
    }
    shared := new SharedConfig(store);
    factory := new GatewayHandlerFactory(store, caches.value, w.rx, w.resolve, sortRoutes, sortPolicies);
  }

  ghost predicate Starts(w: World, scan: Scan) {
    scan.error.None? && PolicyEngine.AllFetched(w.fetch, Load(w.conv, w.parse, FilesOf(scan)).policies)
  }

  lemma StartsPermutes(w: World, a: Scan, b: Scan)
    requires multiset(FilesOf(a)) == multiset(FilesOf(b)) && a.error.None? && b.error.None?
    ensures Starts(w, a) <==> Starts(w, b)
  {
    StoresPermute(w, FilesOf(a), FilesOf(b));
    SameMembers(Load(w.conv, w.parse, FilesOf(a)).policies, Load(w.conv, w.parse, FilesOf(b)).policies);
  }

  /** File order on the objects themselves: two processes started from the same files in any two orders, with any
      sorting routines, both start or both do not, and their factories give a request that the configuration decides
      handlers of one outcome: the same error, or the same router, service, address and JWT layers. */
  method StartTwice(w: World, a: Scan, b: Scan, routesA: seq<PrefixRoute> -> seq<PrefixRoute>,
                    policiesA: seq<PolicyConfig> -> seq<PolicyConfig>, routesB: seq<PrefixRoute> -> seq<PrefixRoute>,
                    policiesB: seq<PolicyConfig> -> seq<PolicyConfig>, q: Routing.Request, env: Layers.Surroundings)
    returns (x: Option<Answer>, y: Option<Answer>)
    requires Sorts(routesA, LongestFirst()) && Sorts(policiesA, PolicyEngine.OrderOf())
    requires Sorts(routesB, LongestFirst()) && Sorts(policiesB, PolicyEngine.OrderOf())
    requires multiset(FilesOf(a)) == multiset(FilesOf(b)) && a.error.None? && b.error.None?
    requires PolicyEngine.NamesMeanOne(Load(w.conv, w.parse, FilesOf(a)).policies)
    requires Decided(w, Load(w.conv, w.parse, FilesOf(a)), q)
    ensures (x.Some? <==> Starts(w, a)) && (x.Some? <==> y.Some?)
    ensures x.Some? ==> OutcomeOf(x.value) == OutcomeOf(y.value)
  {
    x, y := None, None;
    StartsPermutes(w, a, b);
    var f, _ := Start(w, a, routesA, policiesA);
    var g, _ := Start(w, b, routesB, policiesB);
    if f == null || g == null {
      return;
    }
    var downstream := new ResponseHandler();
    var evb := new Chain.EventBase();
    ghost var s, t := f.Snapshot(), g.Snapshot();
    var fx := f.OnRequest(q, env, downstream, evb);
    var gy := g.OnRequest(q, env, downstream, evb);
    FileOrderIrrelevant(w, FilesOf(a), FilesOf(a), FilesOf(b), s, t, q, OutcomeOf(fx), OutcomeOf(gy));
    x, y := Some(fx), Some(gy);
  }

  // ---------------------------------------------------------------- who reaches the upstream server

  /** The request is complete, connected and allowed, and its router has no JWT reference, or exactly one and the
      request carries a bearer token good for the key set fetched with that policy's own configuration. */
  ghost predicate Admitted(fetch: PolicyEngine.Fetcher, policies: seq<PolicyConfig>, router: RouterConfig,
                           x: Chain.Exchange, es: seq<Upstream.Callback>, env: Layers.Surroundings)
  {
    var guards := PolicyEngine.JwtPolicies(policies, router.policies);
    && x.ended && Upstream.ConnectSuccess in es
    && Layers.LimiterAllows(env.store, x.msg.headers)
    && (guards == [] || (|guards| == 1 && BearerOwn(fetch, guards[0], env, x.msg.headers)))
  }

  ghost predicate BearerOwn(fetch: PolicyEngine.Fetcher, p: PolicyConfig, env: Layers.Surroundings, hs: Headers) {
    exists cache :: PolicyEngine.OwnKeySet(fetch, p, cache) && Layers.BearerGood(env.lib, cache, hs)
  }

  lemma AdmittedIff(fetch: PolicyEngine.Fetcher, policies: seq<PolicyConfig>, caches: map<string, Layers.JwksCache>,
                    guards: seq<PolicyConfig>, keySets: seq<Layers.JwksCache>, router: RouterConfig, x: Chain.Exchange,
                    es: seq<Upstream.Callback>, env: Layers.Surroundings)
    requires PolicyEngine.Fetched(caches, fetch, policies) && PolicyEngine.NamesMeanOne(policies)
    requires PolicyEngine.GuardsInOrder(policies, caches, router.policies, guards, keySets)
    ensures Admitted(fetch, policies, router, x, es, env) <==>
            && x.ended && Upstream.ConnectSuccess in es
            && Layers.LimiterAllows(env.store, x.msg.headers)
            && (keySets == [] || (|keySets| == 1 && Layers.BearerGood(env.lib, keySets[0], x.msg.headers)))
  {
    PolicyEngine.LayersAreOwn(policies, fetch, caches, router.policies, guards, keySets);
    PolicyEngine.OnlyOne(guards, PolicyEngine.JwtPolicies(policies, router.policies));
  }

  /** From the files to the wire: in a process started from uniquely named policies, anything goes to the upstream
      server for a request exactly when it is dispatched and admitted. */
  method StartAndHandle(w: World, scan: Scan, sortRoutes: seq<PrefixRoute> -> seq<PrefixRoute>,
                        sortPolicies: seq<PolicyConfig> -> seq<PolicyConfig>, x: Chain.Exchange,
                        es: seq<Upstream.Callback>, env: Layers.Surroundings, session: Upstream.Transaction)
    returns (factory: GatewayHandlerFactory?)
    requires Sorts(sortRoutes, LongestFirst()) && Sorts(sortPolicies, PolicyEngine.OrderOf())
    requires session.egress == [] && x.Valid() && Upstream.PhaseAfter(es).Some?
    requires PolicyEngine.NamesMeanOne(Load(w.conv, w.parse, FilesOf(scan)).policies)
    modifies session
    ensures factory != null <==> Starts(w, scan)
    ensures factory == null ==> session.egress == []
    ensures factory != null ==>
      && Boots(w, FilesOf(scan), factory.Snapshot())
      && var q := Routing.Request(x.msg.path, x.msg.verb);
         var d := Decide(factory.store, factory.View(), factory.serviceCache, w.rx, q);
         (session.egress != [] <==>
            && d.Dispatch? && d.router < |factory.store.routers|
            && Admitted(w.fetch, factory.store.policies, factory.store.routers[d.router], x, es, env))
  {
    var shared;
    factory, shared := Start(w, scan, sortRoutes, sortPolicies);
    if factory == null { return; }
    var downstream := new ResponseHandler();
    var evb := new Chain.EventBase();
    ghost var q := Routing.Request(x.msg.path, x.msg.verb);
    ghost var d := Decide(factory.store, factory.View(), factory.serviceCache, w.rx, q);
    factory.Handle(x, es, env, downstream, evb, session);
    HandledAdmits(w.fetch, factory, d, downstream.sent, session.egress, x, es, env);
  }

  lemma HandledAdmits(fetch: PolicyEngine.Fetcher, factory: GatewayHandlerFactory, d: Decision, sent: seq<Send>,
                      egress: seq<Upstream.Egress>, x: Chain.Exchange, es: seq<Upstream.Callback>,
                      env: Layers.Surroundings)
    requires factory.Handled(d, sent, egress, x, es, env)
    requires factory.engine.Valid() && factory.engine.policies == factory.store.policies
    requires PolicyEngine.Fetched(factory.engine.caches, fetch, factory.store.policies)
    requires PolicyEngine.NamesMeanOne(factory.store.policies)
    ensures egress != [] <==>
            && d.Dispatch? && d.router < |factory.store.routers|
            && Admitted(fetch, factory.store.policies, factory.store.routers[d.router], x, es, env)
  {
    if d.Dispatch? {
      var router := factory.store.routers[d.router];
      factory.engine.KeySetsInOrder(router.policies);
      AdmittedIff(fetch, factory.store.policies, factory.engine.caches, factory.engine.GuardsOf(router.policies),
                  factory.engine.KeySetsOf(router.policies), router, x, es, env);
      UpstreamReachedIff(sent, egress, x, es, env, router.destinations[0],
                         factory.store.services[d.service], factory.engine.KeySetsOf(router.policies));
    }
  }

  // ---------------------------------------------------------------- the admin handler

  const RELOADED := "{\"reloaded\":true}"
  const HEALTHY := "{\"status\":\"healthy\"}"
  const UNKNOWN := "{\"error\":\"not found\"}"

  predicate IsReload(msg: HttpMessage) {
    msg.path == "/config/reload" && msg.verb == "POST"
  }

  /** What the admin API answers. */
  function AdminAnswer(msg: HttpMessage, error: Option<string>): seq<Send> {
    if msg.path == "/healthz" && msg.verb == "GET" then FullResponse(200, HEALTHY)
    else if !IsReload(msg) then FullResponse(404, UNKNOWN)
    else if error.None? then FullResponse(200, RELOADED)
    else FullResponse(500, "{\"error\":\"" + error.value + "\"}")
  }

  /** The admin API answers 200 exactly to a health check and to a reload whose walk did not throw, 500 to one whose
      walk did, and 404 to all else. */
  lemma AdminCodes(msg: HttpMessage, error: Option<string>)
    ensures var reload := msg.path == "/config/reload" && msg.verb == "POST";
            Upstream.Codes(AdminAnswer(msg, error)) ==
            [if (msg.path == "/healthz" && msg.verb == "GET") || (reload && error.None?) then 200
             else if reload then 500 else 404]
  {
    Upstream.FullResponseReads(200, HEALTHY);
    Upstream.FullResponseReads(200, RELOADED);
    Upstream.FullResponseReads(404, UNKNOWN);
    if error.Some? { Upstream.FullResponseReads(500, "{\"error\":\"" + error.value + "\"}"); }
    assert "/healthz"[1] != "/config/reload"[1];
  }

  class AdminHandler {
    const conv: Converters
    const parse: Parser
    const shared: SharedConfig
    const downstream: ResponseHandler
    var requestHeaders: Option<HttpMessage>

    constructor (conv: Converters, parse: Parser, shared: SharedConfig, downstream: ResponseHandler)
      ensures this.conv == conv && this.parse == parse
      ensures this.shared == shared && this.downstream == downstream && requestHeaders == None
    {
      this.conv, this.parse, this.shared, this.downstream, requestHeaders := conv, parse, shared, downstream, None;
    }

    method OnRequest(msg: HttpMessage)
      modifies this
      ensures requestHeaders == Some(msg)
    {
      requestHeaders := Some(msg);
    }

    /** A reload loads the directory as it is now and swaps the shared configuration; a walk that throws leaves it. */
    method OnEOM(scan: Scan)
      requires requestHeaders.Some?
      modifies shared, downstream
      ensures var msg := requestHeaders.value;
              shared.current ==
              if msg.path == "/config/reload" && msg.verb == "POST" && scan.error.None?
              then Load(conv, parse, FilesOf(scan)) else old(shared.current)
      ensures downstream.sent == old(downstream.sent) + AdminAnswer(requestHeaders.value, scan.error)
    {
      var msg := requestHeaders.value;
      if msg.path == "/healthz" && msg.verb == "GET" {
        downstream.Emit(FullResponse(200, HEALTHY));
        return;
      }
      if msg.path == "/config/reload" && msg.verb == "POST" {
        var loader := new ConfigLoader(conv, parse);
        loader.LoadFromDirectory(scan.found, scan.entries);
        if scan.error.None? {
          shared.current := loader.store;
          downstream.Emit(FullResponse(200, RELOADED));
        } else {
          downstream.Emit(FullResponse(500, "{\"error\":\"" + scan.error.value + "\"}"));
        }
        return;
      }
      downstream.Emit(FullResponse(404, UNKNOWN));
    }
  }

  // ---------------------------------------------------------------- reloads and requests

  /** One thing the process is asked to do: an admin request with the state of the directory, or a client request. */
  datatype Work = Admin(msg: HttpMessage, scan: Scan) | Route(q: Routing.Request, env: Layers.Surroundings)

  function Asked(): Work -> Option<Routing.Request> {
    (k: Work) => if k.Route? then Some(k.q) else None
  }

  /** The directories of the successful reloads. */
  function Reloaded(): Work -> Option<seq<DirEntry>> {
    (k: Work) => if k.Admin? && IsReload(k.msg) && k.scan.error.None? then Some(FilesOf(k.scan)) else None
  }

  /** The configuration after some reloads. */
  function Latest(w: World, first: ConfigStore, reloads: seq<seq<DirEntry>>): ConfigStore {
    if reloads == [] then first else Load(w.conv, w.parse, reloads[|reloads| - 1])
  }

  /** Handlers that a gateway may give these requests, one each in order. */
  ghost predicate Answers(rx: RegexEngine, g: Gateway, asked: seq<Routing.Request>, answers: seq<Answer>) {
    |answers| == |asked| && forall i | 0 <= i < |asked| :: Gives(rx, g, asked[i], OutcomeOf(answers[i]))
  }

  lemma OneMoreAnswer(rx: RegexEngine, g: Gateway, asked: seq<Routing.Request>, answers: seq<Answer>,
                      q: Routing.Request, a: Answer)
    requires Answers(rx, g, asked, answers) && Gives(rx, g, q, OutcomeOf(a))
    ensures Answers(rx, g, asked + [q], answers + [a])
  {
  }

  /** One piece of work. */
  method Perform(w: World, factory: GatewayHandlerFactory, shared: SharedConfig, k: Work)
    returns (answer: Option<Answer>)
    requires factory.Valid()
    modifies shared
    ensures answer.Some? <==> Asked()(k).Some?
    ensures answer.Some? ==> Gives(factory.rx, old(factory.Snapshot()), Asked()(k).value, OutcomeOf(answer.value))
    ensures shared.current ==
            if Reloaded()(k).Some? then Load(w.conv, w.parse, Reloaded()(k).value) else old(shared.current)
  {
    match k
    case Route(q, env) =>
      var downstream := new ResponseHandler();
      var evb := new Chain.EventBase();
      var a := factory.OnRequest(q, env, downstream, evb);
      answer := Some(a);
    case Admin(msg, scan) =>
      var downstream := new ResponseHandler();
      var admin := new AdminHandler(w.conv, w.parse, shared, downstream);
      admin.OnRequest(msg);
      admin.OnEOM(scan);
      answer := None;
  }

  /** Over every interleaving of requests with successful and failed reloads, each request gets a handler and layers
      of the one snapshot the factory was built with, and the shared configuration is what the directory of the last
      successful reload loads to. */
  method Interleave(w: World, factory: GatewayHandlerFactory, shared: SharedConfig, work: seq<Work>)
    returns (answers: seq<Answer>)
    requires factory.Valid()
    modifies shared
    ensures Answers(factory.rx, old(factory.Snapshot()), FilterMap(Asked(), work), answers)
    ensures shared.current == Latest(w, old(shared.current), FilterMap(Reloaded(), work))
  {
    answers := [];
    ghost var g := factory.Snapshot();
    for i := 0 to |work|
      invariant factory.Valid() && factory.Snapshot() == g
      invariant Answers(factory.rx, g, FilterMap(Asked(), work[..i]), answers)
      invariant shared.current == Latest(w, old(shared.current), FilterMap(Reloaded(), work[..i]))
    {
      FilterMapSnoc(Asked(), work[..i], work[i]);
      FilterMapSnoc(Reloaded(), work[..i], work[i]);
      assert work[..i + 1] == work[..i] + [work[i]];
      var answer := Perform(w, factory, shared, work[i]);
      if answer.Some? {
        OneMoreAnswer(factory.rx, g, FilterMap(Asked(), work[..i]), answers, work[i].q, answer.value);
        answers := answers + [answer.value];
      }
    }
    assert work[..|work|] == work;
  }

  /** Whatever is asked, a proxied request goes to a router and a service of the snapshot, with a destination and a
      target for onEOM to find, and the service is the one the destination names. */
  lemma ProxiedFromSnapshot(w: World, files: seq<DirEntry>, g: Gateway, q: Routing.Request, out: Outcome)
    requires Boots(w, files, g) && Gives(w.rx, g, q, out) && out.Proxied?
    ensures out.router in g.store.routers && out.router.destinations != []
    ensures out.service in g.store.services && out.service.targets != []
    ensures out.service.name == out.router.destinations[0].destinationName
  {
    DispatchInRange(g.store, g.tables, g.services, w.rx, w.resolve, q);
  }
}
