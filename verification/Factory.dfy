/**
GatewayHandlerFactory: the tables and the service cache built once from a configuration snapshot, and the
handler chosen for each request.
*/
module Factory {
  import opened Prelude
  import opened Config
  import opened Http
  import opened Printing
  import opened Routing
  import opened Layers
  import opened Upstream
  import opened Chain
  import PolicyEngine

  // ---------------------------------------------------------------- services

  /** folly::SocketAddress::setFromHostPort; None when it throws. */
  type Resolver = (string, UInt16) -> Option<Address>

  /** `service` is the position in the snapshot of the service that `config` points to. */
  datatype CachedService = CachedService(service: nat, addrs: seq<Address>)

  function AddressOf(resolve: Resolver): Target -> Option<Address> {
    (t: Target) => resolve(t.host, t.port)
  }

  function IsService(name: string): ServiceConfig -> bool {
    (s: ServiceConfig) => s.name == name
  }

  /** The cache answers every name as a scan for the first service of that name does, with the addresses of the
      targets that resolve, in order. */
  ghost predicate CachesFirst(cache: map<string, CachedService>, resolve: Resolver, services: seq<ServiceConfig>) {
    forall name ::
      var at := FirstWhere(IsService(name), services);
      if at.None? then name !in cache
      else
        && name in cache
        && cache[name] == CachedService(at.value, FilterMap(AddressOf(resolve), services[at.value].targets))
  }

  /** One more service changes the cache only when its name is new. */
  lemma FirstServiceSnoc(cache: map<string, CachedService>, resolve: Resolver, services: seq<ServiceConfig>, i: nat)
    requires i < |services| && CachesFirst(cache, resolve, services[..i])
    ensures var svc := services[i];
            var added := cache[svc.name := CachedService(i, FilterMap(AddressOf(resolve), svc.targets))];
            CachesFirst(if svc.name in cache then cache else added, resolve, services[..i + 1])
  {
    var svc, less, more := services[i], services[..i], services[..i + 1];
    assert more[..i] == less;
    forall name
      ensures FirstWhere(IsService(name), more) ==
              if FirstWhere(IsService(name), less).Some? then FirstWhere(IsService(name), less)
              else if svc.name == name then Some(i) else None
    {
    }
  }

  /** The address the gateway dials is that of the first target that resolves. */
  lemma DialledTarget(resolve: Resolver, targets: seq<Target>) returns (k: nat)
    requires FilterMap(AddressOf(resolve), targets) != []
    ensures k < |targets| && AddressOf(resolve)(targets[k]) == Some(FilterMap(AddressOf(resolve), targets)[0])
    ensures forall j | 0 <= j < k :: AddressOf(resolve)(targets[j]).None?
  {
    k := FirstImage(AddressOf(resolve), targets, (a: Address) => true, 0);
  }

  /** There is one address per target exactly when all resolve. */
  lemma {:induction false} OneAddressPerTarget(resolve: Resolver, targets: seq<Target>)
    ensures |FilterMap(AddressOf(resolve), targets)| <= |targets|
    ensures |FilterMap(AddressOf(resolve), targets)| == |targets| <==>
            forall t | t in targets :: AddressOf(resolve)(t).Some?
  {
    if targets == [] {
    } else {
      OneAddressPerTarget(resolve, targets[..|targets| - 1]);
      assert targets == targets[..|targets| - 1] + [targets[|targets| - 1]];
    }
  }

  /** A host and port that stand for this address. */
  predicate ResolvesTo(resolve: Resolver, at: (string, nat), addr: Address) {
    at.1 < 0x1_0000 && resolve(at.0, at.1) == Some(addr)
  }

  /** Host is printed from the first target but `addr` is that of the first target that resolves. */
  lemma FirstTargetDialledIff(resolve: Resolver, targets: seq<Target>, protocol: string) returns (k: nat)
    requires FilterMap(AddressOf(resolve), targets) != []
    ensures k < |targets| && AddressOf(resolve)(targets[k]) == Some(FilterMap(AddressOf(resolve), targets)[0])
    ensures forall j | 0 <= j < k :: AddressOf(resolve)(targets[j]).None?
    ensures (targets[0].host, targets[0].port) == (targets[k].host, targets[k].port) <==>
            AddressOf(resolve)(targets[0]).Some?
    ensures ':' !in targets[0].host ==>
              (ResolvesTo(resolve, ReadHost(protocol, HostFor(protocol, targets[0].host, targets[0].port)),
                          FilterMap(AddressOf(resolve), targets)[0])
               <==> AddressOf(resolve)(targets[0]).Some?)
  {
    k := DialledTarget(resolve, targets);
    HostReads(protocol, targets[0].host, targets[0].port);
    assert AddressOf(resolve)(targets[0]).Some? ==> k == 0;
  }

  /** A service whose first target does not resolve: the request goes to the second with the first in Host. */
  lemma HostMismatchWitness(protocol: string, weight: Int32)
    returns (resolve: Resolver, targets: seq<Target>, dest: RouterDestination)
    ensures FilterMap(AddressOf(resolve), targets) == [Address("b", 8080)]
    ensures |targets| == 2 && AddressOf(resolve)(targets[1]) == Some(Address("b", 8080))
    ensures ReadHost(protocol, HostHeader(dest.rewrite, protocol, targets[0])) == ("a", 8080)
  {
    resolve := (host: string, port: UInt16) => if host == "b" then Some(Address(host, port)) else None;
    targets := [] + [Target("a", 8080, weight)] + [Target("b", 8080, weight)];
    dest := RouterDestination("Service", "svc", 100, None);
    FilterMapSnoc(AddressOf(resolve), [], targets[0]);
    FilterMapSnoc(AddressOf(resolve), [] + [targets[0]], targets[1]);
    HostReads(protocol, "a", 8080);
  }

  // ---------------------------------------------------------------- the decision

  datatype Decision = NoRoute | NoDestination | NoService | Dispatch(router: nat, service: nat, addr: Address)

  function Decide(store: ConfigStore, t: Tables, cache: map<string, CachedService>, rx: RegexEngine,
                  q: Routing.Request): Decision
  {
    var at := Lookup(t, rx, q);
    if at.None? || at.value >= |store.routers| then NoRoute else
    var router := store.routers[at.value];
    if router.destinations == [] then NoDestination else
    var name := router.destinations[0].destinationName;
    if name !in cache || cache[name].addrs == [] then NoService
    else Dispatch(at.value, cache[name].service, cache[name].addrs[0])
  }

  const NO_ROUTE := "{\"error\":\"not_found\",\"message\":\"no route matched\"}"
  const NO_DESTINATIONS := "{\"error\":\"bad_gateway\",\"message\":\"router has no destinations\"}"
  const NOT_CONFIGURED := "{\"error\":\"bad_gateway\",\"message\":\"upstream service not configured\"}"

  /** The handler the factory hands to Proxygen. */
  datatype Answer = NotFoundHandler | BadGatewayHandler(body: Bytes) | ChainHandler(head: Filter)

  /** A gateway as main leaves it: the snapshot, the tables and cache of the factory, the fetched key sets. */
  datatype Gateway = Gateway(
    store: ConfigStore,
    tables: Tables,
    services: map<string, CachedService>,
    keySets: map<string, JwksCache>)

  /** What a request gets: 404, 502, or a router, service, address and the key sets of its JWT layers. */
  datatype Outcome =
    | NotFound
    | BadGateway(body: Bytes)
    | Proxied(router: RouterConfig, service: ServiceConfig, addr: Address, layers: seq<JwksCache>)

  /** The gateway may give the request this outcome, for some arrangement of the active policies the sort may leave. */
  ghost predicate Gives(rx: RegexEngine, g: Gateway, q: Routing.Request, out: Outcome) {
    match Decide(g.store, g.tables, g.services, rx, q)
    case NoRoute => out == NotFound
    case NoDestination => out == BadGateway(NO_DESTINATIONS)
    case NoService => out == BadGateway(NOT_CONFIGURED)
    case Dispatch(r, s, addr) =>
      && r < |g.store.routers| && s < |g.store.services|
      && out.Proxied? && out == Proxied(g.store.routers[r], g.store.services[s], addr, out.layers)
      && LayersFor(g.store.policies, g.keySets, g.store.routers[r].policies, out.layers)
  }

  ghost predicate LayersFor(policies: seq<PolicyConfig>, keySets: map<string, JwksCache>, names: seq<string>,
                            layers: seq<JwksCache>) {
    exists arr :: IsArrangement(PolicyEngine.OrderOf(), arr, PolicyEngine.Active(policies, names))
                  && layers == FilterMap(PolicyEngine.CacheOf(keySets), arr)
  }

  function KeySetIn(): Layer -> Option<JwksCache> {
    (l: Layer) => if l.JwtLayer? then Some(l.cache) else None
  }

  /** The objects of a handler. */
  ghost function FiltersOf(answer: Answer): set<Filter> {
    if answer.ChainHandler? then {answer.head} + set f | f in answer.head.inner else {}
  }

  ghost function TerminalsOf(answer: Answer): set<GatewayHandler> {
    if answer.ChainHandler? then {answer.head.terminal} else {}
  }

  /** The outcome a handler stands for. */
  ghost function OutcomeOf(answer: Answer): Outcome {
    match answer
    case NotFoundHandler => NotFound
    case BadGatewayHandler(body) => BadGateway(body)
    case ChainHandler(head) =>
      Proxied(head.terminal.router, head.terminal.service, head.terminal.upstreamAddr,
              if head.Valid() then FilterMap(KeySetIn(), head.Layers()) else [])
  }

  lemma {:induction false} KeySetsInChain(keySets: seq<JwksCache>)
    ensures FilterMap(KeySetIn(), JwtLayers(keySets)) == keySets
    ensures FilterMap(KeySetIn(), ChainOf(keySets)) == keySets
  {
    if keySets == [] {
    } else {
      var init := keySets[..|keySets| - 1];
      KeySetsInChain(init);
      assert JwtLayers(keySets) == JwtLayers(init) + [JwtLayer(keySets[|keySets| - 1])];
      FilterMapSnoc(KeySetIn(), JwtLayers(init), JwtLayer(keySets[|keySets| - 1]));
    }
    FilterMapCons(KeySetIn(), HeaderLayer, JwtLayers(keySets));
    FilterMapSnoc(KeySetIn(), [HeaderLayer] + JwtLayers(keySets), RateLimitLayer(FAIL_OPEN));
  }

  /** A dispatch is in range of the snapshot, and onEOM will find a destination and a target. */
  lemma DispatchInRange(store: ConfigStore, t: Tables, cache: map<string, CachedService>, rx: RegexEngine,
                        resolve: Resolver, q: Routing.Request)
    requires Compiled(t, rx, Entries(store.routers)) && CachesFirst(cache, resolve, store.services)
    ensures Lookup(t, rx, q).Some? ==> Lookup(t, rx, q).value < |store.routers|
    ensures var d := Decide(store, t, cache, rx, q);
            d.Dispatch? ==>
              && d.router < |store.routers| && store.routers[d.router].destinations != []
              && d.service < |store.services| && store.services[d.service].targets != []
              && store.services[d.service].name == store.routers[d.router].destinations[0].destinationName
  {
    LookupRefinesScan(t, rx, store.routers, q);
    var d := Decide(store, t, cache, rx, q);
    if d.Dispatch? {
      var name := store.routers[d.router].destinations[0].destinationName;
      assert FirstWhere(IsService(name), store.services) == Some(d.service);
    }
  }

  /** Tables that gained the image of one more entry collect one more entry. */
  lemma CollectedSnoc(t: Tables, u: Tables, rx: RegexEngine, es: seq<Entry>, e: Entry)
    requires Collected(t, rx, es)
    requires forall p :: Bucket(u.exact, p) ==
                         Bucket(t.exact, p) + if ExactAt(p)(e).Some? then [ExactAt(p)(e).value] else []
    requires u.prefix == t.prefix + if PrefixOf()(e).Some? then [PrefixOf()(e).value] else []
    requires u.regex == t.regex + if RegexOf(rx)(e).Some? then [RegexOf(rx)(e).value] else []
    ensures Collected(u, rx, es + [e])
  {
    FilterMapSnoc(PrefixOf(), es, e);
    FilterMapSnoc(RegexOf(rx), es, e);
    forall p
      ensures Bucket(u.exact, p) == FilterMap(ExactAt(p), es + [e])
    {
      FilterMapSnoc(ExactAt(p), es, e);
    }
  }

  // ---------------------------------------------------------------- the object

  class GatewayHandlerFactory {
    const store: ConfigStore
    const rx: RegexEngine
    const resolve: Resolver
    const engine: PolicyEngine.Engine
    var exactRoutes: map<string, seq<ExactRoute>>
    var prefixRoutes: seq<PrefixRoute>
    var regexRoutes: seq<RegexRoute>
    var serviceCache: map<string, CachedService>

    function View(): Tables
      reads this
    {
      Tables(exactRoutes, prefixRoutes, regexRoutes)
    }

    ghost predicate Valid()
      reads this
    {
      && Compiled(View(), rx, Entries(store.routers))
      && CachesFirst(serviceCache, resolve, store.services)
      && engine.policies == store.policies && engine.Valid()
    }

    ghost function Snapshot(): Gateway
      reads this
    {
      Gateway(store, View(), serviceCache, engine.caches)
    }

    constructor (store: ConfigStore, caches: map<string, JwksCache>, rx: RegexEngine, resolve: Resolver,
                 sortRoutes: seq<PrefixRoute> -> seq<PrefixRoute>, sortPolicies: seq<PolicyConfig> -> seq<PolicyConfig>)
      requires Sorts(sortRoutes, LongestFirst()) && Sorts(sortPolicies, PolicyEngine.OrderOf())
      ensures Valid() && this.store == store && this.rx == rx && this.resolve == resolve
      ensures engine.caches == caches && engine.sort == sortPolicies
    {
      this.store, this.rx, this.resolve := store, rx, resolve;
      exactRoutes, prefixRoutes, regexRoutes, serviceCache := map[], [], [], map[];
      engine := new PolicyEngine.Engine(store.policies, caches, sortPolicies);
      new;
      CollectRoutes();
      prefixRoutes := sortRoutes(prefixRoutes);
      CacheServices();
    }

    /** The two nested loops over routers and rules. */
    method CollectRoutes()
      requires exactRoutes == map[] && prefixRoutes == [] && regexRoutes == []
      modifies this`exactRoutes, this`prefixRoutes, this`regexRoutes
      ensures Collected(View(), rx, Entries(store.routers))
    {
      for i := 0 to |store.routers|
        invariant Collected(View(), rx, Entries(store.routers[..i]))
      {
        CollectRules(store.routers[i].rules, i, Entries(store.routers[..i]));
        assert store.routers[..i + 1][..i] == store.routers[..i];
      }
      assert store.routers[..|store.routers|] == store.routers;
    }

    /** The inner loop. */
    method CollectRules(rules: seq<RouterRule>, i: nat, ghost before: seq<Entry>)
      requires Collected(View(), rx, before)
      modifies this`exactRoutes, this`prefixRoutes, this`regexRoutes
      ensures Collected(View(), rx, before + RuleEntries(rules, i))
    {
      ghost var own := RuleEntries(rules, i);
      assert before + own[..0] == before;
      for j := 0 to |rules|
        invariant Collected(View(), rx, before + own[..j])
      {
        AddRule(rules[j], i, before + own[..j]);
        assert before + own[..j + 1] == before + own[..j] + [own[j]];
      }
      assert own[..|rules|] == own;
    }

    /** The switch on the path type. */
    method AddRule(rule: RouterRule, i: nat, ghost es: seq<Entry>)
      requires Collected(View(), rx, es)
      modifies this`exactRoutes, this`prefixRoutes, this`regexRoutes
      ensures Collected(View(), rx, es + [Entry(rule, i)])
    {
      ghost var before := View();
      match rule.pathType {
        case Exact =>
          exactRoutes := exactRoutes[rule.path := Bucket(exactRoutes, rule.path) + [ExactRoute(rule.methods, i)]];
        case Prefix =>
          prefixRoutes := prefixRoutes + [PrefixRoute(rule.path, rule.methods, i)];
        case Regex =>
          if rx.compiles(rule.path) {
            regexRoutes := regexRoutes + [RegexRoute(rule.path, rule.methods, i)];
          }
      }
      CollectedSnoc(before, View(), rx, es, Entry(rule, i));
    }

    /** The loop over services; `emplace` keeps the first entry of a name. */
    method CacheServices()
      requires serviceCache == map[]
      modifies this`serviceCache
      ensures CachesFirst(serviceCache, resolve, store.services)
    {
      for i := 0 to |store.services|
        invariant CachesFirst(serviceCache, resolve, store.services[..i])
      {
        var svc := store.services[i];
        var addrs := ResolveTargets(svc.targets);
        FirstServiceSnoc(serviceCache, resolve, store.services, i);
        if svc.name !in serviceCache {
          serviceCache := serviceCache[svc.name := CachedService(i, addrs)];
        }
      }
      assert store.services[..|store.services|] == store.services;
    }

    method ResolveTargets(targets: seq<Target>) returns (addrs: seq<Address>)
      ensures addrs == FilterMap(AddressOf(resolve), targets)
    {
      addrs := [];
      for j := 0 to |targets|
        invariant addrs == FilterMap(AddressOf(resolve), targets[..j])
      {
        FilterMapSnoc(AddressOf(resolve), targets[..j], targets[j]);
        assert targets[..j + 1] == targets[..j] + [targets[j]];
        var addr := resolve(targets[j].host, targets[j].port);
        if addr.Some? {
          addrs := addrs + [addr.value];
        }
      }
      assert targets[..|targets|] == targets;
    }

    /** The three-tier search of onRequest. */
    method Match(q: Routing.Request) returns (matched: Option<nat>)
      ensures matched == Lookup(View(), rx, q)
    {
      matched := None;
      if q.path in exactRoutes {
        var bucket := exactRoutes[q.path];
        for i := 0 to |bucket|
          invariant forall j | 0 <= j < i :: !ExactHit(q.verb)(bucket[j])
        {
          if MethodMatches(bucket[i].methods, q.verb) {
            assert FirstWhere(ExactHit(q.verb), bucket) == Some(i);
            return Some(bucket[i].router);
          }
        }
      }
      for i := 0 to |prefixRoutes|
        invariant forall j | 0 <= j < i :: !PrefixHit(q)(prefixRoutes[j])
      {
        var r := prefixRoutes[i];
        if r.prefix <= q.path && MethodMatches(r.methods, q.verb) {
          assert FirstWhere(PrefixHit(q), prefixRoutes) == Some(i);
          return Some(r.router);
        }
      }
      for i := 0 to |regexRoutes|
        invariant forall j | 0 <= j < i :: !RegexHit(rx, q)(regexRoutes[j])
      {
        var r := regexRoutes[i];
        if rx.matches(r.pattern, q.path) && MethodMatches(r.methods, q.verb) {
          assert FirstWhere(RegexHit(rx, q), regexRoutes) == Some(i);
          return Some(r.router);
        }
      }
    }

    /** The checks of onRequest between the search and the handler. */
    method Choose(q: Routing.Request) returns (d: Decision)
      requires Valid()
      ensures d == Decide(store, View(), serviceCache, rx, q)
    {
      var matched := Match(q);
      DispatchInRange(store, View(), serviceCache, rx, resolve, q);
      if matched.None? { return NoRoute; }
      var router := store.routers[matched.value];
      if router.destinations == [] { return NoDestination; }
      var name := router.destinations[0].destinationName;
      if name !in serviceCache || serviceCache[name].addrs == [] { return NoService; }
      d := Dispatch(matched.value, serviceCache[name].service, serviceCache[name].addrs[0]);
    }

    /** The handler for a request: an error handler, or the chain of the matched router around a fresh terminal. */
    method OnRequest(q: Routing.Request, env: Surroundings, downstream: ResponseHandler, evb: EventBase)
      returns (answer: Answer)
      requires Valid()
      ensures Gives(rx, Snapshot(), q, OutcomeOf(answer))
      ensures AnswersFor(Decide(store, View(), serviceCache, rx, q), answer, env, downstream, evb)
      ensures (forall f | f in FiltersOf(answer) :: fresh(f)) && forall g | g in TerminalsOf(answer) :: fresh(g)
    {
      answer := MakeHandler(q, env, downstream, evb);
      ghost var d := Decide(store, View(), serviceCache, rx, q);
      if d.Dispatch? {
        KeySetsInChain(engine.KeySetsOf(store.routers[d.router].policies));
        SortedLayers(store.routers[d.router].policies);
      }
    }

    /** The answer carries out the decision; a chain has the key sets of its router. */
    ghost predicate AnswersFor(d: Decision, answer: Answer, env: Surroundings, downstream: ResponseHandler,
                               evb: EventBase)
      reads FiltersOf(answer), TerminalsOf(answer), downstream
    {
      match d
      case NoRoute => answer == NotFoundHandler
      case NoDestination => answer == BadGatewayHandler(NO_DESTINATIONS)
      case NoService => answer == BadGatewayHandler(NOT_CONFIGURED)
      case Dispatch(r, s, addr) =>
        && answer.ChainHandler? && r < |store.routers| && s < |store.services|
        && ReadyChain(answer.head, store.routers[r], store.services[s], addr, env, downstream, evb)
        && answer.head.Layers() == ChainOf(engine.KeySetsOf(store.routers[r].policies))
    }

    lemma SortedLayers(names: seq<string>)
      requires engine.Valid() && engine.policies == store.policies
      ensures LayersFor(store.policies, engine.caches, names, engine.KeySetsOf(names))
    {
      var active := PolicyEngine.Active(store.policies, names);
      assert IsArrangement(PolicyEngine.OrderOf(), engine.sort(active), active);
    }

    method MakeHandler(q: Routing.Request, env: Surroundings, downstream: ResponseHandler, evb: EventBase)
      returns (answer: Answer)
      requires Valid()
      ensures AnswersFor(Decide(store, View(), serviceCache, rx, q), answer, env, downstream, evb)
      ensures (forall f | f in FiltersOf(answer) :: fresh(f)) && forall g | g in TerminalsOf(answer) :: fresh(g)
    {
      var d := Choose(q);
      DispatchInRange(store, View(), serviceCache, rx, resolve, q);
      match d
      case NoRoute =>
        answer := NotFoundHandler;
      case NoDestination =>
        answer := BadGatewayHandler(NO_DESTINATIONS);
      case NoService =>
        answer := BadGatewayHandler(NOT_CONFIGURED);
      case Dispatch(r, s, addr) =>
        answer := MakeChain(store.routers[r], store.services[s], addr, env, downstream, evb);
    }

    method MakeChain(router: RouterConfig, service: ServiceConfig, addr: Address, env: Surroundings,
                     downstream: ResponseHandler, evb: EventBase)
      returns (answer: Answer)
      requires engine.Valid() && router.destinations != [] && service.targets != []
      ensures answer.ChainHandler? && ReadyChain(answer.head, router, service, addr, env, downstream, evb)
      ensures answer.head.Layers() == ChainOf(engine.KeySetsOf(router.policies))
      ensures (forall f | f in FiltersOf(answer) :: fresh(f)) && forall g | g in TerminalsOf(answer) :: fresh(g)
    {
      var terminal := new GatewayHandler(router, service, addr, downstream, evb);
      var head := engine.BuildChain(router, terminal, env);
      answer := ChainHandler(head);
    }

    /** A request from the factory to the last callback of its upstream call, whatever the configuration, the request,
        its chunking and the upstream run. */
    method Handle(x: Exchange, es: seq<Callback>, env: Surroundings, downstream: ResponseHandler, evb: EventBase,
                  session: Transaction)
      requires Valid() && downstream.sent == [] && session.egress == [] && x.Valid() && PhaseAfter(es).Some?
      modifies downstream, evb, session
      ensures var d := old(Decide(store, View(), serviceCache, rx, Routing.Request(x.msg.path, x.msg.verb)));
              && Handled(d, downstream.sent, session.egress, x, es, env)
              && (WellFormed(downstream.sent) <==> Refused(d, x, env) || Sound(x, es))
              && (WireAfter(downstream.sent) == Some(Complete) <==> Refused(d, x, env) || Finished(x, es))
              && Connects(d, old(evb.dials), evb.dials, x, env)
    {
      ghost var d := Decide(store, View(), serviceCache, rx, Routing.Request(x.msg.path, x.msg.verb));
      var answer := MakeHandler(Routing.Request(x.msg.path, x.msg.verb), env, downstream, evb);
      Respond(d, answer, x, es, env, downstream, evb, session);
      HandledState(d, downstream.sent, session.egress, x, es, env);
    }

    /** The handler at work. */
    method Respond(ghost d: Decision, answer: Answer, x: Exchange, es: seq<Callback>, env: Surroundings,
                   downstream: ResponseHandler, evb: EventBase, session: Transaction)
      requires AnswersFor(d, answer, env, downstream, evb)
      requires downstream.sent == [] && session.egress == [] && x.Valid() && PhaseAfter(es).Some?
      modifies downstream, evb, session
      modifies FiltersOf(answer), TerminalsOf(answer)
      ensures Handled(d, downstream.sent, session.egress, x, es, env)
      ensures Connects(d, old(evb.dials), evb.dials, x, env)
    {
      match answer
      case NotFoundHandler =>
        downstream.Emit(FullResponse(404, NO_ROUTE));
        assert downstream.sent == FullResponse(404, NO_ROUTE);
      case BadGatewayHandler(body) =>
        downstream.Emit(FullResponse(502, body));
        assert downstream.sent == FullResponse(502, body);
      case ChainHandler(head) =>
        ServeReady(head, store.routers[d.router], store.services[d.service], d.addr, env, downstream, evb,
                   session, x, es, engine.KeySetsOf(store.routers[d.router].policies));
    }

    /** What both sides have been sent after a decision. */
    ghost predicate Handled(d: Decision, sent: seq<Send>, egress: seq<Egress>, x: Exchange, es: seq<Callback>,
                            env: Surroundings) {
      match d
      case NoRoute => sent == FullResponse(404, NO_ROUTE) && egress == []
      case NoDestination => sent == FullResponse(502, NO_DESTINATIONS) && egress == []
      case NoService => sent == FullResponse(502, NOT_CONFIGURED) && egress == []
      case Dispatch(r, s, addr) =>
        && r < |store.routers| && s < |store.services|
        && store.routers[r].destinations != [] && store.services[s].targets != []
        && Served(sent, egress, x, es, env, store.routers[r].destinations[0], store.services[s],
                  engine.KeySetsOf(store.routers[r].policies))
    }

    /** The gateway itself answers: there is no one to dispatch to, or a filter blocks. */
    ghost predicate Refused(d: Decision, x: Exchange, env: Surroundings) {
      d.Dispatch? && d.router < |store.routers| ==>
        Through(env, ChainOf(engine.KeySetsOf(store.routers[d.router].policies)), x.msg.headers).BlockedAt?
    }

    /** The address of the decision is dialled once for a request that is not refused and has ended; nothing else is. */
    ghost predicate Connects(d: Decision, before: seq<Dial>, after: seq<Dial>, x: Exchange, env: Surroundings) {
      if !Refused(d, x, env) && x.ended then d.Dispatch? && OneMoreDial(before, after, d.addr) else after == before
    }

    /** onEOM prints Host from the first target but the factory dials the first target that resolves. So when anything
        is sent to the upstream server, `k` is the dialled target and Host is printed from the first one. Without a
        host rewrite the two have the same host and port exactly when the first target resolves; and for a host without
        a colon, that is exactly when the host and port read back from Host stand for the dialled address. */
    lemma HostNamesDialledTargetIff(d: Decision, sent: seq<Send>, egress: seq<Egress>, before: seq<Dial>,
                                    after: seq<Dial>, x: Exchange, es: seq<Callback>, env: Surroundings)
      returns (k: nat)
      requires Valid() && d == Decide(store, View(), serviceCache, rx, Routing.Request(x.msg.path, x.msg.verb))
      requires Handled(d, sent, egress, x, es, env) && Connects(d, before, after, x, env)
      requires egress != []
      ensures d.Dispatch? && d.router < |store.routers| && d.service < |store.services|
      ensures store.routers[d.router].destinations != [] && k < |store.services[d.service].targets|
      ensures egress[0].EgressHeaders? && |after| == |before| + 1
      ensures var rewrite, service := store.routers[d.router].destinations[0].rewrite, store.services[d.service];
              var first, dialled := service.targets[0], after[|before|].addr;
              var host := Values(egress[0].req.headers, HOST);
              && resolve(service.targets[k].host, service.targets[k].port) == Some(dialled)
              && (forall j | 0 <= j < k :: AddressOf(resolve)(service.targets[j]).None?)
              && host == [HostHeader(rewrite, service.protocol, first)]
              && (rewrite.None? || rewrite.value.host == "" ==>
                    && ((first.host, first.port) == (service.targets[k].host, service.targets[k].port)
                        <==> resolve(first.host, first.port).Some?)
                    && (':' !in first.host ==>
                          (ResolvesTo(resolve, ReadHost(service.protocol, host[0]), dialled)
                           <==> resolve(first.host, first.port).Some?)))
    {
      var service := store.services[d.service];
      var dest := store.routers[d.router].destinations[0];
      var r := Through(env, ChainOf(engine.KeySetsOf(store.routers[d.router].policies)), x.msg.headers);
      DispatchInRange(store, View(), serviceCache, rx, resolve, Routing.Request(x.msg.path, x.msg.verb));
      DispatchedAddress(d, Routing.Request(x.msg.path, x.msg.verb));
      k := FirstTargetDialledIff(resolve, service.targets, service.protocol);
      SetValues(r.headers, HOST, HostHeader(dest.rewrite, service.protocol, service.targets[0]), HOST);
    }

    /** What the upstream server is sent for a handled request: one complete request, with the bytes of the client's
        chunks, that forwards the client's own. With a verifier that keeps its word, the issuer the router's policy
        configures is the issuer it names. */
    lemma SentUpstream(d: Decision, sent: seq<Send>, egress: seq<Egress>, x: Exchange, es: seq<Callback>,
                       env: Surroundings, meantFor: (Token, string) -> bool)
      requires Handled(d, sent, egress, x, es, env) && egress != []
      ensures d.Dispatch? && d.router < |store.routers| && store.routers[d.router].destinations != []
      ensures RequestAfter(egress) == Some(Complete) && egress[0].EgressHeaders?
      ensures Flatten(FilterMap(BytesIn(), egress)) == Flatten(FilterMap(ChunkIn(), x.middle))
      ensures var router := store.routers[d.router];
              Forwards(env, engine.KeySetsOf(router.policies), router.destinations[0], x.msg, egress[0].req)
      ensures Demanding(env.lib, meantFor) ==>
                forall cache | cache in engine.KeySetsOf(store.routers[d.router].policies) && cache.cfg.issuer != "" ::
                  Values(egress[0].req.headers, "x-jwt-issuer") == [cache.cfg.issuer]
    {
      var router, service := store.routers[d.router], store.services[d.service];
      ServedUpstream(sent, egress, x, es, env, router.destinations[0], service, engine.KeySetsOf(router.policies),
                     meantFor);
    }

    /** The status codes the client of a handled request reads, in order. */
    lemma HandledCodes(d: Decision, sent: seq<Send>, egress: seq<Egress>, x: Exchange, es: seq<Callback>,
                       env: Surroundings)
      requires Handled(d, sent, egress, x, es, env) && PhaseAfter(es).Some?
      ensures match d
              case NoRoute => Codes(sent) == [404]
              case NoDestination => Codes(sent) == [502]
              case NoService => Codes(sent) == [502]
              case Dispatch(r, _, _) =>
                r < |store.routers|
                && var caches := engine.KeySetsOf(store.routers[r].policies);
                Codes(sent) ==
                if caches != [] && !(|caches| == 1 && BearerGood(env.lib, caches[0], x.msg.headers)) then [401]
                else if !LimiterAllows(env.store, x.msg.headers) then [429]
                else
                  seq(Upgrades(x), i => 400)
                  + if !x.ended then [] else if FailedEarly(es) then [502] else FilterMap(CodeOf(), es)
    {
      match d
      case NoRoute => FullResponseReads(404, NO_ROUTE);
      case NoDestination => FullResponseReads(502, NO_DESTINATIONS);
      case NoService => FullResponseReads(502, NOT_CONFIGURED);
      case Dispatch(r, s, addr) =>
        var caches := engine.KeySetsOf(store.routers[r].policies);
        var t := Through(env, ChainOf(caches), x.msg.headers);
        var hs := if t.Reached? then t.headers else [];
        ReachesTerminalIff(env, caches, x.msg.headers);
        RefusedWith(env, caches, x.msg.headers);
        SentCodes(t, x, BuildUpstream(store.routers[r].destinations[0], store.services[s].protocol,
                                      store.services[s].targets[0], x.msg.(headers := hs)), es);
    }

    lemma DispatchedAddress(d: Decision, q: Routing.Request)
      requires Valid() && d == Decide(store, View(), serviceCache, rx, q) && d.Dispatch?
      ensures d.service < |store.services|
      ensures var addrs := FilterMap(AddressOf(resolve), store.services[d.service].targets);
              addrs != [] && addrs[0] == d.addr
    {
      DispatchInRange(store, View(), serviceCache, rx, resolve, q);
      var name := store.routers[d.router].destinations[0].destinationName;
      assert FirstWhere(IsService(name), store.services) == Some(d.service);
    }

    /** The client of a handled request has been sent a well-formed response, complete or not, exactly under these
        conditions: it was refused, or no more than one response has begun; it was refused, or exactly one has ended. */
    lemma HandledState(d: Decision, sent: seq<Send>, egress: seq<Egress>, x: Exchange, es: seq<Callback>,
                       env: Surroundings)
      requires Handled(d, sent, egress, x, es, env) && PhaseAfter(es).Some?
      ensures WellFormed(sent) <==> Refused(d, x, env) || Sound(x, es)
      ensures WireAfter(sent) == Some(Complete) <==> Refused(d, x, env) || Finished(x, es)
    {
      match d
      case NoRoute => OneFullResponse(404, NO_ROUTE);
      case NoDestination => OneFullResponse(502, NO_DESTINATIONS);
      case NoService => OneFullResponse(502, NOT_CONFIGURED);
      case Dispatch(r, s, addr) =>
        var t := Through(env, ChainOf(engine.KeySetsOf(store.routers[r].policies)), x.msg.headers);
        var hs := if t.Reached? then t.headers else [];
        SentState(t, x, BuildUpstream(store.routers[r].destinations[0], store.services[s].protocol,
                                      store.services[s].targets[0], x.msg.(headers := hs)), es);
    }
  }

  /** What both sides have been sent for a request behind the key sets `caches`. */
  ghost predicate Served(sent: seq<Send>, egress: seq<Egress>, x: Exchange, es: seq<Callback>, env: Surroundings,
                         dest: RouterDestination, service: ServiceConfig, caches: seq<JwksCache>)
    requires service.targets != []
  {
    var r := Through(env, ChainOf(caches), x.msg.headers);
    if r.BlockedAt? then sent == FullResponse(r.status, r.body) && egress == []
    else
      var req := BuildUpstream(dest, service.protocol, service.targets[0], x.msg.(headers := r.headers));
      && sent == UpgradeAnswers(x) + Relayed(x, req, es)
      && egress == if x.ended && ConnectSuccess in es then RequestParts(req, x.Body()) else []
  }

  lemma ServedUpstream(sent: seq<Send>, egress: seq<Egress>, x: Exchange, es: seq<Callback>, env: Surroundings,
                       dest: RouterDestination, service: ServiceConfig, caches: seq<JwksCache>,
                       meantFor: (Token, string) -> bool)
    requires service.targets != [] && Served(sent, egress, x, es, env, dest, service, caches) && egress != []
    ensures RequestAfter(egress) == Some(Complete) && egress[0].EgressHeaders?
    ensures Flatten(FilterMap(BytesIn(), egress)) == Flatten(FilterMap(ChunkIn(), x.middle))
    ensures Forwards(env, caches, dest, x.msg, egress[0].req)
    ensures Demanding(env.lib, meantFor) ==>
              forall cache | cache in caches && cache.cfg.issuer != "" ::
                Values(egress[0].req.headers, "x-jwt-issuer") == [cache.cfg.issuer]
  {
    var out := Through(env, ChainOf(caches), x.msg.headers).headers;
    var req := BuildUpstream(dest, service.protocol, service.targets[0], x.msg.(headers := out));
    RequestIsWhole(req, x.Body());
    RequestBytesConserved(req, x);
    BuiltForwards(env, caches, dest, service.protocol, service.targets[0], x.msg, out);
    if Demanding(env.lib, meantFor) {
      BuiltNamesIssuer(env, caches, dest, service.protocol, service.targets[0], x.msg, out, meantFor);
    }
  }

  /** One request to a chain that is ready for it. */
  method ServeReady(head: Filter, ghost router: RouterConfig, ghost service: ServiceConfig, ghost addr: Address,
                    env: Surroundings, downstream: ResponseHandler, evb: EventBase, session: Transaction,
                    x: Exchange, es: seq<Callback>,
                    ghost caches: seq<JwksCache>)
    requires ReadyChain(head, router, service, addr, env, downstream, evb) && head.Layers() == ChainOf(caches)
    requires downstream.sent == [] && session.egress == [] && x.Valid() && PhaseAfter(es).Some?
    modifies head, (set f | f in head.inner), head.terminal, downstream, evb, session
    ensures router.destinations != [] && service.targets != []
    ensures Served(downstream.sent, session.egress, x, es, env, router.destinations[0], service, caches)
    ensures if Through(env, ChainOf(caches), x.msg.headers).Reached? && x.ended
            then OneMoreDial(old(evb.dials), evb.dials, addr)
            else evb.dials == old(evb.dials)
  {
    ServeTraffic(head, evb, session, x, es);
  }

  /** A chain no event has reached yet, around a terminal for this router, service and address. */
  ghost predicate ReadyChain(head: Filter, router: RouterConfig, service: ServiceConfig, addr: Address,
                             env: Surroundings, downstream: ResponseHandler, evb: EventBase)
    reads head, head.inner, head.terminal, downstream
  {
    && head.Valid() && head.Open() && head.env == env && head.downstream == downstream
    && head.terminal.router == router && head.terminal.service == service && head.terminal.upstreamAddr == addr
    && head.terminal.downstream == downstream && head.terminal.evb == evb
    && head.terminal.Dispatchable()
    && head.terminal.View() == Front(None, None, [], downstream.sent)
  }

  /** Anything reaches the upstream server exactly when the request is complete, the connection comes about, the limiter
      allows the client's tenant and route, and the route has no JWT layer, or one and a good bearer token. */
  lemma UpstreamReachedIff(sent: seq<Send>, egress: seq<Egress>, x: Exchange, es: seq<Callback>, env: Surroundings,
                           dest: RouterDestination, service: ServiceConfig, caches: seq<JwksCache>)
    requires service.targets != [] && Served(sent, egress, x, es, env, dest, service, caches)
    ensures egress != [] <==>
            && x.ended && ConnectSuccess in es
            && LimiterAllows(env.store, x.msg.headers)
            && (caches == [] || (|caches| == 1 && BearerGood(env.lib, caches[0], x.msg.headers)))
  {
    ReachesTerminalIff(env, caches, x.msg.headers);
  }
}
