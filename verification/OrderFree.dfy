/**
The directory iterator yields files in an unspecified order. This module follows a request from a directory to
its outcome and settles when that order can be seen.
*/
module OrderFree {
  import opened Prelude
  import opened Config
  import opened Loader
  import opened Routing
  import opened Layers
  import opened PolicyEngine
  import opened Factory

  // ---------------------------------------------------------------- routers by value

  /** A rule of router `r` matches and no rule of any router beats it. */
  ghost predicate Top(rx: RegexEngine, routers: seq<RouterConfig>, q: Routing.Request, r: RouterConfig) {
    r in routers && exists rule :: rule in r.rules && Unbeaten(rx, routers, q, rule)
  }

  ghost predicate Unbeaten(rx: RegexEngine, routers: seq<RouterConfig>, q: Routing.Request, rule: RouterRule) {
    && RuleMatches(rx, rule, q)
    && forall r, other | r in routers && other in r.rules && RuleMatches(rx, other, q) :: !Beats(other, rule)
  }

  /** All top candidates are one router. */
  ghost predicate OneTop(rx: RegexEngine, routers: seq<RouterConfig>, q: Routing.Request) {
    forall r, s | Top(rx, routers, q, r) && Top(rx, routers, q, s) :: r == s
  }

  /** The router a gateway with these tables sends the request to. */
  function RouterFor(t: Tables, rx: RegexEngine, routers: seq<RouterConfig>, q: Routing.Request): Option<RouterConfig> {
    var at := Lookup(t, rx, q);
    if at.Some? && at.value < |routers| then Some(routers[at.value]) else None
  }

  /** The chosen router is a top candidate, and there is one unless no rule matches. */
  lemma ChosenIsTop(t: Tables, rx: RegexEngine, routers: seq<RouterConfig>, q: Routing.Request)
    requires Compiled(t, rx, Entries(routers))
    ensures RouterFor(t, rx, routers, q).None? <==> Lookup(t, rx, q).None?
    ensures RouterFor(t, rx, routers, q).Some? ==> Top(rx, routers, q, RouterFor(t, rx, routers, q).value)
    ensures RouterFor(t, rx, routers, q).None? ==> forall r :: !Top(rx, routers, q, r)
  {
    var es := Entries(routers);
    LookupRefinesScan(t, rx, routers, q);
    if Lookup(t, rx, q).Some? {
      var k: nat :| ScanPick(rx, es, q, k) && es[k].router == Lookup(t, rx, q).value;
      EntriesInRange(routers, k);
      forall r, other | r in routers && other in r.rules && RuleMatches(rx, other, q)
        ensures !Beats(other, es[k].rule)
      {
        var i :| 0 <= i < |routers| && routers[i] == r;
        EntriesComplete(routers, i, other);
        assert Hit(rx, Entry(other, i), q);
      }
      assert Unbeaten(rx, routers, q, es[k].rule);
    } else {
      forall r
        ensures !Top(rx, routers, q, r)
      {
        if Top(rx, routers, q, r) {
          var rule :| rule in r.rules && Unbeaten(rx, routers, q, rule);
          var i :| 0 <= i < |routers| && routers[i] == r;
          EntriesComplete(routers, i, rule);
          assert Hit(rx, Entry(rule, i), q);
          assert false;
        }
      }
    }
  }

  /** Whether a router is a top candidate depends on which routers there are, not on their order. */
  lemma TopPermutes(rx: RegexEngine, routers: seq<RouterConfig>, others: seq<RouterConfig>, q: Routing.Request,
                    r: RouterConfig)
    requires multiset(routers) == multiset(others)
    ensures Top(rx, routers, q, r) <==> Top(rx, others, q, r)
  {
    SameMembers(routers, others);
    if r in routers {
      forall rule | rule in r.rules
        ensures Unbeaten(rx, routers, q, rule) <==> Unbeaten(rx, others, q, rule)
      {
      }
    }
  }

  lemma SameMembers<T>(a: seq<T>, b: seq<T>)
    requires multiset(a) == multiset(b)
    ensures forall x :: x in a <==> x in b
  {
    assert forall x :: x in a <==> x in multiset(a);
    assert forall x :: x in b <==> x in multiset(b);
  }

  lemma {:induction false} FirstEntries(routers: seq<RouterConfig>)
    requires routers != []
    ensures |routers[0].rules| <= |Entries(routers)|
    ensures forall j | 0 <= j < |routers[0].rules| :: Entries(routers)[j] == Entry(routers[0].rules[j], 0)
  {
    var n := |routers| - 1;
    if n > 0 {
      FirstEntries(routers[..n]);
      assert routers[..n][0] == routers[0];
    } else {
      assert Entries(routers) == [] + RuleEntries(routers[0].rules, 0);
    }
  }

  lemma UnbeatenEntry(rx: RegexEngine, routers: seq<RouterConfig>, q: Routing.Request, rule: RouterRule, i: nat)
    requires Unbeaten(rx, routers, q, rule) && i < |Entries(routers)| && Hit(rx, Entries(routers)[i], q)
    ensures !Beats(Entries(routers)[i].rule, rule)
  {
    EntriesInRange(routers, i);
  }

  lemma FirstTopPick(rx: RegexEngine, routers: seq<RouterConfig>, q: Routing.Request, j: nat) returns (k: nat)
    requires routers != [] && j < |routers[0].rules| && Unbeaten(rx, routers, q, routers[0].rules[j])
    ensures ScanPick(rx, Entries(routers), q, k) && Entries(routers)[k].router == 0
  {
    var es, rule := Entries(routers), routers[0].rules[j];
    FirstEntries(routers);
    assert es[j] == Entry(rule, 0);
    k := if rule.pathType.Prefix? then j else FirstOfTier(rx, es, q, j);
    assert es[k] == Entry(routers[0].rules[k], 0);
    forall i | 0 <= i < |es| && Hit(rx, es[i], q)
      ensures !Beats(es[i].rule, es[k].rule)
    {
      UnbeatenEntry(rx, routers, q, rule, i);
    }
  }

  /** A top candidate that stands first in the configuration is chosen for some arrangement. */
  lemma FirstTopChosen(rx: RegexEngine, routers: seq<RouterConfig>, q: Routing.Request) returns (t: Tables)
    requires routers != [] && Top(rx, routers, q, routers[0])
    ensures Compiled(t, rx, Entries(routers)) && Lookup(t, rx, q) == Some(0)
  {
    var rule :| rule in routers[0].rules && Unbeaten(rx, routers, q, rule);
    var j :| 0 <= j < |routers[0].rules| && routers[0].rules[j] == rule;
    var k := FirstTopPick(rx, routers, q, j);
    t := EveryPickIsReachable(rx, Entries(routers), q, k);
  }

  /** The first entry of the tier of `j` that matches. */
  ghost function FirstOfTier(rx: RegexEngine, es: seq<Entry>, q: Routing.Request, j: nat): (k: nat)
    requires j < |es| && Hit(rx, es[j], q)
    ensures k <= j && Hit(rx, es[k], q) && Tier(es[k].rule) == Tier(es[j].rule)
    ensures forall i | 0 <= i < k && Hit(rx, es[i], q) :: Tier(es[i].rule) != Tier(es[j].rule)
  {
    FirstWhere((e: Entry) => Hit(rx, e, q) && Tier(e.rule) == Tier(es[j].rule), es).value
  }

  // ---------------------------------------------------------------- the choice of router

  /** Everything outside the gateway that its answers depend on. */
  datatype World = World(
    conv: Converters,
    parse: Parser,
    rx: RegexEngine,
    resolve: Resolver,
    fetch: Fetcher)

  /** A gateway started from these files may send the request to `choice`. */
  ghost predicate MayChoose(w: World, files: seq<DirEntry>, q: Routing.Request, choice: Option<RouterConfig>) {
    var routers := Load(w.conv, w.parse, files).routers;
    exists t :: Compiled(t, w.rx, Entries(routers)) && RouterFor(t, w.rx, routers, q) == choice
  }

  /** Neither the order of the files nor the sort can be seen in the choice of router. */
  ghost predicate ChoiceOrderFree(w: World, files: seq<DirEntry>, q: Routing.Request) {
    forall a, b, x, y | multiset(a) == multiset(files) && multiset(b) == multiset(files)
                        && MayChoose(w, a, q, x) && MayChoose(w, b, q, y) :: x == y
  }

  lemma RoutersPermute(w: World, a: seq<DirEntry>, b: seq<DirEntry>)
    requires multiset(a) == multiset(b)
    ensures multiset(Load(w.conv, w.parse, a).routers) == multiset(Load(w.conv, w.parse, b).routers)
  {
    LoadIsPartition(w.conv, w.parse, a);
    LoadIsPartition(w.conv, w.parse, b);
    FilterMapPermutes(Routers(w.parse), a, b);
  }

  lemma RouterFirst(w: World, files: seq<DirEntry>, r: RouterConfig) returns (moved: seq<DirEntry>)
    requires r in Load(w.conv, w.parse, files).routers
    ensures multiset(moved) == multiset(files)
    ensures Load(w.conv, w.parse, moved).routers != [] && Load(w.conv, w.parse, moved).routers[0] == r
  {
    LoadIsPartition(w.conv, w.parse, files);
    var e, left, right := MoveToFront(Routers(w.parse), files, r);
    moved := [e] + (left + right);
    LoadIsPartition(w.conv, w.parse, moved);
  }

  /** Moving the file of a top candidate to the front makes it the choice. */
  lemma TopMayBeChosen(w: World, files: seq<DirEntry>, q: Routing.Request, r: RouterConfig)
    returns (moved: seq<DirEntry>)
    requires Top(w.rx, Load(w.conv, w.parse, files).routers, q, r)
    ensures multiset(moved) == multiset(files) && MayChoose(w, moved, q, Some(r))
  {
    moved := RouterFirst(w, files, r);
    var routers := Load(w.conv, w.parse, moved).routers;
    RoutersPermute(w, files, moved);
    TopPermutes(w.rx, Load(w.conv, w.parse, files).routers, routers, q, r);
    var t := FirstTopChosen(w.rx, routers, q);
    assert RouterFor(t, w.rx, routers, q) == Some(r);
  }

  /** The order of the files and the outcome of the sort are invisible in the choice of router exactly when all top
      candidates for the request are one router. */
  lemma ChoiceOrderFreeIff(w: World, files: seq<DirEntry>, q: Routing.Request)
    ensures ChoiceOrderFree(w, files, q) <==> OneTop(w.rx, Load(w.conv, w.parse, files).routers, q)
  {
    var routers := Load(w.conv, w.parse, files).routers;
    if ChoiceOrderFree(w, files, q) {
      forall r, s | Top(w.rx, routers, q, r) && Top(w.rx, routers, q, s)
        ensures r == s
      {
        var a := TopMayBeChosen(w, files, q, r);
        var b := TopMayBeChosen(w, files, q, s);
        assert Some(r) == Some(s);
      }
    }
    if OneTop(w.rx, routers, q) {
      forall a, b, x, y | multiset(a) == multiset(files) && multiset(b) == multiset(files)
                          && MayChoose(w, a, q, x) && MayChoose(w, b, q, y)
        ensures x == y
      {
        ChoiceIsTop(w, files, a, q, x);
        ChoiceIsTop(w, files, b, q, y);
      }
    }
  }

  lemma ChoiceIsTop(w: World, files: seq<DirEntry>, a: seq<DirEntry>, q: Routing.Request, choice: Option<RouterConfig>)
    requires multiset(a) == multiset(files) && MayChoose(w, a, q, choice)
    ensures var routers := Load(w.conv, w.parse, files).routers;
            if choice.Some? then Top(w.rx, routers, q, choice.value) else forall r :: !Top(w.rx, routers, q, r)
  {
    var routers, moved := Load(w.conv, w.parse, files).routers, Load(w.conv, w.parse, a).routers;
    var t :| Compiled(t, w.rx, Entries(moved)) && RouterFor(t, w.rx, moved, q) == choice;
    ChosenIsTop(t, w.rx, moved, q);
    RoutersPermute(w, a, files);
    forall r { TopPermutes(w.rx, moved, routers, q, r); }
  }

  // ---------------------------------------------------------------- the plan for a request

  /** `g` may come out of startup on these files. */
  ghost predicate Boots(w: World, files: seq<DirEntry>, g: Gateway) {
    && g.store == Load(w.conv, w.parse, files)
    && Fetched(g.keySets, w.fetch, g.store.policies)
    && Compiled(g.tables, w.rx, Entries(g.store.routers))
    && CachesFirst(g.services, w.resolve, g.store.services)
  }

  /** The decision told by values instead of positions. */
  datatype Plan = Refused(out: Outcome) | Planned(router: RouterConfig, service: ServiceConfig, addr: Address)

  /** The service a scan for the first of the destination's name finds. */
  function ServiceFor(services: seq<ServiceConfig>, r: RouterConfig): Option<ServiceConfig> {
    if r.destinations == [] then None
    else
      var at := FirstWhere(IsService(r.destinations[0].destinationName), services);
      if at.Some? then Some(services[at.value]) else None
  }

  function PlanBy(r: RouterConfig, service: Option<ServiceConfig>, resolve: Resolver): Plan {
    if r.destinations == [] then Refused(BadGateway(NO_DESTINATIONS))
    else if service.None? then Refused(BadGateway(NOT_CONFIGURED))
    else
      var addrs := FilterMap(AddressOf(resolve), service.value.targets);
      if addrs == [] then Refused(BadGateway(NOT_CONFIGURED)) else Planned(r, service.value, addrs[0])
  }

  function PlanOf(w: World, g: Gateway, q: Routing.Request): Plan {
    var router := RouterFor(g.tables, w.rx, g.store.routers, q);
    if router.None? then Refused(NotFound)
    else PlanBy(router.value, ServiceFor(g.store.services, router.value), w.resolve)
  }

  lemma DecisionIsPlan(w: World, g: Gateway, q: Routing.Request)
    requires CachesFirst(g.services, w.resolve, g.store.services) && Compiled(g.tables, w.rx, Entries(g.store.routers))
    ensures var d, plan := Decide(g.store, g.tables, g.services, w.rx, q), PlanOf(w, g, q);
            && (d.NoRoute? ==> plan == Refused(NotFound))
            && (d.NoDestination? ==> plan == Refused(BadGateway(NO_DESTINATIONS)))
            && (d.NoService? ==> plan == Refused(BadGateway(NOT_CONFIGURED)))
            && (d.Dispatch? ==>
                  && d.router < |g.store.routers| && d.service < |g.store.services|
                  && plan == Planned(g.store.routers[d.router], g.store.services[d.service], d.addr))
  {
    var router := RouterFor(g.tables, w.rx, g.store.routers, q);
    if router.Some? && router.value.destinations != [] {
      var name := router.value.destinations[0].destinationName;
      assert name in g.services <==> FirstWhere(IsService(name), g.store.services).Some?;
    }
  }

  /** An outcome is the plan for the chosen router with layers the sort may leave, and every such outcome is given. */
  lemma GivesPlan(w: World, g: Gateway, q: Routing.Request, out: Outcome)
    requires CachesFirst(g.services, w.resolve, g.store.services) && Compiled(g.tables, w.rx, Entries(g.store.routers))
    ensures Gives(w.rx, g, q, out) <==> CarriesOut(g, PlanOf(w, g, q), out)
  {
    DecisionIsPlan(w, g, q);
  }

  /** The plan with layers the sort may leave. */
  ghost predicate CarriesOut(g: Gateway, plan: Plan, out: Outcome) {
    if plan.Refused? then out == plan.out
    else
      && out.Proxied? && out == Proxied(plan.router, plan.service, plan.addr, out.layers)
      && LayersFor(g.store.policies, g.keySets, plan.router.policies, out.layers)
  }

  /** `c` is a service of the name of the router's destination; None when there is none. */
  ghost predicate MayServe(services: seq<ServiceConfig>, r: RouterConfig, c: Option<ServiceConfig>) {
    if r.destinations == [] then c.None?
    else if c.Some? then c.value in services && c.value.name == r.destinations[0].destinationName
    else forall s | s in services :: s.name != r.destinations[0].destinationName
  }

  /** A plan told without positions: some top candidate with some service of its destination's name. */
  ghost predicate MayPlan(w: World, store: ConfigStore, q: Routing.Request, plan: Plan) {
    || (plan == Refused(NotFound) && forall r :: !Top(w.rx, store.routers, q, r))
    || exists r, c ::
         Top(w.rx, store.routers, q, r) && MayServe(store.services, r, c) && plan == PlanBy(r, c, w.resolve)
  }

  lemma StoresPermute(w: World, a: seq<DirEntry>, b: seq<DirEntry>)
    requires multiset(a) == multiset(b)
    ensures var s, t := Load(w.conv, w.parse, a), Load(w.conv, w.parse, b);
            && multiset(s.routers) == multiset(t.routers)
            && multiset(s.services) == multiset(t.services)
            && multiset(s.policies) == multiset(t.policies)
  {
    LoadIsPartition(w.conv, w.parse, a);
    LoadIsPartition(w.conv, w.parse, b);
    FilterMapPermutes(Routers(w.parse), a, b);
    FilterMapPermutes(Services(w.parse), a, b);
    FilterMapPermutes(Policies(w.parse), a, b);
  }

  lemma ServiceForServes(services: seq<ServiceConfig>, others: seq<ServiceConfig>, r: RouterConfig)
    requires multiset(services) == multiset(others)
    ensures MayServe(others, r, ServiceFor(services, r))
  {
    SameMembers(services, others);
  }

  /** The plan of every gateway, in whatever order its files were read, is one of those told without positions. */
  lemma PlanIsPossible(w: World, files: seq<DirEntry>, a: seq<DirEntry>, g: Gateway, q: Routing.Request)
    requires multiset(a) == multiset(files) && Boots(w, a, g)
    ensures MayPlan(w, Load(w.conv, w.parse, files), q, PlanOf(w, g, q))
  {
    var store := Load(w.conv, w.parse, files);
    var router := RouterFor(g.tables, w.rx, g.store.routers, q);
    StoresPermute(w, a, files);
    ChosenIsTop(g.tables, w.rx, g.store.routers, q);
    forall r { TopPermutes(w.rx, g.store.routers, store.routers, q, r); }
    if router.Some? {
      ServiceForServes(g.store.services, store.services, router.value);
    }
  }

  // ---------------------------------------------------------------- every plan comes about

  lemma ServicesExist(resolve: Resolver, services: seq<ServiceConfig>) returns (cache: map<string, CachedService>)
    ensures CachesFirst(cache, resolve, services)
  {
    var names := set s | s in services :: s.name;
    cache := map name | name in names && FirstWhere(IsService(name), services).Some? ::
      var at := FirstWhere(IsService(name), services).value;
      CachedService(at, FilterMap(AddressOf(resolve), services[at].targets));
    forall name | FirstWhere(IsService(name), services).Some?
      ensures name in names
    {
      assert services[FirstWhere(IsService(name), services).value] in services;
    }
  }

  lemma {:induction false} LastJwtIn(policies: seq<PolicyConfig>, name: string)
    requires LastJwt(policies, name).Some?
    ensures exists p :: p in policies && p.name == name && JwtOf(p) == LastJwt(policies, name)
  {
    var p := policies[|policies| - 1];
    if p.name == name && JwtOf(p).Some? {
      assert p in policies;
    } else {
      LastJwtIn(policies[..|policies| - 1], name);
    }
  }

  lemma KeySetsExist(fetch: Fetcher, policies: seq<PolicyConfig>) returns (caches: map<string, JwksCache>)
    requires AllFetched(fetch, policies)
    ensures Fetched(caches, fetch, policies)
  {
    var names := set p | p in policies :: p.name;
    forall name | LastJwt(policies, name).Some?
      ensures name in names && fetch(LastJwt(policies, name).value).Some?
    {
      LastJwtIn(policies, name);
    }
    caches := map name | name in names && LastJwt(policies, name).Some? ::
      var cfg := LastJwt(policies, name).value;
      JwksCache(cfg, fetch(cfg).value);
  }

  lemma GatewayWith(w: World, files: seq<DirEntry>, t: Tables) returns (g: Gateway)
    requires AllFetched(w.fetch, Load(w.conv, w.parse, files).policies)
    requires Compiled(t, w.rx, Entries(Load(w.conv, w.parse, files).routers))
    ensures Boots(w, files, g) && g.tables == t
  {
    var store := Load(w.conv, w.parse, files);
    var keySets := KeySetsExist(w.fetch, store.policies);
    var services := ServicesExist(w.resolve, store.services);
    g := Gateway(store, t, services, keySets);
  }

  /** A router and a service can each come first of their kind. */
  lemma BothFirst(w: World, files: seq<DirEntry>, r: RouterConfig, s: ServiceConfig) returns (moved: seq<DirEntry>)
    requires r in Load(w.conv, w.parse, files).routers && s in Load(w.conv, w.parse, files).services
    ensures multiset(moved) == multiset(files)
    ensures var store := Load(w.conv, w.parse, moved);
            store.routers != [] && store.routers[0] == r && store.services != [] && store.services[0] == s
  {
    var first := ServiceFirst(w, files, s);
    RoutersPermute(w, files, first);
    SameMembers(Load(w.conv, w.parse, files).routers, Load(w.conv, w.parse, first).routers);
    LoadIsPartition(w.conv, w.parse, first);
    var e, left, right := MoveToFront(Routers(w.parse), first, r);
    moved := [e] + (left + right);
    LoadIsPartition(w.conv, w.parse, moved);
    FilterMapSkip(Services(w.parse), left, e, right);
  }

  lemma ServiceFirst(w: World, files: seq<DirEntry>, s: ServiceConfig) returns (moved: seq<DirEntry>)
    requires s in Load(w.conv, w.parse, files).services
    ensures multiset(moved) == multiset(files)
    ensures Load(w.conv, w.parse, moved).services != [] && Load(w.conv, w.parse, moved).services[0] == s
  {
    LoadIsPartition(w.conv, w.parse, files);
    var e, left, right := MoveToFront(Services(w.parse), files, s);
    moved := [e] + (left + right);
    LoadIsPartition(w.conv, w.parse, moved);
  }

  lemma ChoiceFirst(w: World, files: seq<DirEntry>, r: RouterConfig, c: Option<ServiceConfig>)
    returns (moved: seq<DirEntry>)
    requires r in Load(w.conv, w.parse, files).routers && MayServe(Load(w.conv, w.parse, files).services, r, c)
    ensures multiset(moved) == multiset(files)
    ensures var store := Load(w.conv, w.parse, moved);
            store.routers != [] && store.routers[0] == r && ServiceFor(store.services, r) == c
  {
    var services := Load(w.conv, w.parse, files).services;
    if c.Some? {
      moved := BothFirst(w, files, r, c.value);
      assert IsService(c.value.name)(Load(w.conv, w.parse, moved).services[0]);
    } else {
      moved := RouterFirst(w, files, r);
      StoresPermute(w, files, moved);
      SameMembers(services, Load(w.conv, w.parse, moved).services);
      var others := Load(w.conv, w.parse, moved).services;
      assert forall i | 0 <= i < |others| :: others[i] in services;
    }
  }

  /** Every plan told without positions is that of some gateway started from these files in some order. */
  lemma PlanComesAbout(w: World, files: seq<DirEntry>, q: Routing.Request, plan: Plan)
    returns (a: seq<DirEntry>, g: Gateway)
    requires AllFetched(w.fetch, Load(w.conv, w.parse, files).policies)
    requires MayPlan(w, Load(w.conv, w.parse, files), q, plan)
    ensures multiset(a) == multiset(files) && Boots(w, a, g) && PlanOf(w, g, q) == plan
  {
    var store := Load(w.conv, w.parse, files);
    if r, c :| Top(w.rx, store.routers, q, r) && MayServe(store.services, r, c) && plan == PlanBy(r, c, w.resolve) {
      a := ChoiceFirst(w, files, r, c);
      var t := FirstChosen(w, files, a, q);
      FetchedPermutes(w, files, a);
      g := GatewayWith(w, a, t);
    } else {
      a := files;
      var arr := Arrange(LongestFirst(), FilterMap(PrefixOf(), Entries(store.routers)));
      var t := CompiledWith(w.rx, Entries(store.routers), arr);
      g := GatewayWith(w, a, t);
      ChosenIsTop(t, w.rx, store.routers, q);
    }
  }

  lemma FirstChosen(w: World, files: seq<DirEntry>, a: seq<DirEntry>, q: Routing.Request) returns (t: Tables)
    requires multiset(a) == multiset(files) && Load(w.conv, w.parse, a).routers != []
    requires Top(w.rx, Load(w.conv, w.parse, files).routers, q, Load(w.conv, w.parse, a).routers[0])
    ensures var routers := Load(w.conv, w.parse, a).routers;
            Compiled(t, w.rx, Entries(routers)) && RouterFor(t, w.rx, routers, q) == Some(routers[0])
  {
    var routers := Load(w.conv, w.parse, a).routers;
    RoutersPermute(w, files, a);
    TopPermutes(w.rx, Load(w.conv, w.parse, files).routers, routers, q, routers[0]);
    t := FirstTopChosen(w.rx, routers, q);
  }

  lemma FetchedPermutes(w: World, a: seq<DirEntry>, b: seq<DirEntry>)
    requires multiset(a) == multiset(b)
    ensures AllFetched(w.fetch, Load(w.conv, w.parse, a).policies) <==>
            AllFetched(w.fetch, Load(w.conv, w.parse, b).policies)
  {
    StoresPermute(w, a, b);
    SameMembers(Load(w.conv, w.parse, a).policies, Load(w.conv, w.parse, b).policies);
  }

  // ---------------------------------------------------------------- layers and ties

  lemma SamePolicy(a: seq<PolicyConfig>, b: seq<PolicyConfig>, name: string)
    requires multiset(a) == multiset(b) && NamesMeanOne(a)
    ensures Resolve(a)(name) == Resolve(b)(name)
  {
    SameMembers(a, b);
    var i, j := FirstWhere(IsNamed(name), a), FirstWhere(IsNamed(name), b);
    if i.Some? { assert a[i.value] in b; }
    if j.Some? { assert b[j.value] in a; }
  }

  lemma SameReferences(a: seq<PolicyConfig>, b: seq<PolicyConfig>, names: seq<string>)
    requires multiset(a) == multiset(b) && NamesMeanOne(a)
    ensures JwtPolicies(a, names) == JwtPolicies(b, names)
  {
    forall n | n in names { SamePolicy(a, b, n); }
    FilterMapExtensional(JwtReference(a), JwtReference(b), names);
  }

  /** Policies of one order behind the JWT references of a router have one JWT configuration. */
  ghost predicate TieFree(policies: seq<PolicyConfig>, names: seq<string>) {
    forall p, r | p in JwtPolicies(policies, names) && r in JwtPolicies(policies, names) && p.order == r.order ::
      JwtOf(p) == JwtOf(r)
  }

  /** The layers a sort may leave, with the policies they belong to. */
  lemma OwnersOf(policies: seq<PolicyConfig>, fetch: Fetcher, caches: map<string, JwksCache>, names: seq<string>,
                 layers: seq<JwksCache>) returns (guards: seq<PolicyConfig>)
    requires Fetched(caches, fetch, policies) && NamesMeanOne(policies) && LayersFor(policies, caches, names, layers)
    ensures IsArrangement(OrderOf(), guards, JwtPolicies(policies, names)) && |guards| == |layers|
    ensures forall i | 0 <= i < |guards| :: OwnKeySet(fetch, guards[i], layers[i])
  {
    var arr :| IsArrangement(OrderOf(), arr, Active(policies, names)) && layers == FilterMap(CacheOf(caches), arr);
    guards := FilterMap(Guarding(caches), arr);
    LayersByOrder(policies, caches, names, arr);
    LayersAreOwn(policies, fetch, caches, names, guards, layers);
  }

  /** Without ties the layers of a router are the same for every order of the policies and every outcome of the sort. */
  lemma SameLayers(fetch: Fetcher, a: seq<PolicyConfig>, b: seq<PolicyConfig>, x: map<string, JwksCache>,
                   y: map<string, JwksCache>, names: seq<string>, layersA: seq<JwksCache>, layersB: seq<JwksCache>)
    requires multiset(a) == multiset(b) && NamesMeanOne(a) && TieFree(a, names)
    requires Fetched(x, fetch, a) && Fetched(y, fetch, b)
    requires LayersFor(a, x, names, layersA) && LayersFor(b, y, names, layersB)
    ensures layersA == layersB
  {
    SameMembers(a, b);
    SameReferences(a, b, names);
    var guardsA := OwnersOf(a, fetch, x, names, layersA);
    var guardsB := OwnersOf(b, fetch, y, names, layersB);
    SameMembers(guardsA, JwtPolicies(a, names));
    SameKeySets(fetch, guardsA, guardsB, layersA, layersB);
  }

  lemma SameKeySets(fetch: Fetcher, a: seq<PolicyConfig>, b: seq<PolicyConfig>, x: seq<JwksCache>, y: seq<JwksCache>)
    requires Ordered(OrderOf(), a) && Ordered(OrderOf(), b) && multiset(a) == multiset(b)
    requires forall p, r | p in a && r in a && p.order == r.order :: JwtOf(p) == JwtOf(r)
    requires |a| == |x| && forall i | 0 <= i < |a| :: OwnKeySet(fetch, a[i], x[i])
    requires |b| == |y| && forall i | 0 <= i < |b| :: OwnKeySet(fetch, b[i], y[i])
    ensures x == y
  {
    SameKeys(OrderOf(), a, b);
    SameMembers(a, b);
    forall i | 0 <= i < |x|
      ensures x[i] == y[i]
    {
      assert OrderOf()(a[i]) == OrderOf()(b[i]) && b[i] in a;
      assert OwnKeySet(fetch, a[i], x[i]) && OwnKeySet(fetch, b[i], y[i]);
    }
  }

  lemma ReferencesActive(policies: seq<PolicyConfig>, names: seq<string>, p: PolicyConfig)
    requires p in JwtPolicies(policies, names)
    ensures p in Active(policies, names)
  {
    FilterMapMember(JwtReference(policies), names, p);
    FilterMapMember(Resolve(policies), names, p);
  }

  /** With a tie the sort may leave two different sequences of layers. */
  lemma TiesShow(policies: seq<PolicyConfig>, fetch: Fetcher, caches: map<string, JwksCache>, names: seq<string>)
    returns (x: seq<JwksCache>, y: seq<JwksCache>)
    requires Fetched(caches, fetch, policies) && NamesMeanOne(policies) && !TieFree(policies, names)
    ensures x != y && LayersFor(policies, caches, names, x) && LayersFor(policies, caches, names, y)
  {
    var p, r :| p in JwtPolicies(policies, names) && r in JwtPolicies(policies, names) && p.order == r.order
                && JwtOf(p) != JwtOf(r);
    OwnReference(policies, fetch, caches, names, p);
    OwnReference(policies, fetch, caches, names, r);
    ReferencesActive(policies, names, p);
    ReferencesActive(policies, names, r);
    var arr, other := TiedArrangements(caches, Active(policies, names), p, r);
    x, y := FilterMap(CacheOf(caches), arr), FilterMap(CacheOf(caches), other);
  }

  lemma TiedArrangements(caches: map<string, JwksCache>, active: seq<PolicyConfig>, p: PolicyConfig, r: PolicyConfig)
    returns (arr: seq<PolicyConfig>, other: seq<PolicyConfig>)
    requires p in active && r in active && p.order == r.order
    requires CacheOf(caches)(p).Some? && CacheOf(caches)(r).Some? && CacheOf(caches)(p) != CacheOf(caches)(r)
    ensures IsArrangement(OrderOf(), arr, active) && IsArrangement(OrderOf(), other, active)
    ensures FilterMap(CacheOf(caches), arr) != FilterMap(CacheOf(caches), other)
  {
    arr := Arrange(OrderOf(), active);
    SameMembers(arr, active);
    var i :| 0 <= i < |arr| && arr[i] == p;
    var j :| 0 <= j < |arr| && arr[j] == r;
    other := SwapTied(OrderOf(), CacheOf(caches), arr, if i < j then i else j, if i < j then j else i);
  }

  // ---------------------------------------------------------------- the whole outcome

  /** Some gateway started from these files, in some order, may give the request this outcome. */
  ghost predicate MayGive(w: World, files: seq<DirEntry>, q: Routing.Request, out: Outcome) {
    exists a, g :: multiset(a) == multiset(files) && Boots(w, a, g) && Gives(w.rx, g, q, out)
  }

  /** Neither the order of the files nor any sort can be seen in what the request gets. */
  ghost predicate OutcomeOrderFree(w: World, files: seq<DirEntry>, q: Routing.Request) {
    forall x, y | MayGive(w, files, q, x) && MayGive(w, files, q, y) :: x == y
  }

  /** The configuration decides this request by itself: all top candidates, with all services of their destinations'
      names, come to one plan, and where it is to proxy, the router's JWT policies of one order have one
      configuration. */
  ghost predicate Decided(w: World, store: ConfigStore, q: Routing.Request) {
    && (forall x, y | MayPlan(w, store, q, x) && MayPlan(w, store, q, y) :: x == y)
    && forall x | MayPlan(w, store, q, x) && x.Planned? :: TieFree(store.policies, x.router.policies)
  }

  /** File order does not matter: two gateways started from the same files in any two orders, with any outcomes of
      the sorts, give a request that the configuration decides the same outcome. */
  lemma FileOrderIrrelevant(w: World, files: seq<DirEntry>, a: seq<DirEntry>, b: seq<DirEntry>, g: Gateway, h: Gateway,
                            q: Routing.Request, x: Outcome, y: Outcome)
    requires NamesMeanOne(Load(w.conv, w.parse, files).policies) && Decided(w, Load(w.conv, w.parse, files), q)
    requires multiset(a) == multiset(files) && multiset(b) == multiset(files) && Boots(w, a, g) && Boots(w, b, h)
    ensures Gives(w.rx, g, q, x) && Gives(w.rx, h, q, y) ==> x == y
  {
    var plan := PlanOf(w, g, q);
    PlanIsPossible(w, files, a, g, q);
    PlanIsPossible(w, files, b, h, q);
    GivesPlan(w, g, q, x);
    GivesPlan(w, h, q, y);
    if plan.Planned? && Gives(w.rx, g, q, x) && Gives(w.rx, h, q, y) {
      LayersMeet(w, files, a, b, g, h, plan.router.policies, x.layers, y.layers);
    }
  }

  lemma LayersMeet(w: World, files: seq<DirEntry>, a: seq<DirEntry>, b: seq<DirEntry>, g: Gateway, h: Gateway,
                   names: seq<string>, x: seq<JwksCache>, y: seq<JwksCache>)
    requires NamesMeanOne(Load(w.conv, w.parse, files).policies)
    requires TieFree(Load(w.conv, w.parse, files).policies, names)
    requires multiset(a) == multiset(files) && multiset(b) == multiset(files) && Boots(w, a, g) && Boots(w, b, h)
    requires LayersFor(g.store.policies, g.keySets, names, x) && LayersFor(h.store.policies, h.keySets, names, y)
    ensures x == y
  {
    TiePermutes(w, files, a, names);
    StoresPermute(w, a, b);
    SameLayers(w.fetch, g.store.policies, h.store.policies, g.keySets, h.keySets, names, x, y);
  }

  /** With unique policy names, what a request gets is the same for every order of the files and every outcome of the
      sorts exactly when the configuration decides it, or no order lets the process start. */
  lemma OutcomeOrderFreeIff(w: World, files: seq<DirEntry>, q: Routing.Request)
    requires NamesMeanOne(Load(w.conv, w.parse, files).policies)
    ensures OutcomeOrderFree(w, files, q) <==>
            (AllFetched(w.fetch, Load(w.conv, w.parse, files).policies) ==> Decided(w, Load(w.conv, w.parse, files), q))
  {
    var store := Load(w.conv, w.parse, files);
    if !AllFetched(w.fetch, store.policies) {
      forall out ensures !MayGive(w, files, q, out) { NoneStarts(w, files, q, out); }
    } else if OutcomeOrderFree(w, files, q) {
      forall x, y | MayPlan(w, store, q, x) && MayPlan(w, store, q, y)
        ensures x == y
      {
        OrderFreePlans(w, files, q, x, y);
      }
      forall x | MayPlan(w, store, q, x) && x.Planned?
        ensures TieFree(store.policies, x.router.policies)
      {
        OrderFreeTies(w, files, q, x);
      }
    } else if Decided(w, store, q) {
      var x, y :| MayGive(w, files, q, x) && MayGive(w, files, q, y) && x != y;
      var a, g :| multiset(a) == multiset(files) && Boots(w, a, g) && Gives(w.rx, g, q, x);
      var b, h :| multiset(b) == multiset(files) && Boots(w, b, h) && Gives(w.rx, h, q, y);
      FileOrderIrrelevant(w, files, a, b, g, h, q, x, y);
    }
  }

  /** With unique policy names a gateway has started only if every key set was fetched. */
  lemma NoneStarts(w: World, files: seq<DirEntry>, q: Routing.Request, out: Outcome)
    requires NamesMeanOne(Load(w.conv, w.parse, files).policies)
    requires !AllFetched(w.fetch, Load(w.conv, w.parse, files).policies)
    ensures !MayGive(w, files, q, out)
  {
    if a, g :| multiset(a) == multiset(files) && Boots(w, a, g) && Gives(w.rx, g, q, out) {
      var policies := g.store.policies;
      FetchedPermutes(w, files, a);
      StoresPermute(w, files, a);
      SameMembers(Load(w.conv, w.parse, files).policies, policies);
      var p :| p in policies && JwtOf(p).Some? && w.fetch(JwtOf(p).value).None?;
      LastJwtOf(policies, p);
      assert false;
    }
  }

  function PlanIn(out: Outcome): Plan {
    if out.Proxied? then Planned(out.router, out.service, out.addr) else Refused(out)
  }

  /** A plan of some gateway, as an outcome. */
  lemma PlanGiven(w: World, files: seq<DirEntry>, q: Routing.Request, plan: Plan) returns (out: Outcome)
    requires AllFetched(w.fetch, Load(w.conv, w.parse, files).policies)
    requires MayPlan(w, Load(w.conv, w.parse, files), q, plan)
    ensures MayGive(w, files, q, out)
    ensures plan == PlanIn(out)
  {
    assert plan.Refused? ==> !plan.out.Proxied?;
    var a, g := PlanComesAbout(w, files, q, plan);
    if plan.Refused? {
      out := plan.out;
    } else {
      var arr := Arrange(OrderOf(), Active(g.store.policies, plan.router.policies));
      out := Proxied(plan.router, plan.service, plan.addr, FilterMap(CacheOf(g.keySets), arr));
    }
    GivesPlan(w, g, q, out);
  }

  lemma OrderFreePlans(w: World, files: seq<DirEntry>, q: Routing.Request, x: Plan, y: Plan)
    requires AllFetched(w.fetch, Load(w.conv, w.parse, files).policies) && OutcomeOrderFree(w, files, q)
    requires MayPlan(w, Load(w.conv, w.parse, files), q, x) && MayPlan(w, Load(w.conv, w.parse, files), q, y)
    ensures x == y
  {
    var p := PlanGiven(w, files, q, x);
    var r := PlanGiven(w, files, q, y);
    assert p == r;
  }

  lemma OrderFreeTies(w: World, files: seq<DirEntry>, q: Routing.Request, plan: Plan)
    requires NamesMeanOne(Load(w.conv, w.parse, files).policies)
    requires AllFetched(w.fetch, Load(w.conv, w.parse, files).policies) && OutcomeOrderFree(w, files, q)
    requires MayPlan(w, Load(w.conv, w.parse, files), q, plan) && plan.Planned?
    ensures TieFree(Load(w.conv, w.parse, files).policies, plan.router.policies)
  {
    var a, g := PlanComesAbout(w, files, q, plan);
    TiePermutes(w, files, a, plan.router.policies);
    if !TieFree(g.store.policies, plan.router.policies) {
      var p, r := TwoOutcomes(w, files, a, g, q);
      assert false;
    }
  }

  lemma TwoOutcomes(w: World, files: seq<DirEntry>, a: seq<DirEntry>, g: Gateway, q: Routing.Request)
    returns (p: Outcome, r: Outcome)
    requires multiset(a) == multiset(files) && Boots(w, a, g) && NamesMeanOne(g.store.policies)
    requires PlanOf(w, g, q).Planned? && !TieFree(g.store.policies, PlanOf(w, g, q).router.policies)
    ensures p != r && MayGive(w, files, q, p) && MayGive(w, files, q, r)
  {
    var plan := PlanOf(w, g, q);
    var x, y := TiesShow(g.store.policies, w.fetch, g.keySets, plan.router.policies);
    p := Proxied(plan.router, plan.service, plan.addr, x);
    r := Proxied(plan.router, plan.service, plan.addr, y);
    GivesPlan(w, g, q, p);
    GivesPlan(w, g, q, r);
  }

  lemma TiePermutes(w: World, a: seq<DirEntry>, b: seq<DirEntry>, names: seq<string>)
    requires multiset(a) == multiset(b) && NamesMeanOne(Load(w.conv, w.parse, a).policies)
    ensures NamesMeanOne(Load(w.conv, w.parse, b).policies)
    ensures TieFree(Load(w.conv, w.parse, a).policies, names) <==> TieFree(Load(w.conv, w.parse, b).policies, names)
  {
    StoresPermute(w, a, b);
    SameMembers(Load(w.conv, w.parse, a).policies, Load(w.conv, w.parse, b).policies);
    SameReferences(Load(w.conv, w.parse, a).policies, Load(w.conv, w.parse, b).policies, names);
  }

  // ---------------------------------------------------------------- a plain condition

  /** Services of one name are one service. */
  ghost predicate ServiceNamesMeanOne(services: seq<ServiceConfig>) {
    forall s, t | s in services && t in services && s.name == t.name :: s == t
  }

  /** A configuration decides a request when service names are unique, all top candidates are one router, and the active
      policies of that router have distinct orders. */
  lemma UniqueNamesDecide(w: World, store: ConfigStore, q: Routing.Request)
    requires ServiceNamesMeanOne(store.services) && OneTop(w.rx, store.routers, q)
    requires forall r | Top(w.rx, store.routers, q, r) :: OrdersMeanOne(Active(store.policies, r.policies))
    ensures Decided(w, store, q)
  {
    forall x | MayPlan(w, store, q, x) && x.Planned?
      ensures TieFree(store.policies, x.router.policies)
    {
      forall p | p in JwtPolicies(store.policies, x.router.policies) {
        ReferencesActive(store.policies, x.router.policies, p);
      }
    }
  }
}
