/**
From the policies of a configuration to the filter chain of a router: the key sets that main fetches at
startup, and the chain that PolicyEngine::buildChain wraps around a terminal.
*/
module PolicyEngine {
  import opened Prelude
  import opened Config
  import opened Layers
  import opened Chain

  function IsNamed(name: string): PolicyConfig -> bool {
    (p: PolicyConfig) => p.name == name
  }

  /** The policy a reference means: the first of that name. */
  function Resolve(policies: seq<PolicyConfig>): string -> Option<PolicyConfig> {
    (name: string) =>
      var at := FirstWhere(IsNamed(name), policies);
      if at.Some? then Some(policies[at.value]) else None
  }

  function JwtOf(p: PolicyConfig): Option<JwtConfig> {
    if p.security.Some? then p.security.value.jwt else None
  }

  function Active(policies: seq<PolicyConfig>, names: seq<string>): seq<PolicyConfig> {
    FilterMap(Resolve(policies), names)
  }

  function OrderOf(): PolicyConfig -> int {
    (p: PolicyConfig) => p.order
  }

  /** The key set a policy contributes a layer for. */
  function CacheOf(caches: map<string, JwksCache>): PolicyConfig -> Option<JwksCache> {
    (p: PolicyConfig) => if JwtOf(p).Some? && p.name in caches then Some(caches[p.name]) else None
  }

  // ---------------------------------------------------------------- startup

  type Fetcher = JwtConfig -> Option<string>

  ghost predicate AllFetched(fetch: Fetcher, policies: seq<PolicyConfig>) {
    forall p | p in policies && JwtOf(p).Some? :: fetch(JwtOf(p).value).Some?
  }

  function LastJwt(policies: seq<PolicyConfig>, name: string): (r: Option<JwtConfig>)
  {
    if policies == [] then None
    else
      var p := policies[|policies| - 1];
      if p.name == name && JwtOf(p).Some? then JwtOf(p) else LastJwt(policies[..|policies| - 1], name)
  }

  /** The key sets after startup: for each name, the one fetched for the last JWT policy of that name. */
  ghost predicate Fetched(caches: map<string, JwksCache>, fetch: Fetcher, policies: seq<PolicyConfig>) {
    forall name ::
      match LastJwt(policies, name)
      case None => name !in caches
      case Some(cfg) => name in caches && fetch(cfg).Some? && caches[name] == JwksCache(cfg, fetch(cfg).value)
  }

  /** The loop of main; None is LOG(FATAL), which ends the process. */
  method FetchKeySets(policies: seq<PolicyConfig>, fetch: Fetcher) returns (r: Option<map<string, JwksCache>>)
    ensures r.Some? <==> AllFetched(fetch, policies)
    ensures r.Some? ==> Fetched(r.value, fetch, policies)
  {
    var caches: map<string, JwksCache> := map[];
    for i := 0 to |policies|
      invariant AllFetched(fetch, policies[..i])
      invariant Fetched(caches, fetch, policies[..i])
    {
      var p := policies[i];
      assert policies[..i + 1] == policies[..i] + [p];
      if p.security.None? || p.security.value.jwt.None? { continue; }
      var cfg := p.security.value.jwt.value;
      var json := fetch(cfg);
      if json.None? {
        assert p in policies;
        return None;
      }
      caches := caches[p.name := JwksCache(cfg, json.value)];
    }
    assert policies[..|policies|] == policies;
    r := Some(caches);
  }

  lemma {:induction false} LastJwtOf(policies: seq<PolicyConfig>, p: PolicyConfig)
    requires p in policies && JwtOf(p).Some?
    ensures LastJwt(policies, p.name).Some?
    ensures exists l :: l in policies && l.name == p.name && JwtOf(l) == LastJwt(policies, p.name)
  {
    var last := policies[|policies| - 1];
    if last.name == p.name && JwtOf(last).Some? {
      assert last in policies;
    } else {
      var init := policies[..|policies| - 1];
      assert policies == init + [last];
      LastJwtOf(init, p);
    }
  }

  /** In a gateway that has started, no JWT layer is dropped: each reference that resolves to a JWT policy yields
      a layer. Its key set was fetched for that very policy's configuration exactly when no later JWT policy of
      the same name has another one. */
  lemma NoLayerDropped(policies: seq<PolicyConfig>, fetch: Fetcher, caches: map<string, JwksCache>, name: string,
                       p: PolicyConfig)
    requires Fetched(caches, fetch, policies)
    requires Resolve(policies)(name) == Some(p) && JwtOf(p).Some?
    ensures CacheOf(caches)(p).Some?
    ensures CacheOf(caches)(p).value.cfg == JwtOf(p).value <==> LastJwt(policies, name) == JwtOf(p)
    ensures NamesMeanOne(policies) ==>
              && CacheOf(caches)(p).value.cfg == JwtOf(p).value
              && fetch(JwtOf(p).value) == Some(CacheOf(caches)(p).value.json)
  {
    LastJwtOf(policies, p);
    if NamesMeanOne(policies) {
      var l :| l in policies && l.name == p.name && JwtOf(l) == LastJwt(policies, p.name);
      assert l == p;
    }
  }

  /** Policies of one name are one policy. */
  ghost predicate NamesMeanOne(policies: seq<PolicyConfig>) {
    forall p, r | p in policies && r in policies && p.name == r.name :: p == r
  }

  /** With a repeated name startup succeeds and the layer of the first policy checks tokens with the key set of the
      second. */
  lemma RepeatedNameCounterexample()
    returns (fetch: Fetcher, policies: seq<PolicyConfig>, caches: map<string, JwksCache>)
    ensures AllFetched(fetch, policies) && Fetched(caches, fetch, policies)
    ensures |policies| == 2 && Resolve(policies)("jwt") == Some(policies[0]) && CacheOf(caches)(policies[0]).Some?
    ensures JwtOf(policies[0]).Some?
    ensures JwtOf(policies[1]) == Some(CacheOf(caches)(policies[0]).value.cfg) != JwtOf(policies[0])
  {
    var a, b := JwtConfig("http://idp/keys", "first", "", 300), JwtConfig("http://idp/keys", "other", "", 300);
    var p := PolicyConfig("kimchi/v1", "Policy", "jwt", 5, Some(SecurityPolicySpec(Some(a))));
    var r := PolicyConfig("kimchi/v1", "Policy", "jwt", 5, Some(SecurityPolicySpec(Some(b))));
    fetch, policies, caches := (cfg: JwtConfig) => Some(""), [p, r], map["jwt" := JwksCache(b, "")];
    assert IsNamed("jwt")(policies[0]);
    assert a.issuer[0] != b.issuer[0];
    forall name
      ensures LastJwt(policies, name) == if name == "jwt" then Some(b) else None
    {
      assert policies[..1] == [p] && [p][..0] == [];
      assert LastJwt([p], name) == if name == "jwt" then Some(a) else LastJwt([], name);
    }
  }

  // ---------------------------------------------------------------- the chain

  /** PolicyEngine with the store, the key sets and the sorting routine it was built with. */
  class Engine {
    const policies: seq<PolicyConfig>
    const caches: map<string, JwksCache>
    const sort: seq<PolicyConfig> -> seq<PolicyConfig>

    /** The sorting routine sorts. */
    ghost predicate Valid() {
      Sorts(sort, OrderOf())
    }

    constructor (policies: seq<PolicyConfig>, caches: map<string, JwksCache>,
                 sort: seq<PolicyConfig> -> seq<PolicyConfig>)
      requires Sorts(sort, OrderOf())
      ensures Valid()
      ensures this.policies == policies && this.caches == caches && this.sort == sort
    {
      this.policies, this.caches, this.sort := policies, caches, sort;
    }

    /** The key sets of the JWT layers for these references, outermost first. */
    ghost function KeySetsOf(names: seq<string>): seq<JwksCache> {
      FilterMap(CacheOf(caches), sort(Active(policies, names)))
    }

    /** The policies they belong to. */
    ghost function GuardsOf(names: seq<string>): seq<PolicyConfig> {
      FilterMap(Guarding(caches), sort(Active(policies, names)))
    }

    lemma KeySetsInOrder(names: seq<string>)
      requires Valid()
      ensures GuardsInOrder(policies, caches, names, GuardsOf(names), KeySetsOf(names))
    {
      assert IsArrangement(OrderOf(), sort(Active(policies, names)), Active(policies, names));
      LayersByOrder(policies, caches, names, sort(Active(policies, names)));
    }

    method FindActive(names: seq<string>) returns (active: seq<PolicyConfig>)
      ensures active == Active(policies, names)
    {
      active := [];
      for i := 0 to |names|
        invariant active == Active(policies, names[..i])
      {
        FilterMapSnoc(Resolve(policies), names[..i], names[i]);
        assert names[..i + 1] == names[..i] + [names[i]];
        for j := 0 to |policies|
          invariant active == Active(policies, names[..i])
          invariant forall k | 0 <= k < j :: policies[k].name != names[i]
        {
          if policies[j].name == names[i] {
            assert FirstWhere(IsNamed(names[i]), policies) == Some(j);
            active := active + [policies[j]];
            break;
          }
        }
      }
      assert names[..|names|] == names;
    }

    /** HeaderFilter, then the JWT layers of the active policies by ascending order, then RateLimitFilter, then
        the terminal. */
    method BuildChain(router: RouterConfig, terminal: GatewayHandler, env: Surroundings) returns (head: Filter)
      requires Valid()
      ensures fresh(head) && head.Valid() && head.Open() && forall f | f in head.inner :: fresh(f)
      ensures head.terminal == terminal && head.env == env && head.downstream == terminal.downstream
      ensures head.Layers() == ChainOf(KeySetsOf(router.policies))
      ensures GuardsInOrder(policies, caches, router.policies, GuardsOf(router.policies), KeySetsOf(router.policies))
    {
      KeySetsInOrder(router.policies);
      head := WrapAll(router, terminal, env);
    }

    method WrapAll(router: RouterConfig, terminal: GatewayHandler, env: Surroundings) returns (head: Filter)
      ensures fresh(head) && head.Valid() && head.Open() && forall f | f in head.inner :: fresh(f)
      ensures head.terminal == terminal && head.env == env && head.downstream == terminal.downstream
      ensures head.Layers() == ChainOf(KeySetsOf(router.policies))
    {
      var active := FindActive(router.policies);
      active := sort(active);
      head := new Filter(RateLimitLayer(FAIL_OPEN), env, TerminalHandler(terminal));
      assert head.Layers() == [RateLimitLayer(FAIL_OPEN)];
      head := WrapPolicies(active, head);
      head := Wrap(HeaderLayer, head);
    }

    /** The reverse loop of buildChain. */
    method WrapPolicies(active: seq<PolicyConfig>, limiter: Filter) returns (head: Filter)
      requires limiter.Valid() && limiter.Open() && limiter.inner == []
      ensures head == limiter || fresh(head)
      ensures head.Valid() && head.Open() && forall f | f in head.inner :: f == limiter || fresh(f)
      ensures head.terminal == limiter.terminal && head.env == limiter.env && head.downstream == limiter.downstream
      ensures head.Layers() == JwtLayers(FilterMap(CacheOf(caches), active)) + limiter.Layers()
    {
      head := limiter;
      ghost var layers := limiter.Layers();
      assert JwtLayers([]) + layers == layers;
      for i := |active| downto 0
        invariant head == limiter || fresh(head)
        invariant head.Valid() && head.Open() && forall f | f in head.inner :: f == limiter || fresh(f)
        invariant head.terminal == limiter.terminal && head.env == limiter.env && head.downstream == limiter.downstream
        invariant head.Layers() == layers
        invariant layers == JwtLayers(FilterMap(CacheOf(caches), active[i..])) + limiter.Layers()
      {
        var p := active[i];
        LayersFrom(caches, active, i, limiter.Layers());
        if p.security.None? || p.security.value.jwt.None? || p.name !in caches { continue; }
        layers := [JwtLayer(caches[p.name])] + layers;
        head := Wrap(JwtLayer(caches[p.name]), head);
      }
      assert active[0..] == active;
    }
  }

  /** `keySets` are those of `guards`, one each, and `guards` is a permutation of the effective policies among the
      references, by ascending order. */
  ghost predicate GuardsInOrder(policies: seq<PolicyConfig>, caches: map<string, JwksCache>, names: seq<string>,
                                guards: seq<PolicyConfig>, keySets: seq<JwksCache>)
  {
    && (forall i, j | 0 <= i < j < |guards| :: guards[i].order <= guards[j].order)
    && multiset(guards) == multiset(FilterMap(Guarding(caches), Active(policies, names)))
    && |guards| == |keySets| && keySets == FilterMap(CacheOf(caches), guards)
  }

  /** A new filter around a chain of new filters. */
  method Wrap(layer: Layer, inner: Filter) returns (outer: Filter)
    requires inner.Valid() && inner.Open()
    ensures fresh(outer) && outer.Valid() && outer.Open()
    ensures outer.inner == [inner] + inner.inner
    ensures outer.terminal == inner.terminal && outer.env == inner.env && outer.downstream == inner.downstream
    ensures outer.Layers() == [layer] + inner.Layers()
  {
    outer := new Filter(layer, inner.env, FilterHandler(inner));
    outer.InnerFlags();
  }

  lemma LayersFrom(caches: map<string, JwksCache>, active: seq<PolicyConfig>, i: nat, tail: seq<Layer>)
    requires i < |active|
    ensures var rest := JwtLayers(FilterMap(CacheOf(caches), active[i + 1..])) + tail;
            JwtLayers(FilterMap(CacheOf(caches), active[i..])) + tail ==
            if CacheOf(caches)(active[i]).Some? then [JwtLayer(caches[active[i].name])] + rest else rest
  {
    assert active[i..] == [active[i]] + active[i + 1..];
    FilterMapCons(CacheOf(caches), active[i], active[i + 1..]);
    var inner := FilterMap(CacheOf(caches), active[i + 1..]);
    assert forall c :: JwtLayers([c] + inner) == [JwtLayer(c)] + JwtLayers(inner);
  }

  // ---------------------------------------------------------------- what the order of references means

  /** Elements of one order are one element. */
  ghost predicate OrdersMeanOne(active: seq<PolicyConfig>) {
    forall p, r | p in active && r in active && p.order == r.order :: p == r
  }

  function Guarding(caches: map<string, JwksCache>): PolicyConfig -> Option<PolicyConfig> {
    (p: PolicyConfig) => if CacheOf(caches)(p).Some? then Some(p) else None
  }

  lemma {:induction false} FilterOrdered(caches: map<string, JwksCache>, s: seq<PolicyConfig>)
    requires Ordered(OrderOf(), s)
    ensures Ordered(OrderOf(), FilterMap(Guarding(caches), s))
  {
    if s == [] {
    } else {
      var init, p := s[..|s| - 1], s[|s| - 1];
      FilterOrdered(caches, init);
      var kept := FilterMap(Guarding(caches), init);
      forall i | 0 <= i < |kept|
        ensures kept[i].order <= p.order
      {
        FilterMapMember(Guarding(caches), init, kept[i]);
        assert exists k :: 0 <= k < |init| && init[k] == kept[i];
        var k :| 0 <= k < |init| && init[k] == kept[i];
        assert OrderOf()(s[k]) <= OrderOf()(p);
      }
    }
  }

  /** Whatever the sort leaves, the JWT layers belong to a permutation of the effective policies among the
      references, by ascending order. */
  lemma LayersByOrder(policies: seq<PolicyConfig>, caches: map<string, JwksCache>, names: seq<string>,
                      arr: seq<PolicyConfig>)
    requires IsArrangement(OrderOf(), arr, Active(policies, names))
    ensures GuardsInOrder(policies, caches, names, FilterMap(Guarding(caches), arr), FilterMap(CacheOf(caches), arr))
  {
    var guards := FilterMap(Guarding(caches), arr);
    FilterOrdered(caches, arr);
    FilterMapPermutes(Guarding(caches), arr, Active(policies, names));
    FilterMapCompose(Guarding(caches), CacheOf(caches), CacheOf(caches), arr);
    forall p | p in guards
      ensures CacheOf(caches)(p).Some?
    {
      FilterMapMember(Guarding(caches), arr, p);
    }
    FilterMapTotal(CacheOf(caches), guards);
  }

  /** The policy behind a reference that resolves to a JWT policy. */
  function JwtReference(policies: seq<PolicyConfig>): string -> Option<PolicyConfig> {
    (name: string) =>
      var p := Resolve(policies)(name);
      if p.Some? && JwtOf(p.value).Some? then p else None
  }

  lemma ReferenceGuards(policies: seq<PolicyConfig>, fetch: Fetcher, caches: map<string, JwksCache>, name: string)
    requires Fetched(caches, fetch, policies)
    ensures JwtReference(policies)(name) ==
            if Resolve(policies)(name).Some? then Guarding(caches)(Resolve(policies)(name).value) else None
  {
    var p := Resolve(policies)(name);
    if p.Some? && JwtOf(p.value).Some? {
      NoLayerDropped(policies, fetch, caches, name, p.value);
      assert CacheOf(caches)(p.value).Some?;
      assert Guarding(caches)(p.value) == p;
      assert JwtReference(policies)(name) == p;
    } else if p.Some? {
      assert CacheOf(caches)(p.value).None?;
    }
  }

  /** In a gateway that has started, the policies that get a layer are exactly those behind the references that resolve
      to a JWT policy, one layer per reference. */
  lemma GuardsAreJwtReferences(policies: seq<PolicyConfig>, fetch: Fetcher, caches: map<string, JwksCache>,
                               names: seq<string>)
    requires Fetched(caches, fetch, policies)
    ensures FilterMap(Guarding(caches), Active(policies, names)) == FilterMap(JwtReference(policies), names)
  {
    forall name | name in names
      ensures JwtReference(policies)(name) ==
              if Resolve(policies)(name).Some? then Guarding(caches)(Resolve(policies)(name).value) else None
    {
      ReferenceGuards(policies, fetch, caches, name);
    }
    FilterMapCompose(Resolve(policies), Guarding(caches), JwtReference(policies), names);
  }

  /** When active policies of one order are one policy, the chain is the same for every order of the references
      and every outcome of the sort. */
  lemma ReferenceOrderIrrelevant(policies: seq<PolicyConfig>, caches: map<string, JwksCache>,
                                 names: seq<string>, names': seq<string>,
                                 arr: seq<PolicyConfig>, arr': seq<PolicyConfig>)
    requires multiset(names) == multiset(names')
    requires OrdersMeanOne(Active(policies, names))
    requires IsArrangement(OrderOf(), arr, Active(policies, names))
    requires IsArrangement(OrderOf(), arr', Active(policies, names'))
    ensures FilterMap(CacheOf(caches), arr) == FilterMap(CacheOf(caches), arr')
  {
    FilterMapPermutes(Resolve(policies), names, names');
    OneArrangement(Active(policies, names), arr, arr');
  }

  lemma OneArrangement(active: seq<PolicyConfig>, arr: seq<PolicyConfig>, arr': seq<PolicyConfig>)
    requires OrdersMeanOne(active) && Ordered(OrderOf(), arr) && Ordered(OrderOf(), arr')
    requires multiset(arr) == multiset(active) == multiset(arr')
    ensures arr == arr'
  {
    forall p, r | p in arr && r in arr && OrderOf()(p) == OrderOf()(r)
      ensures p == r
    {
      assert p in multiset(active) && r in multiset(active);
    }
    ArrangementUnique(OrderOf(), arr, arr');
  }

  // ---------------------------------------------------------------- what guards a router

  /** The policies behind the JWT references of a router. */
  function JwtPolicies(policies: seq<PolicyConfig>, names: seq<string>): seq<PolicyConfig> {
    FilterMap(JwtReference(policies), names)
  }

  /** `cache` holds what was fetched with the policy's own configuration. */
  ghost predicate OwnKeySet(fetch: Fetcher, p: PolicyConfig, cache: JwksCache) {
    JwtOf(p) == Some(cache.cfg) && fetch(cache.cfg) == Some(cache.json)
  }

  /** In a started gateway with unique policy names the JWT layers of a router belong to the policies behind its JWT
      references, one layer per reference, and every layer holds the key set fetched with its own policy's
      configuration. */
  lemma LayersAreOwn(policies: seq<PolicyConfig>, fetch: Fetcher, caches: map<string, JwksCache>, names: seq<string>,
                     guards: seq<PolicyConfig>, keySets: seq<JwksCache>)
    requires Fetched(caches, fetch, policies) && NamesMeanOne(policies)
    requires GuardsInOrder(policies, caches, names, guards, keySets)
    ensures multiset(guards) == multiset(JwtPolicies(policies, names))
    ensures |guards| == |keySets| == |JwtPolicies(policies, names)|
    ensures forall i | 0 <= i < |guards| :: OwnKeySet(fetch, guards[i], keySets[i])
  {
    var refs := JwtPolicies(policies, names);
    GuardsAreJwtReferences(policies, fetch, caches, names);
    OnlyOne(guards, refs);
    forall p | p in guards
      ensures CacheOf(caches)(p).Some? && OwnKeySet(fetch, p, CacheOf(caches)(p).value)
    {
      assert p in multiset(refs);
      OwnReference(policies, fetch, caches, names, p);
    }
    FilterMapTotal(CacheOf(caches), guards);
    forall i | 0 <= i < |guards|
      ensures OwnKeySet(fetch, guards[i], keySets[i])
    {
      assert guards[i] in guards;
    }
  }

  lemma OnlyOne<T>(a: seq<T>, b: seq<T>)
    requires multiset(a) == multiset(b)
    ensures |a| == |b| && (|a| == 1 ==> a == b)
  {
    assert |a| == |multiset(a)| == |multiset(b)| == |b|;
    if |a| == 1 {
      assert a[0] in multiset(b);
    }
  }

  lemma OwnReference(policies: seq<PolicyConfig>, fetch: Fetcher, caches: map<string, JwksCache>, names: seq<string>,
                     p: PolicyConfig)
    requires Fetched(caches, fetch, policies) && NamesMeanOne(policies) && p in JwtPolicies(policies, names)
    ensures CacheOf(caches)(p).Some? && OwnKeySet(fetch, p, CacheOf(caches)(p).value)
  {
    FilterMapMember(JwtReference(policies), names, p);
    var name :| name in names && JwtReference(policies)(name) == Some(p);
    NoLayerDropped(policies, fetch, caches, name, p);
  }
}
