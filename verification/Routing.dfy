/**
The routing tables of GatewayHandlerFactory: what the constructor compiles out of the routers, what
a lookup returns, and how that relates to a plain scan of the configured rules.
*/
module Routing {
  import opened Prelude
  import opened Config

  /** `std::regex` construction and `std::regex_match`. */
  datatype RegexEngine = RegexEngine(compiles: string -> bool, matches: (string, string) -> bool)

  datatype ExactRoute = ExactRoute(methods: seq<string>, router: nat)
  datatype PrefixRoute = PrefixRoute(prefix: string, methods: seq<string>, router: nat)
  datatype RegexRoute = RegexRoute(pattern: string, methods: seq<string>, router: nat)

  datatype Tables = Tables(
    exact: map<string, seq<ExactRoute>>,
    prefix: seq<PrefixRoute>,
    regex: seq<RegexRoute>)

  /** The parts of a request that routing looks at. */
  datatype Request = Request(path: string, verb: string)

  predicate MethodMatches(allowed: seq<string>, verb: string) {
    allowed == [] || verb in allowed
  }

  // ---------------------------------------------------------------- the plain scan

  /** One configured rule and the position of the router that carries it. */
  datatype Entry = Entry(rule: RouterRule, router: nat)

  function RuleEntries(rules: seq<RouterRule>, i: nat): seq<Entry> {
    seq(|rules|, j requires 0 <= j < |rules| => Entry(rules[j], i))
  }

  /** All rules in configuration order. */
  function Entries(routers: seq<RouterConfig>): (es: seq<Entry>)
  {
    if routers == [] then []
    else
      var n := |routers| - 1;
      Entries(routers[..n]) + RuleEntries(routers[n].rules, n)
  }

  /** The rule names the request's method, or none at all, and its path matches. */
  predicate RuleMatches(rx: RegexEngine, rule: RouterRule, q: Request) {
    && (rule.methods == [] || exists i :: 0 <= i < |rule.methods| && rule.methods[i] == q.verb)
    && match rule.pathType
       case Exact => rule.path == q.path
       case Prefix => rule.path <= q.path
       case Regex => rx.compiles(rule.path) && rx.matches(rule.path, q.path)
  }

  function Tier(rule: RouterRule): nat {
    match rule.pathType
    case Exact => 0
    case Prefix => 1
    case Regex => 2
  }

  /** `a` is preferred to `b` whatever their positions: a better tier, or a longer prefix. */
  predicate Beats(a: RouterRule, b: RouterRule) {
    Tier(a) < Tier(b) || (a.pathType.Prefix? && b.pathType.Prefix? && |a.path| > |b.path|)
  }

  predicate Hit(rx: RegexEngine, e: Entry, q: Request) {
    RuleMatches(rx, e.rule, q)
  }

  /** A plain scan may settle on entry `k`: it matches, no matching rule beats it, and outside the prefix
      tier it is the first of its tier to match. */
  ghost predicate ScanPick(rx: RegexEngine, es: seq<Entry>, q: Request, k: nat) {
    && k < |es|
    && Hit(rx, es[k], q)
    && (forall j | 0 <= j < |es| && Hit(rx, es[j], q) :: !Beats(es[j].rule, es[k].rule))
    && (!es[k].rule.pathType.Prefix? ==>
          forall j | 0 <= j < k && Hit(rx, es[j], q) :: Tier(es[j].rule) != Tier(es[k].rule))
  }

  // ---------------------------------------------------------------- the compiled tables

  function ExactAt(p: string): Entry -> Option<ExactRoute> {
    (e: Entry) =>
      if e.rule.pathType.Exact? && e.rule.path == p then Some(ExactRoute(e.rule.methods, e.router)) else None
  }

  function PrefixOf(): Entry -> Option<PrefixRoute> {
    (e: Entry) =>
      if e.rule.pathType.Prefix? then Some(PrefixRoute(e.rule.path, e.rule.methods, e.router)) else None
  }

  function RegexOf(rx: RegexEngine): Entry -> Option<RegexRoute> {
    (e: Entry) =>
      if e.rule.pathType.Regex? && rx.compiles(e.rule.path)
      then Some(RegexRoute(e.rule.path, e.rule.methods, e.router)) else None
  }

  /** Sorting by this key puts longer prefixes first. */
  function LongestFirst(): PrefixRoute -> int {
    (r: PrefixRoute) => -|r.prefix|
  }

  function Bucket(exact: map<string, seq<ExactRoute>>, p: string): seq<ExactRoute> {
    if p in exact then exact[p] else []
  }

  /** The tables before the prefix routes are sorted. */
  ghost predicate Collected(t: Tables, rx: RegexEngine, es: seq<Entry>) {
    && (forall p :: Bucket(t.exact, p) == FilterMap(ExactAt(p), es))
    && t.prefix == FilterMap(PrefixOf(), es)
    && t.regex == FilterMap(RegexOf(rx), es)
  }

  /** The tables after construction, for any prefix arrangement the sort may leave. */
  ghost predicate Compiled(t: Tables, rx: RegexEngine, es: seq<Entry>) {
    && (forall p :: Bucket(t.exact, p) == FilterMap(ExactAt(p), es))
    && IsArrangement(LongestFirst(), t.prefix, FilterMap(PrefixOf(), es))
    && t.regex == FilterMap(RegexOf(rx), es)
  }

  function ExactHit(verb: string): ExactRoute -> bool {
    (r: ExactRoute) => MethodMatches(r.methods, verb)
  }

  function PrefixHit(q: Request): PrefixRoute -> bool {
    (r: PrefixRoute) => r.prefix <= q.path && MethodMatches(r.methods, q.verb)
  }

  function RegexHit(rx: RegexEngine, q: Request): RegexRoute -> bool {
    (r: RegexRoute) => rx.matches(r.pattern, q.path) && MethodMatches(r.methods, q.verb)
  }

  /** The three-tier search over the tables. */
  function Lookup(t: Tables, rx: RegexEngine, q: Request): (r: Option<nat>)
  {
    var e := FirstWhere(ExactHit(q.verb), Bucket(t.exact, q.path));
    if e.Some? then Some(Bucket(t.exact, q.path)[e.value].router) else
    var p := FirstWhere(PrefixHit(q), t.prefix);
    if p.Some? then Some(t.prefix[p.value].router) else
    var x := FirstWhere(RegexHit(rx, q), t.regex);
    if x.Some? then Some(t.regex[x.value].router) else None
  }

  // ---------------------------------------------------------------- compiled lookup refines the scan

  lemma {:induction false} EntriesInRange(routers: seq<RouterConfig>, k: nat)
    requires k < |Entries(routers)|
    ensures Entries(routers)[k].router < |routers|
    ensures Entries(routers)[k].rule in routers[Entries(routers)[k].router].rules
  {
    var n := |routers| - 1;
    var front := Entries(routers[..n]);
    if k < |front| {
      EntriesInRange(routers[..n], k);
    }
  }

  lemma {:induction false} EntriesComplete(routers: seq<RouterConfig>, i: nat, rule: RouterRule)
    requires i < |routers| && rule in routers[i].rules
    ensures Entry(rule, i) in Entries(routers)
  {
    var n := |routers| - 1;
    if i == n {
      var j :| 0 <= j < |routers[n].rules| && routers[n].rules[j] == rule;
      assert RuleEntries(routers[n].rules, n)[j] == Entry(rule, i);
    } else {
      EntriesComplete(routers[..n], i, rule);
    }
  }

  /** When the bucket of the path has no hit, no exact entry matches. */
  lemma NoExactHit(t: Tables, rx: RegexEngine, es: seq<Entry>, q: Request)
    requires Compiled(t, rx, es)
    requires FirstWhere(ExactHit(q.verb), Bucket(t.exact, q.path)).None?
    ensures forall j | 0 <= j < |es| && Hit(rx, es[j], q) :: !es[j].rule.pathType.Exact?
  {
    forall j | 0 <= j < |es| && Hit(rx, es[j], q)
      ensures !es[j].rule.pathType.Exact?
    {
      if es[j].rule.pathType.Exact? {
        FilterMapMember(ExactAt(q.path), es, ExactAt(q.path)(es[j]).value);
        assert false;
      }
    }
  }

  lemma PrefixInTable(t: Tables, rx: RegexEngine, es: seq<Entry>, j: nat) returns (a: nat)
    requires Compiled(t, rx, es)
    requires j < |es| && es[j].rule.pathType.Prefix?
    ensures a < |t.prefix| && Some(t.prefix[a]) == PrefixOf()(es[j])
  {
    var r := PrefixOf()(es[j]).value;
    FilterMapMember(PrefixOf(), es, r);
    assert r in multiset(t.prefix);
    a :| 0 <= a < |t.prefix| && t.prefix[a] == r;
  }

  lemma TableInPrefix(t: Tables, rx: RegexEngine, es: seq<Entry>, a: nat) returns (j: nat)
    requires Compiled(t, rx, es)
    requires a < |t.prefix|
    ensures j < |es| && Some(t.prefix[a]) == PrefixOf()(es[j])
  {
    assert t.prefix[a] in multiset(t.prefix);
    FilterMapMember(PrefixOf(), es, t.prefix[a]);
    var e :| e in es && PrefixOf()(e) == Some(t.prefix[a]);
    j :| 0 <= j < |es| && es[j] == e;
  }

  lemma NoPrefixHit(t: Tables, rx: RegexEngine, es: seq<Entry>, q: Request)
    requires Compiled(t, rx, es)
    requires FirstWhere(PrefixHit(q), t.prefix).None?
    ensures forall j | 0 <= j < |es| && Hit(rx, es[j], q) :: !es[j].rule.pathType.Prefix?
  {
    forall j | 0 <= j < |es| && Hit(rx, es[j], q)
      ensures !es[j].rule.pathType.Prefix?
    {
      if es[j].rule.pathType.Prefix? {
        var a := PrefixInTable(t, rx, es, j);
        assert false;
      }
    }
  }

  lemma NoRegexHit(t: Tables, rx: RegexEngine, es: seq<Entry>, q: Request)
    requires Compiled(t, rx, es)
    requires FirstWhere(RegexHit(rx, q), t.regex).None?
    ensures forall j | 0 <= j < |es| && Hit(rx, es[j], q) :: !es[j].rule.pathType.Regex?
  {
    forall j | 0 <= j < |es| && Hit(rx, es[j], q)
      ensures !es[j].rule.pathType.Regex?
    {
      if es[j].rule.pathType.Regex? {
        FilterMapMember(RegexOf(rx), es, RegexOf(rx)(es[j]).value);
        assert false;
      }
    }
  }

  lemma ExactPick(t: Tables, rx: RegexEngine, es: seq<Entry>, q: Request, i: nat)
    returns (k: nat)
    requires Compiled(t, rx, es)
    requires FirstWhere(ExactHit(q.verb), Bucket(t.exact, q.path)) == Some(i)
    ensures ScanPick(rx, es, q, k) && es[k].router == Bucket(t.exact, q.path)[i].router
  {
    k := FirstImage(ExactAt(q.path), es, ExactHit(q.verb), i);
    assert es[k].rule.pathType.Exact? && es[k].rule.path == q.path;
    forall j | 0 <= j < k && Hit(rx, es[j], q)
      ensures Tier(es[j].rule) != 0
    {
      if es[j].rule.pathType.Exact? {
        assert false;
      }
    }
  }

  /** The first prefix hit in any arrangement is a longest one. */
  lemma PrefixPick(t: Tables, rx: RegexEngine, es: seq<Entry>, q: Request, i: nat)
    returns (k: nat)
    requires Compiled(t, rx, es)
    requires forall j | 0 <= j < |es| && Hit(rx, es[j], q) :: !es[j].rule.pathType.Exact?
    requires FirstWhere(PrefixHit(q), t.prefix) == Some(i)
    ensures ScanPick(rx, es, q, k) && PrefixOf()(es[k]) == Some(t.prefix[i])
  {
    k := TableInPrefix(t, rx, es, i);
    forall j | 0 <= j < |es| && Hit(rx, es[j], q)
      ensures !Beats(es[j].rule, es[k].rule)
    {
      if es[j].rule.pathType.Prefix? {
        var a := PrefixInTable(t, rx, es, j);
        assert PrefixHit(q)(t.prefix[a]);
        assert i == a || LongestFirst()(t.prefix[i]) <= LongestFirst()(t.prefix[a]);
      }
    }
  }

  lemma RegexPick(t: Tables, rx: RegexEngine, es: seq<Entry>, q: Request, i: nat)
    returns (k: nat)
    requires Compiled(t, rx, es)
    requires forall j | 0 <= j < |es| && Hit(rx, es[j], q) :: es[j].rule.pathType.Regex?
    requires FirstWhere(RegexHit(rx, q), t.regex) == Some(i)
    ensures ScanPick(rx, es, q, k) && es[k].router == t.regex[i].router
  {
    k := FirstImage(RegexOf(rx), es, RegexHit(rx, q), i);
    assert t.regex[i].methods == es[k].rule.methods;
    assert MethodMatches(t.regex[i].methods, q.verb);
    assert t.regex[i].methods == [] || q.verb in t.regex[i].methods;
    forall j | 0 <= j < k
      ensures !Hit(rx, es[j], q)
    {
      assert es[j].rule.pathType.Regex? && rx.compiles(es[j].rule.path) ==> RegexOf(rx)(es[j]).Some?;
    }
  }

  lemma LookupPick(t: Tables, rx: RegexEngine, es: seq<Entry>, q: Request) returns (k: Option<nat>)
    requires Compiled(t, rx, es)
    ensures k.Some? ==> ScanPick(rx, es, q, k.value) && Lookup(t, rx, q) == Some(es[k.value].router)
    ensures k.None? ==> Lookup(t, rx, q).None? && forall j | 0 <= j < |es| :: !Hit(rx, es[j], q)
  {
    var e := FirstWhere(ExactHit(q.verb), Bucket(t.exact, q.path));
    var p := FirstWhere(PrefixHit(q), t.prefix);
    var x := FirstWhere(RegexHit(rx, q), t.regex);
    if e.Some? {
      var i := ExactPick(t, rx, es, q, e.value);
      return Some(i);
    }
    NoExactHit(t, rx, es, q);
    if p.Some? {
      var i := PrefixPick(t, rx, es, q, p.value);
      return Some(i);
    }
    NoPrefixHit(t, rx, es, q);
    if x.Some? {
      var i := RegexPick(t, rx, es, q, x.value);
      return Some(i);
    }
    NoRegexHit(t, rx, es, q);
    k := None;
  }

  /** The scan may send the request to router `r`. */
  ghost predicate Picked(rx: RegexEngine, es: seq<Entry>, q: Request, r: nat) {
    exists k: nat :: ScanPick(rx, es, q, k) && es[k].router == r
  }

  /** For every arrangement the sort may leave, a successful lookup is the router of an entry the plain
      scan may settle on, and the lookup fails exactly when no rule matches. */
  lemma LookupRefinesScan(t: Tables, rx: RegexEngine, routers: seq<RouterConfig>, q: Request)
    requires Compiled(t, rx, Entries(routers))
    ensures var es := Entries(routers);
            match Lookup(t, rx, q)
            case Some(i) => i < |routers| && Picked(rx, es, q, i)
            case None => forall j | 0 <= j < |es| :: !Hit(rx, es[j], q)
  {
    var k := LookupPick(t, rx, Entries(routers), q);
    if k.Some? {
      EntriesInRange(routers, k.value);
    }
  }

  // ---------------------------------------------------------------- and the scan is no wider than the lookup

  /** Two entries the scan may settle on differ only by a tie between equal prefixes. */
  lemma PicksAgree(rx: RegexEngine, es: seq<Entry>, q: Request, a: nat, b: nat)
    requires ScanPick(rx, es, q, a) && ScanPick(rx, es, q, b)
    ensures es[a].rule.pathType == es[b].rule.pathType && es[a].rule.path == es[b].rule.path
    ensures !es[a].rule.pathType.Prefix? ==> a == b
  {
    if es[a].rule.pathType.Prefix? {
      var n := |es[a].rule.path|;
      assert es[a].rule.path == q.path[..n] == es[b].rule.path;
    }
  }

  /** The tables with the prefix routes in arrangement `arr`. */
  lemma CompiledWith(rx: RegexEngine, es: seq<Entry>, arr: seq<PrefixRoute>) returns (t: Tables)
    requires IsArrangement(LongestFirst(), arr, FilterMap(PrefixOf(), es))
    ensures Compiled(t, rx, es) && t.prefix == arr
  {
    var paths := set e | e in es :: e.rule.path;
    t := Tables(map p | p in paths :: FilterMap(ExactAt(p), es), arr, FilterMap(RegexOf(rx), es));
    forall p
      ensures Bucket(t.exact, p) == FilterMap(ExactAt(p), es)
    {
      var routes := FilterMap(ExactAt(p), es);
      if p !in paths && routes != [] {
        FilterMapMember(ExactAt(p), es, routes[0]);
        assert false;
      }
    }
  }

  /** Whatever the scan may settle on, some arrangement makes the lookup settle on it. */
  lemma EveryPickIsReachable(rx: RegexEngine, es: seq<Entry>, q: Request, k: nat) returns (t: Tables)
    requires ScanPick(rx, es, q, k)
    ensures Compiled(t, rx, es) && Lookup(t, rx, q) == Some(es[k].router)
  {
    var routes := FilterMap(PrefixOf(), es);
    if es[k].rule.pathType.Prefix? {
      var r := PrefixOf()(es[k]).value;
      FilterMapMember(PrefixOf(), es, r);
      var arr, i := ArrangeFirst(LongestFirst(), routes, r);
      t := CompiledWith(rx, es, arr);
      forall j | 0 <= j < i
        ensures !PrefixHit(q)(arr[j])
      {
        var e := TableInPrefix(t, rx, es, j);
        assert LongestFirst()(arr[j]) < LongestFirst()(r);
        assert Beats(es[e].rule, es[k].rule);
      }
      var first := FirstWhere(ExactHit(q.verb), Bucket(t.exact, q.path));
      if first.Some? {
        var e := ExactPick(t, rx, es, q, first.value);
        FilterMapMember(ExactAt(q.path), es, Bucket(t.exact, q.path)[first.value]);
        PicksAgree(rx, es, q, e, k);
        assert false;
      }
    } else {
      var arr := Arrange(LongestFirst(), routes);
      t := CompiledWith(rx, es, arr);
      var other := LookupPick(t, rx, es, q);
      assert other.Some?;
      PicksAgree(rx, es, q, k, other.value);
    }
  }

  /** Every arrangement the sort may leave gives the same answer. */
  ghost predicate ArrangementFree(rx: RegexEngine, es: seq<Entry>, q: Request) {
    forall t, u | Compiled(t, rx, es) && Compiled(u, rx, es) :: Lookup(t, rx, q) == Lookup(u, rx, q)
  }

  /** All entries the scan may settle on belong to one router. */
  ghost predicate OneRouter(rx: RegexEngine, es: seq<Entry>, q: Request) {
    forall r, s | Picked(rx, es, q, r) && Picked(rx, es, q, s) :: r == s
  }

  /** Which arrangement the sort leaves is immaterial exactly when all entries the scan may settle on belong
      to one router; by PicksAgree those entries all carry the same prefix in any case. */
  lemma TieBreakHarmlessIff(rx: RegexEngine, es: seq<Entry>, q: Request)
    ensures ArrangementFree(rx, es, q) <==> OneRouter(rx, es, q)
  {
    if ArrangementFree(rx, es, q) {
      forall r, s | Picked(rx, es, q, r) && Picked(rx, es, q, s)
        ensures r == s
      {
        var a: nat :| ScanPick(rx, es, q, a) && es[a].router == r;
        var b: nat :| ScanPick(rx, es, q, b) && es[b].router == s;
        var t := EveryPickIsReachable(rx, es, q, a);
        var u := EveryPickIsReachable(rx, es, q, b);
      }
    }
    if OneRouter(rx, es, q) {
      forall t, u | Compiled(t, rx, es) && Compiled(u, rx, es)
        ensures Lookup(t, rx, q) == Lookup(u, rx, q)
      {
        OneRouterOneAnswer(t, u, rx, es, q);
      }
    }
  }

  lemma OneRouterOneAnswer(t: Tables, u: Tables, rx: RegexEngine, es: seq<Entry>, q: Request)
    requires OneRouter(rx, es, q) && Compiled(t, rx, es) && Compiled(u, rx, es)
    ensures Lookup(t, rx, q) == Lookup(u, rx, q)
  {
    var a := LookupPick(t, rx, es, q);
    var b := LookupPick(u, rx, es, q);
    if a.Some? && b.Some? {
      assert Picked(rx, es, q, es[a.value].router) && Picked(rx, es, q, es[b.value].router);
    }
  }

  // ---------------------------------------------------------------- accounting

  /** How often the tables hold the route compiled from `e`. */
  ghost function Tabled(t: Tables, e: Entry): nat {
    match e.rule.pathType
    case Exact => multiset(Bucket(t.exact, e.rule.path))[ExactRoute(e.rule.methods, e.router)]
    case Prefix => multiset(t.prefix)[PrefixRoute(e.rule.path, e.rule.methods, e.router)]
    case Regex => multiset(t.regex)[RegexRoute(e.rule.path, e.rule.methods, e.router)]
  }

  /** Every configured rule is tabled as often as it is configured, except a regex that does not compile,
      which is not tabled at all. */
  lemma EveryRuleTabledOnce(t: Tables, rx: RegexEngine, es: seq<Entry>, e: Entry)
    requires Compiled(t, rx, es)
    ensures Tabled(t, e) == if e.rule.pathType.Regex? && !rx.compiles(e.rule.path) then 0 else multiset(es)[e]
  {
    match e.rule.pathType
    case Exact =>
      FilterMapCount(ExactAt(e.rule.path), es, e, ExactRoute(e.rule.methods, e.router));
    case Prefix =>
      FilterMapCount(PrefixOf(), es, e, PrefixRoute(e.rule.path, e.rule.methods, e.router));
    case Regex =>
      var r := RegexRoute(e.rule.path, e.rule.methods, e.router);
      if rx.compiles(e.rule.path) {
        FilterMapCount(RegexOf(rx), es, e, r);
      } else {
        FilterMapMember(RegexOf(rx), es, r);
      }
  }

  // ---------------------------------------------------------------- rules that do not match

  /** A pick of one scan is a pick of another that sees the same matches in the same order: `back` carries the indices
      of the second scan to those of the first. */
  lemma PickCarries(rx: RegexEngine, es: seq<Entry>, fs: seq<Entry>, q: Request, k: nat, l: nat, back: int -> int)
    requires ScanPick(rx, es, q, k) && l < |fs| && fs[l] == es[k] && back(l) == k
    requires forall j | 0 <= j < |fs| && Hit(rx, fs[j], q) :: 0 <= back(j) < |es| && es[back(j)] == fs[j]
    requires forall j | 0 <= j < l && Hit(rx, fs[j], q) :: back(j) < k
    ensures Picked(rx, fs, q, es[k].router)
  {
    assert ScanPick(rx, fs, q, l);
  }

  /** An entry that does not match may be taken out without changing where the scan may end. */
  lemma DropMiss(rx: RegexEngine, a: seq<Entry>, x: Entry, b: seq<Entry>, q: Request, r: nat)
    requires !Hit(rx, x, q)
    ensures Picked(rx, a + [x] + b, q, r) <==> Picked(rx, a + b, q, r)
  {
    if Picked(rx, a + [x] + b, q, r) { DropMissOut(rx, a, x, b, q, r); }
    if Picked(rx, a + b, q, r) { DropMissIn(rx, a, x, b, q, r); }
  }

  lemma DropMissOut(rx: RegexEngine, a: seq<Entry>, x: Entry, b: seq<Entry>, q: Request, r: nat)
    requires !Hit(rx, x, q) && Picked(rx, a + [x] + b, q, r)
    ensures Picked(rx, a + b, q, r)
  {
    var es, fs, n := a + [x] + b, a + b, |a|;
    var k: nat :| ScanPick(rx, es, q, k) && es[k].router == r;
    var back := (j: int) => if j < n then j else j + 1;
    assert k != n;
    assert forall j | 0 <= j < |fs| :: es[back(j)] == fs[j];
    PickCarries(rx, es, fs, q, k, if k < n then k else k - 1, back);
  }

  lemma DropMissIn(rx: RegexEngine, a: seq<Entry>, x: Entry, b: seq<Entry>, q: Request, r: nat)
    requires !Hit(rx, x, q) && Picked(rx, a + b, q, r)
    ensures Picked(rx, a + [x] + b, q, r)
  {
    var es, fs, n := a + [x] + b, a + b, |a|;
    var k: nat :| ScanPick(rx, fs, q, k) && fs[k].router == r;
    var back := (j: int) => if j < n then j else j - 1;
    assert es[n] == x;
    assert forall j | 0 <= j < |es| && j != n :: es[j] == fs[back(j)];
    PickCarries(rx, fs, es, q, k, if k < n then k else k + 1, back);
  }

  function DeleteRule(routers: seq<RouterConfig>, i: nat, j: nat): (r: seq<RouterConfig>)
    requires i < |routers| && j < |routers[i].rules|
  {
    var rules := routers[i].rules;
    routers[i := routers[i].(rules := rules[..j] + rules[j + 1..])]
  }

  lemma {:induction false} EntriesAfterDelete(routers: seq<RouterConfig>, i: nat, j: nat)
    returns (a: seq<Entry>, b: seq<Entry>)
    requires i < |routers| && j < |routers[i].rules|
    ensures Entries(routers) == a + [Entry(routers[i].rules[j], i)] + b
    ensures Entries(DeleteRule(routers, i, j)) == a + b
  {
    var n, less := |routers| - 1, DeleteRule(routers, i, j);
    if i == n {
      var own, rest := RuleEntries(routers[n].rules, n), RuleEntries(less[n].rules, n);
      a, b := Entries(routers[..n]) + own[..j], own[j + 1..];
      assert less[..n] == routers[..n];
      assert rest == own[..j] + own[j + 1..];
    } else {
      assert less[..n] == DeleteRule(routers[..n], i, j);
      var b': seq<Entry>;
      a, b' := EntriesAfterDelete(routers[..n], i, j);
      b := b' + RuleEntries(routers[n].rules, n);
    }
  }

  /** Deleting a rule that does not match the request, such as an exact rule with the wrong method, leaves
      the routers the scan may pick as they are, and so keeps the 404s and every unambiguous choice. */
  lemma MissIsIrrelevant(rx: RegexEngine, routers: seq<RouterConfig>, i: nat, j: nat, q: Request, t: Tables, u: Tables)
    requires i < |routers| && j < |routers[i].rules| && !RuleMatches(rx, routers[i].rules[j], q)
    requires Compiled(t, rx, Entries(routers)) && Compiled(u, rx, Entries(DeleteRule(routers, i, j)))
    ensures forall r :: Picked(rx, Entries(routers), q, r) <==> Picked(rx, Entries(DeleteRule(routers, i, j)), q, r)
    ensures Lookup(t, rx, q).None? <==> Lookup(u, rx, q).None?
    ensures OneRouter(rx, Entries(routers), q) ==> Lookup(t, rx, q) == Lookup(u, rx, q)
  {
    var a, b := EntriesAfterDelete(routers, i, j);
    forall r {
      DropMiss(rx, a, Entry(routers[i].rules[j], i), b, q, r);
    }
    var k := LookupPick(t, rx, Entries(routers), q);
    var l := LookupPick(u, rx, Entries(DeleteRule(routers, i, j)), q);
    if k.Some? { assert Picked(rx, Entries(routers), q, Lookup(t, rx, q).value); }
    if l.Some? { assert Picked(rx, Entries(DeleteRule(routers, i, j)), q, Lookup(u, rx, q).value); }
  }

  /** A configuration that still has every rule of another answers every request the other answers. */
  lemma MoreRulesNeverLoseAMatch(rx: RegexEngine, fewer: seq<RouterConfig>, more: seq<RouterConfig>, q: Request,
                                 t: Tables, u: Tables)
    requires forall r, rule | r in fewer && rule in r.rules :: exists r' :: r' in more && rule in r'.rules
    requires Compiled(t, rx, Entries(fewer)) && Compiled(u, rx, Entries(more))
    requires Lookup(t, rx, q).Some?
    ensures Lookup(u, rx, q).Some?
  {
    var k := LookupPick(t, rx, Entries(fewer), q);
    EntriesInRange(fewer, k.value);
    var rule := Entries(fewer)[k.value].rule;
    assert exists r' :: r' in more && rule in r'.rules;
    var r' :| r' in more && rule in r'.rules;
    var i :| 0 <= i < |more| && more[i] == r';
    EntriesComplete(more, i, rule);
    var l := LookupPick(u, rx, Entries(more), q);
    assert Hit(rx, Entry(rule, i), q);
  }
}
