/**
The configuration loader: JSON documents to resources, and a directory of documents to a store. A document
either converts as a whole or throws and leaves the store as it was.
*/
module Loader {
  import opened Prelude
  import opened Config

  /** folly::dynamic. */
  datatype Json =
    | JNull
    | JBool(b: bool)
    | JInt(i: int)
    | JDouble(text: string)
    | JString(s: string)
    | JArray(items: seq<Json>)
    | JObject(fields: map<string, Json>)

  // ---------------------------------------------------------------- reading fields

  /** get_ptr: only an object has fields; on anything else it throws. */
  function GetPtr(d: Json, key: string): Result<Option<Json>> {
    if !d.JObject? then Throw else Ok(if key in d.fields then Some(d.fields[key]) else None)
  }

  /** The const operator[]: a missing field throws. */
  function At(d: Json, key: string): Result<Json> {
    if d.JObject? && key in d.fields then Ok(d.fields[key]) else Throw
  }

  function GetStr(d: Json, key: string, default: string): Result<string> {
    var p :- GetPtr(d, key);
    Ok(if p.Some? && p.value.JString? then p.value.s else default)
  }

  function GetInt(d: Json, key: string, default: int): Result<int> {
    var p :- GetPtr(d, key);
    Ok(if p.Some? && p.value.JInt? then p.value.i else default)
  }

  function AsString(): Json -> Result<string> {
    (d: Json) => if d.JString? then Ok(d.s) else Throw
  }

  /** static_cast<uint16_t> and static_cast<int32_t>. */
  function ToUInt16(i: int): UInt16 {
    i % 0x1_0000
  }

  function ToInt32(i: int): Int32 {
    (i + 0x8000_0000) % 0x1_0000_0000 - 0x8000_0000
  }

  /** A loop that converts each element and pushes it back; one that throws ends it. */
  function MapAll<U>(f: Json -> Result<U>, items: seq<Json>): Result<seq<U>> {
    if items == [] then Ok([])
    else
      var init :- MapAll(f, items[..|items| - 1]);
      var x :- f(items[|items| - 1]);
      Ok(init + [x])
  }

  method ReadAll<U>(f: Json -> Result<U>, items: seq<Json>) returns (r: Result<seq<U>>)
    ensures r == MapAll(f, items)
  {
    var out: seq<U> := [];
    for i := 0 to |items|
      invariant MapAll(f, items[..i]) == Ok(out)
    {
      assert items[..i + 1][..i] == items[..i];
      var x := f(items[i]);
      if x.Throw? {
        MapAllThrows(f, items, i + 1);
        return Throw;
      }
      out := out + [x.value];
    }
    assert items[..|items|] == items;
    r := Ok(out);
  }

  lemma {:induction false} MapAllThrows<U>(f: Json -> Result<U>, items: seq<Json>, n: nat)
    requires n <= |items| && MapAll(f, items[..n]).Throw?
    ensures MapAll(f, items).Throw?
  {
    if n < |items| {
      assert items[..|items| - 1][..n] == items[..n];
      MapAllThrows(f, items[..|items| - 1], n);
    } else {
      assert items[..n] == items;
    }
  }

  /** The converted elements of an optional array field. */
  function ListOf<U>(f: Json -> Result<U>, d: Json, key: string): Result<seq<U>> {
    var p :- GetPtr(d, key);
    if p.None? then Ok([])
    else if p.value.JArray? then MapAll(f, p.value.items)
    else Throw
  }

  function NameOf(d: Json): Result<string> {
    var meta :- GetPtr(d, "metadata");
    if meta.None? then Ok("") else GetStr(meta.value, "name", "")
  }

  // ---------------------------------------------------------------- Router

  function PathTypeOf(p: Option<Json>): Result<PathType> {
    if p.None? then Ok(Prefix)
    else if !p.value.JString? then Throw
    else Ok(if p.value.s == "Exact" then Exact else if p.value.s == "Regex" then Regex else Prefix)
  }

  function RuleOf(): Json -> Result<RouterRule> {
    (r: Json) =>
      var path :- GetStr(r, "path", "");
      var p :- GetPtr(r, "pathType");
      var pathType :- PathTypeOf(p);
      var methods :- ListOf(AsString(), r, "methods");
      Ok(RouterRule(path, pathType, methods))
  }

  function RewriteOf(p: Option<Json>): Result<Option<RewriteConfig>> {
    if p.None? then Ok(None)
    else
      var path :- GetStr(p.value, "path", "");
      var host :- GetStr(p.value, "host", "");
      Ok(Some(RewriteConfig(path, host)))
  }

  function RefOf(p: Option<Json>): Result<(string, string)> {
    if p.None? then Ok(("Service", ""))
    else
      var kind :- GetStr(p.value, "kind", "Service");
      var name :- GetStr(p.value, "name", "");
      Ok((kind, name))
  }

  function DestinationOf(): Json -> Result<RouterDestination> {
    (d: Json) =>
      var p :- GetPtr(d, "destinationRef");
      var ref :- RefOf(p);
      var weight :- GetInt(d, "weight", 100);
      var w :- GetPtr(d, "rewrite");
      var rewrite :- RewriteOf(w);
      Ok(RouterDestination(ref.0, ref.1, ToInt32(weight), rewrite))
  }

  function DestinationsOf(p: Option<Json>): Result<seq<RouterDestination>> {
    if p.None? then Ok([]) else ListOf(DestinationOf(), p.value, "destinations")
  }

  function TargetRefOf(p: Option<Json>): Result<string> {
    if p.None? then Ok("") else GetStr(p.value, "name", "")
  }

  /** What a router keeps of its spec. */
  datatype RouterParts = RouterParts(
    targetRef: string,
    rules: seq<RouterRule>,
    destinations: seq<RouterDestination>,
    policies: seq<string>)

  function RouterPartsOf(spec: Json): Result<RouterParts> {
    var t :- GetPtr(spec, "targetRef");
    var targetRef :- TargetRefOf(t);
    var rules :- ListOf(RuleOf(), spec, "rules");
    var c :- GetPtr(spec, "config");
    var destinations :- DestinationsOf(c);
    var policies :- ListOf(AsString(), spec, "policies");
    Ok(RouterParts(targetRef, rules, destinations, policies))
  }

  function RouterFromJson(d: Json): Result<RouterConfig> {
    var apiVersion :- GetStr(d, "apiVersion", "");
    var kind :- GetStr(d, "kind", "");
    var name :- NameOf(d);
    var spec :- At(d, "spec");
    var parts :- RouterPartsOf(spec);
    Ok(RouterConfig(apiVersion, kind, name, parts.targetRef, parts.rules, parts.destinations, parts.policies))
  }

  /** An optional array field, element by element. */
  method ReadList<U>(f: Json -> Result<U>, d: Json, key: string) returns (r: Result<seq<U>>)
    ensures r == ListOf(f, d, key)
  {
    var p :- GetPtr(d, key);
    if p.None? { return Ok([]); }
    if !p.value.JArray? { return Throw; }
    r := ReadAll(f, p.value.items);
  }

  /** RouterConfig::fromJson, field by field. */
  method ReadRouter(d: Json) returns (r: Result<RouterConfig>)
    ensures r == RouterFromJson(d)
  {
    var cfg := RouterConfig("", "", "", "", [], [], []);
    var apiVersion :- GetStr(d, "apiVersion", "");
    var kind := GetStr(d, "kind", "").value;
    var name :- NameOf(d);
    cfg := cfg.(apiVersion := apiVersion, kind := kind, name := name);
    var spec :- At(d, "spec");
    var ref :- GetPtr(spec, "targetRef");
    if ref.Some? {
      var target :- GetStr(ref.value, "name", "");
      cfg := cfg.(targetRefName := target);
    }
    var rules :- ReadList(RuleOf(), spec, "rules");
    cfg := cfg.(rules := rules);
    var conf :- GetPtr(spec, "config");
    if conf.Some? {
      var dests :- ReadList(DestinationOf(), conf.value, "destinations");
      cfg := cfg.(destinations := dests);
    }
    var policies :- ReadList(AsString(), spec, "policies");
    cfg := cfg.(policies := policies);
    r := Ok(cfg);
  }

  // ---------------------------------------------------------------- Service

  function TargetOf(): Json -> Result<Target> {
    (d: Json) =>
      var host :- GetStr(d, "host", "");
      var port :- GetInt(d, "port", 80);
      var weight :- GetInt(d, "weight", 1);
      Ok(Target(host, ToUInt16(port), ToInt32(weight)))
  }

  function BalancingOf(p: Option<Json>): Result<(string, seq<Target>)> {
    if p.None? then Ok(("ROUND_ROBIN", []))
    else
      var algorithm :- GetStr(p.value, "algorithm", "ROUND_ROBIN");
      var targets :- ListOf(TargetOf(), p.value, "targets");
      Ok((algorithm, targets))
  }

  function ServiceFromJson(d: Json): Result<ServiceConfig> {
    var apiVersion :- GetStr(d, "apiVersion", "");
    var kind :- GetStr(d, "kind", "");
    var name :- NameOf(d);
    var spec :- At(d, "spec");
    var protocol :- GetStr(spec, "protocol", "HTTP");
    var p :- GetPtr(spec, "loadBalancing");
    var lb :- BalancingOf(p);
    Ok(ServiceConfig(apiVersion, kind, name, protocol, lb.0, lb.1))
  }

  /** ServiceConfig::fromJson, field by field. */
  method ReadService(d: Json) returns (r: Result<ServiceConfig>)
    ensures r == ServiceFromJson(d)
  {
    var cfg := ServiceConfig("", "", "", "HTTP", "ROUND_ROBIN", []);
    var apiVersion :- GetStr(d, "apiVersion", "");
    var kind := GetStr(d, "kind", "").value;
    var name :- NameOf(d);
    cfg := cfg.(apiVersion := apiVersion, kind := kind, name := name);
    var spec :- At(d, "spec");
    var protocol :- GetStr(spec, "protocol", "HTTP");
    cfg := cfg.(protocol := protocol);
    var lb :- GetPtr(spec, "loadBalancing");
    if lb.Some? {
      var algorithm :- GetStr(lb.value, "algorithm", "ROUND_ROBIN");
      var targets :- ReadList(TargetOf(), lb.value, "targets");
      cfg := cfg.(algorithm := algorithm, targets := targets);
    }
    r := Ok(cfg);
  }

  // ---------------------------------------------------------------- Policy

  function JwtFromJson(p: Option<Json>): Result<Option<JwtConfig>> {
    if p.None? then Ok(None)
    else
      var uri :- GetStr(p.value, "jwksUri", "");
      var issuer :- GetStr(p.value, "issuer", "");
      var audience :- GetStr(p.value, "audience", "");
      var ttl :- GetInt(p.value, "cacheTtlSeconds", 300);
      Ok(Some(JwtConfig(uri, issuer, audience, ToInt32(ttl))))
  }

  function SecurityOf(p: Option<Json>): Result<Option<SecurityPolicySpec>> {
    if p.None? then Ok(None)
    else
      var j :- GetPtr(p.value, "jwt");
      var jwt :- JwtFromJson(j);
      Ok(Some(SecurityPolicySpec(jwt)))
  }

  function PolicyFromJson(d: Json): Result<PolicyConfig> {
    var apiVersion :- GetStr(d, "apiVersion", "");
    var kind :- GetStr(d, "kind", "");
    var name :- NameOf(d);
    var spec :- At(d, "spec");
    var order :- GetInt(spec, "order", 0);
    var p :- GetPtr(spec, "security");
    var security :- SecurityOf(p);
    Ok(PolicyConfig(apiVersion, kind, name, ToInt32(order), security))
  }

  // ---------------------------------------------------------------- documents written out

  function StringsToJson(ss: seq<string>): Json {
    JArray(seq(|ss|, i requires 0 <= i < |ss| => JString(ss[i])))
  }

  function PathTypeName(t: PathType): string {
    match t
    case Exact => "Exact"
    case Prefix => "Prefix"
    case Regex => "Regex"
  }

  function RuleToJson(r: RouterRule): Json {
    JObject(map[
      "path" := JString(r.path),
      "pathType" := JString(PathTypeName(r.pathType)),
      "methods" := StringsToJson(r.methods)])
  }

  function DestinationToJson(d: RouterDestination): Json {
    var required := map[
      "destinationRef" := JObject(map["kind" := JString(d.destinationKind), "name" := JString(d.destinationName)]),
      "weight" := JInt(d.weight)];
    if d.rewrite.None? then JObject(required)
    else JObject(required["rewrite" := JObject(map[
      "path" := JString(d.rewrite.value.path),
      "host" := JString(d.rewrite.value.host)])])
  }

  function Resource(apiVersion: string, kind: string, name: string, spec: Json): Json {
    JObject(map["apiVersion" := JString(apiVersion), "kind" := JString(kind),
                "metadata" := JObject(map["name" := JString(name)]), "spec" := spec])
  }

  function RulesToJson(rules: seq<RouterRule>): Json {
    JArray(seq(|rules|, i requires 0 <= i < |rules| => RuleToJson(rules[i])))
  }

  function DestinationsToJson(ds: seq<RouterDestination>): Json {
    JArray(seq(|ds|, i requires 0 <= i < |ds| => DestinationToJson(ds[i])))
  }

  function RouterToJson(r: RouterConfig): Json {
    Resource(r.apiVersion, r.kind, r.name, RouterSpec(r))
  }

  function RouterSpec(r: RouterConfig): Json {
    JObject(map[
      "targetRef" := JObject(map["name" := JString(r.targetRefName)]),
      "rules" := RulesToJson(r.rules),
      "config" := JObject(map["destinations" := DestinationsToJson(r.destinations)]),
      "policies" := StringsToJson(r.policies)])
  }

  function TargetToJson(t: Target): Json {
    JObject(map["host" := JString(t.host), "port" := JInt(t.port), "weight" := JInt(t.weight)])
  }

  function BalancingToJson(algorithm: string, targets: seq<Target>): Json {
    JObject(map[
      "algorithm" := JString(algorithm),
      "targets" := JArray(seq(|targets|, i requires 0 <= i < |targets| => TargetToJson(targets[i])))])
  }

  function ServiceToJson(s: ServiceConfig): Json {
    Resource(s.apiVersion, s.kind, s.name, JObject(map[
      "protocol" := JString(s.protocol),
      "loadBalancing" := BalancingToJson(s.algorithm, s.targets)]))
  }

  function JwtToJson(j: JwtConfig): Json {
    JObject(map["jwksUri" := JString(j.jwksUri), "issuer" := JString(j.issuer), "audience" := JString(j.audience),
                "cacheTtlSeconds" := JInt(j.cacheTtlSeconds)])
  }

  function PolicyToJson(p: PolicyConfig): Json {
    var order := map["order" := JInt(p.order)];
    Resource(p.apiVersion, p.kind, p.name,
      if p.security.None? then JObject(order)
      else if p.security.value.jwt.None? then JObject(order["security" := JObject(map[])])
      else JObject(order["security" := JObject(map["jwt" := JwtToJson(p.security.value.jwt.value)])]))
  }

  /** If every element reads back, so does the array of them. */
  lemma {:induction false} MapAllReads<U>(f: Json -> Result<U>, xs: seq<U>, js: seq<Json>)
    requires |xs| == |js| && forall i | 0 <= i < |xs| :: f(js[i]) == Ok(xs[i])
    ensures MapAll(f, js) == Ok(xs)
  {
    if xs == [] {
    } else {
      MapAllReads(f, xs[..|xs| - 1], js[..|js| - 1]);
      assert xs == xs[..|xs| - 1] + [xs[|xs| - 1]];
    }
  }

  lemma StringsRead(ss: seq<string>)
    ensures MapAll(AsString(), StringsToJson(ss).items) == Ok(ss)
  {
    MapAllReads(AsString(), ss, StringsToJson(ss).items);
  }

  lemma Int32Reads(i: Int32)
    ensures ToInt32(i) == i
  {
  }

  lemma RuleReads(r: RouterRule)
    ensures RuleOf()(RuleToJson(r)) == Ok(r)
  {
    StringsRead(r.methods);
    assert "Exact"[0] != "Regex"[0];
  }

  lemma DestinationReads(d: RouterDestination)
    ensures DestinationOf()(DestinationToJson(d)) == Ok(d)
  {
    var j := DestinationToJson(d);
    Int32Reads(d.weight);
    assert j.fields["weight"] == JInt(d.weight);
    var ref := j.fields["destinationRef"];
    assert RefOf(Some(ref)) == Ok((d.destinationKind, d.destinationName));
    if d.rewrite.Some? {
      assert RewriteOf(Some(j.fields["rewrite"])) == Ok(d.rewrite);
    }
  }

  /** A resource keeps its header fields and its spec. */
  lemma ResourceReads(apiVersion: string, kind: string, name: string, spec: Json)
    ensures var d := Resource(apiVersion, kind, name, spec);
            && GetStr(d, "apiVersion", "") == Ok(apiVersion) && GetStr(d, "kind", "") == Ok(kind)
            && NameOf(d) == Ok(name) && At(d, "spec") == Ok(spec)
  {
  }

  lemma RulesRead(rules: seq<RouterRule>)
    ensures MapAll(RuleOf(), RulesToJson(rules).items) == Ok(rules)
  {
    forall i | 0 <= i < |rules| { RuleReads(rules[i]); }
    MapAllReads(RuleOf(), rules, RulesToJson(rules).items);
  }

  lemma DestinationsRead(ds: seq<RouterDestination>)
    ensures MapAll(DestinationOf(), DestinationsToJson(ds).items) == Ok(ds)
  {
    forall i | 0 <= i < |ds| { DestinationReads(ds[i]); }
    MapAllReads(DestinationOf(), ds, DestinationsToJson(ds).items);
  }

  lemma ConfigReads(r: RouterConfig)
    ensures var config := JObject(map["destinations" := DestinationsToJson(r.destinations)]);
            DestinationsOf(Some(config)) == Ok(r.destinations)
  {
    DestinationsRead(r.destinations);
  }

  lemma TargetRefReads(name: string)
    ensures TargetRefOf(Some(JObject(map["name" := JString(name)]))) == Ok(name)
  {
  }

  lemma RouterSpecReads(r: RouterConfig)
    ensures RouterPartsOf(RouterSpec(r)) == Ok(RouterParts(r.targetRefName, r.rules, r.destinations, r.policies))
  {
    TargetRefReads(r.targetRefName);
    RulesRead(r.rules);
    ConfigReads(r);
    StringsRead(r.policies);
    var spec := RouterSpec(r);
    assert ListOf(RuleOf(), spec, "rules") == Ok(r.rules);
    assert ListOf(AsString(), spec, "policies") == Ok(r.policies);
  }

  /** Every router, service and policy reads back from its document. */
  lemma RouterRoundTrip(r: RouterConfig)
    ensures RouterFromJson(RouterToJson(r)) == Ok(r)
  {
    ResourceReads(r.apiVersion, r.kind, r.name, RouterSpec(r));
    RouterSpecReads(r);
  }

  lemma TargetReads(t: Target)
    ensures TargetOf()(TargetToJson(t)) == Ok(t)
  {
    Int32Reads(t.weight);
  }

  lemma BalancingReads(algorithm: string, targets: seq<Target>)
    ensures BalancingOf(Some(BalancingToJson(algorithm, targets))) == Ok((algorithm, targets))
  {
    forall i | 0 <= i < |targets| { TargetReads(targets[i]); }
    MapAllReads(TargetOf(), targets, BalancingToJson(algorithm, targets).fields["targets"].items);
  }

  lemma ServiceRoundTrip(s: ServiceConfig)
    ensures ServiceFromJson(ServiceToJson(s)) == Ok(s)
  {
    ResourceReads(s.apiVersion, s.kind, s.name, ServiceToJson(s).fields["spec"]);
    BalancingReads(s.algorithm, s.targets);
  }

  lemma PolicyRoundTrip(p: PolicyConfig)
    ensures PolicyFromJson(PolicyToJson(p)) == Ok(p)
  {
    var d := PolicyToJson(p);
    var spec := d.fields["spec"];
    ResourceReads(p.apiVersion, p.kind, p.name, spec);
    Int32Reads(p.order);
    if p.security.Some? && p.security.value.jwt.Some? {
      var jwt := p.security.value.jwt;
      Int32Reads(jwt.value.cacheTtlSeconds);
      assert JwtFromJson(Some(JwtToJson(jwt.value))) == Ok(jwt);
    }
  }

  // ---------------------------------------------------------------- documents that convert

  lemma {:induction false} MapAllOkIff<U>(f: Json -> Result<U>, items: seq<Json>)
    ensures MapAll(f, items).Ok? <==> forall x | x in items :: f(x).Ok?
  {
    if items == [] {
    } else {
      var init, x := items[..|items| - 1], items[|items| - 1];
      assert items == init + [x];
      MapAllOkIff(f, init);
    }
  }

  /** A field is absent or of the given shape. */
  predicate Optional(d: Json, key: string, shape: Json -> bool) {
    d.JObject? && (key in d.fields ==> shape(d.fields[key]))
  }

  function IsObject(): Json -> bool {
    (d: Json) => d.JObject?
  }

  ghost function ArrayOf(shape: Json -> bool): Json -> bool {
    (d: Json) => d.JArray? && forall x | x in d.items :: shape(x)
  }

  function IsString(): Json -> bool {
    (d: Json) => d.JString?
  }

  ghost predicate RuleShaped(r: Json) {
    Optional(r, "pathType", IsString()) && Optional(r, "methods", ArrayOf(IsString()))
  }

  ghost predicate DestinationShaped(d: Json) {
    Optional(d, "destinationRef", IsObject()) && Optional(d, "rewrite", IsObject())
  }

  ghost predicate ConfigShaped(d: Json) {
    Optional(d, "destinations", ArrayOf((x: Json) => DestinationShaped(x)))
  }

  ghost predicate RouterSpecShaped(spec: Json) {
    && Optional(spec, "targetRef", IsObject())
    && Optional(spec, "rules", ArrayOf((x: Json) => RuleShaped(x)))
    && Optional(spec, "config", (x: Json) => ConfigShaped(x))
    && Optional(spec, "policies", ArrayOf(IsString()))
  }

  lemma ListOkIff<U>(f: Json -> Result<U>, d: Json, key: string, shape: Json -> bool)
    requires forall x :: f(x).Ok? <==> shape(x)
    ensures ListOf(f, d, key).Ok? <==> Optional(d, key, ArrayOf(shape))
  {
    if d.JObject? && key in d.fields && d.fields[key].JArray? {
      MapAllOkIff(f, d.fields[key].items);
    }
  }

  lemma RuleOkIff(r: Json)
    ensures RuleOf()(r).Ok? <==> RuleShaped(r)
  {
    ListOkIff(AsString(), r, "methods", IsString());
  }

  lemma DestinationOkIff(d: Json)
    ensures DestinationOf()(d).Ok? <==> DestinationShaped(d)
  {
  }

  /** A Router document converts exactly when it is an object with an object as its spec, every nested section that is
      present is an object, every list that is present is an array, and every name in a list and every path type is a
      string. Fields of any other type fall back to their defaults. */
  lemma RouterConvertsIff(d: Json)
    ensures RouterFromJson(d).Ok? <==>
            Optional(d, "metadata", IsObject()) && "spec" in d.fields && RouterSpecShaped(d.fields["spec"])
  {
    if d.JObject? && "spec" in d.fields {
      RouterPartsOkIff(d.fields["spec"]);
    }
  }

  lemma RouterPartsOkIff(spec: Json)
    ensures RouterPartsOf(spec).Ok? <==> RouterSpecShaped(spec)
  {
    if spec.JObject? {
      RulesOkIff(spec);
      ConfigOkIff(spec);
      ListOkIff(AsString(), spec, "policies", IsString());
    }
  }

  lemma RulesOkIff(spec: Json)
    ensures ListOf(RuleOf(), spec, "rules").Ok? <==> Optional(spec, "rules", ArrayOf((x: Json) => RuleShaped(x)))
  {
    forall r { RuleOkIff(r); }
    ListOkIff(RuleOf(), spec, "rules", (x: Json) => RuleShaped(x));
  }

  lemma ConfigOkIff(spec: Json)
    requires spec.JObject?
    ensures DestinationsOf(GetPtr(spec, "config").value).Ok? <==> Optional(spec, "config", (x: Json) => ConfigShaped(x))
  {
    if "config" in spec.fields {
      forall x { DestinationOkIff(x); }
      ListOkIff(DestinationOf(), spec.fields["config"], "destinations", (x: Json) => DestinationShaped(x));
    }
  }

  ghost predicate BalancingShaped(d: Json) {
    Optional(d, "targets", ArrayOf(IsObject()))
  }

  /** A Service document converts exactly when it, its spec and its load balancing are objects and the targets, if
      any, are an array of objects. */
  lemma ServiceConvertsIff(d: Json)
    ensures ServiceFromJson(d).Ok? <==>
            && Optional(d, "metadata", IsObject()) && "spec" in d.fields
            && Optional(d.fields["spec"], "loadBalancing", (x: Json) => BalancingShaped(x))
  {
    if d.JObject? && "spec" in d.fields && d.fields["spec"].JObject? && "loadBalancing" in d.fields["spec"].fields {
      var lb := d.fields["spec"].fields["loadBalancing"];
      assert forall t :: TargetOf()(t).Ok? <==> IsObject()(t);
      ListOkIff(TargetOf(), lb, "targets", IsObject());
    }
  }

  ghost predicate SecurityShaped(d: Json) {
    Optional(d, "jwt", IsObject())
  }

  /** A Policy document converts exactly when it, its spec, its security section and the jwt section in it are objects
      where they are present, and the spec is. */
  lemma PolicyConvertsIff(d: Json)
    ensures PolicyFromJson(d).Ok? <==>
            && Optional(d, "metadata", IsObject()) && "spec" in d.fields
            && Optional(d.fields["spec"], "security", (x: Json) => SecurityShaped(x))
  {
    if d.JObject? && "spec" in d.fields && d.fields["spec"].JObject? && "security" in d.fields["spec"].fields {
      var sec := d.fields["spec"].fields["security"];
      assert SecurityOf(Some(sec)).Ok? <==> SecurityShaped(sec);
    }
  }

  // ---------------------------------------------------------------- what a document says

  /** A string field says `s`, by default where it is absent or no string. */
  predicate Says(d: Json, key: string, s: string, default: string) {
    && d.JObject?
    && if key in d.fields && d.fields[key].JString? then d.fields[key] == JString(s) else s == default
  }

  /** An integer field says `n` up to a multiple of `width`, by default where it is absent or no integer. */
  predicate Counts(d: Json, key: string, n: int, width: nat, default: int)
    requires width > 0
  {
    && d.JObject?
    && if key in d.fields && d.fields[key].JInt? then (d.fields[key].i - n) % width == 0 else n == default
  }

  /** An array field lists exactly `xs`, in order; an absent one lists nothing. */
  ghost predicate Lists<T>(d: Json, key: string, xs: seq<T>, says: (Json, T) -> bool) {
    && d.JObject?
    && if key !in d.fields then xs == []
       else
         && d.fields[key].JArray? && |d.fields[key].items| == |xs|
         && forall i | 0 <= i < |xs| :: says(d.fields[key].items[i], xs[i])
  }

  function StringIs(): (Json, string) -> bool {
    (d: Json, s: string) => d == JString(s)
  }

  predicate PathTypeIs(d: Json, t: PathType) {
    && d.JObject?
    && if "pathType" !in d.fields then t.Prefix?
       else
         && d.fields["pathType"].JString?
         && (t.Exact? <==> d.fields["pathType"].s == "Exact") && (t.Regex? <==> d.fields["pathType"].s == "Regex")
  }

  ghost function SaysRule(): (Json, RouterRule) -> bool {
    (d: Json, r: RouterRule) =>
      Says(d, "path", r.path, "") && PathTypeIs(d, r.pathType) && Lists(d, "methods", r.methods, StringIs())
  }

  /** The destination a document names, of kind Service unless it says otherwise. */
  predicate SaysRef(d: Json, kind: string, name: string) {
    && d.JObject?
    && if "destinationRef" !in d.fields then kind == "Service" && name == ""
       else
         && Says(d.fields["destinationRef"], "kind", kind, "Service")
         && Says(d.fields["destinationRef"], "name", name, "")
  }

  predicate SaysRewrite(d: Json, rewrite: Option<RewriteConfig>) {
    && d.JObject?
    && (rewrite.Some? <==> "rewrite" in d.fields)
    && (rewrite.Some? ==> Says(d.fields["rewrite"], "path", rewrite.value.path, "")
                          && Says(d.fields["rewrite"], "host", rewrite.value.host, ""))
  }

  function SaysDestination(): (Json, RouterDestination) -> bool {
    (d: Json, r: RouterDestination) =>
      && SaysRef(d, r.destinationKind, r.destinationName)
      && Counts(d, "weight", r.weight, 0x1_0000_0000, 100) && SaysRewrite(d, r.rewrite)
  }

  function SaysTarget(): (Json, Target) -> bool {
    (d: Json, t: Target) =>
      && Says(d, "host", t.host, "")
      && Counts(d, "port", t.port, 0x1_0000, 80) && Counts(d, "weight", t.weight, 0x1_0000_0000, 1)
  }

  /** The fields every resource has. */
  predicate SaysResource(d: Json, apiVersion: string, kind: string, name: string) {
    && Says(d, "apiVersion", apiVersion, "") && Says(d, "kind", kind, "") && "spec" in d.fields
    && if "metadata" in d.fields then Says(d.fields["metadata"], "name", name, "") else name == ""
  }

  ghost predicate SaysRouterSpec(spec: Json, p: RouterParts) {
    && spec.JObject?
    && (if "targetRef" in spec.fields then Says(spec.fields["targetRef"], "name", p.targetRef, "")
        else p.targetRef == "")
    && Lists(spec, "rules", p.rules, SaysRule())
    && (if "config" in spec.fields then Lists(spec.fields["config"], "destinations", p.destinations, SaysDestination())
        else p.destinations == [])
    && Lists(spec, "policies", p.policies, StringIs())
  }

  ghost predicate SaysRouter(d: Json, r: RouterConfig) {
    && SaysResource(d, r.apiVersion, r.kind, r.name)
    && SaysRouterSpec(d.fields["spec"], RouterParts(r.targetRefName, r.rules, r.destinations, r.policies))
  }

  ghost predicate SaysBalancing(spec: Json, algorithm: string, targets: seq<Target>) {
    && spec.JObject?
    && if "loadBalancing" !in spec.fields then algorithm == "ROUND_ROBIN" && targets == []
       else
         && Says(spec.fields["loadBalancing"], "algorithm", algorithm, "ROUND_ROBIN")
         && Lists(spec.fields["loadBalancing"], "targets", targets, SaysTarget())
  }

  ghost predicate SaysService(d: Json, s: ServiceConfig) {
    && SaysResource(d, s.apiVersion, s.kind, s.name)
    && Says(d.fields["spec"], "protocol", s.protocol, "HTTP") && SaysBalancing(d.fields["spec"], s.algorithm, s.targets)
  }

  predicate SaysJwt(d: Json, jwt: JwtConfig) {
    && Says(d, "jwksUri", jwt.jwksUri, "") && Says(d, "issuer", jwt.issuer, "") && Says(d, "audience", jwt.audience, "")
    && Counts(d, "cacheTtlSeconds", jwt.cacheTtlSeconds, 0x1_0000_0000, 300)
  }

  predicate SaysSecurity(d: Json, security: SecurityPolicySpec) {
    && d.JObject? && (security.jwt.Some? <==> "jwt" in d.fields)
    && (security.jwt.Some? ==> SaysJwt(d.fields["jwt"], security.jwt.value))
  }

  predicate SaysPolicy(d: Json, p: PolicyConfig) {
    && SaysResource(d, p.apiVersion, p.kind, p.name)
    && var spec := d.fields["spec"];
       && Counts(spec, "order", p.order, 0x1_0000_0000, 0)
       && (p.security.Some? <==> "security" in spec.fields)
       && (p.security.Some? ==> SaysSecurity(spec.fields["security"], p.security.value))
  }

  /** A cast of what the field says, or of the default, is what the field counts. */
  lemma Int32Counts(d: Json, key: string, n: Int32, default: Int32)
    ensures GetInt(d, key, default).Ok? && ToInt32(GetInt(d, key, default).value) == n <==>
            Counts(d, key, n, 0x1_0000_0000, default)
  {
    if d.JObject? && key in d.fields && d.fields[key].JInt? {
      Int32Is(d.fields[key].i, n);
    } else {
      Int32Reads(default);
    }
  }

  lemma Int32Is(i: int, n: Int32)
    ensures ToInt32(i) == n <==> (i - n) % 0x1_0000_0000 == 0
  {
  }

  lemma UInt16Counts(d: Json, key: string, n: UInt16, default: UInt16)
    ensures GetInt(d, key, default).Ok? && ToUInt16(GetInt(d, key, default).value) == n <==>
            Counts(d, key, n, 0x1_0000, default)
  {
    if d.JObject? && key in d.fields && d.fields[key].JInt? {
      UInt16Is(d.fields[key].i, n);
    }
  }

  lemma UInt16Is(i: int, n: UInt16)
    ensures ToUInt16(i) == n <==> (i - n) % 0x1_0000 == 0
  {
  }

  lemma {:induction false} MapAllIff<U>(f: Json -> Result<U>, items: seq<Json>, xs: seq<U>)
    ensures MapAll(f, items) == Ok(xs) <==> |items| == |xs| && forall i | 0 <= i < |xs| :: f(items[i]) == Ok(xs[i])
  {
    if items == [] {
    } else {
      var n := |items| - 1;
      if xs == [] {
        assert MapAll(f, items) != Ok([]);
      } else {
        MapAllIff(f, items[..n], xs[..|xs| - 1]);
        assert xs == xs[..|xs| - 1] + [xs[|xs| - 1]];
        if MapAll(f, items) == Ok(xs) {
          var init, x := MapAll(f, items[..n]).value, f(items[n]).value;
          assert (init + [x])[..|init|] == init && (init + [x])[|init|] == x;
        }
        if |items| == |xs| && forall i | 0 <= i < |xs| :: f(items[i]) == Ok(xs[i]) {
          MapAllReads(f, xs, items);
        }
      }
    }
  }

  lemma ListReadsIff<U>(f: Json -> Result<U>, says: (Json, U) -> bool, d: Json, key: string, xs: seq<U>)
    requires forall j, x :: f(j) == Ok(x) <==> says(j, x)
    ensures ListOf(f, d, key) == Ok(xs) <==> Lists(d, key, xs, says)
  {
    if d.JObject? && key in d.fields && d.fields[key].JArray? {
      MapAllIff(f, d.fields[key].items, xs);
    }
  }

  lemma RuleReadsIff(d: Json, r: RouterRule)
    ensures RuleOf()(d) == Ok(r) <==> SaysRule()(d, r)
  {
    ListReadsIff(AsString(), StringIs(), d, "methods", r.methods);
    assert "Exact"[0] != "Regex"[0];
  }

  lemma DestinationReadsIff(d: Json, r: RouterDestination)
    ensures DestinationOf()(d) == Ok(r) <==> SaysDestination()(d, r)
  {
    Int32Counts(d, "weight", r.weight, 100);
    if d.JObject? {
      assert RefOf(GetPtr(d, "destinationRef").value) == Ok((r.destinationKind, r.destinationName))
             <==> SaysRef(d, r.destinationKind, r.destinationName);
      assert RewriteOf(GetPtr(d, "rewrite").value) == Ok(r.rewrite) <==> SaysRewrite(d, r.rewrite);
    }
  }

  lemma TargetReadsIff(d: Json, t: Target)
    ensures TargetOf()(d) == Ok(t) <==> SaysTarget()(d, t)
  {
    UInt16Counts(d, "port", t.port, 80);
    Int32Counts(d, "weight", t.weight, 1);
  }

  lemma ResourceReadsIff(d: Json, apiVersion: string, kind: string, name: string)
    ensures SaysResource(d, apiVersion, kind, name) <==>
            && GetStr(d, "apiVersion", "") == Ok(apiVersion) && GetStr(d, "kind", "") == Ok(kind)
            && NameOf(d) == Ok(name) && At(d, "spec").Ok?
  {
  }

  lemma RouterSpecReadsIff(spec: Json, p: RouterParts)
    ensures RouterPartsOf(spec) == Ok(p) <==> SaysRouterSpec(spec, p)
  {
    if spec.JObject? {
      forall d, r { RuleReadsIff(d, r); }
      ListReadsIff(RuleOf(), SaysRule(), spec, "rules", p.rules);
      ListReadsIff(AsString(), StringIs(), spec, "policies", p.policies);
      ConfigReadsIff(spec, p.destinations);
      assert TargetRefOf(GetPtr(spec, "targetRef").value) == Ok(p.targetRef) <==>
             if "targetRef" in spec.fields then Says(spec.fields["targetRef"], "name", p.targetRef, "")
             else p.targetRef == "";
    }
  }

  lemma ConfigReadsIff(spec: Json, ds: seq<RouterDestination>)
    requires spec.JObject?
    ensures DestinationsOf(GetPtr(spec, "config").value) == Ok(ds) <==>
            if "config" in spec.fields then Lists(spec.fields["config"], "destinations", ds, SaysDestination())
            else ds == []
  {
    if "config" in spec.fields {
      forall d, r { DestinationReadsIff(d, r); }
      ListReadsIff(DestinationOf(), SaysDestination(), spec.fields["config"], "destinations", ds);
    }
  }

  /** A document converts to a router exactly when that is what it says: field by field, with defaults for what is
      absent or of another type, integers cut to their width, and lists in order. */
  lemma RouterReadsIff(d: Json, r: RouterConfig)
    ensures RouterFromJson(d) == Ok(r) <==> SaysRouter(d, r)
  {
    ResourceReadsIff(d, r.apiVersion, r.kind, r.name);
    if d.JObject? && "spec" in d.fields {
      RouterSpecReadsIff(d.fields["spec"], RouterParts(r.targetRefName, r.rules, r.destinations, r.policies));
    }
  }

  lemma BalancingReadsIff(spec: Json, algorithm: string, targets: seq<Target>)
    requires spec.JObject?
    ensures BalancingOf(GetPtr(spec, "loadBalancing").value) == Ok((algorithm, targets)) <==>
            SaysBalancing(spec, algorithm, targets)
  {
    if "loadBalancing" in spec.fields {
      forall d, t { TargetReadsIff(d, t); }
      ListReadsIff(TargetOf(), SaysTarget(), spec.fields["loadBalancing"], "targets", targets);
    }
  }

  lemma ServiceReadsIff(d: Json, s: ServiceConfig)
    ensures ServiceFromJson(d) == Ok(s) <==> SaysService(d, s)
  {
    ResourceReadsIff(d, s.apiVersion, s.kind, s.name);
    if d.JObject? && "spec" in d.fields && d.fields["spec"].JObject? {
      BalancingReadsIff(d.fields["spec"], s.algorithm, s.targets);
    }
  }

  lemma SecurityReadsIff(d: Json, security: SecurityPolicySpec)
    ensures SecurityOf(Some(d)) == Ok(Some(security)) <==> SaysSecurity(d, security)
  {
    if d.JObject? && "jwt" in d.fields && security.jwt.Some? {
      var jwt := d.fields["jwt"];
      Int32Counts(jwt, "cacheTtlSeconds", security.jwt.value.cacheTtlSeconds, 300);
      assert JwtFromJson(Some(jwt)) == Ok(security.jwt) <==> SaysJwt(jwt, security.jwt.value);
    }
  }

  lemma PolicyReadsIff(d: Json, p: PolicyConfig)
    ensures PolicyFromJson(d) == Ok(p) <==> SaysPolicy(d, p)
  {
    ResourceReadsIff(d, p.apiVersion, p.kind, p.name);
    if d.JObject? && "spec" in d.fields && d.fields["spec"].JObject? {
      var spec := d.fields["spec"];
      Int32Counts(spec, "order", p.order, 0);
      if "security" in spec.fields && p.security.Some? {
        SecurityReadsIff(spec.fields["security"], p.security.value);
      }
    }
  }

  // ---------------------------------------------------------------- documents to a store

  /** The conversions that are not modelled. */
  datatype Converters = Converters(
    listener: Json -> Result<ListenerConfig>,
    gateway: Json -> Result<GatewayConfig>)

  /** What the directory iterator finds: something that is not a regular .json file, a file that cannot be opened,
      or the text of one that can. */
  datatype DirEntry = Skipped | Unreadable | File(content: string)

  type Parser = string -> Result<Json>

  function KindOf(doc: Json): Result<Option<string>> {
    var p :- GetPtr(doc, "kind");
    Ok(if p.Some? && p.value.JString? then Some(p.value.s) else None)
  }

  function DispatchDocument(conv: Converters, doc: Json, store: ConfigStore): Result<ConfigStore> {
    var kind :- KindOf(doc);
    match kind
    case None => Ok(store)
    case Some(k) =>
      if k == "Listener" then
        var c :- conv.listener(doc); Ok(store.(listeners := store.listeners + [c]))
      else if k == "Router" then
        var c :- RouterFromJson(doc); Ok(store.(routers := store.routers + [c]))
      else if k == "Service" then
        var c :- ServiceFromJson(doc); Ok(store.(services := store.services + [c]))
      else if k == "Gateway" then
        var c :- conv.gateway(doc); Ok(store.(gateway := Some(c)))
      else if k == "Policy" then
        var c :- PolicyFromJson(doc); Ok(store.(policies := store.policies + [c]))
      else Ok(store)
  }

  /** One turn of the directory loop: an exception is logged and the store stays. */
  function LoadEntry(conv: Converters, parse: Parser, e: DirEntry, store: ConfigStore): ConfigStore {
    if !e.File? || parse(e.content).Throw? then store
    else
      var r := DispatchDocument(conv, parse(e.content).value, store);
      if r.Ok? then r.value else store
  }

  function LoadOnto(conv: Converters, parse: Parser, es: seq<DirEntry>, store: ConfigStore): ConfigStore {
    if es == [] then store
    else LoadEntry(conv, parse, es[|es| - 1], LoadOnto(conv, parse, es[..|es| - 1], store))
  }

  function Load(conv: Converters, parse: Parser, es: seq<DirEntry>): ConfigStore {
    LoadOnto(conv, parse, es, EMPTY_STORE)
  }

  /** The resource of kind `kind` that an entry yields, if it parses, has that kind and converts. */
  function Yield<T>(parse: Parser, kind: string, convert: Json -> Result<T>): DirEntry -> Option<T> {
    (e: DirEntry) =>
      if e.File? && parse(e.content).Ok? && KindOf(parse(e.content).value) == Ok(Some(kind))
         && convert(parse(e.content).value).Ok?
      then Some(convert(parse(e.content).value).value)
      else None
  }

  function Routers(parse: Parser): DirEntry -> Option<RouterConfig> {
    Yield(parse, "Router", (d: Json) => RouterFromJson(d))
  }

  function Services(parse: Parser): DirEntry -> Option<ServiceConfig> {
    Yield(parse, "Service", (d: Json) => ServiceFromJson(d))
  }

  function Policies(parse: Parser): DirEntry -> Option<PolicyConfig> {
    Yield(parse, "Policy", (d: Json) => PolicyFromJson(d))
  }

  function Listeners(conv: Converters, parse: Parser): DirEntry -> Option<ListenerConfig> {
    Yield(parse, "Listener", conv.listener)
  }

  function Gateways(conv: Converters, parse: Parser): DirEntry -> Option<GatewayConfig> {
    Yield(parse, "Gateway", conv.gateway)
  }

  function LastOf<T>(s: seq<T>): Option<T> {
    if s == [] then None else Some(s[|s| - 1])
  }

  /** What a directory holds, kind by kind. */
  function Partition(conv: Converters, parse: Parser, es: seq<DirEntry>): ConfigStore {
    ConfigStore(
      LastOf(FilterMap(Gateways(conv, parse), es)),
      FilterMap(Listeners(conv, parse), es),
      FilterMap(Routers(parse), es),
      FilterMap(Services(parse), es),
      FilterMap(Policies(parse), es))
  }

  /** An entry adds to at most one list. */
  lemma LoadEntryAdds(conv: Converters, parse: Parser, e: DirEntry, store: ConfigStore)
    ensures LoadEntry(conv, parse, e, store) == ConfigStore(
              if Gateways(conv, parse)(e).Some? then Gateways(conv, parse)(e) else store.gateway,
              store.listeners + (if Listeners(conv, parse)(e).Some? then [Listeners(conv, parse)(e).value] else []),
              store.routers + (if Routers(parse)(e).Some? then [Routers(parse)(e).value] else []),
              store.services + (if Services(parse)(e).Some? then [Services(parse)(e).value] else []),
              store.policies + (if Policies(parse)(e).Some? then [Policies(parse)(e).value] else []))
  {
  }

  /** Loading is an order-preserving partition by kind: each list holds exactly the successful conversions of
      its kind in order, the gateway is the last of its kind, and a document that fails changes nothing. */
  lemma {:induction false} LoadIsPartition(conv: Converters, parse: Parser, es: seq<DirEntry>)
    ensures Load(conv, parse, es) == Partition(conv, parse, es)
  {
    if es == [] {
    } else {
      LoadIsPartition(conv, parse, es[..|es| - 1]);
      LoadEntryAdds(conv, parse, es[|es| - 1], Load(conv, parse, es[..|es| - 1]));
    }
  }

  /** What an entry of the directory may hold. */
  datatype Held =
    | ARouter(router: RouterConfig)
    | AService(service: ServiceConfig)
    | APolicy(policy: PolicyConfig)
    | AListener(listener: ListenerConfig)
    | AGateway(gateway: GatewayConfig)
    | Nothing

  predicate IsKind(doc: Json, kind: string) {
    doc.JObject? && "kind" in doc.fields && doc.fields["kind"] == JString(kind)
  }

  /** A file whose document has the kind of this resource and says it. */
  ghost predicate Holds(conv: Converters, parse: Parser, e: DirEntry, h: Held) {
    && e.File? && parse(e.content).Ok?
    && var doc := parse(e.content).value;
       match h
       case ARouter(r) => IsKind(doc, "Router") && SaysRouter(doc, r)
       case AService(s) => IsKind(doc, "Service") && SaysService(doc, s)
       case APolicy(p) => IsKind(doc, "Policy") && SaysPolicy(doc, p)
       case AListener(l) => IsKind(doc, "Listener") && conv.listener(doc) == Ok(l)
       case AGateway(g) => IsKind(doc, "Gateway") && conv.gateway(doc) == Ok(g)
       case Nothing => false
  }

  /** Each entry holds the resource at its place in `held`, and nothing where that is Nothing. */
  ghost predicate Directory(conv: Converters, parse: Parser, es: seq<DirEntry>, held: seq<Held>) {
    && |es| == |held|
    && forall i, h | 0 <= i < |es| && h != Nothing :: Holds(conv, parse, es[i], h) <==> held[i] == h
  }

  function RouterIn(): Held -> Option<RouterConfig> {
    (h: Held) => if h.ARouter? then Some(h.router) else None
  }

  function ServiceIn(): Held -> Option<ServiceConfig> {
    (h: Held) => if h.AService? then Some(h.service) else None
  }

  function PolicyIn(): Held -> Option<PolicyConfig> {
    (h: Held) => if h.APolicy? then Some(h.policy) else None
  }

  function ListenerIn(): Held -> Option<ListenerConfig> {
    (h: Held) => if h.AListener? then Some(h.listener) else None
  }

  function GatewayIn(): Held -> Option<GatewayConfig> {
    (h: Held) => if h.AGateway? then Some(h.gateway) else None
  }

  lemma HeldIff(conv: Converters, parse: Parser, e: DirEntry)
    ensures forall r :: Routers(parse)(e) == Some(r) <==> Holds(conv, parse, e, ARouter(r))
    ensures forall s :: Services(parse)(e) == Some(s) <==> Holds(conv, parse, e, AService(s))
    ensures forall p :: Policies(parse)(e) == Some(p) <==> Holds(conv, parse, e, APolicy(p))
    ensures forall l :: Listeners(conv, parse)(e) == Some(l) <==> Holds(conv, parse, e, AListener(l))
    ensures forall g :: Gateways(conv, parse)(e) == Some(g) <==> Holds(conv, parse, e, AGateway(g))
  {
    forall r
      ensures Routers(parse)(e) == Some(r) <==> Holds(conv, parse, e, ARouter(r))
    {
      if e.File? && parse(e.content).Ok? { RouterReadsIff(parse(e.content).value, r); }
    }
    forall s
      ensures Services(parse)(e) == Some(s) <==> Holds(conv, parse, e, AService(s))
    {
      if e.File? && parse(e.content).Ok? { ServiceReadsIff(parse(e.content).value, s); }
    }
    forall p
      ensures Policies(parse)(e) == Some(p) <==> Holds(conv, parse, e, APolicy(p))
    {
      if e.File? && parse(e.content).Ok? { PolicyReadsIff(parse(e.content).value, p); }
    }
  }

  lemma SameOption<T(!new)>(a: Option<T>, b: Option<T>)
    requires forall x :: a == Some(x) <==> b == Some(x)
    ensures a == b
  {
    if a.Some? { assert a == Some(a.value); }
    if b.Some? { assert b == Some(b.value); }
  }

  /** What each list takes from an entry is what the entry holds. */
  lemma YieldsHeld(conv: Converters, parse: Parser, e: DirEntry, held: Held)
    requires forall h | h != Nothing :: Holds(conv, parse, e, h) <==> held == h
    ensures Routers(parse)(e) == RouterIn()(held) && Services(parse)(e) == ServiceIn()(held)
    ensures Policies(parse)(e) == PolicyIn()(held) && Listeners(conv, parse)(e) == ListenerIn()(held)
    ensures Gateways(conv, parse)(e) == GatewayIn()(held)
  {
    HeldIff(conv, parse, e);
    SameOption(Routers(parse)(e), RouterIn()(held));
    SameOption(Services(parse)(e), ServiceIn()(held));
    SameOption(Policies(parse)(e), PolicyIn()(held));
    SameOption(Listeners(conv, parse)(e), ListenerIn()(held));
    SameOption(Gateways(conv, parse)(e), GatewayIn()(held));
  }

  /** Every directory holds something or nothing in each place. */
  lemma EveryDirectory(conv: Converters, parse: Parser, es: seq<DirEntry>) returns (held: seq<Held>)
    ensures Directory(conv, parse, es, held)
  {
    held := seq(|es|, i requires 0 <= i < |es| => HeldIn(conv, parse, es[i]));
    forall i, h | 0 <= i < |es| && h != Nothing
      ensures Holds(conv, parse, es[i], h) <==> held[i] == h
    {
      HeldIff(conv, parse, es[i]);
      if Holds(conv, parse, es[i], held[i]) && Holds(conv, parse, es[i], h) {
        HoldsOne(conv, parse, es[i], held[i], h);
      }
    }
  }

  function HeldIn(conv: Converters, parse: Parser, e: DirEntry): Held {
    if Routers(parse)(e).Some? then ARouter(Routers(parse)(e).value)
    else if Services(parse)(e).Some? then AService(Services(parse)(e).value)
    else if Policies(parse)(e).Some? then APolicy(Policies(parse)(e).value)
    else if Listeners(conv, parse)(e).Some? then AListener(Listeners(conv, parse)(e).value)
    else if Gateways(conv, parse)(e).Some? then AGateway(Gateways(conv, parse)(e).value)
    else Nothing
  }

  /** A directory loads to what its files say: each list has the resources of its kind in order, and the gateway is the
      last one. */
  lemma LoadsWhatIsSaid(conv: Converters, parse: Parser, es: seq<DirEntry>, held: seq<Held>)
    requires Directory(conv, parse, es, held)
    ensures var gateways := FilterMap(GatewayIn(), held);
            Load(conv, parse, es) == ConfigStore(
              if gateways == [] then None else Some(gateways[|gateways| - 1]),
              FilterMap(ListenerIn(), held), FilterMap(RouterIn(), held), FilterMap(ServiceIn(), held),
              FilterMap(PolicyIn(), held))
  {
    forall i | 0 <= i < |es|
      ensures Routers(parse)(es[i]) == RouterIn()(held[i]) && Services(parse)(es[i]) == ServiceIn()(held[i])
      ensures Policies(parse)(es[i]) == PolicyIn()(held[i]) && Listeners(conv, parse)(es[i]) == ListenerIn()(held[i])
      ensures Gateways(conv, parse)(es[i]) == GatewayIn()(held[i])
    {
      YieldsHeld(conv, parse, es[i], held[i]);
    }
    LoadIsPartition(conv, parse, es);
    FilterMapPointwise(Routers(parse), es, RouterIn(), held);
    FilterMapPointwise(Services(parse), es, ServiceIn(), held);
    FilterMapPointwise(Policies(parse), es, PolicyIn(), held);
    FilterMapPointwise(Listeners(conv, parse), es, ListenerIn(), held);
    FilterMapPointwise(Gateways(conv, parse), es, GatewayIn(), held);
  }

  /** The document of a resource of the right kind. */
  predicate Writes(doc: Json, h: Held) {
    match h
    case ARouter(r) => r.kind == "Router" && doc == RouterToJson(r)
    case AService(s) => s.kind == "Service" && doc == ServiceToJson(s)
    case APolicy(p) => p.kind == "Policy" && doc == PolicyToJson(p)
    case _ => false
  }

  lemma HoldsOne(conv: Converters, parse: Parser, e: DirEntry, g: Held, h: Held)
    requires Holds(conv, parse, e, g) && Holds(conv, parse, e, h)
    ensures g == h
  {
    HeldIff(conv, parse, e);
    KindsDiffer();
  }

  lemma KindsDiffer()
    ensures "Router" != "Service" && "Router" != "Policy" && "Router" != "Listener" && "Router" != "Gateway"
    ensures "Service" != "Policy" && "Service" != "Listener" && "Service" != "Gateway"
    ensures "Policy" != "Listener" && "Policy" != "Gateway" && "Listener" != "Gateway"
  {
    assert "Router"[0] == 'R' && "Service"[0] == 'S' && "Policy"[0] == 'P' && "Listener"[0] == 'L';
    assert "Gateway"[0] == 'G';
  }

  lemma WrittenHolds(conv: Converters, parse: Parser, e: DirEntry, held: Held)
    requires e.File? && parse(e.content).Ok? && Writes(parse(e.content).value, held)
    ensures Holds(conv, parse, e, held)
  {
    var doc := parse(e.content).value;
    match held
    case ARouter(r) =>
      RouterRoundTrip(r);
      RouterReadsIff(doc, r);
    case AService(s) =>
      ServiceRoundTrip(s);
      ServiceReadsIff(doc, s);
    case APolicy(p) =>
      PolicyRoundTrip(p);
      PolicyReadsIff(doc, p);
  }

  /** Configuration round trip: a directory of written routers, services and policies loads to exactly these, each list
      in the order of the files. */
  lemma WrittenDirectoryLoads(conv: Converters, parse: Parser, es: seq<DirEntry>, held: seq<Held>)
    requires |es| == |held|
    requires forall i | 0 <= i < |es| ::
               es[i].File? && parse(es[i].content).Ok? && Writes(parse(es[i].content).value, held[i])
    ensures Load(conv, parse, es) == ConfigStore(
              None, [], FilterMap(RouterIn(), held), FilterMap(ServiceIn(), held), FilterMap(PolicyIn(), held))
  {
    forall i, h | 0 <= i < |es| && h != Nothing
      ensures Holds(conv, parse, es[i], h) <==> held[i] == h
    {
      OnlyWrittenHeld(conv, parse, es[i], held[i], h);
    }
    LoadsWhatIsSaid(conv, parse, es, held);
    forall h | h in held
      ensures !h.AListener? && !h.AGateway?
    {
      var i :| 0 <= i < |held| && held[i] == h;
      assert es[i].File?;
    }
    FilterMapNone(ListenerIn(), held);
    FilterMapNone(GatewayIn(), held);
  }

  lemma OnlyWrittenHeld(conv: Converters, parse: Parser, e: DirEntry, held: Held, h: Held)
    requires e.File? && parse(e.content).Ok? && Writes(parse(e.content).value, held)
    ensures h != Nothing ==> (Holds(conv, parse, e, h) <==> held == h)
  {
    WrittenHolds(conv, parse, e, held);
    if Holds(conv, parse, e, h) { HoldsOne(conv, parse, e, held, h); }
  }

  /** Loading one directory after another is loading both at once. */
  lemma {:induction false} LoadConcat(conv: Converters, parse: Parser, a: seq<DirEntry>, b: seq<DirEntry>,
                                      store: ConfigStore)
    ensures LoadOnto(conv, parse, a + b, store) == LoadOnto(conv, parse, b, LoadOnto(conv, parse, a, store))
  {
    if b == [] {
      assert a + b == a;
    } else {
      LoadConcat(conv, parse, a, b[..|b| - 1], store);
      assert (a + b)[..|a + b| - 1] == a + b[..|b| - 1];
    }
  }

  /** A document is rejected exactly when it is no object, or has one of the five kinds and does not convert; a document
      of no kind or of another kind is skipped. */
  lemma DispatchThrowsIff(conv: Converters, doc: Json, store: ConfigStore)
    ensures DispatchDocument(conv, doc, store).Throw? <==>
            || !doc.JObject?
            || (IsKind(doc, "Router") && RouterFromJson(doc).Throw?)
            || (IsKind(doc, "Service") && ServiceFromJson(doc).Throw?)
            || (IsKind(doc, "Policy") && PolicyFromJson(doc).Throw?)
            || (IsKind(doc, "Listener") && conv.listener(doc).Throw?)
            || (IsKind(doc, "Gateway") && conv.gateway(doc).Throw?)
  {
    KindsDiffer();
  }

  // ---------------------------------------------------------------- the object

  class ConfigLoader {
    const conv: Converters
    const parse: Parser
    var store: ConfigStore

    constructor (conv: Converters, parse: Parser)
      ensures this.conv == conv && this.parse == parse && store == EMPTY_STORE
    {
      this.conv, this.parse, store := conv, parse, EMPTY_STORE;
    }

    /** `ok` is false when a conversion throws. */
    method Dispatch(doc: Json) returns (ok: bool)
      modifies this
      ensures ok == DispatchDocument(conv, doc, old(store)).Ok?
      ensures store == if ok then DispatchDocument(conv, doc, old(store)).value else old(store)
    {
      var kind := KindOf(doc);
      if kind.Throw? { return false; }
      if kind.value.None? { return true; }
      var k := kind.value.value;
      if k == "Listener" {
        var c := conv.listener(doc);
        if c.Throw? { return false; }
        store := store.(listeners := store.listeners + [c.value]);
      } else if k == "Router" {
        var c := ReadRouter(doc);
        if c.Throw? { return false; }
        store := store.(routers := store.routers + [c.value]);
      } else if k == "Service" {
        var c := ReadService(doc);
        if c.Throw? { return false; }
        store := store.(services := store.services + [c.value]);
      } else if k == "Gateway" {
        var c := conv.gateway(doc);
        if c.Throw? { return false; }
        store := store.(gateway := Some(c.value));
      } else if k == "Policy" {
        var c := PolicyFromJson(doc);
        if c.Throw? { return false; }
        store := store.(policies := store.policies + [c.value]);
      }
      ok := true;
    }

    /** loadFromDirectory over the entries in the order the iterator yields them; a missing directory has none. */
    method LoadFromDirectory(exists_: bool, es: seq<DirEntry>)
      requires store == EMPTY_STORE
      modifies this
      ensures store == if exists_ then Load(conv, parse, es) else EMPTY_STORE
    {
      if !exists_ { return; }
      for i := 0 to |es|
        invariant store == Load(conv, parse, es[..i])
      {
        assert es[..i + 1][..i] == es[..i];
        if !es[i].File? { continue; }
        var doc := parse(es[i].content);
        if doc.Ok? {
          var ok := Dispatch(doc.value);
        }
      }
      assert es[..|es|] == es;
    }
  }
}
