/** The configuration resources of the gateway (src/config/models.h), as values. */
module Config {
  import opened Prelude

  type UInt16 = n: int | 0 <= n < 0x1_0000
  type Int32 = n: int | -0x8000_0000 <= n < 0x8000_0000

  datatype PathType = Exact | Prefix | Regex

  datatype RouterRule = RouterRule(path: string, pathType: PathType, methods: seq<string>)

  datatype RewriteConfig = RewriteConfig(path: string, host: string)

  datatype RouterDestination = RouterDestination(
    destinationKind: string,
    destinationName: string,
    weight: Int32,
    rewrite: Option<RewriteConfig>)

  datatype RouterConfig = RouterConfig(
    apiVersion: string,
    kind: string,
    name: string,
    targetRefName: string,
    rules: seq<RouterRule>,
    destinations: seq<RouterDestination>,
    policies: seq<string>)

  datatype Target = Target(host: string, port: UInt16, weight: Int32)

  datatype ServiceConfig = ServiceConfig(
    apiVersion: string,
    kind: string,
    name: string,
    protocol: string,
    algorithm: string,
    targets: seq<Target>)

  datatype JwtConfig = JwtConfig(jwksUri: string, issuer: string, audience: string, cacheTtlSeconds: Int32)

  datatype SecurityPolicySpec = SecurityPolicySpec(jwt: Option<JwtConfig>)

  datatype PolicyConfig = PolicyConfig(
    apiVersion: string,
    kind: string,
    name: string,
    order: Int32,
    security: Option<SecurityPolicySpec>)

  /** Listener and Gateway resources carry no data-plane decision, so their contents stay opaque. */
  datatype ListenerConfig = ListenerConfig(id: nat)
  datatype GatewayConfig = GatewayConfig(id: nat)

  datatype ConfigStore = ConfigStore(
    gateway: Option<GatewayConfig>,
    listeners: seq<ListenerConfig>,
    routers: seq<RouterConfig>,
    services: seq<ServiceConfig>,
    policies: seq<PolicyConfig>)

  const EMPTY_STORE := ConfigStore(None, [], [], [], [])

  datatype Address = Address(ip: string, port: UInt16)
}
