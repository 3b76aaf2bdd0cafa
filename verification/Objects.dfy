/** The Kubernetes objects that reach the sidecar, reduced to what its code reads. */
module Objects {
  import opened Collections
  import opened Blueprint

  datatype Meta = Meta(namespace: string, name: string, annotations: Annotations, decoded: Decoded) {
    /** "namespace/name", the key of the controllers' index. */
    function ObjKey(): string {
      namespace + "/" + name
    }
  }

  datatype ParentRef = ParentRef(name: string, namespace: Option<string>)

  datatype HttpRoute = HttpRoute(meta: Meta, parentRefs: seq<ParentRef>, hostnames: seq<string>)

  datatype Port = Port(name: string, port: int, protocol: string)

  datatype Service = Service(meta: Meta, ports: seq<Port>)

  datatype AuthSpec = AuthSpec(
    ssoEnabled: bool, ssoRoles: seq<string>, ssoUsers: seq<string>, whitelistUsers: seq<string>, autoLoginIdp: int)

  datatype TargetSpec = TargetSpec(
    hostname: string, port: int, verb: string, enabled: Option<bool>, internalPort: int, path: string,
    pathMatch: string, rewritePath: string, rewriteMatch: string, priority: int, healthCheck: Option<HealthCheck>)

  datatype PublicSpec = PublicSpec(
    name: string, protocol: string, fullDomain: string, proxyPort: int, enabled: Option<bool>, ssl: bool,
    hostHeader: string, tlsServerName: string, headers: seq<Header>, auth: Option<AuthSpec>,
    maintenance: Option<Maintenance>, rules: seq<Rule>, targets: seq<TargetSpec>)

  datatype PrivateSpec = PrivateSpec(
    name: string, mode: string, destination: string, tcpPorts: string, udpPorts: string, disableIcmp: bool,
    alias: string, roles: seq<string>, users: seq<string>, machines: seq<string>)
}
