/** What the API server can deliver to the sidecar, and the event each delivery becomes. */
module Inputs {
  import opened Blueprint
  import opened Objects
  import opened Events
  import opened Sources

  datatype Input =
    | Upserted(obj: Watched, secret: SecretData)
    | Removed(kind: Kind, namespace: string, name: string)
    | PublicRead(namespace: string, name: string, public: Fetch<PublicSpec>, secret: SecretData)
    | PrivateRead(namespace: string, name: string, private: Fetch<PrivateSpec>)

  /** The configuration of the process and the verdict of net.ParseCIDR. */
  datatype Setup = Setup(cfg: Config, isCidr: string -> bool)

  function EventOf(input: Input, setup: Setup): Event {
    match input
    case Upserted(obj, secret) => DeliverEvent(obj, secret, setup.cfg)
    case Removed(kind, ns, name) => Deleted(kind, ns + "/" + name)
    case PublicRead(ns, name, fetched, secret) => PublicEvent(ns, name, fetched, secret, setup.cfg.siteId)
    case PrivateRead(ns, name, fetched) => PrivateEvent(ns, name, fetched, setup.isCidr, setup.cfg.siteId)
  }

  /** What the schemas of the API server guarantee: hostnames are not empty, port numbers are in
      range, a PublicResource has a known protocol and at least one target. */
  ghost predicate SchemaValid(input: Input) {
    match input
    case Upserted(Route(route), _) => NoneEmpty(route.hostnames)
    case Upserted(Svc(svc), _) => PortsValid(svc)
    case PublicRead(_, _, Found(spec), _) => spec.protocol in ["http", "tcp", "udp"] && |spec.targets| >= 1
    case _ => true
  }

  ghost predicate NoneEmpty(hostnames: seq<string>) {
    forall i :: 0 <= i < |hostnames| ==> hostnames[i] != ""
  }

  ghost predicate PortsValid(svc: Service) {
    forall p :: p in svc.ports ==> 1 <= p.port <= 65535
  }
}
