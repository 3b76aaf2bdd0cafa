/** From Kubernetes objects to events: what each delivery or reconciliation amounts to. */
module Sources {
  import opened Collections
  import opened Blueprint
  import opened Objects
  import opened Events
  import RouteBuilder
  import ServiceBuilder
  import PublicBuilder
  import PrivateBuilder

  /** An object of one of the two watched kinds. */
  datatype Watched = Route(route: HttpRoute) | Svc(service: Service) {
    function Meta(): Meta {
      if Route? then route.meta else service.meta
    }

    function Kind(): Kind {
      if Route? then HTTPRoutes else Services
    }

    predicate ShouldProcess(cfg: Config) {
      if Route? then RouteBuilder.ShouldProcess(route, cfg) else ServiceBuilder.ShouldProcess(service, cfg)
    }

    function BuildEntries(secret: SecretData, cfg: Config): Entries {
      if Route? then RouteBuilder.RouteEntries(route, secret, cfg)
      else ServiceBuilder.ServiceEntries(service, secret, cfg)
    }

    /** What the object contributes: nothing unless it is accepted. */
    function EntriesFor(secret: SecretData, cfg: Config): Entries {
      if ShouldProcess(cfg) then BuildEntries(secret, cfg) else map[]
    }
  }

  /** The reference has the gateway's name, and its namespace where both name one. */
  predicate MeansGateway(p: ParentRef, cfg: Config) {
    && p.name == cfg.gatewayName
    && (cfg.gatewayNamespace == "" || p.namespace == None || p.namespace == Some(cfg.gatewayNamespace))
  }

  /** Which objects are accepted. A route is, unless it opts out or refers to other gateways only; a
      Service is when it opts in, and in auto mode also when it says nothing of the kind. */
  lemma AcceptanceIff(obj: Watched, cfg: Config)
    ensures var enabled := TextOf(Lookup(obj.Meta().annotations, AtEnabled));
      obj.ShouldProcess(cfg) <==>
        if obj.Svc? then IsTruthy(enabled) || (cfg.autoService && enabled != "false" && enabled != "0")
        else enabled != "false" && enabled != "0"
             && (cfg.gatewayName == "" || exists p :: p in obj.route.parentRefs && MeansGateway(p, cfg))
  {
  }

  /** What the user wants kept out: an object that opts out; a route that refers only to other gateways
      than the configured one; a Service that does not opt in where Services are not taken by default. */
  ghost predicate Rejected(obj: Watched, cfg: Config) {
    match obj
    case Route(route) =>
      var a := route.meta.annotations;
      || (AtEnabled in a && (a[AtEnabled] == "false" || a[AtEnabled] == "0"))
      || (cfg.gatewayName != "" && forall p :: p in route.parentRefs ==> !MeansGateway(p, cfg))
    case Svc(svc) =>
      var a := svc.meta.annotations;
      if cfg.autoService then AtEnabled in a && (a[AtEnabled] == "false" || a[AtEnabled] == "0")
      else !(AtEnabled in a && (a[AtEnabled] == "true" || a[AtEnabled] == "1"))
  }

  lemma RejectedIff(obj: Watched, cfg: Config)
    ensures Rejected(obj, cfg) <==> !obj.ShouldProcess(cfg)
  {
    AcceptanceIff(obj, cfg);
  }

  /** What a delivery amounts to: nothing for a rejected object, whatever it would build; the entries of
      its hostnames for a route, and those of its ports for a Service. */
  lemma DeliveryExact(obj: Watched, secret: SecretData, cfg: Config)
    ensures Rejected(obj, cfg) ==>
      DeliverEvent(obj, secret, cfg) == match obj
        case Route(route) => Deliver(HTTPRoutes, route.meta.namespace + "/" + route.meta.name, map[])
        case Svc(svc) => Deliver(Services, svc.meta.namespace + "/" + svc.meta.name, map[])
    ensures !Rejected(obj, cfg) ==>
      DeliverEvent(obj, secret, cfg) == match obj
        case Route(route) => Deliver(HTTPRoutes, route.meta.namespace + "/" + route.meta.name,
                                     RouteBuilder.RouteEntries(route, secret, cfg))
        case Svc(svc) => Deliver(Services, svc.meta.namespace + "/" + svc.meta.name,
                                 ServiceBuilder.ServiceEntries(svc, secret, cfg))
  {
    RejectedIff(obj, cfg);
  }

  /** A route that is not rejected delivers exactly the keys of its hostnames. */
  lemma RouteDeliversItsHostnames(route: HttpRoute, secret: SecretData, cfg: Config, k: string)
    requires !Rejected(Route(route), cfg)
    ensures var e, hs := DeliverEvent(Route(route), secret, cfg), route.hostnames;
      e.Deliver? && (k in e.entries <==> exists i :: 0 <= i < |hs| && k == HostnameToKey(hs[i]))
  {
    DeliveryExact(Route(route), secret, cfg);
    RouteBuilder.RouteEntriesExact(route, secret, cfg);
  }

  function DeliverEvent(obj: Watched, secret: SecretData, cfg: Config): Event {
    Deliver(obj.Kind(), obj.Meta().ObjKey(), obj.EntriesFor(secret, cfg))
  }

  /** What reading a custom resource from the API server gives. */
  datatype Fetch<+T> = Found(spec: T) | NotFound | GetError

  function PublicEvent(
      namespace: string, name: string, fetched: Fetch<PublicSpec>, secret: SecretData, site: string): Event {
    match fetched
    case NotFound => Gone(namespace, name)
    case GetError => Skipped(namespace, name)
    case Found(spec) =>
      if PublicBuilder.Validate(spec) then Accepted(namespace, name, PublicBuilder.PublicResourceOf(spec, secret, site))
      else Skipped(namespace, name)
  }

  function PrivateEvent(
      namespace: string, name: string, fetched: Fetch<PrivateSpec>, isCidr: string -> bool, site: string): Event {
    match fetched
    case NotFound => PrivateGone(namespace, name)
    case GetError => PrivateSkipped(namespace, name)
    case Found(spec) =>
      if PrivateBuilder.Validate(spec, isCidr) then
        PrivateAccepted(namespace, name, PrivateBuilder.PrivateResourceOf(spec, site))
      else PrivateSkipped(namespace, name)
  }
}
