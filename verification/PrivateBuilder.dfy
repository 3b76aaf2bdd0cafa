/** PrivateResource specs to entries (internal/controller/privateresource/controller.go). */
module PrivateBuilder {
  import opened Blueprint
  import opened Objects

  /** `isCidr` stands for net.ParseCIDR succeeding. */
  predicate Validate(spec: PrivateSpec, isCidr: string -> bool) {
    && (spec.mode == "cidr" ==> isCidr(spec.destination))
    && "Admin" !in spec.roles
  }

  function PrivateResourceOf(spec: PrivateSpec, site: string): PrivateResource {
    PrivateResource(
      name := spec.name, mode := spec.mode, destination := spec.destination, site := site,
      tcpPorts := spec.tcpPorts, udpPorts := spec.udpPorts, disableIcmp := spec.disableIcmp,
      alias := spec.alias, roles := spec.roles, users := spec.users, machines := spec.machines)
  }

  lemma PrivateFields(spec: PrivateSpec, site: string)
    ensures PrivateResourceOf(spec, site) == PrivateResource(
      machines := spec.machines, users := spec.users, roles := spec.roles, alias := spec.alias,
      disableIcmp := spec.disableIcmp, udpPorts := spec.udpPorts, tcpPorts := spec.tcpPorts, site := site,
      destination := spec.destination, mode := spec.mode, name := spec.name)
  {
  }
}
