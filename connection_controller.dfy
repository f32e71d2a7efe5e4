// ConnectionControllerImpl: the strategy chain that turns a service name
// and a target port into a connection. The reachability probe and the
// in-container flag are parameters; `probes` records, in order, every
// endpoint the chain asked the probe about.

module ConnectionControl {
  import opened Common
  import opened Resources
  import opened Connections
  import opened ResourcesStores
  import Lookup

  const RESOURCE_UNAVAILABLE := "Resource unavailable: "
  const UNABLE_TO_CONNECT := "Unable to connect to service: "

  /** The outcome of getConnection and the probes it made. */
  datatype Attempt = Attempt(result: Result<KubeConnection>, probes: seq<Endpoint>)

  /** `resource(s).get()`: the live cluster object under the handle's
      name, or null. */
  function Live(cluster: Cluster, s: Service): (r: Option<Service>)
    requires Consistent(cluster)
    ensures r.Some? <==> s.metadata.name in cluster.services
    ensures r.Some? ==> r.value.metadata.name == s.metadata.name
  {
    ServiceNamed(cluster, s.metadata.name)
  }

  /** spec.type is non-null and "LoadBalancer" and an ingress exists. */
  predicate ExternallyBalanced(s: Service)
  {
    s.serviceType == NonNull(LOAD_BALANCER) && |s.ingressIps| > 0
  }

  /** The live service getConnection works with, when the name resolves
      and the handle's object still exists. */
  function Resolved(store: ResourcesStore, cluster: Cluster, service: string): Option<Service>
    requires Consistent(cluster)
    reads store.serviceStore
  {
    match Lookup.GetServiceResource(store, cluster, service)
    case None => None
    case Some(sr) => Live(cluster, sr)
  }

  function GetConnection(store: ResourcesStore, cluster: Cluster, service: string, targetPort: int,
                         canConnect: (string, int) -> bool, insideContainer: bool): (a: Attempt)
    requires Consistent(cluster)
    reads store.serviceStore
    // An unknown name fails before any probe.
    ensures Lookup.GetServiceResource(store, cluster, service).None? ==>
      a == Attempt(Err(Connection(RESOURCE_UNAVAILABLE + service)), [])
    // A resolved handle whose live object is gone fails on the dereference,
    // before any probe.
    ensures Lookup.GetServiceResource(store, cluster, service).Some? && Resolved(store, cluster, service).None? ==>
      a.result.Err? && a.result.error.NullDeref? && a.probes == []
    ensures |a.probes| <= 2
    // The first probe, if any, is the direct one to the service's own name.
    ensures a.probes != [] ==>
      (Resolved(store, cluster, service).Some? &&
       a.probes[0] == Endpoint(Resolved(store, cluster, service).value.metadata.name, targetPort))
    // A successful direct probe wins and nothing else is tried.
    ensures var s := Resolved(store, cluster, service);
      (s.Some? && canConnect(s.value.metadata.name, targetPort)) ==>
      a == Attempt(Ok(Direct(ServiceConnection(s.value.metadata.name, targetPort))),
                   [Endpoint(s.value.metadata.name, targetPort)])
    // Inside a container a failed direct probe is final: no external probe, no tunnel.
    ensures var s := Resolved(store, cluster, service);
      (insideContainer && s.Some? && !canConnect(s.value.metadata.name, targetPort)) ==>
      (a.result == Err(Connection(UNABLE_TO_CONNECT + service)) && |a.probes| == 1)
    // The external probe is made only outside a container, for a load
    // balanced service with an ingress, at the first ingress IP and the
    // mapped port, and only when that port is not -1.
    ensures var s := Resolved(store, cluster, service);
      |a.probes| == 2 ==>
      (!insideContainer && ExternallyBalanced(s.value) &&
       ExternalPort(s.value.ports, targetPort).Ok? &&
       a.probes[1] == Endpoint(s.value.ingressIps[0], ExternalPort(s.value.ports, targetPort).value) &&
       a.probes[1].port != -1)
    // ... and whenever those conditions hold after a failed direct probe.
    ensures var s := Resolved(store, cluster, service);
      (s.Some? && !canConnect(s.value.metadata.name, targetPort) && !insideContainer &&
       ExternallyBalanced(s.value) && ExternalPort(s.value.ports, targetPort).Ok? &&
       ExternalPort(s.value.ports, targetPort).value != -1) ==>
      |a.probes| == 2
    // A port mapping that cannot be read fails the external branch with its error.
    ensures var s := Resolved(store, cluster, service);
      (s.Some? && !canConnect(s.value.metadata.name, targetPort) && !insideContainer &&
       ExternallyBalanced(s.value) && ExternalPort(s.value.ports, targetPort).Err?) ==>
      a.result == Err(ExternalPort(s.value.ports, targetPort).error)
    // A successful external probe yields a direct connection to it.
    ensures (|a.probes| == 2 && canConnect(a.probes[1].host, a.probes[1].port)) ==>
      a.result == Ok(Direct(ServiceConnection(a.probes[1].host, a.probes[1].port)))
    // A tunnel is opened only outside a container, to the resolved service handle.
    ensures (a.result.Ok? && a.result.value.Tunnel?) ==>
      (!insideContainer &&
       a.result.value == Tunnel(ServiceTarget(Lookup.GetServiceResource(store, cluster, service).value), targetPort))
    // Outside a container, when no service path succeeds, the result is
    // that tunnel.
    ensures var s := Resolved(store, cluster, service);
      (s.Some? && !insideContainer && !canConnect(s.value.metadata.name, targetPort) &&
       (!ExternallyBalanced(s.value) ||
        (ExternalPort(s.value.ports, targetPort).Ok? &&
         (ExternalPort(s.value.ports, targetPort).value == -1 ||
          !canConnect(s.value.ingressIps[0], ExternalPort(s.value.ports, targetPort).value))))) ==>
      a.result == Ok(Tunnel(ServiceTarget(Lookup.GetServiceResource(store, cluster, service).value), targetPort))
  {
    match Lookup.GetServiceResource(store, cluster, service)
    case None => Attempt(Err(Connection(RESOURCE_UNAVAILABLE + service)), [])
    case Some(sr) =>
      match Live(cluster, sr)
      case None => Attempt(Err(NullDeref("getMetadata() on null")), [])
      case Some(s) =>
        var direct := Endpoint(s.metadata.name, targetPort);
        var tunnel := Tunnel(ServiceTarget(sr), targetPort);
        if canConnect(direct.host, direct.port) then
          Attempt(Ok(Direct(ServiceConnection(direct.host, direct.port))), [direct])
        else if insideContainer then
          Attempt(Err(Connection(UNABLE_TO_CONNECT + service)), [direct])
        else if ExternallyBalanced(s) then
          match ExternalPort(s.ports, targetPort)
          case Err(e) => Attempt(Err(e), [direct])
          case Ok(externalPort) =>
            if externalPort == -1 then Attempt(Ok(tunnel), [direct])
            else
              var external := Endpoint(s.ingressIps[0], externalPort);
              if canConnect(external.host, external.port) then
                Attempt(Ok(Direct(ServiceConnection(external.host, external.port))), [direct, external])
              else Attempt(Ok(tunnel), [direct, external])
        else Attempt(Ok(tunnel), [direct])
  }

  /** getPortForwardConnection: a tunnel to the service when the name
      resolves to one, else to the pod, else ConnectionException. */
  function GetPortForwardConnection(store: ResourcesStore, cluster: Cluster, resource: string, targetPort: int): (r: Result<KubeConnection>)
    reads store.serviceStore, store.podStore
    ensures Lookup.GetServiceResource(store, cluster, resource).Some? ==>
      r == Ok(Tunnel(ServiceTarget(Lookup.GetServiceResource(store, cluster, resource).value), targetPort))
    ensures Lookup.GetServiceResource(store, cluster, resource).None? && Lookup.GetPodResource(store, cluster, resource).Some? ==>
      r == Ok(Tunnel(PodTarget(Lookup.GetPodResource(store, cluster, resource).value), targetPort))
    ensures r.Err? <==> Lookup.GetServiceResource(store, cluster, resource).None? && Lookup.GetPodResource(store, cluster, resource).None?
    ensures r.Err? ==> r.error == Connection(RESOURCE_UNAVAILABLE + resource)
  {
    match Lookup.GetServiceResource(store, cluster, resource)
    case Some(sr) => Ok(Tunnel(ServiceTarget(sr), targetPort))
    case None =>
      match Lookup.GetPodResource(store, cluster, resource)
      case Some(pr) => Ok(Tunnel(PodTarget(pr), targetPort))
      case None => Err(Connection(RESOURCE_UNAVAILABLE + resource))
  }

  /** Whenever getConnection falls back to a tunnel, the tunnel is the one
      getPortForwardConnection opens for the same name. */
  lemma FallbackIsPortForward(store: ResourcesStore, cluster: Cluster, service: string, targetPort: int,
                              canConnect: (string, int) -> bool, insideContainer: bool)
    requires Consistent(cluster)
    requires GetConnection(store, cluster, service, targetPort, canConnect, insideContainer).result.Ok?
    requires GetConnection(store, cluster, service, targetPort, canConnect, insideContainer).result.value.Tunnel?
    ensures Ok(GetConnection(store, cluster, service, targetPort, canConnect, insideContainer).result.value)
      == GetPortForwardConnection(store, cluster, service, targetPort)
  {
  }
}
