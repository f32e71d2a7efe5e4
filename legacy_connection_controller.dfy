// The legacy ConnectionController: the same strategy chain, resolving the
// service itself, falling back to its own four-step port-forward lookup,
// and remembering every tunnel it opens in `connections`.

module LegacyConnectionControl {
  import opened Common
  import opened Resources
  import opened Connections
  import LegacyStore
  import ConnectionControl

  const RESOURCE_UNAVAILABLE := "Resource unavailable."
  const UNABLE_TO_CONNECT := "Unable to connect to service: "

  /** The service getConnection works with: the live copy of the stored
      alias, else the cluster service with that name. */
  function ResolveService(services: map<string, Service>, cluster: Cluster, resource: string): (r: Option<Service>)
    requires Consistent(cluster)
    ensures resource in services && ConnectionControl.Live(cluster, services[resource]).Some? ==>
      r == ConnectionControl.Live(cluster, services[resource])
    ensures (resource !in services || ConnectionControl.Live(cluster, services[resource]).None?) ==>
      r == ServiceNamed(cluster, resource)
  {
    var s := if resource in services then ConnectionControl.Live(cluster, services[resource]) else None;
    if s.None? then ServiceNamed(cluster, resource) else s
  }

  /** getPortForwardConnection's target: store service, cluster service,
      store pod, cluster pod, in that order. */
  function ForwardTargetOf(services: map<string, Service>, pods: map<string, Pod>, cluster: Cluster, resource: string): (r: Result<ForwardTarget>)
    ensures resource in services ==> r == Ok(ServiceTarget(services[resource]))
    ensures resource !in services && resource in cluster.services ==> r == Ok(ServiceTarget(cluster.services[resource]))
    ensures resource !in services && resource !in cluster.services && resource in pods ==> r == Ok(PodTarget(pods[resource]))
    ensures resource !in services && resource !in cluster.services && resource !in pods && resource in cluster.pods ==>
      r == Ok(PodTarget(cluster.pods[resource]))
    ensures r.Err? <==> resource !in services && resource !in cluster.services && resource !in pods && resource !in cluster.pods
    ensures r.Err? ==> r.error == Connection(RESOURCE_UNAVAILABLE)
  {
    if resource in services then Ok(ServiceTarget(services[resource]))
    else if resource in cluster.services then Ok(ServiceTarget(cluster.services[resource]))
    else if resource in pods then Ok(PodTarget(pods[resource]))
    else if resource in cluster.pods then Ok(PodTarget(cluster.pods[resource]))
    else Err(Connection(RESOURCE_UNAVAILABLE))
  }

  /** getPortForwardConnection's result: a tunnel to the target the
      lookup order finds, or that lookup's error. */
  function PortForward(services: map<string, Service>, pods: map<string, Pod>, cluster: Cluster, resource: string, port: int): (r: Result<KubeConnection>)
    ensures r.Ok? <==> ForwardTargetOf(services, pods, cluster, resource).Ok?
    ensures r.Ok? ==> r.value == Tunnel(ForwardTargetOf(services, pods, cluster, resource).value, port) &&
                      r.value.GetType() == PortForwarded
    ensures r.Err? ==> r.error == Connection(RESOURCE_UNAVAILABLE)
  {
    match ForwardTargetOf(services, pods, cluster, resource)
    case Ok(t) => Ok(Tunnel(t, port))
    case Err(e) => Err(e)
  }

  /** getConnection's decision chain; `probes` are the endpoints handed to
      the reachability probe, in order. */
  function Decide(services: map<string, Service>, pods: map<string, Pod>, cluster: Cluster, resource: string,
                  targetPort: int, canConnect: (string, int) -> bool, insideContainer: bool): (a: ConnectionControl.Attempt)
    requires Consistent(cluster)
    ensures ResolveService(services, cluster, resource).None? ==>
      a == ConnectionControl.Attempt(Err(Connection(RESOURCE_UNAVAILABLE)), [])
    ensures |a.probes| <= 2
    ensures a.probes != [] ==>
      (ResolveService(services, cluster, resource).Some? &&
       a.probes[0] == Endpoint(ResolveService(services, cluster, resource).value.metadata.name, targetPort))
    // A successful direct probe wins.
    ensures var s := ResolveService(services, cluster, resource);
      (s.Some? && canConnect(s.value.metadata.name, targetPort)) ==>
      a == ConnectionControl.Attempt(Ok(Direct(ServiceConnection(s.value.metadata.name, targetPort))),
                                     [Endpoint(s.value.metadata.name, targetPort)])
    // Inside a container a failed direct probe is final.
    ensures var s := ResolveService(services, cluster, resource);
      (insideContainer && s.Some? && !canConnect(s.value.metadata.name, targetPort)) ==>
      (a.result == Err(Connection(UNABLE_TO_CONNECT + resource)) && |a.probes| == 1)
    // A null spec.type or an empty ingress list on a failed direct probe
    // outside a container makes the external branch throw.
    ensures var s := ResolveService(services, cluster, resource);
      (!insideContainer && s.Some? && !canConnect(s.value.metadata.name, targetPort) && s.value.serviceType.Null?) ==>
      (a.result.Err? && a.result.error.NullDeref?)
    ensures var s := ResolveService(services, cluster, resource);
      (!insideContainer && s.Some? && !canConnect(s.value.metadata.name, targetPort) &&
       s.value.serviceType == NonNull(LOAD_BALANCER) && s.value.ingressIps == []) ==>
      a.result == Err(IndexOutOfBounds(0))
    // The external probe goes to the first ingress IP and the mapped port,
    // never with port -1.
    ensures var s := ResolveService(services, cluster, resource);
      |a.probes| == 2 ==>
      (!insideContainer && ConnectionControl.ExternallyBalanced(s.value) &&
       ExternalPort(s.value.ports, targetPort).Ok? &&
       a.probes[1] == Endpoint(s.value.ingressIps[0], ExternalPort(s.value.ports, targetPort).value) &&
       a.probes[1].port != -1)
    // ... and whenever a load balanced service with an ingress maps the
    // target port to one other than -1 after a failed direct probe.
    ensures var s := ResolveService(services, cluster, resource);
      (s.Some? && !insideContainer && !canConnect(s.value.metadata.name, targetPort) &&
       ConnectionControl.ExternallyBalanced(s.value) && ExternalPort(s.value.ports, targetPort).Ok? &&
       ExternalPort(s.value.ports, targetPort).value != -1) ==>
      |a.probes| == 2
    ensures (|a.probes| == 2 && canConnect(a.probes[1].host, a.probes[1].port)) ==>
      a.result == Ok(Direct(ServiceConnection(a.probes[1].host, a.probes[1].port)))
    // A port mapping that cannot be read fails the external branch with its error.
    ensures var s := ResolveService(services, cluster, resource);
      (s.Some? && !insideContainer && !canConnect(s.value.metadata.name, targetPort) &&
       ConnectionControl.ExternallyBalanced(s.value) && ExternalPort(s.value.ports, targetPort).Err?) ==>
      a.result == Err(ExternalPort(s.value.ports, targetPort).error)
    // Outside a container, when the type is not "LoadBalancer", the port
    // maps to -1 or the external probe fails, the result is getPortForwardConnection's.
    ensures var s := ResolveService(services, cluster, resource);
      (s.Some? && !insideContainer && !canConnect(s.value.metadata.name, targetPort) &&
       s.value.serviceType.NonNull? &&
       (s.value.serviceType.value != LOAD_BALANCER ||
        (|s.value.ingressIps| > 0 && ExternalPort(s.value.ports, targetPort).Ok? &&
         (ExternalPort(s.value.ports, targetPort).value == -1 ||
          !canConnect(s.value.ingressIps[0], ExternalPort(s.value.ports, targetPort).value))))) ==>
      a.result == PortForward(services, pods, cluster, resource, targetPort)
    // A tunnel comes only from the port-forward lookup, outside a container.
    ensures (a.result.Ok? && a.result.value.Tunnel?) ==>
      (!insideContainer && a.result == PortForward(services, pods, cluster, resource, targetPort))
  {
    match ResolveService(services, cluster, resource)
    case None => ConnectionControl.Attempt(Err(Connection(RESOURCE_UNAVAILABLE)), [])
    case Some(s) =>
      var direct := Endpoint(s.metadata.name, targetPort);
      var fallback := PortForward(services, pods, cluster, resource, targetPort);
      if canConnect(direct.host, direct.port) then
        ConnectionControl.Attempt(Ok(Direct(ServiceConnection(direct.host, direct.port))), [direct])
      else if insideContainer then
        ConnectionControl.Attempt(Err(Connection(UNABLE_TO_CONNECT + resource)), [direct])
      else
        match s.serviceType
        case Null => ConnectionControl.Attempt(Err(NullDeref("getType() is null")), [direct])
        case NonNull(t) =>
          if t != LOAD_BALANCER then ConnectionControl.Attempt(fallback, [direct])
          else if |s.ingressIps| == 0 then ConnectionControl.Attempt(Err(IndexOutOfBounds(0)), [direct])
          else
            match ExternalPort(s.ports, targetPort)
            case Err(e) => ConnectionControl.Attempt(Err(e), [direct])
            case Ok(externalPort) =>
              if externalPort == -1 then ConnectionControl.Attempt(fallback, [direct])
              else
                var external := Endpoint(s.ingressIps[0], externalPort);
                if canConnect(external.host, external.port) then
                  ConnectionControl.Attempt(Ok(Direct(ServiceConnection(external.host, external.port))), [direct, external])
                else ConnectionControl.Attempt(fallback, [direct, external])
  }

  /** Once getConnection has resolved a service, its port-forward fallback
      always finds a service (from the store alias or by name) and never
      falls through to a pod or to the error. */
  lemma FallbackAlwaysFindsService(services: map<string, Service>, pods: map<string, Pod>, cluster: Cluster, resource: string, port: int)
    requires Consistent(cluster)
    requires ResolveService(services, cluster, resource).Some?
    ensures ForwardTargetOf(services, pods, cluster, resource).Ok?
    ensures ForwardTargetOf(services, pods, cluster, resource).value.ServiceTarget?
  {
    if resource !in services {
      assert ResolveService(services, cluster, resource) == ServiceNamed(cluster, resource);
    }
  }

  class ConnectionController {
    /** Every port-forwarded connection created, in order. */
    var connections: seq<KubeConnection>
    const services: LegacyStore.ResourceStore<Service>
    const pods: LegacyStore.ResourceStore<Pod>

    constructor (services: LegacyStore.ResourceStore<Service>, pods: LegacyStore.ResourceStore<Pod>)
      ensures this.services == services && this.pods == pods && connections == []
    {
      this.services := services;
      this.pods := pods;
      connections := [];
    }

    method GetConnection(cluster: Cluster, resource: string, targetPort: int,
                         canConnect: (string, int) -> bool, insideContainer: bool) returns (r: Result<KubeConnection>)
      requires Consistent(cluster)
      modifies this
      ensures r == Decide(services.GetAll(), pods.GetAll(), cluster, resource, targetPort, canConnect, insideContainer).result
      ensures connections == old(connections) + (if r.Ok? && r.value.Tunnel? then [r.value] else [])
    {
      var a := Decide(services.GetAll(), pods.GetAll(), cluster, resource, targetPort, canConnect, insideContainer);
      if a.result.Ok? && a.result.value.Tunnel? {
        r := GetPortForwardConnection(cluster, resource, targetPort);
      } else {
        r := a.result;
      }
    }

    method GetPortForwardConnection(cluster: Cluster, resource: string, port: int) returns (r: Result<KubeConnection>)
      modifies this
      ensures r == PortForward(services.GetAll(), pods.GetAll(), cluster, resource, port)
      ensures connections == old(connections) + (if r.Ok? then [r.value] else [])
    {
      match ForwardTargetOf(services.GetAll(), pods.GetAll(), cluster, resource)
      case Ok(t) => r := CreatePortForwardConnection(t, port);
      case Err(e) => r := Err(e);
    }

    method CreatePortForwardConnection(target: ForwardTarget, port: int) returns (r: Result<KubeConnection>)
      modifies this
      ensures r == Ok(Tunnel(target, port))
      ensures connections == old(connections) + [r.value]
    {
      var c := Tunnel(target, port);
      connections := connections + [c];
      r := Ok(c);
    }
  }
}
