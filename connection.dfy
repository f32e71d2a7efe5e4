// The connection values the resolver hands out (ServiceConnection and a
// port-forwarded tunnel) and the pure pieces of the external strategy:
// recognising an externally load-balanced service and mapping a target
// port to the service's exposed port.

module Connections {
  import opened Common
  import opened Resources

  datatype KubeConnectionType = PortForwarded | ServiceType

  /** ServiceConnection: a host and port the caller can reach directly. */
  datatype ServiceConnection = ServiceConnection(hostname: string, port: int) {

    function GetType(): (t: KubeConnectionType)
      ensures t == ServiceType
    {
      ServiceType
    }

    function GetHostName(): (h: string)
      ensures h == hostname
    {
      hostname
    }

    function GetPort(): (p: int)
      ensures p == port
    {
      port
    }

    /** close() owns nothing, changes nothing and cannot fail. */
    function Close(): (r: (Outcome, ServiceConnection))
      ensures r.0 == Pass && r.1 == this
    {
      (Pass, this)
    }
  }

  /** What a port-forward tunnel was opened to. */
  datatype ForwardTarget = ServiceTarget(service: Service) | PodTarget(pod: Pod)

  /** A resolved connection: a direct one, or a tunnel from an ephemeral
      local port to `remotePort` of the target. */
  datatype KubeConnection =
    | Direct(connection: ServiceConnection)
    | Tunnel(target: ForwardTarget, remotePort: int)
  {
    function GetType(): (t: KubeConnectionType)
      ensures t == PortForwarded <==> Tunnel?
    {
      match this
      case Direct(c) => c.GetType()
      case Tunnel(_, _) => PortForwarded
    }
  }

  /** A host and port handed to the reachability probe. */
  datatype Endpoint = Endpoint(host: string, port: int)

  const LOAD_BALANCER := "LoadBalancer"

  predicate IntTargetOtherThan(p: ServicePort, targetPort: int)
  {
    p.targetPort.IntTarget? && p.targetPort.number != targetPort
  }

  /** The stream's filter reaches index i: every earlier port has an int
      target port other than the one sought. */
  predicate Reaches(ports: seq<ServicePort>, i: int, targetPort: int)
    requires 0 <= i <= |ports|
  {
    forall j :: 0 <= j < i ==> IntTargetOtherThan(ports[j], targetPort)
  }

  /** The service port whose integer target port equals `targetPort`,
      first in list order, or -1 when none does. The comparison unboxes
      the integer target port, which is null for a named one, so a named
      port met before a match raises a null-dereference exception. */
  function ExternalPort(ports: seq<ServicePort>, targetPort: int): (r: Result<int>)
    ensures forall i :: 0 <= i < |ports| && Reaches(ports, i, targetPort) && ports[i].targetPort == IntTarget(targetPort) ==> r == Ok(ports[i].port)
    ensures forall i :: 0 <= i < |ports| && Reaches(ports, i, targetPort) && ports[i].targetPort.NamedTarget? ==> r.Err? && r.error.NullDeref?
    ensures Reaches(ports, |ports|, targetPort) ==> r == Ok(-1)
  {
    if ports == [] then Ok(-1)
    else
      match ports[0].targetPort
      case NamedTarget(_) => Err(NullDeref("getIntVal() is null"))
      case IntTarget(n) =>
        if n == targetPort then Ok(ports[0].port)
        else
          var r := ExternalPort(ports[1..], targetPort);
          assert forall i :: 1 <= i < |ports| ==> ports[i] == ports[1..][i - 1];
          r
  }
}
