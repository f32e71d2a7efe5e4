// The slice of the Kubernetes object model the library looks at: names,
// labels, selectors, replica counts, service ports and load-balancer
// ingress. Everything else in a pod, service or deployment is opaque here.

module Resources {
  import opened Common

  datatype Kind = PodKind | ServiceKind | DeploymentKind

  datatype Metadata = Metadata(name: string, labels: map<string, string>)

  datatype Pod = Pod(metadata: Metadata)

  /** A service port's targetPort is an IntOrString in the Kubernetes API. */
  datatype TargetPort = IntTarget(number: int) | NamedTarget(portName: string)

  datatype ServicePort = ServicePort(port: int, targetPort: TargetPort)

  /** spec.type (may be null), spec.ports, and the IPs of
      status.loadBalancer.ingress in order. */
  datatype Service = Service(
    metadata: Metadata,
    serviceType: Nullable<string>,
    ports: seq<ServicePort>,
    ingressIps: seq<string>)

  /** spec.replicas, spec.selector (match labels) and the labels of
      spec.template.metadata. */
  datatype Deployment = Deployment(
    metadata: Metadata,
    replicas: int,
    selector: map<string, string>,
    templateLabels: map<string, string>)

  /** A user readiness probe; its behaviour is opaque to this layer. */
  datatype ProvisioningProbe = ProvisioningProbe(id: string)

  /** The cluster as seen through `withName(name).get()`: objects by
      cluster-assigned name in the current namespace. */
  datatype Cluster = Cluster(
    pods: map<string, Pod>,
    services: map<string, Service>,
    deployments: map<string, Deployment>)

  /** Every object is filed under its own name, as the API server keeps
      them: `withName(n).get()` returns an object whose name is n. */
  ghost predicate Consistent(c: Cluster)
  {
    (forall n :: n in c.pods ==> c.pods[n].metadata.name == n) &&
    (forall n :: n in c.services ==> c.services[n].metadata.name == n) &&
    (forall n :: n in c.deployments ==> c.deployments[n].metadata.name == n)
  }

  function PodNamed(c: Cluster, name: string): Option<Pod>
  {
    if name in c.pods then Some(c.pods[name]) else None
  }

  function ServiceNamed(c: Cluster, name: string): Option<Service>
  {
    if name in c.services then Some(c.services[name]) else None
  }

  function DeploymentNamed(c: Cluster, name: string): Option<Deployment>
  {
    if name in c.deployments then Some(c.deployments[name]) else None
  }

  /** `labels` with `key` set to `value`, as Map.put or addToLabels do. */
  function WithLabel(labels: map<string, string>, key: string, value: string): (r: map<string, string>)
    ensures key in r && r[key] == value
    ensures r.Keys == labels.Keys + {key}
    ensures forall k :: k in labels && k != key ==> r[k] == labels[k]
  {
    labels[key := value]
  }

  /** addToLabels(key, value) on a pod's metadata; nothing else changes. */
  function LabelPod(p: Pod, key: string, value: string): (r: Pod)
    ensures r.metadata.name == p.metadata.name
    ensures r.metadata.labels == WithLabel(p.metadata.labels, key, value)
  {
    Pod(p.metadata.(labels := WithLabel(p.metadata.labels, key, value)))
  }

  /** addToLabels(key, value) on a service's metadata; nothing else changes. */
  function LabelService(s: Service, key: string, value: string): (r: Service)
    ensures r.metadata.name == s.metadata.name
    ensures r.metadata.labels == WithLabel(s.metadata.labels, key, value)
    ensures r.serviceType == s.serviceType && r.ports == s.ports && r.ingressIps == s.ingressIps
  {
    s.(metadata := s.metadata.(labels := WithLabel(s.metadata.labels, key, value)))
  }

  /** addToLabels(key, value) on a deployment's metadata and on its pod
      template's metadata; nothing else changes. */
  function LabelDeployment(d: Deployment, key: string, value: string): (r: Deployment)
    ensures r.metadata.name == d.metadata.name
    ensures r.metadata.labels == WithLabel(d.metadata.labels, key, value)
    ensures r.templateLabels == WithLabel(d.templateLabels, key, value)
    ensures r.replicas == d.replicas && r.selector == d.selector
  {
    d.(metadata := d.metadata.(labels := WithLabel(d.metadata.labels, key, value)),
       templateLabels := WithLabel(d.templateLabels, key, value))
  }

  /** The objects of `items` whose label `key` is `value`, in order:
      what a list by a single-label selector returns. */
  function PodsLabelled(items: seq<Pod>, key: string, value: string): (r: seq<Pod>)
    ensures |r| <= |items|
    ensures forall p :: p in r <==> p in items && key in p.metadata.labels && p.metadata.labels[key] == value
  {
    if items == [] then []
    else
      var rest := PodsLabelled(items[1..], key, value);
      var p := items[0];
      assert forall q :: q in items <==> q == p || q in items[1..];
      if key in p.metadata.labels && p.metadata.labels[key] == value then [p] + rest else rest
  }

  /** Each labelled object is selected as often as it is listed, the
      others not at all. */
  lemma {:induction false} PodsLabelledCounts(items: seq<Pod>, key: string, value: string)
    ensures forall p :: multiset(PodsLabelled(items, key, value))[p] ==
                    if key in p.metadata.labels && p.metadata.labels[key] == value then multiset(items)[p] else 0
  {
    if items != [] {
      assert items == [items[0]] + items[1..];
      PodsLabelledCounts(items[1..], key, value);
    }
  }

  /** The selection keeps the order: the labelled part of a
      concatenation is the concatenation of the labelled parts. */
  lemma {:induction false} PodsLabelledAppend(a: seq<Pod>, b: seq<Pod>, key: string, value: string)
    ensures PodsLabelled(a + b, key, value) == PodsLabelled(a, key, value) + PodsLabelled(b, key, value)
  {
    if a == [] {
      assert a + b == b;
    } else {
      assert (a + b)[1..] == a[1..] + b;
      PodsLabelledAppend(a[1..], b, key, value);
    }
  }

  function ServicesLabelled(items: seq<Service>, key: string, value: string): (r: seq<Service>)
    ensures |r| <= |items|
    ensures forall s :: s in r <==> s in items && key in s.metadata.labels && s.metadata.labels[key] == value
  {
    if items == [] then []
    else
      var rest := ServicesLabelled(items[1..], key, value);
      var s := items[0];
      assert forall q :: q in items <==> q == s || q in items[1..];
      if key in s.metadata.labels && s.metadata.labels[key] == value then [s] + rest else rest
  }

  lemma {:induction false} ServicesLabelledCounts(items: seq<Service>, key: string, value: string)
    ensures forall s :: multiset(ServicesLabelled(items, key, value))[s] ==
                    if key in s.metadata.labels && s.metadata.labels[key] == value then multiset(items)[s] else 0
  {
    if items != [] {
      assert items == [items[0]] + items[1..];
      ServicesLabelledCounts(items[1..], key, value);
    }
  }

  lemma {:induction false} ServicesLabelledAppend(a: seq<Service>, b: seq<Service>, key: string, value: string)
    ensures ServicesLabelled(a + b, key, value) == ServicesLabelled(a, key, value) + ServicesLabelled(b, key, value)
  {
    if a == [] {
      assert a + b == b;
    } else {
      assert (a + b)[1..] == a[1..] + b;
      ServicesLabelledAppend(a[1..], b, key, value);
    }
  }

  /** Names of resources, in order. */
  function PodNames(ps: seq<Pod>): (r: seq<string>)
    ensures |r| == |ps|
    ensures forall i {:trigger r[i]} :: 0 <= i < |ps| ==> r[i] == ps[i].metadata.name
  {
    if ps == [] then [] else PodNames(ps[..|ps| - 1]) + [ps[|ps| - 1].metadata.name]
  }

  function ServiceNames(ss: seq<Service>): (r: seq<string>)
    ensures |r| == |ss|
    ensures forall i {:trigger r[i]} :: 0 <= i < |ss| ==> r[i] == ss[i].metadata.name
  {
    if ss == [] then [] else ServiceNames(ss[..|ss| - 1]) + [ss[|ss| - 1].metadata.name]
  }

  function DeploymentNames(ds: seq<Deployment>): (r: seq<string>)
    ensures |r| == |ds|
    ensures forall i {:trigger r[i]} :: 0 <= i < |ds| ==> r[i] == ds[i].metadata.name
  {
    if ds == [] then [] else DeploymentNames(ds[..|ds| - 1]) + [ds[|ds| - 1].metadata.name]
  }

  lemma PodNamesSnoc(ps: seq<Pod>, p: Pod)
    ensures PodNames(ps + [p]) == PodNames(ps) + [p.metadata.name]
  {
    assert (ps + [p])[..|ps|] == ps;
  }

  lemma ServiceNamesSnoc(ss: seq<Service>, s: Service)
    ensures ServiceNames(ss + [s]) == ServiceNames(ss) + [s.metadata.name]
  {
    assert (ss + [s])[..|ss|] == ss;
  }

  lemma DeploymentNamesSnoc(ds: seq<Deployment>, d: Deployment)
    ensures DeploymentNames(ds + [d]) == DeploymentNames(ds) + [d.metadata.name]
  {
    assert (ds + [d])[..|ds|] == ds;
  }
}
