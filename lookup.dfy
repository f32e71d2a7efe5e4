// ResourceLookupControllerImpl: resolve a name to a cluster resource
// handle, the store's alias table first and the cluster by name second.
// A handle is represented by the object it was made from.

module Lookup {
  import opened Common
  import opened Resources
  import opened ResourcesStores

  /** The two-tier rule: an alias in the store wins; otherwise the cluster
      object with that name; otherwise nothing. */
  function Resolve<R>(stored: map<string, R>, named: map<string, R>, name: string): (r: Option<R>)
    ensures name in stored ==> r == Some(stored[name])
    ensures name !in stored && name in named ==> r == Some(named[name])
    ensures r.None? <==> name !in stored && name !in named
  {
    if name in stored then Some(stored[name])
    else if name in named then Some(named[name])
    else None
  }

  /** Store precedence is absolute: when the alias is stored, what the
      cluster holds under that name has no bearing on the result. */
  lemma StoreWinsWhateverTheCluster<R>(stored: map<string, R>, named1: map<string, R>, named2: map<string, R>, name: string)
    requires name in stored
    ensures Resolve(stored, named1, name) == Resolve(stored, named2, name)
  {
  }

  /** The cluster is asked only about names the store does not hold:
      entries of the cluster under other names never matter, and when the
      store lacks the name the store's other entries never matter. */
  lemma OnlyTheNameMatters<R>(stored: map<string, R>, named: map<string, R>, name: string)
    ensures Resolve(stored, named, name) == Resolve(
      map k | k in stored && k == name :: stored[k],
      map k | k in named && k == name :: named[k], name)
  {
  }

  function GetPodResource(store: ResourcesStore, cluster: Cluster, name: string): (r: Option<Pod>)
    reads store.podStore
    ensures store.ContainsPod(NonNull(name)) == Ok(true) ==> r == Some(store.GetPod(NonNull(name)).value)
    ensures store.ContainsPod(NonNull(name)) == Ok(false) ==> r == PodNamed(cluster, name)
  {
    Resolve(store.GetPods(), cluster.pods, name)
  }

  function GetDeploymentResource(store: ResourcesStore, cluster: Cluster, name: string): (r: Option<Deployment>)
    reads store.deploymentStore
    ensures store.ContainsDeployment(NonNull(name)) == Ok(true) ==> r == Some(store.GetDeployment(NonNull(name)).value)
    ensures store.ContainsDeployment(NonNull(name)) == Ok(false) ==> r == DeploymentNamed(cluster, name)
  {
    Resolve(store.GetDeployments(), cluster.deployments, name)
  }

  function GetServiceResource(store: ResourcesStore, cluster: Cluster, name: string): (r: Option<Service>)
    reads store.serviceStore
    ensures store.ContainsService(NonNull(name)) == Ok(true) ==> r == Some(store.GetService(NonNull(name)).value)
    ensures store.ContainsService(NonNull(name)) == Ok(false) ==> r == ServiceNamed(cluster, name)
  {
    Resolve(store.GetServices(), cluster.services, name)
  }
}
