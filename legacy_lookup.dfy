// The legacy ResourceLookupController: the same store-then-cluster rule
// for pods and services, over the legacy alias stores.

module LegacyLookup {
  import opened Common
  import opened Resources
  import LegacyStore
  import Lookup

  function GetPodResource(pods: LegacyStore.ResourceStore<Pod>, cluster: Cluster, name: string): (r: Option<Pod>)
    reads pods
    ensures pods.Get(NonNull(name)).Ok? ==> r == Some(pods.Get(NonNull(name)).value)
    ensures pods.Get(NonNull(name)).Err? ==> r == PodNamed(cluster, name)
  {
    Lookup.Resolve(pods.GetAll(), cluster.pods, name)
  }

  function GetServiceResource(services: LegacyStore.ResourceStore<Service>, cluster: Cluster, name: string): (r: Option<Service>)
    reads services
    ensures services.Get(NonNull(name)).Ok? ==> r == Some(services.Get(NonNull(name)).value)
    ensures services.Get(NonNull(name)).Err? ==> r == ServiceNamed(cluster, name)
  {
    Lookup.Resolve(services.GetAll(), cluster.services, name)
  }
}
