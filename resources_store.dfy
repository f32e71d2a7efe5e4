// The current ResourcesStore: one alias store per kind, each call
// delegating to the store of its kind. ResourcesStore.java declares no
// deployment methods although its callers use getDeployments,
// containsDeployment, getDeployment, putDeployment and putDeployments;
// they are modelled with the same shape as the pod methods over a
// deployment store.

module ResourcesStores {
  import opened Common
  import opened Resources
  import opened Store
  import StoreSpec

  class ResourcesStore {
    const podStore: ResourceStore<Pod>
    const serviceStore: ResourceStore<Service>
    const deploymentStore: ResourceStore<Deployment>
    const probeStore: ResourceStore<ProvisioningProbe>

    /** The objects holding the four tables. */
    ghost function Repr(): set<object>
    {
      {podStore, serviceStore, deploymentStore, probeStore}
    }

    /** The four tables are distinct objects. */
    ghost predicate Valid()
    {
      |Repr()| == 4
    }

    /** A fresh store is empty for every kind. */
    constructor ()
      ensures Valid() && fresh(Repr())
      ensures GetPods() == map[] && GetServices() == map[]
      ensures GetDeployments() == map[] && GetProvisioningProbes() == map[]
    {
      podStore := new ResourceStore<Pod>();
      serviceStore := new ResourceStore<Service>();
      deploymentStore := new ResourceStore<Deployment>();
      probeStore := new ResourceStore<ProvisioningProbe>();
    }

    // ---- pods

    function GetPod(name: Nullable<string>): (r: Result<Pod>)
      reads podStore
      ensures r.Ok? <==> name.NonNull? && name.value in GetPods()
      ensures r.Ok? ==> r.value == GetPods()[name.value]
      ensures name.Null? ==> r == Err(NullDeref(StoreSpec.NAME_IS_NULL))
      ensures name.NonNull? && name.value !in GetPods() ==> r == Err(StoreSpec.NotFound(name.value))
    {
      podStore.Get(name)
    }

    /** A copy of the table: the same aliases, each bound to what get finds. */
    function GetPods(): (r: map<string, Pod>)
      reads podStore
      ensures r.Keys == podStore.resources.Keys
      ensures forall k :: k in r ==> podStore.Get(NonNull(k)) == Ok(r[k])
    {
      podStore.GetAll()
    }

    function ContainsPod(name: Nullable<string>): (r: Result<bool>)
      reads podStore
      ensures name.Null? ==> r == Err(NullDeref(StoreSpec.NAME_IS_NULL))
      ensures name.NonNull? ==> r == Ok(name.value in GetPods())
    {
      podStore.Contains(name)
    }

    method PutPod(name: Nullable<string>, pod: Nullable<Pod>) returns (r: Outcome)
      requires Valid()
      modifies podStore
      ensures r.Pass? <==> name.NonNull? && pod.NonNull?
      ensures r.Pass? ==> GetPods() == StoreSpec.Put(old(GetPods()), name, pod).value
      ensures r.Fail? ==> r.error == StoreSpec.Put(old(GetPods()), name, pod).error
      ensures r.Fail? ==> GetPods() == old(GetPods())
      ensures GetServices() == old(GetServices()) && GetDeployments() == old(GetDeployments()) && GetProvisioningProbes() == old(GetProvisioningProbes())
    {
      r := podStore.Put(name, pod);
    }

    method PutPods(pods: Nullable<map<string, Pod>>) returns (r: Outcome)
      requires Valid()
      modifies podStore
      ensures r.Pass? <==> pods.NonNull?
      ensures r.Pass? ==> GetPods() == StoreSpec.PutAll(old(GetPods()), pods).value
      ensures r.Fail? ==> r.error == StoreSpec.PutAll(old(GetPods()), pods).error
      ensures r.Fail? ==> GetPods() == old(GetPods())
      ensures GetServices() == old(GetServices()) && GetDeployments() == old(GetDeployments()) && GetProvisioningProbes() == old(GetProvisioningProbes())
    {
      r := podStore.PutAll(pods);
    }

    method RemovePod(name: Nullable<string>) returns (r: Result<Pod>)
      requires Valid()
      modifies podStore
      ensures r.Ok? <==> name.NonNull? && name.value in old(GetPods())
      ensures r.Ok? ==> r.value == old(GetPods())[name.value]
      ensures r.Ok? ==> GetPods() == StoreSpec.Remove(old(GetPods()), name).value.rest
      ensures r.Err? ==> r.error == StoreSpec.Remove(old(GetPods()), name).error
      ensures r.Err? ==> GetPods() == old(GetPods())
      ensures name.NonNull? && name.value !in old(GetPods()) ==> r == Err(StoreSpec.NotFound(name.value))
      ensures GetServices() == old(GetServices()) && GetDeployments() == old(GetDeployments()) && GetProvisioningProbes() == old(GetProvisioningProbes())
    {
      r := podStore.Remove(name);
    }

    // ---- services

    function GetService(name: Nullable<string>): (r: Result<Service>)
      reads serviceStore
      ensures r.Ok? <==> name.NonNull? && name.value in GetServices()
      ensures r.Ok? ==> r.value == GetServices()[name.value]
      ensures name.Null? ==> r == Err(NullDeref(StoreSpec.NAME_IS_NULL))
      ensures name.NonNull? && name.value !in GetServices() ==> r == Err(StoreSpec.NotFound(name.value))
    {
      serviceStore.Get(name)
    }

    /** A copy of the table: the same aliases, each bound to what get finds. */
    function GetServices(): (r: map<string, Service>)
      reads serviceStore
      ensures r.Keys == serviceStore.resources.Keys
      ensures forall k :: k in r ==> serviceStore.Get(NonNull(k)) == Ok(r[k])
    {
      serviceStore.GetAll()
    }

    function ContainsService(name: Nullable<string>): (r: Result<bool>)
      reads serviceStore
      ensures name.Null? ==> r == Err(NullDeref(StoreSpec.NAME_IS_NULL))
      ensures name.NonNull? ==> r == Ok(name.value in GetServices())
    {
      serviceStore.Contains(name)
    }

    method PutService(name: Nullable<string>, service: Nullable<Service>) returns (r: Outcome)
      requires Valid()
      modifies serviceStore
      ensures r.Pass? <==> name.NonNull? && service.NonNull?
      ensures r.Pass? ==> GetServices() == StoreSpec.Put(old(GetServices()), name, service).value
      ensures r.Fail? ==> r.error == StoreSpec.Put(old(GetServices()), name, service).error
      ensures r.Fail? ==> GetServices() == old(GetServices())
      ensures GetPods() == old(GetPods()) && GetDeployments() == old(GetDeployments()) && GetProvisioningProbes() == old(GetProvisioningProbes())
    {
      r := serviceStore.Put(name, service);
    }

    method PutServices(services: Nullable<map<string, Service>>) returns (r: Outcome)
      requires Valid()
      modifies serviceStore
      ensures r.Pass? <==> services.NonNull?
      ensures r.Pass? ==> GetServices() == StoreSpec.PutAll(old(GetServices()), services).value
      ensures r.Fail? ==> r.error == StoreSpec.PutAll(old(GetServices()), services).error
      ensures r.Fail? ==> GetServices() == old(GetServices())
      ensures GetPods() == old(GetPods()) && GetDeployments() == old(GetDeployments()) && GetProvisioningProbes() == old(GetProvisioningProbes())
    {
      r := serviceStore.PutAll(services);
    }

    method RemoveService(name: Nullable<string>) returns (r: Result<Service>)
      requires Valid()
      modifies serviceStore
      ensures r.Ok? <==> name.NonNull? && name.value in old(GetServices())
      ensures r.Ok? ==> r.value == old(GetServices())[name.value]
      ensures r.Ok? ==> GetServices() == StoreSpec.Remove(old(GetServices()), name).value.rest
      ensures r.Err? ==> r.error == StoreSpec.Remove(old(GetServices()), name).error
      ensures r.Err? ==> GetServices() == old(GetServices())
      ensures name.NonNull? && name.value !in old(GetServices()) ==> r == Err(StoreSpec.NotFound(name.value))
      ensures GetPods() == old(GetPods()) && GetDeployments() == old(GetDeployments()) && GetProvisioningProbes() == old(GetProvisioningProbes())
    {
      r := serviceStore.Remove(name);
    }

    // ---- deployments

    function GetDeployment(name: Nullable<string>): (r: Result<Deployment>)
      reads deploymentStore
      ensures r.Ok? <==> name.NonNull? && name.value in GetDeployments()
      ensures r.Ok? ==> r.value == GetDeployments()[name.value]
      ensures name.Null? ==> r == Err(NullDeref(StoreSpec.NAME_IS_NULL))
      ensures name.NonNull? && name.value !in GetDeployments() ==> r == Err(StoreSpec.NotFound(name.value))
    {
      deploymentStore.Get(name)
    }

    /** A copy of the table: the same aliases, each bound to what get finds. */
    function GetDeployments(): (r: map<string, Deployment>)
      reads deploymentStore
      ensures r.Keys == deploymentStore.resources.Keys
      ensures forall k :: k in r ==> deploymentStore.Get(NonNull(k)) == Ok(r[k])
    {
      deploymentStore.GetAll()
    }

    function ContainsDeployment(name: Nullable<string>): (r: Result<bool>)
      reads deploymentStore
      ensures name.Null? ==> r == Err(NullDeref(StoreSpec.NAME_IS_NULL))
      ensures name.NonNull? ==> r == Ok(name.value in GetDeployments())
    {
      deploymentStore.Contains(name)
    }

    method PutDeployment(name: Nullable<string>, deployment: Nullable<Deployment>) returns (r: Outcome)
      requires Valid()
      modifies deploymentStore
      ensures r.Pass? <==> name.NonNull? && deployment.NonNull?
      ensures r.Pass? ==> GetDeployments() == StoreSpec.Put(old(GetDeployments()), name, deployment).value
      ensures r.Fail? ==> r.error == StoreSpec.Put(old(GetDeployments()), name, deployment).error
      ensures r.Fail? ==> GetDeployments() == old(GetDeployments())
      ensures GetPods() == old(GetPods()) && GetServices() == old(GetServices()) && GetProvisioningProbes() == old(GetProvisioningProbes())
    {
      r := deploymentStore.Put(name, deployment);
    }

    method PutDeployments(deployments: Nullable<map<string, Deployment>>) returns (r: Outcome)
      requires Valid()
      modifies deploymentStore
      ensures r.Pass? <==> deployments.NonNull?
      ensures r.Pass? ==> GetDeployments() == StoreSpec.PutAll(old(GetDeployments()), deployments).value
      ensures r.Fail? ==> r.error == StoreSpec.PutAll(old(GetDeployments()), deployments).error
      ensures r.Fail? ==> GetDeployments() == old(GetDeployments())
      ensures GetPods() == old(GetPods()) && GetServices() == old(GetServices()) && GetProvisioningProbes() == old(GetProvisioningProbes())
    {
      r := deploymentStore.PutAll(deployments);
    }

    // ---- provisioning probes

    /** A copy of the table: the same aliases, each bound to what get finds. */
    function GetProvisioningProbes(): (r: map<string, ProvisioningProbe>)
      reads probeStore
      ensures r.Keys == probeStore.resources.Keys
      ensures forall k :: k in r ==> probeStore.Get(NonNull(k)) == Ok(r[k])
    {
      probeStore.GetAll()
    }

    method PutProvisioningProbes(probes: Nullable<map<string, ProvisioningProbe>>) returns (r: Outcome)
      requires Valid()
      modifies probeStore
      ensures r.Pass? <==> probes.NonNull?
      ensures r.Pass? ==> GetProvisioningProbes() == StoreSpec.PutAll(old(GetProvisioningProbes()), probes).value
      ensures r.Fail? ==> r.error == StoreSpec.PutAll(old(GetProvisioningProbes()), probes).error
      ensures r.Fail? ==> GetProvisioningProbes() == old(GetProvisioningProbes())
      ensures GetPods() == old(GetPods()) && GetServices() == old(GetServices()) && GetDeployments() == old(GetDeployments())
    {
      r := probeStore.PutAll(probes);
    }
  }
}
