# tdk8s test-kube core, modelled in Dafny

This project models the core of the `test-kube` library (packages
`se.laz.casual.test.tdk8s` and its predecessor `se.laz.casual.test.k8s`).
The library provisions a labelled group of pods, services and deployments
on a Kubernetes cluster for a test. It waits until they are ready and finds
a network path to any of them. Afterwards it deletes them and waits until
they are gone. The model covers, in both the current and the legacy
version:

- the alias stores (`AbstractResourceStore`, `ResourcesStore`): maps from a
  caller's alias to a resource, with their null checks and not-found errors;
- the delete watchers: a `CountDownLatch` counted down by DELETED events;
- resource lookup: the store first, then the cluster by name;
- the connection strategy chain: direct, then external load balancer, then
  port-forward;
- the provisioning controllers: stamp the session label, apply, wait for
  readiness, watch before delete, wait for every deletion, close every
  watch;
- the deployment scale controller: on scale-down, watch every pod before
  the scale call;
- the small value types `ServiceConnection`, `ExecResult` (with its builder
  and Java's `equals`/`hashCode`) and `ContainerAwareness`.

Objects that the source mutates are Dafny classes with `modifies`
clauses: the stores, watchers, controllers and the builder. Everything
else is datatypes and functions. The fabric8 Kubernetes client is not
modelled. Every call a controller makes on it goes, in order, into a
`calls` log field. Blocking waits appear in that log as `AwaitReady` and
`AwaitDeleted` entries, and a watcher's `Deleted()` predicate says when
`waitUntilDeleted` returns. The following are parameters:

- what the cluster answers: a `Cluster` value of objects by name, pod
  listings, and the result of server-side apply;
- the reachability probe `canConnect`;
- the process environment;
- the in-container flag.

Java `HashMap` iteration order is unspecified. Each loop over a map
returns a ghost enumeration of the keys (`Enumerates(order, m)`), and the
call log is stated in that order.

Two things the code does that its interfaces do not show:

- The current `destroyAsync` deletes what the store holds, not what the
  cluster lists under the session label. The legacy `destroyAsync` is the
  one that lists by label.
- `ResourcesStore.java` declares no deployment methods, but
  `ProvisioningControllerImpl`, `ResourceLookupControllerImpl` and
  `TestKube` call `getDeployments`, `putDeployment`, `containsDeployment`,
  `getDeployment` and `putDeployments`. These are modelled after the pod
  methods, over a fourth alias store.

## Model

| member | source | states |
|---|---|---|
| StoreSpec.Get | test-kube/src/main/java/se/laz/casual/test/tdk8s/store/AbstractResourceStore.java:23-33 | A null name fails with "Name is null." before anything else; an absent alias fails with not-found "Resource not found: " + name; otherwise the bound value; success exactly when the name is non-null and bound |
| StoreSpec.Contains | test-kube/src/main/java/se/laz/casual/test/tdk8s/store/AbstractResourceStore.java:40-46 | A null name fails; otherwise succeeds, and answers true exactly when get would succeed |
| StoreSpec.Put | test-kube/src/main/java/se/laz/casual/test/tdk8s/store/AbstractResourceStore.java:48-55 | Null name rejected first, then null value; on success get of the alias returns the value, the key set gains the alias and every other entry is kept |
| StoreSpec.PutAll | test-kube/src/main/java/se/laz/casual/test/tdk8s/store/AbstractResourceStore.java:57-63 | A null map fails with "All is null."; otherwise the keys are the union, the argument's entries win and the other old entries are kept |
| StoreSpec.Remove | test-kube/src/main/java/se/laz/casual/test/tdk8s/store/AbstractResourceStore.java:65-76 | Null name rejected; absent alias fails with not-found; otherwise returns the value get would have returned and a map without the alias whose other entries are unchanged |
| StoreSpec.RemoveUndoesPut | test-kube/src/main/java/se/laz/casual/test/tdk8s/store/AbstractResourceStore.java:48-76 | Removing a newly put alias hands back the value and restores the original map |
| StoreSpec.GoneAfterRemove | test-kube/src/main/java/se/laz/casual/test/tdk8s/store/AbstractResourceStore.java:23-76 | After remove, get of the alias fails with not-found and contains answers false |
| StoreSpec.PutAllSingletonIsPut | test-kube/src/main/java/se/laz/casual/test/tdk8s/store/AbstractResourceStore.java:48-63 | putAll of a one-entry map equals put of that entry |
| Store.ResourceStore.constructor | test-kube/src/main/java/se/laz/casual/test/tdk8s/store/AbstractResourceStore.java:18-21 | A new store is empty |
| Store.ResourceStore.Get | test-kube/src/main/java/se/laz/casual/test/tdk8s/store/AbstractResourceStore.java:23-33 | get on the store's table, with the null and not-found errors |
| Store.ResourceStore.GetAll | test-kube/src/main/java/se/laz/casual/test/tdk8s/store/AbstractResourceStore.java:35-38 | A copy with the same aliases, each of which get finds with the same value |
| Store.ResourceStore.Contains | test-kube/src/main/java/se/laz/casual/test/tdk8s/store/AbstractResourceStore.java:40-46 | contains on the store's table |
| Store.ResourceStore.Put | test-kube/src/main/java/se/laz/casual/test/tdk8s/store/AbstractResourceStore.java:48-55 | Succeeds exactly for non-null name and value; the table becomes StoreSpec.Put of the old one; on failure the table is unchanged and the error is put's |
| Store.ResourceStore.PutAll | test-kube/src/main/java/se/laz/casual/test/tdk8s/store/AbstractResourceStore.java:57-63 | Succeeds exactly for a non-null map; the table becomes StoreSpec.PutAll of the old one, else unchanged |
| Store.ResourceStore.Remove | test-kube/src/main/java/se/laz/casual/test/tdk8s/store/AbstractResourceStore.java:65-76 | Returns the bound value and leaves StoreSpec.Remove's rest; on error the table is unchanged |
| LegacyStore.ResourceStore.constructor | test-kube/src/main/java/se/laz/casual/test/k8s/store/AbstractResourceStore.java:17-20 | A new legacy store is empty |
| LegacyStore.ResourceStore.Get | test-kube/src/main/java/se/laz/casual/test/k8s/store/AbstractResourceStore.java:22-32 | The same get rule, null name then not-found |
| LegacyStore.ResourceStore.GetAll | test-kube/src/main/java/se/laz/casual/test/k8s/store/AbstractResourceStore.java:34-37 | A copy with the same aliases and values |
| LegacyStore.ResourceStore.Put | test-kube/src/main/java/se/laz/casual/test/k8s/store/AbstractResourceStore.java:39-46 | The same put rule and errors |
| LegacyStore.ResourceStore.PutAll | test-kube/src/main/java/se/laz/casual/test/k8s/store/AbstractResourceStore.java:48-54 | The same putAll rule and error |
| LegacyStore.ResourceStore.Remove | test-kube/src/main/java/se/laz/casual/test/k8s/store/AbstractResourceStore.java:56-67 | The same remove rule and errors |
| ResourcesStores.ResourcesStore.constructor | test-kube/src/main/java/se/laz/casual/test/tdk8s/store/ResourcesStore.java:24-29 | Four fresh, distinct, empty tables |
| ResourcesStores.ResourcesStore.GetPod | test-kube/src/main/java/se/laz/casual/test/tdk8s/store/ResourcesStore.java:38-41 | Delegates to the pod table: a null alias fails with "Name is null.", an unbound one with not-found, a bound one gives its pod |
| ResourcesStores.ResourcesStore.ContainsPod | test-kube/src/main/java/se/laz/casual/test/tdk8s/store/ResourcesStore.java:59-62 | A null alias fails with "Name is null.", else whether the alias is a pod alias |
| ResourcesStores.ResourcesStore.GetPods | test-kube/src/main/java/se/laz/casual/test/tdk8s/store/ResourcesStore.java:48-51 | A copy of the pod table: the same aliases, each bound to what getPod finds |
| ResourcesStores.ResourcesStore.PutPod | test-kube/src/main/java/se/laz/casual/test/tdk8s/store/ResourcesStore.java:69-72 | Put on the pod table; the other three tables unchanged; a failure carries the table operation's own error and leaves the table unchanged |
| ResourcesStores.ResourcesStore.PutPods | test-kube/src/main/java/se/laz/casual/test/tdk8s/store/ResourcesStore.java:79-82 | putAll on the pod table; the others unchanged; a failure carries the table operation's own error and leaves the table unchanged |
| ResourcesStores.ResourcesStore.RemovePod | test-kube/src/main/java/se/laz/casual/test/tdk8s/store/ResourcesStore.java:91-94 | Remove on the pod table, with not-found for an absent alias; the others unchanged; a failure carries the table operation's own error and leaves the table unchanged |
| ResourcesStores.ResourcesStore.GetService | test-kube/src/main/java/se/laz/casual/test/tdk8s/store/ResourcesStore.java:103-106 | Delegates to the service table, with the same null and not-found errors |
| ResourcesStores.ResourcesStore.ContainsService | test-kube/src/main/java/se/laz/casual/test/tdk8s/store/ResourcesStore.java:124-127 | A null alias fails with "Name is null.", else whether the alias is a service alias |
| ResourcesStores.ResourcesStore.GetServices | test-kube/src/main/java/se/laz/casual/test/tdk8s/store/ResourcesStore.java:113-116 | A copy of the service table with the same entries |
| ResourcesStores.ResourcesStore.PutService | test-kube/src/main/java/se/laz/casual/test/tdk8s/store/ResourcesStore.java:134-137 | Put on the service table; the others unchanged; a failure carries the table operation's own error and leaves the table unchanged |
| ResourcesStores.ResourcesStore.PutServices | test-kube/src/main/java/se/laz/casual/test/tdk8s/store/ResourcesStore.java:144-147 | putAll on the service table; the others unchanged; a failure carries the table operation's own error and leaves the table unchanged |
| ResourcesStores.ResourcesStore.RemoveService | test-kube/src/main/java/se/laz/casual/test/tdk8s/store/ResourcesStore.java:156-159 | Remove on the service table; the others unchanged; a failure carries the table operation's own error and leaves the table unchanged |
| ResourcesStores.ResourcesStore.GetDeployment | test-kube/src/main/java/se/laz/casual/test/tdk8s/controller/ResourceLookupControllerImpl.java:62-65 | Delegates to the deployment table, with the same null and not-found errors |
| ResourcesStores.ResourcesStore.ContainsDeployment | test-kube/src/main/java/se/laz/casual/test/tdk8s/controller/ResourceLookupControllerImpl.java:62 | A null alias fails with "Name is null.", else whether the alias is a deployment alias |
| ResourcesStores.ResourcesStore.GetDeployments | test-kube/src/main/java/se/laz/casual/test/tdk8s/controller/ProvisioningControllerImpl.java:59 | A copy of the deployment table with the same entries, as the pod getter |
| ResourcesStores.ResourcesStore.PutDeployment | test-kube/src/main/java/se/laz/casual/test/tdk8s/controller/ProvisioningControllerImpl.java:73 | Put on the deployment table; the others unchanged; a failure carries the table operation's own error and leaves the table unchanged |
| ResourcesStores.ResourcesStore.PutDeployments | test-kube/src/main/java/se/laz/casual/test/tdk8s/TestKube.java:358 | putAll on the deployment table; the others unchanged; a failure carries the table operation's own error and leaves the table unchanged |
| ResourcesStores.ResourcesStore.PutProvisioningProbes | test-kube/src/main/java/se/laz/casual/test/tdk8s/store/ResourcesStore.java:176-179 | putAll on the probe table; the others unchanged; a failure carries the table operation's own error and leaves the table unchanged |
| ResourcesStores.ResourcesStore.GetProvisioningProbes | test-kube/src/main/java/se/laz/casual/test/tdk8s/store/ResourcesStore.java:166-169 | A copy of the probe table with the same entries |
| Latch.CountDown | test-kube/src/main/java/se/laz/casual/test/tdk8s/watchers/DeleteWatcher.java:36-40 | countDown: one less when positive, and never below zero |
| Latch.AfterEvent | test-kube/src/main/java/se/laz/casual/test/tdk8s/watchers/DeleteWatcher.java:33-41 | Only a DELETED event counts down; every other action leaves the count |
| Latch.AfterEvents | test-kube/src/main/java/se/laz/casual/test/tdk8s/watchers/DeleteWatcher.java:33-41 | Over a stream of events the count never rises, and falls by at most one per DELETED event |
| Latch.AfterEventsCountsDeletions | test-kube/src/main/java/se/laz/casual/test/tdk8s/watchers/DeleteWatcher.java:33-41 | After any stream of events the count is the start minus the DELETED events, floored at 0 |
| Latch.OpenExactlyAfterCountDeletions | test-kube/src/main/java/se/laz/casual/test/tdk8s/watchers/DeleteWatcher.java:49-60 | waitUntilDeleted can return after a stream exactly when the stream held at least count DELETED events |
| Latch.OtherEventsIgnored | test-kube/src/main/java/se/laz/casual/test/tdk8s/watchers/DeleteWatcher.java:36-40 | A stream without DELETED leaves the count as it was |
| Latch.OpenStaysOpen | test-kube/src/main/java/se/laz/casual/test/tdk8s/watchers/DeleteWatcher.java:49-53 | Once at zero the latch stays at zero |
| Latch.NotOpenBeforeCountDeletions | test-kube/src/main/java/se/laz/casual/test/tdk8s/watchers/DeleteWatcher.java:49-53 | Any prefix with fewer than count deletions leaves the latch closed |
| Watchers.DeleteWatcher.constructor | test-kube/src/main/java/se/laz/casual/test/tdk8s/watchers/DeleteWatcher.java:23-26 | The no-argument watcher expects one deletion |
| Watchers.DeleteWatcher.Expecting | test-kube/src/main/java/se/laz/casual/test/tdk8s/watchers/DeleteWatcher.java:28-31 | The counting constructor keeps the given count |
| Watchers.DeleteWatcher.Create | test-kube/src/main/java/se/laz/casual/test/tdk8s/watchers/DeleteWatcher.java:28-31 | Fails exactly for a negative count (IllegalArgumentException from CountDownLatch); otherwise a fresh watcher with that count |
| Watchers.DeleteWatcher.EventReceived | test-kube/src/main/java/se/laz/casual/test/tdk8s/watchers/DeleteWatcher.java:33-41 | DELETED counts down, every other action changes nothing |
| Watchers.DeleteWatcher.OnClose | test-kube/src/main/java/se/laz/casual/test/tdk8s/watchers/DeleteWatcher.java:43-47 | Always fails with TestKubeException "Watch closed exceptional." |
| Watchers.DeleteWatcher.Deleted | test-kube/src/main/java/se/laz/casual/test/tdk8s/watchers/DeleteWatcher.java:49-53 | waitUntilDeleted returns once the latch is open; once open no event closes it, while closed a DELETED event lowers the count |
| LegacyWatchers.DeleteWatcher.constructor | test-kube/src/main/java/se/laz/casual/test/k8s/watchers/DeleteWatcher.java:20 | The latch starts at one |
| LegacyWatchers.DeleteWatcher.EventReceived | test-kube/src/main/java/se/laz/casual/test/k8s/watchers/DeleteWatcher.java:22-38 | DELETED counts down; MODIFIED, ADDED and the actions without a case change nothing |
| LegacyWatchers.DeleteWatcher.OnClose | test-kube/src/main/java/se/laz/casual/test/k8s/watchers/DeleteWatcher.java:40-44 | Does nothing and cannot fail |
| LegacyWatchers.DeleteWatcher.Deleted | test-kube/src/main/java/se/laz/casual/test/k8s/watchers/DeleteWatcher.java:46-57 | The same return condition for the legacy watcher |
| LegacyWatchers.SatisfiedFromFirstDeletion | test-kube/src/main/java/se/laz/casual/test/k8s/watchers/DeleteWatcher.java:46-57 | The legacy watcher stays closed until the first DELETED and is open from then on, whatever follows |
| Resources.WithLabel | test-kube/src/main/java/se/laz/casual/test/tdk8s/controller/ProvisioningControllerImpl.java:63 | addToLabels: the key maps to the value, the key set gains it, other labels kept |
| Resources.LabelPod | test-kube/src/main/java/se/laz/casual/test/tdk8s/controller/ProvisioningControllerImpl.java:80 | The pod's labels gain the key and value; its name is kept |
| Resources.LabelService | test-kube/src/main/java/se/laz/casual/test/tdk8s/controller/ProvisioningControllerImpl.java:89 | The service's labels gain the key and value; name, type, ports and ingress kept |
| Resources.LabelDeployment | test-kube/src/main/java/se/laz/casual/test/tdk8s/controller/ProvisioningControllerImpl.java:63-71 | Both the deployment's labels and its pod template's labels gain the key and value; name, replicas and selector kept |
| Resources.PodsLabelled | test-kube/src/main/java/se/laz/casual/test/k8s/controller/ProvisioningController.java:84 | withLabel(key, value).list(): exactly the listed pods carrying that label, never more than listed |
| Resources.PodsLabelledAppend | test-kube/src/main/java/se/laz/casual/test/k8s/controller/ProvisioningController.java:84 | The selection keeps list order: the labelled part of a concatenation is the concatenation of the labelled parts |
| Resources.PodsLabelledCounts | test-kube/src/main/java/se/laz/casual/test/k8s/controller/ProvisioningController.java:84 | Each labelled pod selected as often as it is listed, every other one never |
| Resources.ServicesLabelled | test-kube/src/main/java/se/laz/casual/test/k8s/controller/ProvisioningController.java:94 | The same for services |
| Resources.ServicesLabelledAppend | test-kube/src/main/java/se/laz/casual/test/k8s/controller/ProvisioningController.java:94 | The same for services |
| Resources.ServicesLabelledCounts | test-kube/src/main/java/se/laz/casual/test/k8s/controller/ProvisioningController.java:94 | Each labelled service selected as often as it is listed, every other one never |
| Lookup.Resolve | test-kube/src/main/java/se/laz/casual/test/tdk8s/controller/ResourceLookupControllerImpl.java:37-56 | A stored alias wins; else the cluster object of that name; empty exactly when neither exists |
| Lookup.StoreWinsWhateverTheCluster | test-kube/src/main/java/se/laz/casual/test/tdk8s/controller/ResourceLookupControllerImpl.java:40-48 | When the alias is stored, the cluster's contents have no bearing on the result |
| Lookup.OnlyTheNameMatters | test-kube/src/main/java/se/laz/casual/test/tdk8s/controller/ResourceLookupControllerImpl.java:39-53 | Only the entries under the requested name, in store and cluster, affect the result |
| Lookup.GetPodResource | test-kube/src/main/java/se/laz/casual/test/tdk8s/controller/ResourceLookupControllerImpl.java:37-56 | containsPod true gives the stored pod; false gives the cluster pod by name or nothing |
| Lookup.GetDeploymentResource | test-kube/src/main/java/se/laz/casual/test/tdk8s/controller/ResourceLookupControllerImpl.java:59-78 | The same rule for deployments |
| Lookup.GetServiceResource | test-kube/src/main/java/se/laz/casual/test/tdk8s/controller/ResourceLookupControllerImpl.java:81-100 | The same rule for services |
| LegacyLookup.GetPodResource | test-kube/src/main/java/se/laz/casual/test/k8s/controller/ResourceLookupController.java:41-60 | The same rule over the legacy pod store |
| LegacyLookup.GetServiceResource | test-kube/src/main/java/se/laz/casual/test/k8s/controller/ResourceLookupController.java:69-88 | The same rule over the legacy service store |
| Connections.ServiceConnection.GetType | test-kube/src/main/java/se/laz/casual/test/k8s/connection/ServiceConnection.java:23-27 | Always SERVICE |
| Connections.ServiceConnection.GetHostName | test-kube/src/main/java/se/laz/casual/test/k8s/connection/ServiceConnection.java:29-33 | The hostname given at construction |
| Connections.ServiceConnection.GetPort | test-kube/src/main/java/se/laz/casual/test/k8s/connection/ServiceConnection.java:35-39 | The port given at construction |
| Connections.ServiceConnection.Close | test-kube/src/main/java/se/laz/casual/test/k8s/connection/ServiceConnection.java:41-44 | Succeeds and changes nothing |
| Connections.KubeConnection.GetType | test-kube/src/main/java/se/laz/casual/test/k8s/connection/PortForwardedConnection.java:26-29 | PORT_FORWARDED exactly for a tunnel; a direct connection reports SERVICE |
| Connections.ExternalPort | test-kube/src/main/java/se/laz/casual/test/tdk8s/controller/ConnectionControllerImpl.java:64-68 | The port of the first service port whose int target port matches; -1 when none does; a named target port reached before a match fails on unboxing |
| ConnectionControl.Live | test-kube/src/main/java/se/laz/casual/test/tdk8s/controller/ConnectionControllerImpl.java:46 | `sr.get()`: the cluster service under the handle's name, present exactly when the cluster has one, and carrying that name |
| ConnectionControl.GetConnection | test-kube/src/main/java/se/laz/casual/test/tdk8s/controller/ConnectionControllerImpl.java:41-83 | Unknown name fails before any probe; a resolved handle whose live object is gone fails on the dereference, before any probe; a reachable direct endpoint wins; inside a container a failed direct probe is a ConnectionException with one probe; the external probe is made only outside a container for a LoadBalancer service with ingress, at the first ingress IP and a mapped port other than -1, and an unreadable port mapping fails with its error; a tunnel only outside a container, to the looked-up service, whenever no service path succeeds |
| ConnectionControl.GetPortForwardConnection | test-kube/src/main/java/se/laz/casual/test/tdk8s/controller/ConnectionControllerImpl.java:87-94 | A tunnel to the service when the name resolves to one, else to the pod, else ConnectionException "Resource unavailable: " + name, and an error exactly when neither resolves |
| ConnectionControl.FallbackIsPortForward | test-kube/src/main/java/se/laz/casual/test/tdk8s/controller/ConnectionControllerImpl.java:77-94 | The tunnel getConnection falls back to is the one getPortForwardConnection opens for the same name |
| LegacyConnectionControl.ResolveService | test-kube/src/main/java/se/laz/casual/test/k8s/controller/ConnectionController.java:49-61 | The live copy of the stored alias, else the cluster service by name |
| LegacyConnectionControl.ForwardTargetOf | test-kube/src/main/java/se/laz/casual/test/k8s/controller/ConnectionController.java:123-155 | Store service, cluster service, store pod, cluster pod, in that order; "Resource unavailable." exactly when none exists |
| LegacyConnectionControl.PortForward | test-kube/src/main/java/se/laz/casual/test/k8s/controller/ConnectionController.java:123-155 | A port-forwarded tunnel to the target the lookup order finds, at the given port; "Resource unavailable." exactly when the lookup finds nothing |
| LegacyConnectionControl.Decide | test-kube/src/main/java/se/laz/casual/test/k8s/controller/ConnectionController.java:47-106 | The legacy chain: the same direct and in-container rules; a null service type or an empty ingress list makes the external branch throw, and an unreadable port mapping fails with its error; the external probe is made exactly when a LoadBalancer service with an ingress maps the port to one other than -1, and never with -1; outside a container a non-LoadBalancer type, port -1 or a failed external probe gives getPortForwardConnection's result, and a tunnel comes from nowhere else |
| LegacyConnectionControl.FallbackAlwaysFindsService | test-kube/src/main/java/se/laz/casual/test/k8s/controller/ConnectionController.java:123-137 | Once getConnection resolved a service, its port-forward fallback always targets a service, never a pod or the error |
| LegacyConnectionControl.ConnectionController.constructor | test-kube/src/main/java/se/laz/casual/test/k8s/controller/ConnectionController.java:38-45 | No connections recorded |
| LegacyConnectionControl.ConnectionController.GetConnection | test-kube/src/main/java/se/laz/casual/test/k8s/controller/ConnectionController.java:47-106 | The result of the decision chain; a tunnel result is recorded in connections, nothing else is |
| LegacyConnectionControl.ConnectionController.GetPortForwardConnection | test-kube/src/main/java/se/laz/casual/test/k8s/controller/ConnectionController.java:123-155 | A tunnel to the resolved target, recorded; the error otherwise and nothing recorded |
| LegacyConnectionControl.ConnectionController.CreatePortForwardConnection | test-kube/src/main/java/se/laz/casual/test/k8s/controller/ConnectionController.java:157-165 | The new tunnel is appended to connections |
| DeploymentScale.PodWatches | test-kube/src/main/java/se/laz/casual/test/tdk8s/controller/DeploymentScaleController.java:64-67 | One watch per selected pod, in order, all feeding the same watcher |
| DeploymentScale.PostScaleCalls | test-kube/src/main/java/se/laz/casual/test/tdk8s/controller/DeploymentScaleController.java:71-85 | The wait on the watcher when there is one, then a close per watch, and nothing else |
| DeploymentScale.ScaleCallsOrder | test-kube/src/main/java/se/laz/casual/test/tdk8s/controller/DeploymentScaleController.java:33-48 | Every pod watch precedes the single scale call, which comes right after them; the readiness wait is last and only there |
| DeploymentScale.PostScaleOrder | test-kube/src/main/java/se/laz/casual/test/tdk8s/controller/DeploymentScaleController.java:41-47 | postScale's calls sit exactly between the scale call and the readiness wait |
| DeploymentScale.DeploymentScaleController.constructor | test-kube/src/main/java/se/laz/casual/test/tdk8s/controller/DeploymentScaleController.java:24-30 | No watches, no watcher, no calls |
| DeploymentScale.DeploymentScaleController.Scale | test-kube/src/main/java/se/laz/casual/test/tdk8s/controller/DeploymentScaleController.java:33-48 | Unchanged count: input back, no call; scale-down: a fresh watcher for the surplus, a wrong pod count fails before the scale call and leaves that watcher unreleasable, otherwise every pod watched before the scale call; scale-up: no new watch; a releasable watcher stays releasable on success |
| DeploymentScale.DeploymentScaleController.PreScale | test-kube/src/main/java/se/laz/casual/test/tdk8s/controller/DeploymentScaleController.java:50-69 | As written: the watcher is replaced before the pod-count check |
| DeploymentScale.DeploymentScaleController.ScaleChecked | test-kube/src/main/java/se/laz/casual/test/tdk8s/controller/DeploymentScaleController.java:50-69 | The corrected scale: a failed check leaves watcher, watches and releasability as they were |
| DeploymentScale.DeploymentScaleController.PreScaleChecked | test-kube/src/main/java/se/laz/casual/test/tdk8s/controller/DeploymentScaleController.java:56-68 | The check made before the new watcher is installed |
| DeploymentScale.DeploymentScaleController.Settle | test-kube/src/main/java/se/laz/casual/test/tdk8s/controller/DeploymentScaleController.java:43-47 | Scale call, postScale, readiness wait, in that order; watches untouched |
| DeploymentScale.DeploymentScaleController.Attach | test-kube/src/main/java/se/laz/casual/test/tdk8s/controller/DeploymentScaleController.java:64-67 | Each selected pod watched, in order, appended to watches and logged |
| DeploymentScale.DeploymentScaleController.WatchPod | test-kube/src/main/java/se/laz/casual/test/tdk8s/controller/DeploymentScaleController.java:66 | One watch appended and logged |
| DeploymentScale.DeploymentScaleController.PostScale | test-kube/src/main/java/se/laz/casual/test/tdk8s/controller/DeploymentScaleController.java:71-85 | The call log grows by PostScaleCalls of the current watcher and watches, which are kept |
| DeploymentScale.StaleWatcherScenario | test-kube/src/main/java/se/laz/casual/test/tdk8s/controller/DeploymentScaleController.java:58-63 | A failed scale-down check followed by a scale-up waits on a watcher expecting 2 deletions that no watch feeds |
| Destruction.ResourceWatches | test-kube/src/main/java/se/laz/casual/test/tdk8s/controller/ProvisioningControllerImpl.java:143-153 | One watch per resource in order, the i-th feeding the i-th watcher |
| Destruction.ResourceCallsWatchFirst | test-kube/src/main/java/se/laz/casual/test/tdk8s/controller/ProvisioningControllerImpl.java:143-164 | In the pods and services loops, every delete is preceded by a watch on the same kind and name |
| Destruction.DeploymentCallsWatchFirst | test-kube/src/main/java/se/laz/casual/test/tdk8s/controller/ProvisioningControllerImpl.java:121-141 | For one deployment, the delete comes after its watch, and the pod watches in between hold no delete |
| Destruction.DeploymentsCallsWatchFirst | test-kube/src/main/java/se/laz/casual/test/tdk8s/controller/ProvisioningControllerImpl.java:121-141 | The same over the whole deployments loop |
| Destruction.DeploymentWatchesCarry | test-kube/src/main/java/se/laz/casual/test/tdk8s/controller/ProvisioningControllerImpl.java:123-140 | One deployment's watches (its own, then its pods') carry its watchers in order |
| Destruction.ResourceWatchesCarry | test-kube/src/main/java/se/laz/casual/test/tdk8s/controller/ProvisioningControllerImpl.java:143-153 | The watches of a loop carry its watchers, in order |
| Destruction.DeploymentsWatchesCarry | test-kube/src/main/java/se/laz/casual/test/tdk8s/controller/ProvisioningControllerImpl.java:121-141 | The same for the deployments loop, including the pod watches |
| Provisioning.DestroyWatchesFirst | test-kube/src/main/java/se/laz/casual/test/tdk8s/controller/ProvisioningControllerImpl.java:119-165 | In everything destroyAsync calls, every delete is preceded by a watch on that resource |
| Provisioning.DestroyWatchesCarry | test-kube/src/main/java/se/laz/casual/test/tdk8s/controller/ProvisioningControllerImpl.java:119-165 | destroyAsync's watches and watchers grow in lockstep |
| Provisioning.ReadyOrder | test-kube/src/main/java/se/laz/casual/test/tdk8s/controller/ProvisioningControllerImpl.java:96-109 | Every deployment wait precedes every pod wait, each in the map's order, and the probe run comes last |
| Provisioning.ProvisioningController.constructor | test-kube/src/main/java/se/laz/casual/test/tdk8s/controller/ProvisioningControllerImpl.java:41-47 | Empty lists, the given store and label |
| Provisioning.ProvisioningController.InitAsync | test-kube/src/main/java/se/laz/casual/test/tdk8s/controller/ProvisioningControllerImpl.java:57-93 | Every stored deployment, pod and service is replaced under its alias by the applied, labelled copy; the probes are kept |
| Provisioning.ProvisioningController.InitDeployments | test-kube/src/main/java/se/laz/casual/test/tdk8s/controller/ProvisioningControllerImpl.java:59-74 | The deployment table becomes apply of the labelled deployments, the others kept |
| Provisioning.ProvisioningController.InitPods | test-kube/src/main/java/se/laz/casual/test/tdk8s/controller/ProvisioningControllerImpl.java:76-83 | The same for pods |
| Provisioning.ProvisioningController.InitServices | test-kube/src/main/java/se/laz/casual/test/tdk8s/controller/ProvisioningControllerImpl.java:85-92 | The same for services |
| Provisioning.ProvisioningController.WaitUntilReady | test-kube/src/main/java/se/laz/casual/test/tdk8s/controller/ProvisioningControllerImpl.java:96-109 | A readiness wait per stored deployment, then per stored pod, in iteration order, then the probe run |
| Provisioning.ProvisioningController.AwaitDeployments | test-kube/src/main/java/se/laz/casual/test/tdk8s/controller/ProvisioningControllerImpl.java:98-101 | A readiness wait per stored deployment |
| Provisioning.ProvisioningController.AwaitPods | test-kube/src/main/java/se/laz/casual/test/tdk8s/controller/ProvisioningControllerImpl.java:103-106 | A readiness wait per stored pod |
| Provisioning.ProvisioningController.WatchResource | test-kube/src/main/java/se/laz/casual/test/tdk8s/controller/ProvisioningControllerImpl.java:123-128 | A fresh watcher expecting one deletion, its watch appended, the two lists in lockstep |
| Provisioning.ProvisioningController.DestroyResource | test-kube/src/main/java/se/laz/casual/test/tdk8s/controller/ProvisioningControllerImpl.java:145-152 | Watch, then delete |
| Provisioning.ProvisioningController.WatchPods | test-kube/src/main/java/se/laz/casual/test/tdk8s/controller/ProvisioningControllerImpl.java:131-138 | One watch per listed pod of a deployment, in order |
| Provisioning.ProvisioningController.DestroyDeployment | test-kube/src/main/java/se/laz/casual/test/tdk8s/controller/ProvisioningControllerImpl.java:123-140 | Watch the deployment, list its pods by selector, watch each, then delete the deployment |
| Provisioning.ProvisioningController.DestroyDeployments | test-kube/src/main/java/se/laz/casual/test/tdk8s/controller/ProvisioningControllerImpl.java:121-141 | The deployments loop in iteration order, keeping watches and watchers in lockstep |
| Provisioning.ProvisioningController.DestroyPods | test-kube/src/main/java/se/laz/casual/test/tdk8s/controller/ProvisioningControllerImpl.java:143-153 | Watch then delete each stored pod |
| Provisioning.ProvisioningController.DestroyServices | test-kube/src/main/java/se/laz/casual/test/tdk8s/controller/ProvisioningControllerImpl.java:154-164 | Watch then delete each stored service |
| Provisioning.ProvisioningController.DestroyNamed | test-kube/src/main/java/se/laz/casual/test/tdk8s/controller/ProvisioningControllerImpl.java:143-164 | For each name in order: a fresh watcher, its watch, then the delete; watches, watchers and calls grow by exactly those |
| Provisioning.ProvisioningController.DestroyAsync | test-kube/src/main/java/se/laz/casual/test/tdk8s/controller/ProvisioningControllerImpl.java:119-165 | The three loops in order; one new watcher per watch, deployments' pods included, so the watcher count grows by the deployment count plus stored pods and services |
| Provisioning.ProvisioningController.WaitUntilDestroyed | test-kube/src/main/java/se/laz/casual/test/tdk8s/controller/ProvisioningControllerImpl.java:168-180 | Wait on every watcher, then close every watch, then both lists are empty; a second call makes no calls |
| Provisioning.ProvisioningController.AwaitAll | test-kube/src/main/java/se/laz/casual/test/tdk8s/controller/ProvisioningControllerImpl.java:170-173 | waitUntilDeleted on each watcher in order |
| Provisioning.ProvisioningController.CloseAll | test-kube/src/main/java/se/laz/casual/test/tdk8s/controller/ProvisioningControllerImpl.java:175-178 | close on each watch in order |
| Provisioning.ProvisioningController.Init | test-kube/src/main/java/se/laz/casual/test/tdk8s/controller/ProvisioningControllerImpl.java:50-54 | initAsync then waitUntilReady over the relabelled store |
| Provisioning.ProvisioningController.Destroy | test-kube/src/main/java/se/laz/casual/test/tdk8s/controller/ProvisioningControllerImpl.java:112-116 | destroyAsync's calls, then a wait on every watcher including earlier ones, then every watch closed |
| LegacyProvisioning.SessionSelector | test-kube/src/main/java/se/laz/casual/test/k8s/controller/ProvisioningController.java:84 | The single-label selector RESOURCE_LABEL_NAME = session label |
| LegacyProvisioning.DestroyWatchesFirst | test-kube/src/main/java/se/laz/casual/test/k8s/controller/ProvisioningController.java:82-104 | In everything destroyAsync calls, every delete is preceded by a watch on that resource |
| LegacyProvisioning.DestroyWatchesCarry | test-kube/src/main/java/se/laz/casual/test/k8s/controller/ProvisioningController.java:82-104 | destroyAsync's watches carry its watchers in order |
| LegacyProvisioning.ProvisioningController.constructor | test-kube/src/main/java/se/laz/casual/test/k8s/controller/ProvisioningController.java:27-35 | Empty lists, the TestKube's stores and label |
| LegacyProvisioning.ProvisioningController.InitAsync | test-kube/src/main/java/se/laz/casual/test/k8s/controller/ProvisioningController.java:43-66 | Every stored pod and service replaced by the applied copy labelled "TestKube" = session label |
| LegacyProvisioning.ProvisioningController.InitPods | test-kube/src/main/java/se/laz/casual/test/k8s/controller/ProvisioningController.java:45-54 | The pod table becomes apply of the labelled pods |
| LegacyProvisioning.ProvisioningController.InitServices | test-kube/src/main/java/se/laz/casual/test/k8s/controller/ProvisioningController.java:56-65 | The same for services |
| LegacyProvisioning.ProvisioningController.WaitUntilReady | test-kube/src/main/java/se/laz/casual/test/k8s/controller/ProvisioningController.java:68-74 | A readiness wait per stored pod in iteration order; no service, deployment or probe wait |
| LegacyProvisioning.ProvisioningController.AwaitPods | test-kube/src/main/java/se/laz/casual/test/k8s/controller/ProvisioningController.java:70-73 | A readiness wait per pod of the table |
| LegacyProvisioning.ProvisioningController.DestroyResource | test-kube/src/main/java/se/laz/casual/test/k8s/controller/ProvisioningController.java:86-92 | A fresh watcher, its watch, then the delete |
| LegacyProvisioning.ProvisioningController.DestroyPods | test-kube/src/main/java/se/laz/casual/test/k8s/controller/ProvisioningController.java:84-93 | The labelled pod listing, then watch and delete each listed pod |
| LegacyProvisioning.ProvisioningController.DestroyServices | test-kube/src/main/java/se/laz/casual/test/k8s/controller/ProvisioningController.java:94-103 | The same for services |
| LegacyProvisioning.ProvisioningController.DestroyAsync | test-kube/src/main/java/se/laz/casual/test/k8s/controller/ProvisioningController.java:82-104 | Pods by label, then services by label; exactly the cluster objects carrying the session label are deleted, each watched first |
| LegacyProvisioning.ProvisioningController.WaitUntilDestroyed | test-kube/src/main/java/se/laz/casual/test/k8s/controller/ProvisioningController.java:106-116 | Wait on every watcher, close every watch, lists kept, so a later call repeats them |
| LegacyProvisioning.ProvisioningController.Init | test-kube/src/main/java/se/laz/casual/test/k8s/controller/ProvisioningController.java:37-41 | initAsync then the pod waits |
| LegacyProvisioning.ProvisioningController.Destroy | test-kube/src/main/java/se/laz/casual/test/k8s/controller/ProvisioningController.java:76-80 | destroyAsync, then waits and closes over all watchers and watches so far |
| ContainerAwareness.GetEnv | test-kube/src/main/java/se/laz/casual/test/tdk8s/runtime/ContainerAwareness.java:39 | getenv: the value when set, null otherwise |
| ContainerAwareness.InsideContainerIff | test-kube/src/main/java/se/laz/casual/test/tdk8s/runtime/ContainerAwareness.java:37-41 | Inside exactly when "container" is set and non-empty; unset or empty gives false |
| ContainerAwareness.Awareness.constructor | test-kube/src/main/java/se/laz/casual/test/tdk8s/runtime/ContainerAwareness.java:30-41 | Loading the class runs init: the flag is the environment test from the start |
| ContainerAwareness.Awareness.Init | test-kube/src/main/java/se/laz/casual/test/tdk8s/runtime/ContainerAwareness.java:37-41 | The cached flag becomes the environment test |
| ContainerAwareness.Awareness.IsInsideContainer | test-kube/src/main/java/se/laz/casual/test/tdk8s/runtime/ContainerAwareness.java:43-46 | The cached flag, not a new read of the environment |
| ExecResults.Wrap | test-kube/src/main/java/se/laz/casual/test/k8s/exec/ExecResult.java:48-51 | Java int narrowing: congruent modulo 2^32, identity in range |
| ExecResults.NullableHash | test-kube/src/main/java/se/laz/casual/test/k8s/exec/ExecResult.java:48-51 | A null output hashes to 0 |
| ExecResults.ExecResult.Equals | test-kube/src/main/java/se/laz/casual/test/k8s/exec/ExecResult.java:32-45 | False for null, otherwise true exactly for an equal result |
| ExecResults.ExecResult.HashCode | test-kube/src/main/java/se/laz/casual/test/k8s/exec/ExecResult.java:47-51 | Objects.hash(exitCode, output): congruent modulo 2^32 to 961 + 31 * exitCode + hash(output), so equal to Java's int result |
| ExecResults.EqualsFieldWise | test-kube/src/main/java/se/laz/casual/test/k8s/exec/ExecResult.java:32-45 | equals holds exactly when exit code and output agree (two nulls agree); reflexive, symmetric, false on null |
| ExecResults.EqualsHashConsistent | test-kube/src/main/java/se/laz/casual/test/k8s/exec/ExecResult.java:47-51 | Equal results have equal hash codes |
| ExecResults.DefaultHash | test-kube/src/main/java/se/laz/casual/test/k8s/exec/ExecResult.java:47-51 | The default result hashes to 961 |
| ExecResults.NullAndEmptyCollide | test-kube/src/main/java/se/laz/casual/test/k8s/exec/ExecResult.java:47-51 | Null and empty output differ under equals but hash alike |
| ExecResults.Builder.constructor | test-kube/src/main/java/se/laz/casual/test/k8s/exec/ExecResult.java:76-81 | Defaults: exit code 0, output "" |
| ExecResults.Builder.SetExitCode | test-kube/src/main/java/se/laz/casual/test/k8s/exec/ExecResult.java:83-87 | Overrides the exit code, keeps the output, returns the builder |
| ExecResults.Builder.SetOutput | test-kube/src/main/java/se/laz/casual/test/k8s/exec/ExecResult.java:89-93 | Overrides the output, keeps the exit code, returns the builder |
| ExecResults.Builder.Build | test-kube/src/main/java/se/laz/casual/test/k8s/exec/ExecResult.java:95-98 | A result holding the builder's current fields |
| ExecResults.NewBuilder | test-kube/src/main/java/se/laz/casual/test/k8s/exec/ExecResult.java:62-65 | A fresh builder that builds exit code 0 and output "" |
| ExecResults.NewBuilderFrom | test-kube/src/main/java/se/laz/casual/test/k8s/exec/ExecResult.java:67-72 | A fresh builder that builds a result equal to the source |

## Left out

- The fabric8 client and the cluster: watch, delete, list, scale, serverSideApply and readiness are recorded as calls or taken as parameters; their own behaviour is not modelled.
- Blocking and timed waits: a wait is a logged call, and `Deleted()` says when it can return; timeouts (the one-minute readiness bound, `waitUntilDeleted(timeout, unit)`) and interruption are not modelled.
- HashMap iteration order is not fixed; loops are stated over a ghost enumeration of the keys.
- Null keys or values inside a putAll argument map are not modelled (stores hold non-null values only).
- ConnectionControl.GetConnection, LegacyConnectionControl.Decide and the functions beneath them require a cluster that files every object under its own name (`Consistent`), as the API server does; other maps describe no real cluster.
- Lookup.GetPodResource, Lookup.GetDeploymentResource, Lookup.GetServiceResource, ConnectionControl.GetConnection, ConnectionControl.GetPortForwardConnection: take a non-null name; a null name, for which containsPod or containsService throws the store's null-name exception ("Name is null.") instead of returning a result or a ConnectionException, is not modelled.
- The probe scheduler (`ProvisioningProbeController.runAll`) is one logged `RunProbes` call; its concurrency and retries are not modelled.
- `canConnect` is a parameter: the socket connect with its 500 ms timeout in the legacy controller is not modelled.
- `PortForwardedConnection`, `createPortForward` and `LocalPortForward` are a `Tunnel` value; the local port and closing the tunnel are not modelled.
- `toString`, getters of immutable fields, logging and the facade classes (`TestKube`, `KubeController`) are not modelled.
- The legacy `k8s/store/ResourcesStore.java` and `k8s/ContainerAwareness` are not part of this model; legacy controllers hold the two legacy alias stores directly and take the in-container flag as a parameter.
- The legacy initAsync puts the label into the pod's own label map in place before copying it; the model builds the relabelled copy as a value, so the aliasing with the original object is not modelled.
- Provisioning.ProvisioningController.DestroyAsync: states that each step adds one watcher per watch but does not carry forward that every watcher it creates is fresh with count 1; only WatchResource states that.
- LegacyProvisioning.ProvisioningController.DestroyAsync: same as above; only DestroyResource states freshness and count.
- Integer width: only ExecResult's `int` fields and hash are 32-bit; replica counts and ports are unbounded integers.
- ExecResults.StringHash: hashes Dafny characters (Unicode scalar values), not UTF-16 code units, so it differs from String.hashCode for characters outside the Basic Multilingual Plane.
- `ServiceConnection` and the controllers' `equals` and class checks on other types are not modelled.

## Findings

| source | as written | input that shows it | evidently intended | confidence | as-written member | corrected member |
|---|---|---|---|---|---|---|
| test-kube/src/main/java/se/laz/casual/test/tdk8s/controller/DeploymentScaleController.java:58-63 | On scale-down, preScale installs the new watcher before checking the pod count; when the check throws, the watcher stays installed while no watch feeds it | Deployment with 3 replicas, scale to 1 while 2 pods are listed (throws), then scale to 5: postScale waits on a watcher expecting 2 deletions with no watch, and never returns | Check the pod count before installing the watcher, so a failed scale-down leaves the controller unchanged | not executed | DeploymentScale.DeploymentScaleController.Scale | DeploymentScale.DeploymentScaleController.ScaleChecked |
