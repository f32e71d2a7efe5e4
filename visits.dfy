// How the call and watch traces grow when a loop visits one more
// resource, either in a map's iteration order or along a listing.
// Shared by the current and the legacy provisioning controllers.

module Visits {
  import opened Resources
  import opened Client
  import opened Iteration
  import opened Destruction

  /** One more deployment destroyed, in the map's iteration order. */
  lemma DeploymentsStep<W>(m: map<string, Deployment>, keys: seq<string>, i: nat, select: map<string, string> -> seq<Pod>,
                           ws: seq<W>, more: seq<W>)
    requires i < |keys| && forall j :: 0 <= j < |keys| ==> keys[j] in m
    requires |ws| == DeploymentsCount(InOrder(m, keys[..i]), select)
    requires |more| == 1 + |select(m[keys[i]].selector)|
    ensures DeploymentsCount(InOrder(m, keys[..i + 1]), select) == |ws| + |more|
    ensures DeploymentsWatches(InOrder(m, keys[..i + 1]), select, ws + more) ==
      DeploymentsWatches(InOrder(m, keys[..i]), select, ws) + DeploymentWatches(m[keys[i]], select(m[keys[i]].selector), more)
    ensures DeploymentsCalls(InOrder(m, keys[..i + 1]), select, ws + more) ==
      DeploymentsCalls(InOrder(m, keys[..i]), select, ws) + DeploymentCalls(m[keys[i]], select(m[keys[i]].selector), more)
  {
    InOrderSnoc(m, keys, i);
    DeploymentsSnoc(InOrder(m, keys[..i]), select, ws, m[keys[i]], more);
  }

  /** One more deployment waited for, in the map's iteration order. */
  lemma DeploymentReadyStep<W>(m: map<string, Deployment>, keys: seq<string>, i: nat)
    requires i < |keys| && forall j :: 0 <= j < |keys| ==> keys[j] in m
    ensures Readies<W>(DeploymentKind, DeploymentNames(InOrder(m, keys[..i + 1]))) ==
      Readies<W>(DeploymentKind, DeploymentNames(InOrder(m, keys[..i]))) + [AwaitReady(DeploymentKind, m[keys[i]].metadata.name)]
  {
    InOrderSnoc(m, keys, i);
    DeploymentNamesSnoc(InOrder(m, keys[..i]), m[keys[i]]);
    ReadiesSnoc<W>(DeploymentKind, DeploymentNames(InOrder(m, keys[..i])), m[keys[i]].metadata.name);
  }

  /** One more pod waited for, in the map's iteration order. */
  lemma PodReadyStep<W>(m: map<string, Pod>, keys: seq<string>, i: nat)
    requires i < |keys| && forall j :: 0 <= j < |keys| ==> keys[j] in m
    ensures Readies<W>(PodKind, PodNames(InOrder(m, keys[..i + 1]))) ==
      Readies<W>(PodKind, PodNames(InOrder(m, keys[..i]))) + [AwaitReady(PodKind, m[keys[i]].metadata.name)]
  {
    InOrderSnoc(m, keys, i);
    PodNamesSnoc(InOrder(m, keys[..i]), m[keys[i]]);
    ReadiesSnoc<W>(PodKind, PodNames(InOrder(m, keys[..i])), m[keys[i]].metadata.name);
  }

  /** One more listed pod watched. */
  lemma ListedPodsSnoc<W>(pods: seq<Pod>, i: nat, ws: seq<W>, w: W)
    requires i < |pods| && |ws| == i
    ensures ResourceWatches(PodKind, PodNames(pods[..i + 1]), ws + [w]) ==
      ResourceWatches(PodKind, PodNames(pods[..i]), ws) + [Watch(PodKind, pods[i].metadata.name, w)]
    ensures Subscribes(ResourceWatches(PodKind, PodNames(pods[..i + 1]), ws + [w])) ==
      Subscribes(ResourceWatches(PodKind, PodNames(pods[..i]), ws)) + [Subscribe(Watch(PodKind, pods[i].metadata.name, w))]
    ensures ResourceCalls(PodKind, PodNames(pods[..i + 1]), ws + [w]) ==
      ResourceCalls(PodKind, PodNames(pods[..i]), ws) + WatchThenDelete(PodKind, pods[i].metadata.name, w)
  {
    assert pods[..i + 1] == pods[..i] + [pods[i]];
    PodNamesSnoc(pods[..i], pods[i]);
    ResourceSnoc(PodKind, PodNames(pods[..i]), ws, pods[i].metadata.name, w);
    SubscribesSnoc(ResourceWatches(PodKind, PodNames(pods[..i]), ws), Watch(PodKind, pods[i].metadata.name, w));
  }

  /** One more listed service watched and deleted. */
  lemma ListedServicesSnoc<W>(services: seq<Service>, i: nat, ws: seq<W>, w: W)
    requires i < |services| && |ws| == i
    ensures ResourceWatches(ServiceKind, ServiceNames(services[..i + 1]), ws + [w]) ==
      ResourceWatches(ServiceKind, ServiceNames(services[..i]), ws) + [Watch(ServiceKind, services[i].metadata.name, w)]
    ensures ResourceCalls(ServiceKind, ServiceNames(services[..i + 1]), ws + [w]) ==
      ResourceCalls(ServiceKind, ServiceNames(services[..i]), ws) + WatchThenDelete(ServiceKind, services[i].metadata.name, w)
  {
    assert services[..i + 1] == services[..i] + [services[i]];
    ServiceNamesSnoc(services[..i], services[i]);
    ResourceSnoc(ServiceKind, ServiceNames(services[..i]), ws, services[i].metadata.name, w);
  }
}
