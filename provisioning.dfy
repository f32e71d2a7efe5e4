// ProvisioningControllerImpl: stamping the session label on every stored
// resource and applying it, waiting for readiness, and destroying the
// stored resources while keeping one delete watcher per watch.

module Provisioning {
  import opened Common
  import opened Resources
  import opened Client
  import opened Watchers
  import opened Iteration
  import opened Destruction
  import opened ResourcesStores
  import opened Visits

  /** TestKube.RESOURCE_LABEL_NAME */
  const RESOURCE_LABEL_NAME := "tdk8s"

  /** The watches destroyAsync adds, given the deployments, pods and
      services in the order visited and the new watchers of each loop in
      order. */
  function DestroyWatches<W>(ds: seq<Deployment>, select: map<string, string> -> seq<Pod>, ps: seq<Pod>, ss: seq<Service>,
                             wd: seq<W>, wp: seq<W>, wsv: seq<W>): seq<Watch<W>>
    requires |wd| == DeploymentsCount(ds, select) && |wp| == |ps| && |wsv| == |ss|
  {
    DeploymentsWatches(ds, select, wd) + ResourceWatches(PodKind, PodNames(ps), wp) +
    ResourceWatches(ServiceKind, ServiceNames(ss), wsv)
  }

  /** The calls destroyAsync makes, in the same terms. */
  function DestroyCalls<W>(ds: seq<Deployment>, select: map<string, string> -> seq<Pod>, ps: seq<Pod>, ss: seq<Service>,
                           wd: seq<W>, wp: seq<W>, wsv: seq<W>): seq<Call<W>>
    requires |wd| == DeploymentsCount(ds, select) && |wp| == |ps| && |wsv| == |ss|
  {
    DeploymentsCalls(ds, select, wd) + ResourceCalls(PodKind, PodNames(ps), wp) +
    ResourceCalls(ServiceKind, ServiceNames(ss), wsv)
  }

  /** Every resource destroyAsync deletes is watched first. */
  lemma DestroyWatchesFirst<W>(ds: seq<Deployment>, select: map<string, string> -> seq<Pod>, ps: seq<Pod>, ss: seq<Service>,
                               wd: seq<W>, wp: seq<W>, wsv: seq<W>)
    requires |wd| == DeploymentsCount(ds, select) && |wp| == |ps| && |wsv| == |ss|
    ensures WatchedBeforeDelete(DestroyCalls(ds, select, ps, ss, wd, wp, wsv))
  {
    var a, b, c := DeploymentsCalls(ds, select, wd), ResourceCalls(PodKind, PodNames(ps), wp),
                   ResourceCalls(ServiceKind, ServiceNames(ss), wsv);
    DeploymentsCallsWatchFirst(ds, select, wd);
    ResourceCallsWatchFirst(PodKind, PodNames(ps), wp);
    ResourceCallsWatchFirst(ServiceKind, ServiceNames(ss), wsv);
    WatchedBeforeDeleteAppend(a, b);
    WatchedBeforeDeleteAppend(a + b, c);
  }

  /** The watches destroyAsync adds carry its new watchers, in order: one
      watch per watcher, so the two lists grow in lockstep. */
  lemma DestroyWatchesCarry<W>(ds: seq<Deployment>, select: map<string, string> -> seq<Pod>, ps: seq<Pod>, ss: seq<Service>,
                               wd: seq<W>, wp: seq<W>, wsv: seq<W>)
    requires |wd| == DeploymentsCount(ds, select) && |wp| == |ps| && |wsv| == |ss|
    ensures Client.Watchers(DestroyWatches(ds, select, ps, ss, wd, wp, wsv)) == wd + wp + wsv
  {
    var a, b, c := DeploymentsWatches(ds, select, wd), ResourceWatches(PodKind, PodNames(ps), wp),
                   ResourceWatches(ServiceKind, ServiceNames(ss), wsv);
    DeploymentsWatchesCarry(ds, select, wd);
    ResourceWatchesCarry(PodKind, PodNames(ps), wp);
    ResourceWatchesCarry(ServiceKind, ServiceNames(ss), wsv);
    WatchersAppend(a, b);
    WatchersAppend(a + b, c);
  }

  /** The readiness waits of waitUntilReady: deployments, then pods, then
      the probe run. */
  function ReadyCalls<W>(ds: seq<Deployment>, ps: seq<Pod>, probes: map<string, ProvisioningProbe>): seq<Call<W>>
  {
    Readies(DeploymentKind, DeploymentNames(ds)) + Readies(PodKind, PodNames(ps)) + [RunProbes(probes)]
  }

  /** Every deployment wait comes before every pod wait, and the probe run
      comes last. */
  lemma ReadyOrder<W>(ds: seq<Deployment>, ps: seq<Pod>, probes: map<string, ProvisioningProbe>)
    ensures var c := ReadyCalls<W>(ds, ps, probes);
      |c| == |ds| + |ps| + 1 &&
      (forall i :: 0 <= i < |ds| ==> c[i] == AwaitReady(DeploymentKind, ds[i].metadata.name)) &&
      (forall i :: 0 <= i < |ps| ==> c[|ds| + i] == AwaitReady(PodKind, ps[i].metadata.name)) &&
      c[|c| - 1] == RunProbes(probes)
  {
    var c := ReadyCalls<W>(ds, ps, probes);
    var a: seq<Call<W>> := Readies(DeploymentKind, DeploymentNames(ds));
    var b: seq<Call<W>> := Readies(PodKind, PodNames(ps));
    assert c == a + b + [RunProbes(probes)];
    forall i | 0 <= i < |ps|
      ensures c[|ds| + i] == AwaitReady(PodKind, ps[i].metadata.name)
    {
      assert c[|a| + i] == b[i];
    }
  }

  class ProvisioningController {
    var watches: seq<Watch<DeleteWatcher>>
    var deleteWatchers: seq<DeleteWatcher>
    /** The client calls made so far, in order. */
    var calls: seq<Call<DeleteWatcher>>
    const store: ResourcesStore
    const labelValue: string

    /** The store is well formed, and the i-th watch feeds the i-th
        watcher. */
    ghost predicate Valid()
      reads this, store
    {
      store.Valid() && Client.Watchers(watches) == deleteWatchers
    }

    constructor (store: ResourcesStore, labelValue: string)
      requires store.Valid()
      ensures Valid() && this.store == store && this.labelValue == labelValue
      ensures watches == [] && deleteWatchers == [] && calls == []
    {
      this.store := store;
      this.labelValue := labelValue;
      watches := [];
      deleteWatchers := [];
      calls := [];
    }

    // ---- initAsync

    /** initAsync: each stored deployment, pod and service is stamped with
        the session label, applied (`applyDeployment` and friends are the
        server-side apply), and the applied result replaces it under the
        same alias. */
    method InitAsync(applyDeployment: Deployment -> Deployment, applyPod: Pod -> Pod, applyService: Service -> Service)
      requires Valid()
      modifies store.deploymentStore, store.podStore, store.serviceStore
      ensures Valid()
      ensures store.GetDeployments() ==
        map n | n in old(store.GetDeployments()) :: applyDeployment(LabelDeployment(old(store.GetDeployments())[n], RESOURCE_LABEL_NAME, labelValue))
      ensures store.GetPods() == map n | n in old(store.GetPods()) :: applyPod(LabelPod(old(store.GetPods())[n], RESOURCE_LABEL_NAME, labelValue))
      ensures store.GetServices() ==
        map n | n in old(store.GetServices()) :: applyService(LabelService(old(store.GetServices())[n], RESOURCE_LABEL_NAME, labelValue))
      ensures store.GetProvisioningProbes() == old(store.GetProvisioningProbes())
    {
      InitDeployments(applyDeployment);
      InitPods(applyPod);
      InitServices(applyService);
    }

    method InitDeployments(apply: Deployment -> Deployment)
      requires Valid()
      modifies store.deploymentStore
      ensures Valid()
      ensures store.GetDeployments() ==
        map n | n in old(store.GetDeployments()) :: apply(LabelDeployment(old(store.GetDeployments())[n], RESOURCE_LABEL_NAME, labelValue))
      ensures store.GetPods() == old(store.GetPods()) && store.GetServices() == old(store.GetServices())
      ensures store.GetProvisioningProbes() == old(store.GetProvisioningProbes())
    {
      var entries := store.GetDeployments();
      var f := d => apply(LabelDeployment(d, RESOURCE_LABEL_NAME, labelValue));
      var todo := entries.Keys;
      UpdateStart(entries, f);
      while todo != {}
        invariant todo <= entries.Keys
        invariant store.GetDeployments() == Updated(entries, todo, f)
        invariant store.GetPods() == old(store.GetPods()) && store.GetServices() == old(store.GetServices())
        invariant store.GetProvisioningProbes() == old(store.GetProvisioningProbes())
        decreases todo
      {
        var name :| name in todo;
        UpdateStep(entries, todo, f, name);
        var _ := store.PutDeployment(NonNull(name), NonNull(f(entries[name])));
        todo := todo - {name};
      }
      UpdateEnd(entries, f);
    }

    method InitPods(apply: Pod -> Pod)
      requires Valid()
      modifies store.podStore
      ensures Valid()
      ensures store.GetPods() == map n | n in old(store.GetPods()) :: apply(LabelPod(old(store.GetPods())[n], RESOURCE_LABEL_NAME, labelValue))
      ensures store.GetDeployments() == old(store.GetDeployments()) && store.GetServices() == old(store.GetServices())
      ensures store.GetProvisioningProbes() == old(store.GetProvisioningProbes())
    {
      var entries := store.GetPods();
      var f := p => apply(LabelPod(p, RESOURCE_LABEL_NAME, labelValue));
      var todo := entries.Keys;
      UpdateStart(entries, f);
      while todo != {}
        invariant todo <= entries.Keys
        invariant store.GetPods() == Updated(entries, todo, f)
        invariant store.GetDeployments() == old(store.GetDeployments()) && store.GetServices() == old(store.GetServices())
        invariant store.GetProvisioningProbes() == old(store.GetProvisioningProbes())
        decreases todo
      {
        var name :| name in todo;
        UpdateStep(entries, todo, f, name);
        var _ := store.PutPod(NonNull(name), NonNull(f(entries[name])));
        todo := todo - {name};
      }
      UpdateEnd(entries, f);
    }

    method InitServices(apply: Service -> Service)
      requires Valid()
      modifies store.serviceStore
      ensures Valid()
      ensures store.GetServices() ==
        map n | n in old(store.GetServices()) :: apply(LabelService(old(store.GetServices())[n], RESOURCE_LABEL_NAME, labelValue))
      ensures store.GetDeployments() == old(store.GetDeployments()) && store.GetPods() == old(store.GetPods())
      ensures store.GetProvisioningProbes() == old(store.GetProvisioningProbes())
    {
      var entries := store.GetServices();
      var f := s => apply(LabelService(s, RESOURCE_LABEL_NAME, labelValue));
      var todo := entries.Keys;
      UpdateStart(entries, f);
      while todo != {}
        invariant todo <= entries.Keys
        invariant store.GetServices() == Updated(entries, todo, f)
        invariant store.GetDeployments() == old(store.GetDeployments()) && store.GetPods() == old(store.GetPods())
        invariant store.GetProvisioningProbes() == old(store.GetProvisioningProbes())
        decreases todo
      {
        var name :| name in todo;
        UpdateStep(entries, todo, f, name);
        var _ := store.PutService(NonNull(name), NonNull(f(entries[name])));
        todo := todo - {name};
      }
      UpdateEnd(entries, f);
    }

    // ---- waitUntilReady

    /** waitUntilReady: wait for every stored deployment, then every
        stored pod, in the maps' iteration orders, then run the probes. */
    method WaitUntilReady() returns (ghost dOrder: seq<string>, ghost pOrder: seq<string>)
      requires Valid()
      modifies this
      ensures Valid() && watches == old(watches) && deleteWatchers == old(deleteWatchers)
      ensures Enumerates(dOrder, store.GetDeployments()) && Enumerates(pOrder, store.GetPods())
      ensures calls == old(calls) + ReadyCalls(InOrder(store.GetDeployments(), dOrder), InOrder(store.GetPods(), pOrder),
                                               store.GetProvisioningProbes())
    {
      var probes := store.GetProvisioningProbes();
      dOrder := AwaitDeployments(store.GetDeployments());
      ghost var a := Readies<DeleteWatcher>(DeploymentKind, DeploymentNames(InOrder(store.GetDeployments(), dOrder)));
      pOrder := AwaitPods(store.GetPods());
      ghost var b := Readies<DeleteWatcher>(PodKind, PodNames(InOrder(store.GetPods(), pOrder)));
      calls := calls + [RunProbes(probes)];
      SeqAssoc(old(calls), a, b);
      SeqAssoc(old(calls), a + b, [RunProbes(probes)]);
    }

    method AwaitDeployments(deps: map<string, Deployment>) returns (ghost order: seq<string>)
      modifies this
      ensures watches == old(watches) && deleteWatchers == old(deleteWatchers)
      ensures Enumerates(order, deps)
      ensures calls == old(calls) + Readies(DeploymentKind, DeploymentNames(InOrder(deps, order)))
    {
      var keys := Keys(deps);
      ghost var done: seq<Call<DeleteWatcher>> := [];
      for i := 0 to |keys|
        invariant done == Readies(DeploymentKind, DeploymentNames(InOrder(deps, keys[..i])))
        invariant watches == old(watches) && deleteWatchers == old(deleteWatchers)
        invariant calls == old(calls) + done
      {
        var wait := AwaitReady(DeploymentKind, deps[keys[i]].metadata.name);
        DeploymentReadyStep<DeleteWatcher>(deps, keys, i);
        SeqAssoc(old(calls), done, [wait]);
        calls := calls + [wait];
        done := done + [wait];
      }
      assert keys[..|keys|] == keys;
      order := keys;
    }

    method AwaitPods(pods: map<string, Pod>) returns (ghost order: seq<string>)
      modifies this
      ensures watches == old(watches) && deleteWatchers == old(deleteWatchers)
      ensures Enumerates(order, pods)
      ensures calls == old(calls) + Readies(PodKind, PodNames(InOrder(pods, order)))
    {
      var keys := Keys(pods);
      ghost var done: seq<Call<DeleteWatcher>> := [];
      for i := 0 to |keys|
        invariant done == Readies(PodKind, PodNames(InOrder(pods, keys[..i])))
        invariant watches == old(watches) && deleteWatchers == old(deleteWatchers)
        invariant calls == old(calls) + done
      {
        var wait := AwaitReady(PodKind, pods[keys[i]].metadata.name);
        PodReadyStep<DeleteWatcher>(pods, keys, i);
        SeqAssoc(old(calls), done, [wait]);
        calls := calls + [wait];
        done := done + [wait];
      }
      assert keys[..|keys|] == keys;
      order := keys;
    }

    // ---- destroyAsync

    /** A fresh DeleteWatcher expecting one delete, and a watch on the
        resource feeding it; the two lists grow in lockstep. */
    method WatchResource(kind: Kind, name: string) returns (w: DeleteWatcher)
      modifies this
      ensures fresh(w) && w.count == 1
      ensures watches == old(watches) + [Watch(kind, name, w)]
      ensures deleteWatchers == old(deleteWatchers) + [w]
      ensures calls == old(calls) + [Subscribe(Watch(kind, name, w))]
    {
      w := new DeleteWatcher();
      var watch := Watch(kind, name, w);
      watches := watches + [watch];
      deleteWatchers := deleteWatchers + [w];
      calls := calls + [Subscribe(watch)];
    }

    /** Watch one resource, then delete it. */
    method DestroyResource(kind: Kind, name: string) returns (w: DeleteWatcher)
      modifies this
      ensures fresh(w) && w.count == 1
      ensures watches == old(watches) + [Watch(kind, name, w)]
      ensures deleteWatchers == old(deleteWatchers) + [w]
      ensures calls == old(calls) + WatchThenDelete(kind, name, w)
    {
      w := WatchResource(kind, name);
      calls := calls + [Delete(kind, name)];
    }

    /** A watch on each pod of a deployment's listing, in order. */
    method WatchPods(pods: seq<Pod>) returns (ghost ws: seq<DeleteWatcher>)
      modifies this
      ensures |ws| == |pods|
      ensures watches == old(watches) + ResourceWatches(PodKind, PodNames(pods), ws)
      ensures deleteWatchers == old(deleteWatchers) + ws
      ensures calls == old(calls) + Subscribes(ResourceWatches(PodKind, PodNames(pods), ws))
    {
      ws := [];
      for i := 0 to |pods|
        invariant |ws| == i
        invariant watches == old(watches) + ResourceWatches(PodKind, PodNames(pods[..i]), ws)
        invariant deleteWatchers == old(deleteWatchers) + ws
        invariant calls == old(calls) + Subscribes(ResourceWatches(PodKind, PodNames(pods[..i]), ws))
      {
        ghost var done := ResourceWatches(PodKind, PodNames(pods[..i]), ws);
        var w := WatchResource(PodKind, pods[i].metadata.name);
        var watch := Watch(PodKind, pods[i].metadata.name, w);
        ListedPodsSnoc(pods, i, ws, w);
        SeqAssoc(old(watches), done, [watch]);
        SeqAssoc(old(deleteWatchers), ws, [w]);
        SeqAssoc(old(calls), Subscribes(done), [Subscribe(watch)]);
        ws := ws + [w];
      }
      assert pods[..|pods|] == pods;
    }

    /** One deployment: watch it, list its pods by its selector (`select`
        is the cluster's answer), watch each pod, delete the deployment. */
    method DestroyDeployment(d: Deployment, select: map<string, string> -> seq<Pod>) returns (ghost more: seq<DeleteWatcher>)
      modifies this
      ensures |more| == 1 + |select(d.selector)|
      ensures watches == old(watches) + DeploymentWatches(d, select(d.selector), more)
      ensures deleteWatchers == old(deleteWatchers) + more
      ensures calls == old(calls) + DeploymentCalls(d, select(d.selector), more)
    {
      var w := WatchResource(DeploymentKind, d.metadata.name);
      var watch := Watch(DeploymentKind, d.metadata.name, w);
      calls := calls + [List(PodKind, d.selector)];
      var podList := select(d.selector);
      var pws := WatchPods(podList);
      calls := calls + [Delete(DeploymentKind, d.metadata.name)];
      more := [w] + pws;
      assert more[1..] == pws && more[0] == w;
      ghost var rw := ResourceWatches(PodKind, PodNames(podList), pws);
      SeqAssoc(old(watches), [watch], rw);
      SeqAssoc(old(deleteWatchers), [w], pws);
      SeqAssoc(old(calls), [Subscribe(watch)], [List(PodKind, d.selector)]);
      SeqAssoc(old(calls), [Subscribe(watch)] + [List(PodKind, d.selector)], Subscribes(rw));
      SeqAssoc(old(calls), [Subscribe(watch)] + [List(PodKind, d.selector)] + Subscribes(rw), [Delete(DeploymentKind, d.metadata.name)]);
    }

    /** The deployments loop, over the stored deployments in the map's
        iteration order. */
    method DestroyDeployments(deps: map<string, Deployment>, select: map<string, string> -> seq<Pod>) returns (ghost order: seq<string>, ghost ws: seq<DeleteWatcher>)
      modifies this
      ensures Enumerates(order, deps)
      ensures |ws| == DeploymentsCount(InOrder(deps, order), select)
      ensures watches == old(watches) + DeploymentsWatches(InOrder(deps, order), select, ws)
      ensures deleteWatchers == old(deleteWatchers) + ws
      ensures calls == old(calls) + DeploymentsCalls(InOrder(deps, order), select, ws)
    {
      var keys := Keys(deps);
      ws := [];
      ghost var doneWatches: seq<Watch<DeleteWatcher>> := [];
      ghost var doneCalls: seq<Call<DeleteWatcher>> := [];
      for i := 0 to |keys|
        invariant |ws| == DeploymentsCount(InOrder(deps, keys[..i]), select)
        invariant doneWatches == DeploymentsWatches(InOrder(deps, keys[..i]), select, ws)
        invariant doneCalls == DeploymentsCalls(InOrder(deps, keys[..i]), select, ws)
        invariant watches == old(watches) + doneWatches
        invariant deleteWatchers == old(deleteWatchers) + ws
        invariant calls == old(calls) + doneCalls
      {
        var d := deps[keys[i]];
        var more := DestroyDeployment(d, select);
        DeploymentsStep(deps, keys, i, select, ws, more);
        SeqAssoc(old(watches), doneWatches, DeploymentWatches(d, select(d.selector), more));
        SeqAssoc(old(deleteWatchers), ws, more);
        SeqAssoc(old(calls), doneCalls, DeploymentCalls(d, select(d.selector), more));
        doneWatches := doneWatches + DeploymentWatches(d, select(d.selector), more);
        doneCalls := doneCalls + DeploymentCalls(d, select(d.selector), more);
        ws := ws + more;
      }
      assert keys[..|keys|] == keys;
      order := keys;
    }

    /** The pods loop: watch then delete each stored pod. */
    method DestroyPods(pods: map<string, Pod>) returns (ghost order: seq<string>, ghost ws: seq<DeleteWatcher>)
      modifies this
      ensures Enumerates(order, pods) && |ws| == |order|
      ensures watches == old(watches) + ResourceWatches(PodKind, PodNames(InOrder(pods, order)), ws)
      ensures deleteWatchers == old(deleteWatchers) + ws
      ensures calls == old(calls) + ResourceCalls(PodKind, PodNames(InOrder(pods, order)), ws)
    {
      var keys := Keys(pods);
      ws := DestroyNamed(PodKind, PodNames(InOrder(pods, keys)));
      order := keys;
    }

    /** The services loop: watch then delete each stored service. */
    method DestroyServices(services: map<string, Service>) returns (ghost order: seq<string>, ghost ws: seq<DeleteWatcher>)
      modifies this
      ensures Enumerates(order, services) && |ws| == |order|
      ensures watches == old(watches) + ResourceWatches(ServiceKind, ServiceNames(InOrder(services, order)), ws)
      ensures deleteWatchers == old(deleteWatchers) + ws
      ensures calls == old(calls) + ResourceCalls(ServiceKind, ServiceNames(InOrder(services, order)), ws)
    {
      var keys := Keys(services);
      ws := DestroyNamed(ServiceKind, ServiceNames(InOrder(services, keys)));
      order := keys;
    }

    /** Watch then delete each named resource of one kind, in order. */
    method DestroyNamed(kind: Kind, names: seq<string>) returns (ghost ws: seq<DeleteWatcher>)
      modifies this
      ensures |ws| == |names|
      ensures watches == old(watches) + ResourceWatches(kind, names, ws)
      ensures deleteWatchers == old(deleteWatchers) + ws
      ensures calls == old(calls) + ResourceCalls(kind, names, ws)
    {
      ws := [];
      ghost var doneWatches: seq<Watch<DeleteWatcher>> := [];
      ghost var doneCalls: seq<Call<DeleteWatcher>> := [];
      for i := 0 to |names|
        invariant |ws| == i
        invariant doneWatches == ResourceWatches(kind, names[..i], ws)
        invariant doneCalls == ResourceCalls(kind, names[..i], ws)
        invariant watches == old(watches) + doneWatches
        invariant deleteWatchers == old(deleteWatchers) + ws
        invariant calls == old(calls) + doneCalls
      {
        var w := DestroyResource(kind, names[i]);
        assert names[..i + 1] == names[..i] + [names[i]];
        ResourceSnoc(kind, names[..i], ws, names[i], w);
        SeqAssoc(old(watches), doneWatches, [Watch(kind, names[i], w)]);
        SeqAssoc(old(deleteWatchers), ws, [w]);
        SeqAssoc(old(calls), doneCalls, WatchThenDelete(kind, names[i], w));
        doneWatches := doneWatches + [Watch(kind, names[i], w)];
        doneCalls := doneCalls + WatchThenDelete(kind, names[i], w);
        ws := ws + [w];
      }
      assert names[..|names|] == names;
    }

    /** destroyAsync: the deployments loop, the pods loop, the services
        loop. The deployments' pod listings come from `select`. */
    method DestroyAsync(select: map<string, string> -> seq<Pod>)
      returns (ghost dOrder: seq<string>, ghost pOrder: seq<string>, ghost sOrder: seq<string>,
               ghost wd: seq<DeleteWatcher>, ghost wp: seq<DeleteWatcher>, ghost wsv: seq<DeleteWatcher>)
      requires Valid()
      modifies this
      ensures Valid()
      ensures Enumerates(dOrder, store.GetDeployments()) && Enumerates(pOrder, store.GetPods()) &&
              Enumerates(sOrder, store.GetServices())
      ensures |wd| == DeploymentsCount(InOrder(store.GetDeployments(), dOrder), select)
      ensures |wp| == |pOrder| && |wsv| == |sOrder|
      ensures watches == old(watches) +
        DestroyWatches(InOrder(store.GetDeployments(), dOrder), select, InOrder(store.GetPods(), pOrder),
                       InOrder(store.GetServices(), sOrder), wd, wp, wsv)
      ensures deleteWatchers == old(deleteWatchers) + (wd + wp + wsv)
      ensures |deleteWatchers| == |old(deleteWatchers)| + DeploymentsCount(InOrder(store.GetDeployments(), dOrder), select) +
                                  |store.GetPods()| + |store.GetServices()|
      ensures calls == old(calls) +
        DestroyCalls(InOrder(store.GetDeployments(), dOrder), select, InOrder(store.GetPods(), pOrder),
                     InOrder(store.GetServices(), sOrder), wd, wp, wsv)
    {
      var deps, pods, services := store.GetDeployments(), store.GetPods(), store.GetServices();
      dOrder, wd := DestroyDeployments(deps, select);
      pOrder, wp := DestroyPods(pods);
      sOrder, wsv := DestroyServices(services);
      ghost var D, P, S := InOrder(deps, dOrder), InOrder(pods, pOrder), InOrder(services, sOrder);
      ghost var a, b, c := DeploymentsWatches(D, select, wd), ResourceWatches(PodKind, PodNames(P), wp),
                           ResourceWatches(ServiceKind, ServiceNames(S), wsv);
      ghost var ac, bc, cc := DeploymentsCalls(D, select, wd), ResourceCalls(PodKind, PodNames(P), wp),
                              ResourceCalls(ServiceKind, ServiceNames(S), wsv);
      assert watches == old(watches) + (a + b + c) by {
        SeqAssoc(old(watches), a, b);
        SeqAssoc(old(watches), a + b, c);
      }
      assert deleteWatchers == old(deleteWatchers) + (wd + wp + wsv) by {
        SeqAssoc(old(deleteWatchers), wd, wp);
        SeqAssoc(old(deleteWatchers), wd + wp, wsv);
      }
      assert calls == old(calls) + (ac + bc + cc) by {
        SeqAssoc(old(calls), ac, bc);
        SeqAssoc(old(calls), ac + bc, cc);
      }
      DestroyWatchesCarry(D, select, P, S, wd, wp, wsv);
      WatchersAppend(old(watches), a + b + c);
    }

    // ---- waitUntilDestroyed

    /** waitUntilDestroyed: wait on every delete watcher, then close every
        watch; both lists are cleared, so a second call adds nothing. */
    method WaitUntilDestroyed()
      requires Valid()
      modifies this
      ensures Valid() && watches == [] && deleteWatchers == []
      ensures calls == old(calls) + Awaits(old(deleteWatchers)) + Closes(old(watches))
      ensures old(watches) == [] && old(deleteWatchers) == [] ==> calls == old(calls)
    {
      AwaitAll();
      deleteWatchers := [];
      CloseAll();
      watches := [];
    }

    /** deleteWatcher.waitUntilDeleted() for each delete watcher, in order. */
    method AwaitAll()
      modifies this
      ensures watches == old(watches) && deleteWatchers == old(deleteWatchers)
      ensures calls == old(calls) + Awaits(deleteWatchers)
    {
      ghost var done: seq<Call<DeleteWatcher>> := [];
      for i := 0 to |deleteWatchers|
        invariant watches == old(watches) && deleteWatchers == old(deleteWatchers)
        invariant done == Awaits(deleteWatchers[..i])
        invariant calls == old(calls) + done
      {
        assert deleteWatchers[..i + 1][..i] == deleteWatchers[..i];
        SeqAssoc(old(calls), done, [AwaitDeleted(deleteWatchers[i])]);
        calls := calls + [AwaitDeleted(deleteWatchers[i])];
        done := done + [AwaitDeleted(deleteWatchers[i])];
      }
      assert deleteWatchers[..|deleteWatchers|] == deleteWatchers;
    }

    /** watch.close() for each watch, in order. */
    method CloseAll()
      modifies this
      ensures watches == old(watches) && deleteWatchers == old(deleteWatchers)
      ensures calls == old(calls) + Closes(watches)
    {
      ghost var done: seq<Call<DeleteWatcher>> := [];
      for i := 0 to |watches|
        invariant watches == old(watches) && deleteWatchers == old(deleteWatchers)
        invariant done == Closes(watches[..i])
        invariant calls == old(calls) + done
      {
        assert watches[..i + 1][..i] == watches[..i];
        SeqAssoc(old(calls), done, [Close(watches[i])]);
        calls := calls + [Close(watches[i])];
        done := done + [Close(watches[i])];
      }
      assert watches[..|watches|] == watches;
    }

    // ---- init and destroy

    /** init: initAsync, then waitUntilReady on the stamped resources. */
    method Init(applyDeployment: Deployment -> Deployment, applyPod: Pod -> Pod, applyService: Service -> Service)
      returns (ghost dOrder: seq<string>, ghost pOrder: seq<string>)
      requires Valid()
      modifies this, store.deploymentStore, store.podStore, store.serviceStore
      ensures Valid() && watches == old(watches) && deleteWatchers == old(deleteWatchers)
      ensures store.GetDeployments() ==
        map n | n in old(store.GetDeployments()) :: applyDeployment(LabelDeployment(old(store.GetDeployments())[n], RESOURCE_LABEL_NAME, labelValue))
      ensures store.GetPods() == map n | n in old(store.GetPods()) :: applyPod(LabelPod(old(store.GetPods())[n], RESOURCE_LABEL_NAME, labelValue))
      ensures store.GetServices() ==
        map n | n in old(store.GetServices()) :: applyService(LabelService(old(store.GetServices())[n], RESOURCE_LABEL_NAME, labelValue))
      ensures Enumerates(dOrder, store.GetDeployments()) && Enumerates(pOrder, store.GetPods())
      ensures calls == old(calls) + ReadyCalls(InOrder(store.GetDeployments(), dOrder), InOrder(store.GetPods(), pOrder),
                                               store.GetProvisioningProbes())
    {
      InitAsync(applyDeployment, applyPod, applyService);
      dOrder, pOrder := WaitUntilReady();
    }

    /** destroy: destroyAsync, then waitUntilDestroyed. Every watch is
        closed and every watcher awaited, those of earlier calls first. */
    method Destroy(select: map<string, string> -> seq<Pod>)
      returns (ghost dOrder: seq<string>, ghost pOrder: seq<string>, ghost sOrder: seq<string>,
               ghost wd: seq<DeleteWatcher>, ghost wp: seq<DeleteWatcher>, ghost wsv: seq<DeleteWatcher>)
      requires Valid()
      modifies this
      ensures Valid() && watches == [] && deleteWatchers == []
      ensures Enumerates(dOrder, store.GetDeployments()) && Enumerates(pOrder, store.GetPods()) &&
              Enumerates(sOrder, store.GetServices())
      ensures |wd| == DeploymentsCount(InOrder(store.GetDeployments(), dOrder), select)
      ensures |wp| == |pOrder| && |wsv| == |sOrder|
      ensures calls == old(calls) +
        DestroyCalls(InOrder(store.GetDeployments(), dOrder), select, InOrder(store.GetPods(), pOrder),
                     InOrder(store.GetServices(), sOrder), wd, wp, wsv) +
        Awaits(old(deleteWatchers) + (wd + wp + wsv)) +
        Closes(old(watches) + DestroyWatches(InOrder(store.GetDeployments(), dOrder), select, InOrder(store.GetPods(), pOrder),
                                             InOrder(store.GetServices(), sOrder), wd, wp, wsv))
    {
      dOrder, pOrder, sOrder, wd, wp, wsv := DestroyAsync(select);
      WaitUntilDestroyed();
    }
  }
}
