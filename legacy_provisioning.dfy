// The legacy ProvisioningController: stamping the "TestKube" label on the
// stored pods and services and applying them, waiting for the pods, and
// destroying whatever the cluster lists under the session's label.

module LegacyProvisioning {
  import opened Common
  import opened Resources
  import opened Client
  import opened Iteration
  import opened Destruction
  import opened Visits
  import LegacyStore
  import LegacyWatchers

  type DeleteWatcher = LegacyWatchers.DeleteWatcher

  /** ProvisioningController.RESOURCE_LABEL_NAME */
  const RESOURCE_LABEL_NAME := "TestKube"

  /** The selector of withLabel(RESOURCE_LABEL_NAME, label). */
  function SessionSelector(sessionLabel: string): (r: map<string, string>)
    ensures r.Keys == {RESOURCE_LABEL_NAME} && r[RESOURCE_LABEL_NAME] == sessionLabel
  {
    map[RESOURCE_LABEL_NAME := sessionLabel]
  }

  /** The watches destroyAsync adds, given the listed pods and services and
      the new watchers of each loop in order. */
  function DestroyWatches<W>(ps: seq<Pod>, ss: seq<Service>, wp: seq<W>, wsv: seq<W>): seq<Watch<W>>
    requires |wp| == |ps| && |wsv| == |ss|
  {
    ResourceWatches(PodKind, PodNames(ps), wp) + ResourceWatches(ServiceKind, ServiceNames(ss), wsv)
  }

  /** The calls destroyAsync makes: the pod listing, watch then delete for
      each listed pod, the service listing, watch then delete for each
      listed service. */
  function DestroyCalls<W>(sessionLabel: string, ps: seq<Pod>, ss: seq<Service>, wp: seq<W>, wsv: seq<W>): seq<Call<W>>
    requires |wp| == |ps| && |wsv| == |ss|
  {
    [List(PodKind, SessionSelector(sessionLabel))] + ResourceCalls(PodKind, PodNames(ps), wp) +
    [List(ServiceKind, SessionSelector(sessionLabel))] + ResourceCalls(ServiceKind, ServiceNames(ss), wsv)
  }

  /** Every resource destroyAsync deletes is watched first. */
  lemma DestroyWatchesFirst<W>(sessionLabel: string, ps: seq<Pod>, ss: seq<Service>, wp: seq<W>, wsv: seq<W>)
    requires |wp| == |ps| && |wsv| == |ss|
    ensures WatchedBeforeDelete(DestroyCalls(sessionLabel, ps, ss, wp, wsv))
  {
    var lp: seq<Call<W>> := [List(PodKind, SessionSelector(sessionLabel))];
    var ls: seq<Call<W>> := [List(ServiceKind, SessionSelector(sessionLabel))];
    var b, c := ResourceCalls(PodKind, PodNames(ps), wp), ResourceCalls(ServiceKind, ServiceNames(ss), wsv);
    ResourceCallsWatchFirst(PodKind, PodNames(ps), wp);
    ResourceCallsWatchFirst(ServiceKind, ServiceNames(ss), wsv);
    WatchedBeforeDeleteAppend(lp, b);
    WatchedBeforeDeleteAppend(lp + b, ls);
    WatchedBeforeDeleteAppend(lp + b + ls, c);
  }

  /** The watches destroyAsync adds carry its new watchers in order. */
  lemma DestroyWatchesCarry<W>(ps: seq<Pod>, ss: seq<Service>, wp: seq<W>, wsv: seq<W>)
    requires |wp| == |ps| && |wsv| == |ss|
    ensures Client.Watchers(DestroyWatches(ps, ss, wp, wsv)) == wp + wsv
  {
    ResourceWatchesCarry(PodKind, PodNames(ps), wp);
    ResourceWatchesCarry(ServiceKind, ServiceNames(ss), wsv);
    WatchersAppend(ResourceWatches(PodKind, PodNames(ps), wp), ResourceWatches(ServiceKind, ServiceNames(ss), wsv));
  }

  class ProvisioningController {
    var watches: seq<Watch<DeleteWatcher>>
    var deleteWatchers: seq<DeleteWatcher>
    /** The client calls made so far, in order. */
    var calls: seq<Call<DeleteWatcher>>
    /** The pod and service stores of the TestKube's ResourcesStore. */
    const pods: LegacyStore.ResourceStore<Pod>
    const services: LegacyStore.ResourceStore<Service>
    /** testKube.getLabel() */
    const sessionLabel: string

    /** The two stores are distinct objects, and the i-th watch feeds the
        i-th watcher. */
    ghost predicate Valid()
      reads this
    {
      pods as object != services as object && Client.Watchers(watches) == deleteWatchers
    }

    constructor (pods: LegacyStore.ResourceStore<Pod>, services: LegacyStore.ResourceStore<Service>, sessionLabel: string)
      requires pods as object != services as object
      ensures Valid() && this.pods == pods && this.services == services && this.sessionLabel == sessionLabel
      ensures watches == [] && deleteWatchers == [] && calls == []
    {
      this.pods := pods;
      this.services := services;
      this.sessionLabel := sessionLabel;
      watches := [];
      deleteWatchers := [];
      calls := [];
    }

    // ---- initAsync

    /** initAsync: each stored pod and service gets the label
        RESOURCE_LABEL_NAME set to the session label, is applied
        (`applyPod` and `applyService` are the server-side apply), and the
        applied result replaces it under the same alias. */
    method InitAsync(applyPod: Pod -> Pod, applyService: Service -> Service)
      requires Valid()
      modifies pods, services
      ensures pods.resources == map n | n in old(pods.resources) :: applyPod(LabelPod(old(pods.resources)[n], RESOURCE_LABEL_NAME, sessionLabel))
      ensures services.resources ==
        map n | n in old(services.resources) :: applyService(LabelService(old(services.resources)[n], RESOURCE_LABEL_NAME, sessionLabel))
    {
      InitPods(applyPod);
      InitServices(applyService);
    }

    method InitPods(apply: Pod -> Pod)
      modifies pods
      ensures pods.resources == map n | n in old(pods.resources) :: apply(LabelPod(old(pods.resources)[n], RESOURCE_LABEL_NAME, sessionLabel))
    {
      var entries := pods.resources;
      var f := p => apply(LabelPod(p, RESOURCE_LABEL_NAME, sessionLabel));
      var todo := entries.Keys;
      UpdateStart(entries, f);
      while todo != {}
        invariant todo <= entries.Keys
        invariant pods.resources == Updated(entries, todo, f)
        decreases todo
      {
        var name :| name in todo;
        UpdateStep(entries, todo, f, name);
        var _ := pods.Put(NonNull(name), NonNull(f(entries[name])));
        todo := todo - {name};
      }
      UpdateEnd(entries, f);
    }

    method InitServices(apply: Service -> Service)
      modifies services
      ensures services.resources ==
        map n | n in old(services.resources) :: apply(LabelService(old(services.resources)[n], RESOURCE_LABEL_NAME, sessionLabel))
    {
      var entries := services.resources;
      var f := s => apply(LabelService(s, RESOURCE_LABEL_NAME, sessionLabel));
      var todo := entries.Keys;
      UpdateStart(entries, f);
      while todo != {}
        invariant todo <= entries.Keys
        invariant services.resources == Updated(entries, todo, f)
        decreases todo
      {
        var name :| name in todo;
        UpdateStep(entries, todo, f, name);
        var _ := services.Put(NonNull(name), NonNull(f(entries[name])));
        todo := todo - {name};
      }
      UpdateEnd(entries, f);
    }

    // ---- waitUntilReady

    /** waitUntilReady: wait for every stored pod, in the map's iteration
        order; services are not waited for. */
    method WaitUntilReady() returns (ghost order: seq<string>)
      modifies this
      ensures watches == old(watches) && deleteWatchers == old(deleteWatchers)
      ensures Enumerates(order, pods.resources)
      ensures calls == old(calls) + Readies(PodKind, PodNames(InOrder(pods.resources, order)))
    {
      order := AwaitPods(pods.resources);
    }

    /** waitUntilReady on each of `entries`, in the map's iteration order. */
    method AwaitPods(entries: map<string, Pod>) returns (ghost order: seq<string>)
      modifies this
      ensures watches == old(watches) && deleteWatchers == old(deleteWatchers)
      ensures Enumerates(order, entries)
      ensures calls == old(calls) + Readies(PodKind, PodNames(InOrder(entries, order)))
    {
      var keys := Keys(entries);
      ghost var done: seq<Call<DeleteWatcher>> := [];
      for i := 0 to |keys|
        invariant done == Readies(PodKind, PodNames(InOrder(entries, keys[..i])))
        invariant watches == old(watches) && deleteWatchers == old(deleteWatchers)
        invariant calls == old(calls) + done
      {
        var wait := AwaitReady(PodKind, entries[keys[i]].metadata.name);
        PodReadyStep<DeleteWatcher>(entries, keys, i);
        SeqAssoc(old(calls), done, [wait]);
        calls := calls + [wait];
        done := done + [wait];
      }
      assert keys[..|keys|] == keys;
      order := keys;
    }

    // ---- destroyAsync

    /** A fresh DeleteWatcher, a watch on the resource feeding it, then the
        delete; the two lists grow in lockstep. */
    method DestroyResource(kind: Kind, name: string) returns (w: DeleteWatcher)
      modifies this
      ensures fresh(w) && w.count == 1
      ensures watches == old(watches) + [Watch(kind, name, w)]
      ensures deleteWatchers == old(deleteWatchers) + [w]
      ensures calls == old(calls) + WatchThenDelete(kind, name, w)
    {
      w := new LegacyWatchers.DeleteWatcher();
      var watch := Watch(kind, name, w);
      watches := watches + [watch];
      deleteWatchers := deleteWatchers + [w];
      calls := calls + [Subscribe(watch)] + [Delete(kind, name)];
    }

    /** The pods loop over the listing by the session label; `clusterPods`
        are the cluster's pods in the order it lists them. */
    method DestroyPods(clusterPods: seq<Pod>) returns (ghost ws: seq<DeleteWatcher>)
      modifies this
      ensures var ps := PodsLabelled(clusterPods, RESOURCE_LABEL_NAME, sessionLabel);
        |ws| == |ps| &&
        watches == old(watches) + ResourceWatches(PodKind, PodNames(ps), ws) &&
        deleteWatchers == old(deleteWatchers) + ws &&
        calls == old(calls) + [List(PodKind, SessionSelector(sessionLabel))] + ResourceCalls(PodKind, PodNames(ps), ws)
    {
      calls := calls + [List(PodKind, SessionSelector(sessionLabel))];
      ghost var listed := calls;
      var ps := PodsLabelled(clusterPods, RESOURCE_LABEL_NAME, sessionLabel);
      ws := [];
      ghost var doneWatches: seq<Watch<DeleteWatcher>> := [];
      ghost var doneCalls: seq<Call<DeleteWatcher>> := [];
      for i := 0 to |ps|
        invariant |ws| == i
        invariant doneWatches == ResourceWatches(PodKind, PodNames(ps[..i]), ws)
        invariant doneCalls == ResourceCalls(PodKind, PodNames(ps[..i]), ws)
        invariant watches == old(watches) + doneWatches
        invariant deleteWatchers == old(deleteWatchers) + ws
        invariant calls == listed + doneCalls
      {
        var name := ps[i].metadata.name;
        var w := DestroyResource(PodKind, name);
        ListedPodsSnoc(ps, i, ws, w);
        SeqAssoc(old(watches), doneWatches, [Watch(PodKind, name, w)]);
        SeqAssoc(old(deleteWatchers), ws, [w]);
        SeqAssoc(listed, doneCalls, WatchThenDelete(PodKind, name, w));
        doneWatches := doneWatches + [Watch(PodKind, name, w)];
        doneCalls := doneCalls + WatchThenDelete(PodKind, name, w);
        ws := ws + [w];
      }
      assert ps[..|ps|] == ps;
    }

    /** The services loop over the listing by the session label. */
    method DestroyServices(clusterServices: seq<Service>) returns (ghost ws: seq<DeleteWatcher>)
      modifies this
      ensures var ss := ServicesLabelled(clusterServices, RESOURCE_LABEL_NAME, sessionLabel);
        |ws| == |ss| &&
        watches == old(watches) + ResourceWatches(ServiceKind, ServiceNames(ss), ws) &&
        deleteWatchers == old(deleteWatchers) + ws &&
        calls == old(calls) + [List(ServiceKind, SessionSelector(sessionLabel))] + ResourceCalls(ServiceKind, ServiceNames(ss), ws)
    {
      calls := calls + [List(ServiceKind, SessionSelector(sessionLabel))];
      ghost var listed := calls;
      var ss := ServicesLabelled(clusterServices, RESOURCE_LABEL_NAME, sessionLabel);
      ws := [];
      ghost var doneWatches: seq<Watch<DeleteWatcher>> := [];
      ghost var doneCalls: seq<Call<DeleteWatcher>> := [];
      for i := 0 to |ss|
        invariant |ws| == i
        invariant doneWatches == ResourceWatches(ServiceKind, ServiceNames(ss[..i]), ws)
        invariant doneCalls == ResourceCalls(ServiceKind, ServiceNames(ss[..i]), ws)
        invariant watches == old(watches) + doneWatches
        invariant deleteWatchers == old(deleteWatchers) + ws
        invariant calls == listed + doneCalls
      {
        var name := ss[i].metadata.name;
        var w := DestroyResource(ServiceKind, name);
        ListedServicesSnoc(ss, i, ws, w);
        SeqAssoc(old(watches), doneWatches, [Watch(ServiceKind, name, w)]);
        SeqAssoc(old(deleteWatchers), ws, [w]);
        SeqAssoc(listed, doneCalls, WatchThenDelete(ServiceKind, name, w));
        doneWatches := doneWatches + [Watch(ServiceKind, name, w)];
        doneCalls := doneCalls + WatchThenDelete(ServiceKind, name, w);
        ws := ws + [w];
      }
      assert ss[..|ss|] == ss;
    }

    /** destroyAsync: the pods loop, then the services loop, each over what
        the cluster lists under the session label. */
    method DestroyAsync(clusterPods: seq<Pod>, clusterServices: seq<Service>)
      returns (ghost wp: seq<DeleteWatcher>, ghost wsv: seq<DeleteWatcher>)
      requires Valid()
      modifies this
      ensures Valid()
      ensures var ps := PodsLabelled(clusterPods, RESOURCE_LABEL_NAME, sessionLabel);
        var ss := ServicesLabelled(clusterServices, RESOURCE_LABEL_NAME, sessionLabel);
        |wp| == |ps| && |wsv| == |ss| &&
        watches == old(watches) + DestroyWatches(ps, ss, wp, wsv) &&
        deleteWatchers == old(deleteWatchers) + (wp + wsv) &&
        calls == old(calls) + DestroyCalls(sessionLabel, ps, ss, wp, wsv)
    {
      var ps := PodsLabelled(clusterPods, RESOURCE_LABEL_NAME, sessionLabel);
      var ss := ServicesLabelled(clusterServices, RESOURCE_LABEL_NAME, sessionLabel);
      wp := DestroyPods(clusterPods);
      wsv := DestroyServices(clusterServices);
      ghost var a := ResourceWatches(PodKind, PodNames(ps), wp);
      ghost var b := ResourceWatches(ServiceKind, ServiceNames(ss), wsv);
      ghost var lp: seq<Call<DeleteWatcher>> := [List(PodKind, SessionSelector(sessionLabel))];
      ghost var ls: seq<Call<DeleteWatcher>> := [List(ServiceKind, SessionSelector(sessionLabel))];
      ghost var ac := ResourceCalls(PodKind, PodNames(ps), wp);
      ghost var bc := ResourceCalls(ServiceKind, ServiceNames(ss), wsv);
      SeqAssoc(old(watches), a, b);
      SeqAssoc(old(deleteWatchers), wp, wsv);
      SeqAssoc(old(calls), lp, ac);
      SeqAssoc(old(calls), lp + ac, ls);
      SeqAssoc(old(calls), lp + ac + ls, bc);
      DestroyWatchesCarry(ps, ss, wp, wsv);
      WatchersAppend(old(watches), DestroyWatches(ps, ss, wp, wsv));
    }

    // ---- waitUntilDestroyed

    /** waitUntilDestroyed: wait on every delete watcher, then close every
        watch. The lists are not cleared, so a later call waits on and
        closes the same ones again. */
    method WaitUntilDestroyed()
      modifies this
      ensures watches == old(watches) && deleteWatchers == old(deleteWatchers)
      ensures calls == old(calls) + Awaits(deleteWatchers) + Closes(watches)
    {
      ghost var done: seq<Call<DeleteWatcher>> := [];
      for i := 0 to |deleteWatchers|
        invariant watches == old(watches) && deleteWatchers == old(deleteWatchers)
        invariant done == Awaits(deleteWatchers[..i])
        invariant calls == old(calls) + done
      {
        assert deleteWatchers[..i + 1][..i] == deleteWatchers[..i];
        SeqAssoc(old(calls), done, [AwaitDeleted(deleteWatchers[i])]);
        calls := calls + [AwaitDeleted(deleteWatchers[i])];
        done := done + [AwaitDeleted(deleteWatchers[i])];
      }
      assert deleteWatchers[..|deleteWatchers|] == deleteWatchers;
      ghost var awaited := calls;
      done := [];
      for i := 0 to |watches|
        invariant watches == old(watches) && deleteWatchers == old(deleteWatchers)
        invariant done == Closes(watches[..i])
        invariant calls == awaited + done
      {
        assert watches[..i + 1][..i] == watches[..i];
        SeqAssoc(awaited, done, [Close(watches[i])]);
        calls := calls + [Close(watches[i])];
        done := done + [Close(watches[i])];
      }
      assert watches[..|watches|] == watches;
    }

    // ---- init and destroy

    /** init: initAsync, then waitUntilReady on the stamped pods. */
    method Init(applyPod: Pod -> Pod, applyService: Service -> Service) returns (ghost order: seq<string>)
      requires Valid()
      modifies this, pods, services
      ensures Valid() && watches == old(watches) && deleteWatchers == old(deleteWatchers)
      ensures pods.resources == map n | n in old(pods.resources) :: applyPod(LabelPod(old(pods.resources)[n], RESOURCE_LABEL_NAME, sessionLabel))
      ensures services.resources ==
        map n | n in old(services.resources) :: applyService(LabelService(old(services.resources)[n], RESOURCE_LABEL_NAME, sessionLabel))
      ensures Enumerates(order, pods.resources)
      ensures calls == old(calls) + Readies(PodKind, PodNames(InOrder(pods.resources, order)))
    {
      InitAsync(applyPod, applyService);
      order := WaitUntilReady();
    }

    /** destroy: destroyAsync, then waitUntilDestroyed over every watcher
        and watch recorded so far, including those of earlier calls. */
    method Destroy(clusterPods: seq<Pod>, clusterServices: seq<Service>)
      returns (ghost wp: seq<DeleteWatcher>, ghost wsv: seq<DeleteWatcher>)
      requires Valid()
      modifies this
      ensures Valid()
      ensures var ps := PodsLabelled(clusterPods, RESOURCE_LABEL_NAME, sessionLabel);
        var ss := ServicesLabelled(clusterServices, RESOURCE_LABEL_NAME, sessionLabel);
        |wp| == |ps| && |wsv| == |ss| &&
        watches == old(watches) + DestroyWatches(ps, ss, wp, wsv) &&
        deleteWatchers == old(deleteWatchers) + (wp + wsv) &&
        calls == old(calls) + DestroyCalls(sessionLabel, ps, ss, wp, wsv) + Awaits(deleteWatchers) + Closes(watches)
    {
      wp, wsv := DestroyAsync(clusterPods, clusterServices);
      WaitUntilDestroyed();
    }
  }
}
