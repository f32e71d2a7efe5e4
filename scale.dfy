// DeploymentScaleController: scaling a deployment, and on scale-down
// watching every current pod with one shared delete watcher so that the
// call returns only once the surplus pods are gone. The `watches` list
// and the `watcher` field live on the controller and are never reset.

module DeploymentScale {
  import opened Common
  import opened Resources
  import opened Client
  import opened Watchers

  const MISMATCH_FOUND := "Unexpected number of current replicas found: "
  const MISMATCH_EXPECTED := ", expected: "

  function MismatchMessage(found: int, expected: int): string
  {
    MISMATCH_FOUND + DecimalString(found) + MISMATCH_EXPECTED + DecimalString(expected)
  }

  /** One pod watch per pod, in order, each feeding `w`. */
  function PodWatches(pods: seq<Pod>, w: DeleteWatcher?): (r: seq<Watch<DeleteWatcher?>>)
    ensures |r| == |pods|
    ensures forall i {:trigger r[i]} :: 0 <= i < |pods| ==> r[i] == Watch(PodKind, pods[i].metadata.name, w)
  {
    if pods == [] then [] else PodWatches(pods[..|pods| - 1], w) + [Watch(PodKind, pods[|pods| - 1].metadata.name, w)]
  }

  /** postScale: wait on the watcher when there is one, then close every watch. */
  function PostScaleCalls(awaited: DeleteWatcher?, all: seq<Watch<DeleteWatcher?>>): (r: seq<Call<DeleteWatcher?>>)
    ensures awaited == null ==> r == Closes(all)
    ensures awaited != null ==> r == [AwaitDeleted(awaited)] + Closes(all)
    ensures forall i :: 0 <= i < |r| ==> r[i].Close? || r[i].AwaitDeleted?
  {
    (if awaited != null then [AwaitDeleted(awaited)] else []) + Closes(all)
  }

  /** The calls of a scale that gets past preScale's check: the new pod
      watches, the scale call, postScale, and the readiness wait on the
      scaled deployment. */
  function ScaleCalls(added: seq<Watch<DeleteWatcher?>>, name: string, replicas: int, awaited: DeleteWatcher?,
                      all: seq<Watch<DeleteWatcher?>>, scaledName: string): seq<Call<DeleteWatcher?>>
  {
    Subscribes(added) + SettleCalls(name, replicas, awaited, all, scaledName)
  }

  /** The scale call, postScale, and the readiness wait. */
  function SettleCalls(name: string, replicas: int, awaited: DeleteWatcher?,
                       all: seq<Watch<DeleteWatcher?>>, scaledName: string): seq<Call<DeleteWatcher?>>
  {
    [ScaleTo(name, replicas)] + PostScaleCalls(awaited, all) + [AwaitReady(DeploymentKind, scaledName)]
  }

  /** Every pod watch is attached before the scale call, which is issued
      exactly once, right after them; the readiness wait comes last and
      only there. */
  lemma ScaleCallsOrder(added: seq<Watch<DeleteWatcher?>>, name: string, replicas: int, awaited: DeleteWatcher?,
                        all: seq<Watch<DeleteWatcher?>>, scaledName: string)
    ensures var c := ScaleCalls(added, name, replicas, awaited, all, scaledName);
      |added| < |c| && c[|added|] == ScaleTo(name, replicas) &&
      (forall i :: 0 <= i < |added| ==> c[i] == Subscribe(added[i])) &&
      (forall i :: 0 <= i < |c| && c[i].Subscribe? ==> i < |added|) &&
      (forall i :: 0 <= i < |c| && c[i].ScaleTo? ==> i == |added|) &&
      c[|c| - 1] == AwaitReady(DeploymentKind, scaledName) &&
      (forall i :: 0 <= i < |c| && c[i].AwaitReady? ==> i == |c| - 1)
  {
    var c := ScaleCalls(added, name, replicas, awaited, all, scaledName);
    var subs := Subscribes(added);
    var settle := SettleCalls(name, replicas, awaited, all, scaledName);
    var post := PostScaleCalls(awaited, all);
    assert c == subs + settle;
    forall i | 0 <= i < |c|
      ensures c[i].Subscribe? ==> i < |added|
      ensures c[i].ScaleTo? ==> i == |added|
      ensures c[i].AwaitReady? ==> i == |c| - 1
    {
      if i > |added| && i < |c| - 1 {
        assert c[i] == post[i - |added| - 1];
      }
    }
  }

  /** postScale's calls sit between the scale call and the readiness
      wait: the wait on the watcher first, then every watch closed. */
  lemma PostScaleOrder(added: seq<Watch<DeleteWatcher?>>, name: string, replicas: int, awaited: DeleteWatcher?,
                       all: seq<Watch<DeleteWatcher?>>, scaledName: string)
    ensures var c := ScaleCalls(added, name, replicas, awaited, all, scaledName);
      |added| + 2 <= |c| &&
      c[..|added| + 1] == Subscribes(added) + [ScaleTo(name, replicas)] &&
      c[|added| + 1..|c| - 1] == PostScaleCalls(awaited, all)
  {
    var c := ScaleCalls(added, name, replicas, awaited, all, scaledName);
    var subs := Subscribes(added);
    var settle := SettleCalls(name, replicas, awaited, all, scaledName);
    var post := PostScaleCalls(awaited, all);
    var head := subs + [ScaleTo(name, replicas)];
    var tail := post + [AwaitReady(DeploymentKind, scaledName)];
    SeqAssoc([ScaleTo(name, replicas)], post, [AwaitReady(DeploymentKind, scaledName)]);
    SeqAssoc(subs, [ScaleTo(name, replicas)], tail);
    assert c == head + tail;
    assert c[..|head|] == head;
    assert c[|head|..] == tail;
    assert c[|head|..|c| - 1] == c[|head|..][..|tail| - 1];
    assert tail[..|post|] == post;
  }

  lemma PodWatchesSnoc(pods: seq<Pod>, i: nat, w: DeleteWatcher?)
    requires i < |pods|
    ensures PodWatches(pods[..i + 1], w) == PodWatches(pods[..i], w) + [Watch(PodKind, pods[i].metadata.name, w)]
  {
    assert pods[..i + 1][..i] == pods[..i];
  }

  class DeploymentScaleController {
    var watches: seq<Watch<DeleteWatcher?>>
    var watcher: DeleteWatcher?
    /** The client calls made so far, in order. */
    var calls: seq<Call<DeleteWatcher?>>

    constructor ()
      ensures watches == [] && watcher == null && calls == []
    {
      watches := [];
      watcher := null;
      calls := [];
    }

    /** The watcher a later postScale waits on can still be released:
        enough watches feed it to count it down to zero. */
    ghost predicate Feedable()
      reads this, watcher
    {
      watcher == null || watcher.count <= Feeding(watches, watcher)
    }

    /** scale(deployment, replicas). `selected` is what listing the pods
        by the deployment's selector returns, `scaled` what the scale call
        returns and `ready` what the readiness wait on it returns. */
    method Scale(deployment: Deployment, replicas: int, selected: seq<Pod>, scaled: Deployment, ready: Deployment)
      returns (r: Result<Deployment>)
      modifies this
      // Unchanged replica count: the input back, no call, no watch.
      ensures deployment.replicas == replicas ==>
        r == Ok(deployment) && calls == old(calls) && watches == old(watches) && watcher == old(watcher)
      // Scale-down: a new watcher counting the surplus pods replaces the old one.
      ensures deployment.replicas > replicas ==>
        watcher != null && fresh(watcher) && watcher.count == deployment.replicas - replicas
      // ... and a pod count other than the current replica count fails
      // before the scale call, leaving that new watcher unfed.
      ensures deployment.replicas > replicas && |selected| != deployment.replicas ==>
        r == Err(TestKube(MismatchMessage(|selected|, deployment.replicas))) &&
        watches == old(watches) && calls == old(calls) + [List(PodKind, deployment.selector)] &&
        !Feedable()
      // ... otherwise every selected pod is watched before the scale call.
      ensures deployment.replicas > replicas && |selected| == deployment.replicas ==>
        r == Ok(ready) && watches == old(watches) + PodWatches(selected, watcher) &&
        calls == old(calls) + [List(PodKind, deployment.selector)] +
                 ScaleCalls(PodWatches(selected, watcher), deployment.metadata.name, replicas, watcher, watches, scaled.metadata.name)
      // Scale-up: no watcher, no watch; postScale still acts on the old ones.
      ensures deployment.replicas < replicas ==>
        r == Ok(ready) && watcher == old(watcher) && watches == old(watches) &&
        calls == old(calls) + ScaleCalls([], deployment.metadata.name, replicas, old(watcher), old(watches), scaled.metadata.name)
      ensures r.Ok? && replicas >= 0 && old(Feedable()) ==> Feedable()
    {
      var current := deployment.replicas;
      if current == replicas {
        return Ok(deployment);
      }
      var o := PreScale(deployment, replicas, current, selected);
      if o.Fail? {
        return Err(o.error);
      }
      r := Settle(deployment.metadata.name, replicas, scaled.metadata.name, ready);
      if current > replicas {
        SeqAssoc(old(calls) + [List(PodKind, deployment.selector)], Subscribes(PodWatches(selected, watcher)),
                 SettleCalls(deployment.metadata.name, replicas, watcher, watches, scaled.metadata.name));
      } else {
        assert Subscribes<DeleteWatcher?>([]) == [];
      }
    }

    /** preScale: on scale-down, replace the watcher by one counting the
        surplus pods, then check the pod count and watch every pod. */
    method PreScale(deployment: Deployment, replicas: int, current: int, selected: seq<Pod>) returns (o: Outcome)
      modifies this
      ensures current <= replicas ==>
        o == Pass && calls == old(calls) && watches == old(watches) && watcher == old(watcher)
      ensures current > replicas ==>
        watcher != null && fresh(watcher) && watcher.count == current - replicas
      ensures current > replicas && |selected| != current ==>
        o == Fail(TestKube(MismatchMessage(|selected|, current))) &&
        watches == old(watches) && calls == old(calls) + [List(PodKind, deployment.selector)] && !Feedable()
      ensures current > replicas && |selected| == current ==>
        o == Pass && watches == old(watches) + PodWatches(selected, watcher) &&
        calls == old(calls) + [List(PodKind, deployment.selector)] + Subscribes(PodWatches(selected, watcher))
      ensures o.Pass? && replicas >= 0 && old(Feedable()) ==> Feedable()
    {
      if current > replicas {
        var w := new DeleteWatcher.Expecting(current - replicas);
        assert forall k :: 0 <= k < |watches| ==> watches[k].watcher != w;
        FeedingNone(watches, w);
        watcher := w;
        calls := calls + [List(PodKind, deployment.selector)];
        if |selected| != current {
          return Fail(TestKube(MismatchMessage(|selected|, current)));
        }
        Attach(selected, w);
        FeedingAll(PodWatches(selected, w), w);
        FeedingAppend(old(watches), PodWatches(selected, w), w);
      }
      o := Pass;
    }

    /** scale with preScale's check made before the watcher is replaced,
        so that a failed check leaves the controller as it was. */
    method ScaleChecked(deployment: Deployment, replicas: int, selected: seq<Pod>, scaled: Deployment, ready: Deployment)
      returns (r: Result<Deployment>)
      modifies this
      ensures deployment.replicas == replicas ==>
        r == Ok(deployment) && calls == old(calls) && watches == old(watches) && watcher == old(watcher)
      ensures deployment.replicas > replicas && |selected| != deployment.replicas ==>
        r == Err(TestKube(MismatchMessage(|selected|, deployment.replicas))) &&
        watcher == old(watcher) && watches == old(watches) && calls == old(calls) + [List(PodKind, deployment.selector)]
      ensures deployment.replicas > replicas && |selected| == deployment.replicas ==>
        r == Ok(ready) && watcher != null && fresh(watcher) && watcher.count == deployment.replicas - replicas &&
        watches == old(watches) + PodWatches(selected, watcher) &&
        calls == old(calls) + [List(PodKind, deployment.selector)] +
                 ScaleCalls(PodWatches(selected, watcher), deployment.metadata.name, replicas, watcher, watches, scaled.metadata.name)
      ensures deployment.replicas < replicas ==>
        r == Ok(ready) && watcher == old(watcher) && watches == old(watches) &&
        calls == old(calls) + ScaleCalls([], deployment.metadata.name, replicas, old(watcher), old(watches), scaled.metadata.name)
      // Whatever happens, a watcher that could be released still can be.
      ensures replicas >= 0 && old(Feedable()) ==> Feedable()
    {
      var current := deployment.replicas;
      if current == replicas {
        return Ok(deployment);
      }
      var o := PreScaleChecked(deployment, replicas, current, selected);
      if o.Fail? {
        return Err(o.error);
      }
      r := Settle(deployment.metadata.name, replicas, scaled.metadata.name, ready);
      if current > replicas {
        SeqAssoc(old(calls) + [List(PodKind, deployment.selector)], Subscribes(PodWatches(selected, watcher)),
                 SettleCalls(deployment.metadata.name, replicas, watcher, watches, scaled.metadata.name));
      } else {
        assert Subscribes<DeleteWatcher?>([]) == [];
      }
    }

    method PreScaleChecked(deployment: Deployment, replicas: int, current: int, selected: seq<Pod>) returns (o: Outcome)
      modifies this
      ensures current <= replicas ==>
        o == Pass && calls == old(calls) && watches == old(watches) && watcher == old(watcher)
      ensures current > replicas && |selected| != current ==>
        o == Fail(TestKube(MismatchMessage(|selected|, current))) &&
        watcher == old(watcher) && watches == old(watches) && calls == old(calls) + [List(PodKind, deployment.selector)]
      ensures current > replicas && |selected| == current ==>
        o == Pass && watcher != null && fresh(watcher) && watcher.count == current - replicas &&
        watches == old(watches) + PodWatches(selected, watcher) &&
        calls == old(calls) + [List(PodKind, deployment.selector)] + Subscribes(PodWatches(selected, watcher))
      ensures replicas >= 0 && old(Feedable()) ==> Feedable()
    {
      if current > replicas {
        calls := calls + [List(PodKind, deployment.selector)];
        if |selected| != current {
          return Fail(TestKube(MismatchMessage(|selected|, current)));
        }
        var w := new DeleteWatcher.Expecting(current - replicas);
        assert forall k :: 0 <= k < |watches| ==> watches[k].watcher != w;
        FeedingNone(watches, w);
        watcher := w;
        Attach(selected, w);
        FeedingAll(PodWatches(selected, w), w);
        FeedingAppend(old(watches), PodWatches(selected, w), w);
      }
      o := Pass;
    }

    /** The scale call, postScale, and the readiness wait on the result. */
    method Settle(name: string, replicas: int, scaledName: string, ready: Deployment) returns (r: Result<Deployment>)
      modifies this
      ensures r == Ok(ready)
      ensures watcher == old(watcher) && watches == old(watches)
      ensures calls == old(calls) + SettleCalls(name, replicas, watcher, watches, scaledName)
    {
      calls := calls + [ScaleTo(name, replicas)];
      PostScale();
      calls := calls + [AwaitReady(DeploymentKind, scaledName)];
      r := Ok(ready);
    }

    /** preScale's loop: watch each selected pod with `w`. */
    method Attach(selected: seq<Pod>, w: DeleteWatcher?)
      modifies this
      ensures watcher == old(watcher)
      ensures watches == old(watches) + PodWatches(selected, w)
      ensures calls == old(calls) + Subscribes(PodWatches(selected, w))
    {
      ghost var done: seq<Watch<DeleteWatcher?>> := [];
      for i := 0 to |selected|
        invariant watcher == old(watcher)
        invariant done == PodWatches(selected[..i], w)
        invariant watches == old(watches) + done
        invariant calls == old(calls) + Subscribes(done)
      {
        var watch := WatchPod(selected[i], w);
        PodWatchesSnoc(selected, i, w);
        SubscribesSnoc(done, watch);
        SeqAssoc(old(watches), done, [watch]);
        SeqAssoc(old(calls), Subscribes(done), [Subscribe(watch)]);
        done := done + [watch];
      }
      assert selected[..|selected|] == selected;
    }

    /** client.pods().resource(p).watch(w), kept in `watches`. */
    method WatchPod(p: Pod, w: DeleteWatcher?) returns (watch: Watch<DeleteWatcher?>)
      modifies this
      ensures watch == Watch(PodKind, p.metadata.name, w)
      ensures watcher == old(watcher)
      ensures watches == old(watches) + [watch]
      ensures calls == old(calls) + [Subscribe(watch)]
    {
      watch := Watch(PodKind, p.metadata.name, w);
      watches := watches + [watch];
      calls := calls + [Subscribe(watch)];
    }

    method PostScale()
      modifies this
      ensures watcher == old(watcher) && watches == old(watches)
      ensures calls == old(calls) + PostScaleCalls(watcher, watches)
    {
      if watcher != null {
        calls := calls + [AwaitDeleted(watcher)];
      }
      ghost var awaited := calls;
      var i := 0;
      while i < |watches|
        invariant 0 <= i <= |watches|
        invariant watcher == old(watcher) && watches == old(watches)
        invariant calls == awaited + Closes(watches[..i])
      {
        assert watches[..i + 1][..i] == watches[..i];
        calls := calls + [Close(watches[i])];
        i := i + 1;
      }
      assert watches[..i] == watches;
    }
  }

  /** A failed scale-down check followed by a scale-up, as the controller
      is written: the first call leaves a watcher expecting two deletions
      that no watch feeds, and the second call's postScale waits on it, so
      it can never return. Deployment "web" has 3 replicas; scaling it to 1
      lists only 2 pods, then scaling it to 5 follows. */
  method StaleWatcherScenario() returns (c: DeploymentScaleController, first: Result<Deployment>, second: Result<Deployment>)
    ensures first == Err(TestKube(MismatchMessage(2, 3))) && second.Ok?
    ensures c.watcher != null && c.watcher.count == 2 && Feeding(c.watches, c.watcher) == 0
    ensures AwaitDeleted(c.watcher) in c.calls
  {
    var d := Deployment(Metadata("web", map[]), 3, map["app" := "web"], map["app" := "web"]);
    var pods := [Pod(Metadata("web-a", map["app" := "web"])), Pod(Metadata("web-b", map["app" := "web"]))];
    c := new DeploymentScaleController();
    first := c.Scale(d, 1, pods, d, d);
    var stale := c.watcher;
    ghost var before := c.calls;
    second := c.Scale(d, 5, pods, d, d);
    var post := PostScaleCalls(stale, []);
    assert post[0] == AwaitDeleted(stale);
    assert c.calls == before + Subscribes([]) + [ScaleTo("web", 5)] + post + [AwaitReady(DeploymentKind, "web")];
    assert c.calls[|before| + 1] == AwaitDeleted(stale);
  }
}
