// What destroyAsync does to the watch list and the call log, as
// functions of the resources it visits and the delete watchers it
// creates (one per watch, in order). Shared by the current and the
// legacy provisioning controllers.

module Destruction {
  import opened Resources
  import opened Client

  /** watch then delete, for one resource with its own watcher. */
  function WatchThenDelete<W>(kind: Kind, name: string, w: W): seq<Call<W>>
  {
    [Subscribe(Watch(kind, name, w)), Delete(kind, name)]
  }

  /** The watches and calls for `names` of one kind, one watcher each. */
  function ResourceWatches<W>(kind: Kind, names: seq<string>, ws: seq<W>): (r: seq<Watch<W>>)
    requires |ws| == |names|
    ensures |r| == |names|
    ensures forall i {:trigger r[i]} :: 0 <= i < |r| ==> r[i] == Watch(kind, names[i], ws[i])
  {
    if names == [] then []
    else ResourceWatches(kind, names[..|names| - 1], ws[..|ws| - 1]) + [Watch(kind, names[|names| - 1], ws[|ws| - 1])]
  }

  function ResourceCalls<W>(kind: Kind, names: seq<string>, ws: seq<W>): seq<Call<W>>
    requires |ws| == |names|
  {
    if names == [] then []
    else ResourceCalls(kind, names[..|names| - 1], ws[..|ws| - 1]) + WatchThenDelete(kind, names[|names| - 1], ws[|ws| - 1])
  }

  /** How many watches the deployments loop adds: one per deployment plus
      one per pod its selector lists. */
  function DeploymentsCount(ds: seq<Deployment>, select: map<string, string> -> seq<Pod>): nat
  {
    if ds == [] then 0
    else DeploymentsCount(ds[..|ds| - 1], select) + 1 + |select(ds[|ds| - 1].selector)|
  }

  /** One deployment: its own watch, then one per listed pod. */
  function DeploymentWatches<W>(d: Deployment, pods: seq<Pod>, ws: seq<W>): seq<Watch<W>>
    requires |ws| == 1 + |pods|
  {
    [Watch(DeploymentKind, d.metadata.name, ws[0])] + ResourceWatches(PodKind, PodNames(pods), ws[1..])
  }

  /** watch the deployment, list its pods, watch each pod, delete the deployment. */
  function DeploymentCalls<W>(d: Deployment, pods: seq<Pod>, ws: seq<W>): seq<Call<W>>
    requires |ws| == 1 + |pods|
  {
    [Subscribe(Watch(DeploymentKind, d.metadata.name, ws[0]))] + [List(PodKind, d.selector)] +
    Subscribes(ResourceWatches(PodKind, PodNames(pods), ws[1..])) +
    [Delete(DeploymentKind, d.metadata.name)]
  }

  function DeploymentsWatches<W>(ds: seq<Deployment>, select: map<string, string> -> seq<Pod>, ws: seq<W>): seq<Watch<W>>
    requires |ws| == DeploymentsCount(ds, select)
  {
    if ds == [] then []
    else
      var k := 1 + |select(ds[|ds| - 1].selector)|;
      DeploymentsWatches(ds[..|ds| - 1], select, ws[..|ws| - k]) +
      DeploymentWatches(ds[|ds| - 1], select(ds[|ds| - 1].selector), ws[|ws| - k..])
  }

  function DeploymentsCalls<W>(ds: seq<Deployment>, select: map<string, string> -> seq<Pod>, ws: seq<W>): seq<Call<W>>
    requires |ws| == DeploymentsCount(ds, select)
  {
    if ds == [] then []
    else
      var k := 1 + |select(ds[|ds| - 1].selector)|;
      DeploymentsCalls(ds[..|ds| - 1], select, ws[..|ws| - k]) +
      DeploymentCalls(ds[|ds| - 1], select(ds[|ds| - 1].selector), ws[|ws| - k..])
  }

  /** Every delete in `c` comes after a watch on the same resource. */
  ghost predicate WatchedBeforeDelete<W>(c: seq<Call<W>>)
  {
    forall j :: 0 <= j < |c| && c[j].Delete? ==>
      exists i :: 0 <= i < j && c[i].Subscribe? && c[i].watch.kind == c[j].kind && c[i].watch.name == c[j].name
  }

  lemma WatchedBeforeDeleteAppend<W>(a: seq<Call<W>>, b: seq<Call<W>>)
    requires WatchedBeforeDelete(a) && WatchedBeforeDelete(b)
    ensures WatchedBeforeDelete(a + b)
  {
    var c := a + b;
    forall j | 0 <= j < |c| && c[j].Delete?
      ensures exists i :: 0 <= i < j && c[i].Subscribe? && c[i].watch.kind == c[j].kind && c[i].watch.name == c[j].name
    {
      if j < |a| {
        var i :| 0 <= i < j && a[i].Subscribe? && a[i].watch.kind == a[j].kind && a[i].watch.name == a[j].name;
        assert c[i] == a[i];
      } else {
        assert b[j - |a|] == c[j];
        var i :| 0 <= i < j - |a| && b[i].Subscribe? && b[i].watch.kind == b[j - |a|].kind && b[i].watch.name == b[j - |a|].name;
        assert c[i + |a|] == b[i];
      }
    }
  }

  /** Each resource's watch is attached before its delete is issued. */
  lemma {:induction false} ResourceCallsWatchFirst<W>(kind: Kind, names: seq<string>, ws: seq<W>)
    requires |ws| == |names|
    ensures WatchedBeforeDelete(ResourceCalls(kind, names, ws))
  {
    if names != [] {
      var n := names[|names| - 1];
      ResourceCallsWatchFirst(kind, names[..|names| - 1], ws[..|ws| - 1]);
      var b := WatchThenDelete(kind, n, ws[|ws| - 1]);
      assert b[1].Delete? && b[0].Subscribe?;
      assert WatchedBeforeDelete(b);
      WatchedBeforeDeleteAppend(ResourceCalls(kind, names[..|names| - 1], ws[..|ws| - 1]), b);
    }
  }

  lemma DeploymentCallsWatchFirst<W>(d: Deployment, pods: seq<Pod>, ws: seq<W>)
    requires |ws| == 1 + |pods|
    ensures WatchedBeforeDelete(DeploymentCalls(d, pods, ws))
  {
    var c := DeploymentCalls(d, pods, ws);
    var subs := Subscribes(ResourceWatches(PodKind, PodNames(pods), ws[1..]));
    assert forall j :: 0 <= j < |c| - 1 ==> !c[j].Delete? by {
      forall j | 0 <= j < |c| - 1 ensures !c[j].Delete? {
        if j >= 2 { assert c[j] == subs[j - 2]; }
      }
    }
    assert c[0].Subscribe? && c[0].watch.kind == DeploymentKind && c[0].watch.name == d.metadata.name;
  }

  lemma {:induction false} DeploymentsCallsWatchFirst<W>(ds: seq<Deployment>, select: map<string, string> -> seq<Pod>, ws: seq<W>)
    requires |ws| == DeploymentsCount(ds, select)
    ensures WatchedBeforeDelete(DeploymentsCalls(ds, select, ws))
  {
    if ds != [] {
      var k := 1 + |select(ds[|ds| - 1].selector)|;
      DeploymentsCallsWatchFirst(ds[..|ds| - 1], select, ws[..|ws| - k]);
      DeploymentCallsWatchFirst(ds[|ds| - 1], select(ds[|ds| - 1].selector), ws[|ws| - k..]);
      WatchedBeforeDeleteAppend(DeploymentsCalls(ds[..|ds| - 1], select, ws[..|ws| - k]),
                                DeploymentCalls(ds[|ds| - 1], select(ds[|ds| - 1].selector), ws[|ws| - k..]));
    }
  }

  /** The watches carry the new watchers in order: watches and watchers
      stay in lockstep. */
  lemma {:induction false} ResourceWatchesCarry<W>(kind: Kind, names: seq<string>, ws: seq<W>)
    requires |ws| == |names|
    ensures Watchers(ResourceWatches(kind, names, ws)) == ws
  {
  }

  lemma DeploymentWatchesCarry<W>(d: Deployment, pods: seq<Pod>, ws: seq<W>)
    requires |ws| == 1 + |pods|
    ensures |DeploymentWatches(d, pods, ws)| == |ws|
    ensures Watchers(DeploymentWatches(d, pods, ws)) == ws
  {
    var rest := ResourceWatches(PodKind, PodNames(pods), ws[1..]);
    ResourceWatchesCarry(PodKind, PodNames(pods), ws[1..]);
    WatchersAppend([Watch(DeploymentKind, d.metadata.name, ws[0])], rest);
    assert ws == [ws[0]] + ws[1..];
  }

  lemma {:induction false} DeploymentsWatchesCarry<W>(ds: seq<Deployment>, select: map<string, string> -> seq<Pod>, ws: seq<W>)
    requires |ws| == DeploymentsCount(ds, select)
    ensures |DeploymentsWatches(ds, select, ws)| == |ws|
    ensures Watchers(DeploymentsWatches(ds, select, ws)) == ws
  {
    if ds != [] {
      var init, d := ds[..|ds| - 1], ds[|ds| - 1];
      var k := 1 + |select(d.selector)|;
      var front, last := ws[..|ws| - k], ws[|ws| - k..];
      DeploymentsUnfold(ds, select, ws);
      DeploymentsWatchesCarry(init, select, front);
      DeploymentWatchesCarry(d, select(d.selector), last);
      WatchersAppend(DeploymentsWatches(init, select, front), DeploymentWatches(d, select(d.selector), last));
    }
  }

  /** The last step of the deployments loop, peeled off. */
  lemma DeploymentsUnfold<W>(ds: seq<Deployment>, select: map<string, string> -> seq<Pod>, ws: seq<W>)
    requires ds != [] && |ws| == DeploymentsCount(ds, select)
    ensures var k := 1 + |select(ds[|ds| - 1].selector)|;
      k <= |ws| && |ws[..|ws| - k]| == DeploymentsCount(ds[..|ds| - 1], select) &&
      ws == ws[..|ws| - k] + ws[|ws| - k..] &&
      DeploymentsWatches(ds, select, ws) ==
        DeploymentsWatches(ds[..|ds| - 1], select, ws[..|ws| - k]) +
        DeploymentWatches(ds[|ds| - 1], select(ds[|ds| - 1].selector), ws[|ws| - k..])
  {
  }

  lemma WatchersAppend<W>(a: seq<Watch<W>>, b: seq<Watch<W>>)
    ensures Watchers(a + b) == Watchers(a) + Watchers(b)
  {
    assert forall i :: 0 <= i < |a + b| ==> Watchers(a + b)[i] == (Watchers(a) + Watchers(b))[i];
  }

  lemma ResourceSnoc<W>(kind: Kind, names: seq<string>, ws: seq<W>, n: string, w: W)
    requires |ws| == |names|
    ensures ResourceWatches(kind, names + [n], ws + [w]) == ResourceWatches(kind, names, ws) + [Watch(kind, n, w)]
    ensures ResourceCalls(kind, names + [n], ws + [w]) == ResourceCalls(kind, names, ws) + WatchThenDelete(kind, n, w)
  {
    assert (names + [n])[..|names|] == names;
    assert (ws + [w])[..|ws|] == ws;
  }

  lemma DeploymentsSnoc<W>(ds: seq<Deployment>, select: map<string, string> -> seq<Pod>, ws: seq<W>, d: Deployment, more: seq<W>)
    requires |ws| == DeploymentsCount(ds, select)
    requires |more| == 1 + |select(d.selector)|
    ensures DeploymentsCount(ds + [d], select) == |ws| + |more|
    ensures DeploymentsWatches(ds + [d], select, ws + more) ==
      DeploymentsWatches(ds, select, ws) + DeploymentWatches(d, select(d.selector), more)
    ensures DeploymentsCalls(ds + [d], select, ws + more) ==
      DeploymentsCalls(ds, select, ws) + DeploymentCalls(d, select(d.selector), more)
  {
    assert (ds + [d])[..|ds|] == ds;
    assert (ws + more)[..|ws|] == ws;
    assert (ws + more)[|ws|..] == more;
  }
}
