// The fabric8 client calls the controllers issue, as a log. The client
// itself is not modelled: what a call returns is an input of the
// operation that makes it, and the log records which calls were made
// and in what order, so that orderings such as "watch before delete"
// can be stated.

module Client {
  import opened Resources

  /** A watch opened on the named resource, feeding `watcher`. */
  datatype Watch<+W> = Watch(kind: Kind, name: string, watcher: W)

  datatype Call<+W> =
    | List(kind: Kind, selector: map<string, string>)  // withLabelSelector(..).list() / withLabel(..).list()
    | Subscribe(watch: Watch<W>)                       // resource(..).watch(watcher)
    | Delete(kind: Kind, name: string)                 // resource(..).delete()
    | ScaleTo(name: string, replicas: int)             // resource(..).scale(replicas)
    | AwaitReady(kind: Kind, name: string)             // resource(..).waitUntilReady(..)
    | AwaitDeleted(watcher: W)                         // watcher.waitUntilDeleted()
    | Close(watch: Watch<W>)                           // watch.close()
    | RunProbes(probes: map<string, ProvisioningProbe>) // provisioningProbeController.runAll(..)

  /** watch(..) for each of `ws`, in order. */
  function Subscribes<W>(ws: seq<Watch<W>>): (r: seq<Call<W>>)
    ensures |r| == |ws|
    ensures forall i {:trigger r[i]} :: 0 <= i < |ws| ==> r[i] == Subscribe(ws[i])
  {
    if ws == [] then [] else Subscribes(ws[..|ws| - 1]) + [Subscribe(ws[|ws| - 1])]
  }

  lemma SubscribesSnoc<W>(ws: seq<Watch<W>>, x: Watch<W>)
    ensures Subscribes(ws + [x]) == Subscribes(ws) + [Subscribe(x)]
  {
    assert (ws + [x])[..|ws|] == ws;
  }

  /** resource(..).waitUntilReady(..) for each named resource, in order. */
  function Readies<W>(kind: Kind, names: seq<string>): (r: seq<Call<W>>)
    ensures |r| == |names|
    ensures forall i {:trigger r[i]} :: 0 <= i < |names| ==> r[i] == AwaitReady(kind, names[i])
  {
    if names == [] then [] else Readies(kind, names[..|names| - 1]) + [AwaitReady(kind, names[|names| - 1])]
  }

  lemma ReadiesSnoc<W>(kind: Kind, names: seq<string>, n: string)
    ensures Readies<W>(kind, names + [n]) == Readies<W>(kind, names) + [AwaitReady(kind, n)]
  {
    assert (names + [n])[..|names|] == names;
  }

  /** watch.close() for each of `ws`, in order. */
  function Closes<W>(ws: seq<Watch<W>>): (r: seq<Call<W>>)
    ensures |r| == |ws|
    ensures forall i {:trigger r[i]} :: 0 <= i < |ws| ==> r[i] == Close(ws[i])
  {
    if ws == [] then [] else Closes(ws[..|ws| - 1]) + [Close(ws[|ws| - 1])]
  }

  /** watcher.waitUntilDeleted() for each of `ws`, in order. */
  function Awaits<W>(ws: seq<W>): (r: seq<Call<W>>)
    ensures |r| == |ws|
    ensures forall i {:trigger r[i]} :: 0 <= i < |ws| ==> r[i] == AwaitDeleted(ws[i])
  {
    if ws == [] then [] else Awaits(ws[..|ws| - 1]) + [AwaitDeleted(ws[|ws| - 1])]
  }

  /** The watchers of `ws`, in order. */
  function Watchers<W>(ws: seq<Watch<W>>): (r: seq<W>)
    ensures |r| == |ws|
    ensures forall i {:trigger r[i]} :: 0 <= i < |ws| ==> r[i] == ws[i].watcher
  {
    if ws == [] then [] else Watchers(ws[..|ws| - 1]) + [ws[|ws| - 1].watcher]
  }

  /** The number of watches in `ws` that feed `w`. */
  function Feeding<W(==)>(ws: seq<Watch<W>>, w: W): (r: nat)
    ensures r <= |ws|
  {
    if ws == [] then 0
    else Feeding(ws[..|ws| - 1], w) + (if ws[|ws| - 1].watcher == w then 1 else 0)
  }

  lemma {:induction false} FeedingAppend<W>(a: seq<Watch<W>>, b: seq<Watch<W>>, w: W)
    ensures Feeding(a + b, w) == Feeding(a, w) + Feeding(b, w)
    decreases |b|
  {
    if b == [] {
      assert a + b == a;
    } else {
      assert (a + b)[..|a + b| - 1] == a + b[..|b| - 1];
      FeedingAppend(a, b[..|b| - 1], w);
    }
  }

  /** Watches that all feed `w` feed it once each. */
  lemma {:induction false} FeedingAll<W>(ws: seq<Watch<W>>, w: W)
    requires forall i :: 0 <= i < |ws| ==> ws[i].watcher == w
    ensures Feeding(ws, w) == |ws|
    decreases |ws|
  {
    if ws != [] {
      FeedingAll(ws[..|ws| - 1], w);
    }
  }

  /** Watches none of which feeds `w` do not feed it. */
  lemma {:induction false} FeedingNone<W>(ws: seq<Watch<W>>, w: W)
    requires forall i :: 0 <= i < |ws| ==> ws[i].watcher != w
    ensures Feeding(ws, w) == 0
    decreases |ws|
  {
    if ws != [] {
      FeedingNone(ws[..|ws| - 1], w);
    }
  }
}
