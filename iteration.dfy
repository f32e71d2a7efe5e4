// Iterating a HashMap: every key once, in an order the model does not
// fix. Operations that loop over a map return that order as a ghost
// value, and their results are stated in terms of it.

module Iteration {

  /** `order` lists each key of `m` exactly once. */
  ghost predicate Enumerates<T>(order: seq<string>, m: map<string, T>)
  {
    |order| == |m.Keys| &&
    (forall i :: 0 <= i < |order| ==> order[i] in m) &&
    (forall k :: k in m ==> k in order)
  }

  /** The values of `m` in the order `order` visits their keys. */
  function InOrder<T>(m: map<string, T>, order: seq<string>): (r: seq<T>)
    requires forall i :: 0 <= i < |order| ==> order[i] in m
    ensures |r| == |order|
    ensures forall i {:trigger r[i]} :: 0 <= i < |order| ==> r[i] == m[order[i]]
  {
    if order == [] then [] else InOrder(m, order[..|order| - 1]) + [m[order[|order| - 1]]]
  }

  /** One more key visited is one more value. */
  lemma InOrderSnoc<T>(m: map<string, T>, order: seq<string>, i: nat)
    requires i < |order| && forall j :: 0 <= j < |order| ==> order[j] in m
    ensures InOrder(m, order[..i + 1]) == InOrder(m, order[..i]) + [m[order[i]]]
  {
    assert order[..i + 1][..i] == order[..i];
  }

  /** The keys of a map in its iteration order: what a for-each over the
      map's entry set visits. */
  method Keys<T>(m: map<string, T>) returns (order: seq<string>)
    ensures Enumerates(order, m)
    ensures forall i :: 0 <= i < |order| ==> order[i] in m
  {
    var todo := m.Keys;
    order := [];
    VisitStart(m);
    while todo != {}
      invariant Visiting(m, todo, order)
      decreases todo
    {
      var n :| n in todo;
      VisitStep(m, todo, order, n);
      order, todo := order + [n], todo - {n};
    }
    VisitEnd(m, order);
  }

  /** The keys visited so far and the keys still to visit split the map. */
  ghost predicate Visiting<T>(m: map<string, T>, todo: set<string>, order: seq<string>)
  {
    todo <= m.Keys &&
    (forall n :: n in order <==> n in m.Keys - todo) &&
    |order| == |m.Keys - todo|
  }

  lemma VisitStart<T>(m: map<string, T>)
    ensures Visiting(m, m.Keys, [])
  {
    assert m.Keys - m.Keys == {};
  }

  lemma VisitStep<T>(m: map<string, T>, todo: set<string>, order: seq<string>, n: string)
    requires Visiting(m, todo, order) && n in todo
    ensures Visiting(m, todo - {n}, order + [n])
  {
    assert m.Keys - (todo - {n}) == (m.Keys - todo) + {n};
  }

  lemma VisitEnd<T>(m: map<string, T>, order: seq<string>)
    requires Visiting(m, {}, order)
    ensures Enumerates(order, m)
  {
    assert m.Keys - {} == m.Keys;
  }

  /** `m` with `f` applied to the value of every key not in `todo`: a
      loop that rewrites each entry in place, part way through. */
  function Updated<T>(m: map<string, T>, todo: set<string>, f: T -> T): (r: map<string, T>)
    ensures r.Keys == m.Keys
    ensures forall n :: n in m ==> r[n] == (if n in todo then m[n] else f(m[n]))
  {
    map n | n in m :: if n in todo then m[n] else f(m[n])
  }

  lemma UpdateStart<T>(m: map<string, T>, f: T -> T)
    ensures Updated(m, m.Keys, f) == m
  {
  }

  /** Rewriting one more entry is one more map update. */
  lemma UpdateStep<T>(m: map<string, T>, todo: set<string>, f: T -> T, n: string)
    requires n in todo && n in m
    ensures Updated(m, todo - {n}, f) == Updated(m, todo, f)[n := f(m[n])]
  {
  }

  lemma UpdateEnd<T>(m: map<string, T>, f: T -> T)
    ensures Updated(m, {}, f) == map n | n in m :: f(m[n])
  {
  }
}
