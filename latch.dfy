// The counting semantics of java.util.concurrent.CountDownLatch as both
// DeleteWatcher versions use it, and the watch actions they receive.
// Blocking and timed awaits are not modelled: `await()` returns exactly
// when the count is 0.

module Latch {

  /** The actions of a fabric8 Watcher event. */
  datatype Action = Added | Modified | Deleted | WatchError | Bookmark

  /** countDown(): one less, but never below zero. */
  function CountDown(count: nat): (r: nat)
    ensures count == 0 ==> r == 0
    ensures count > 0 ==> r + 1 == count
  {
    if count == 0 then 0 else count - 1
  }

  /** The count after one event: only DELETED counts down. */
  function AfterEvent(count: nat, action: Action): (r: nat)
    ensures action == Deleted ==> r == CountDown(count)
    ensures action != Deleted ==> r == count
  {
    if action == Deleted then CountDown(count) else count
  }

  /** The count after a stream of events, in order. */
  function AfterEvents(count: nat, events: seq<Action>): (r: nat)
    ensures r <= count
    ensures count - Deletions(events) <= r
  {
    if events == [] then count
    else AfterEvents(AfterEvent(count, events[0]), events[1..])
  }

  /** How many DELETED events a stream holds. */
  function Deletions(events: seq<Action>): (r: nat)
    ensures r <= |events|
  {
    if events == [] then 0
    else (if events[0] == Deleted then 1 else 0) + Deletions(events[1..])
  }

  lemma {:induction false} DeletionsAppend(a: seq<Action>, b: seq<Action>)
    ensures Deletions(a + b) == Deletions(a) + Deletions(b)
  {
    if a == [] {
      assert a + b == b;
    } else {
      assert (a + b)[1..] == a[1..] + b;
      DeletionsAppend(a[1..], b);
    }
  }

  /** Closed form: every DELETED event takes one off the count until it is
      0, whatever other events are interleaved. */
  lemma {:induction false} AfterEventsCountsDeletions(count: nat, events: seq<Action>)
    ensures AfterEvents(count, events) == if Deletions(events) >= count then 0 else count - Deletions(events)
  {
    if events != [] {
      AfterEventsCountsDeletions(AfterEvent(count, events[0]), events[1..]);
    }
  }

  /** The latch is open after a stream exactly when it held at least
      `count` DELETED events. */
  lemma OpenExactlyAfterCountDeletions(count: nat, events: seq<Action>)
    ensures AfterEvents(count, events) == 0 <==> Deletions(events) >= count
  {
    AfterEventsCountsDeletions(count, events);
  }

  /** Events that are not DELETED never move the latch. */
  lemma {:induction false} OtherEventsIgnored(count: nat, events: seq<Action>)
    requires forall i :: 0 <= i < |events| ==> events[i] != Deleted
    ensures AfterEvents(count, events) == count
  {
    if events != [] {
      OtherEventsIgnored(count, events[1..]);
    }
  }

  /** Once open, the latch stays open whatever follows. */
  lemma {:induction false} OpenStaysOpen(events: seq<Action>)
    ensures AfterEvents(0, events) == 0
  {
    if events != [] {
      OpenStaysOpen(events[1..]);
    }
  }

  /** Any strict prefix of the stream that contains fewer than `count`
      DELETED events leaves the latch closed: it does not open early. */
  lemma NotOpenBeforeCountDeletions(count: nat, events: seq<Action>, k: nat)
    requires k <= |events|
    requires Deletions(events[..k]) < count
    ensures AfterEvents(count, events[..k]) > 0
  {
    AfterEventsCountsDeletions(count, events[..k]);
  }
}
