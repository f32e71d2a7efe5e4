// The current DeleteWatcher: a watch callback that counts DELETED events
// down on a latch; waitUntilDeleted() returns once the latch reaches 0.

module Watchers {
  import opened Common
  import opened Latch

  const WATCH_CLOSED := "Watch closed exceptional."
  const NEGATIVE_COUNT := "count < 0"

  class DeleteWatcher {
    /** The count of the watcher's CountDownLatch. */
    var count: nat

    /** DeleteWatcher(): one DELETED event is expected. */
    constructor ()
      ensures count == 1
    {
      count := 1;
    }

    /** DeleteWatcher(count) for a count already known to be valid. */
    constructor Expecting(n: nat)
      ensures count == n
    {
      count := n;
    }

    /** DeleteWatcher(count): CountDownLatch rejects a negative count with
        IllegalArgumentException, so construction fails for n < 0. */
    static method Create(n: int) returns (r: Result<DeleteWatcher>)
      ensures r.Err? <==> n < 0
      ensures r.Ok? ==> fresh(r.value) && r.value.count == n
    {
      if n < 0 {
        r := Err(IllegalArgument(NEGATIVE_COUNT));
        return;
      }
      var w := new DeleteWatcher.Expecting(n);
      r := Ok(w);
    }

    /** eventReceived: DELETED counts down, all other actions are ignored. */
    method EventReceived(action: Action)
      modifies this
      ensures count == AfterEvent(old(count), action)
      ensures action == Action.Deleted ==> count == CountDown(old(count))
      ensures action != Action.Deleted ==> count == old(count)
    {
      if action == Action.Deleted {
        count := CountDown(count);
      }
    }

    /** onClose always raises TestKubeException. */
    method OnClose() returns (r: Outcome)
      ensures r == Fail(TestKube(WATCH_CLOSED))
    {
      r := Fail(TestKube(WATCH_CLOSED));
    }

    /** The condition on which waitUntilDeleted() returns: once it holds,
        no event can undo it; until it does, a deletion brings it closer. */
    function Deleted(): (r: bool)
      reads this
      ensures r ==> forall a :: AfterEvent(count, a) == 0
      ensures !r ==> AfterEvent(count, Action.Deleted) < count
    {
      count == 0
    }
  }
}
