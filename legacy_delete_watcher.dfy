// The legacy DeleteWatcher: a latch fixed at one, a switch that counts
// DELETED down and only logs MODIFIED and ADDED, and an onClose that does
// nothing.

module LegacyWatchers {
  import opened Common
  import opened Latch

  class DeleteWatcher {
    /** The count of the watcher's CountDownLatch, created with 1. */
    var count: nat

    constructor ()
      ensures count == 1
    {
      count := 1;
    }

    /** eventReceived: the DELETED case counts down; MODIFIED, ADDED and the
        actions without a case leave the count alone. */
    method EventReceived(action: Action)
      modifies this
      ensures count == AfterEvent(old(count), action)
      ensures action == Action.Deleted ==> count == CountDown(old(count))
      ensures action != Action.Deleted ==> count == old(count)
    {
      match action
      case Deleted => count := CountDown(count);
      case Modified =>
      case Added =>
      case _ =>
    }

    /** onClose does nothing and cannot fail. */
    method OnClose() returns (r: Outcome)
      ensures r == Pass
    {
      r := Pass;
    }

    /** The condition on which waitUntilDeleted() returns: once it holds,
        no event can undo it; until it does, a deletion brings it closer. */
    function Deleted(): (r: bool)
      reads this
      ensures r ==> forall a :: AfterEvent(count, a) == 0
      ensures !r ==> AfterEvent(count, Action.Deleted) < count
    {
      count == 0
    }
  }

  /** A legacy watcher is satisfied after its first DELETED event, and stays
      satisfied whatever events follow. */
  lemma {:induction false} SatisfiedFromFirstDeletion(before: seq<Action>, after: seq<Action>)
    requires forall i :: 0 <= i < |before| ==> before[i] != Action.Deleted
    ensures AfterEvents(1, before) == 1
    ensures AfterEvents(1, before + [Action.Deleted] + after) == 0
  {
    OtherEventsIgnored(1, before);
    AfterEventsCountsDeletions(1, before + [Action.Deleted] + after);
    DeletionsAppend(before + [Action.Deleted], after);
    DeletionsAppend(before, [Action.Deleted]);
    assert [Action.Deleted][1..] == [];
  }
}
