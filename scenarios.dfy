/**
 * Client code: what a caller can conclude from the contracts of
 * `OutputFlowControl` alone, on concrete runs of the controller.
 */
module Scenarios {
  import opened FlowControl
  import opened Awaitables
  import opened OutputFlow

  /**
   * Window 100, no credit, a producer that can send without waiting; a
   * settings change of -150 drives the window to -50 and is accepted; a
   * second producer waits; an update of 80 brings the window to 30 and
   * releases it; the window is 30 when it is completed.
   */
  method NegativeWindowThenRelease()
  {
    var c := new OutputFlowControl(100);
    c.Advance(0);
    assert c.Available() == 100;
    var ok := c.TryUpdateWindow(-150);
    assert ok && c.Available() == -50 && !c.IsAborted();
    var b := c.AvailabilityAwaitable();
    assert c.queue == [b];
    ok := c.TryUpdateWindow(80);
    assert ok && c.Available() == 30;
    assert c.queue == [] && c.status[b] == Completed;
    assert c.wakeLog == [Wake(b, false, 30)];
  }

  /**
   * Window 0 and two waiters C then D. A credit wakes nobody; the next
   * accepted window update that leaves the window positive releases both,
   * C first, although only one byte is available.
   */
  method TwoWaitersReleasedInOrder()
  {
    var c := new OutputFlowControl(0);
    var first := c.AvailabilityAwaitable();
    var second := c.AvailabilityAwaitable();
    assert first != second;
    c.Advance(1);
    assert c.queue == [first, second] && c.wakeLog == [];
    var ok := c.TryUpdateWindow(0);
    assert ok && c.Available() == 1;
    DrainIntendedWakesAllEligible(1, true, [first, second]);
    assert c.queue == [];
    assert c.wakeLog == [Wake(first, false, 1), Wake(second, false, 1)];
    WakesAreInOrder([first, second], false, 1);
    assert WokenIds(c.wakeLog) == [first, second];
  }

  /** An update past 2^31-1 is refused and leaves the waiter queued. */
  method OversizedUpdateRefused()
  {
    var c := new OutputFlowControl(0);
    var w := c.AvailabilityAwaitable();
    var ok := c.TryUpdateWindow(MaxWindowSize + 1);
    assert !ok && c.Available() == 0 && c.queue == [w] && c.status[w] == Pending;
  }

  /**
   * Abort releases every waiter, each observing the abort; aborting again
   * changes nothing; the controller can then be reused with a fresh window,
   * and a waiter registered after that may be a reused awaitable.
   */
  method AbortThenReuse()
  {
    var c := new OutputFlowControl(0);
    var first := c.AvailabilityAwaitable();
    var second := c.AvailabilityAwaitable();
    assert c.spare == {} && c.queue == [first, second];
    c.Abort();
    assert [first, second][0] == first && [first, second][1] == second;
    assert Elems([first, second]) == {first, second};
    assert c.spare == {first, second};
    assert c.IsAborted() && c.queue == [];
    assert c.wakeLog == [Wake(first, true, 0), Wake(second, true, 0)];
    ghost var log := c.wakeLog;
    c.Abort();
    assert c.wakeLog == log && c.queue == [];
    assert c.spare == {first, second};
    c.Reset(65535);
    assert c.Available() == 65535 && !c.IsAborted();
    var b := c.TryUpdateWindow(-65535);
    assert b && c.Available() == 0;
    assert c.spare == {first, second};
    ghost var known := c.status.Keys;
    var again := c.AvailabilityAwaitable();
    assert again == first || again == second || again !in known;
    assert c.queue == [again] && c.status[again] == Pending;
  }

  /** `Reset` of a controller whose queue was never allocated: allowed by the intended check. */
  method ResetWithoutQueue()
  {
    var c := new OutputFlowControl(10);
    assert !c.queueAllocated;
    assert ResetAssertAsWritten(c.queueAllocated, |c.queue|) == NullDereference;
    c.Reset(20);
    assert c.Available() == 20;
  }
}
