/**
 * The wake-up signals that `OutputFlowControl` hands to producers.
 *
 * A signal (a `ManualResetValueTaskSource<object>` in the source) is modelled
 * only as an identity and a state: it is pending until `TrySetResult`
 * completes it, and `Reset` makes a reused one pending again. The
 * continuation that a completion resumes is not modelled; instead every
 * completion is recorded as a `Wake`, together with the aborted flag and the
 * window at the moment of completion. A producer resumed later may find a
 * different state when it re-checks the controller.
 */
module Awaitables {

  /** Identity of one awaitable object. */
  type WaiterId = nat

  datatype Signal = Pending | Completed

  /** One completion: which awaitable, and the aborted flag and window it was completed under. */
  datatype Wake = Wake(id: WaiterId, sawAborted: bool, sawAvailable: int)

  /**
   * The signal states after completing every awaitable of `ids`: exactly those
   * become completed, every other state is kept. Completing one twice is the
   * same as completing it once (`TrySetResult` on a completed source is a no-op).
   */
  function CompleteAll(status: map<WaiterId, Signal>, ids: seq<WaiterId>): map<WaiterId, Signal>
  {
    map id | id in status :: if id in ids then Completed else status[id]
  }

  /** The wake records of completing `ids` in order while the controller shows `aborted` and `available`. */
  function Wakes(ids: seq<WaiterId>, aborted: bool, available: int): (r: seq<Wake>)
    ensures |r| == |ids|
  {
    seq(|ids|, i requires 0 <= i < |ids| => Wake(ids[i], aborted, available))
  }

  /** The awaitables a log of wake records completed, in completion order. */
  function WokenIds(log: seq<Wake>): (r: seq<WaiterId>)
    ensures |r| == |log|
    ensures forall i :: 0 <= i < |log| ==> r[i] == log[i].id
    decreases |log|
  {
    if log == [] then [] else [log[0].id] + WokenIds(log[1..])
  }

  /** The awaitables of a sequence, as a set. */
  function Elems(ids: seq<WaiterId>): set<WaiterId>
  {
    set i | 0 <= i < |ids| :: ids[i]
  }

  /** Completing a list of awaitables twice leaves the same states as completing it once. */
  lemma CompleteAllIdempotent(status: map<WaiterId, Signal>, ids: seq<WaiterId>)
    requires forall i :: 0 <= i < |ids| ==> ids[i] in status
    ensures CompleteAll(CompleteAll(status, ids), ids) == CompleteAll(status, ids)
  {
  }

  /** Completing `a ++ b` is completing `a`, then `b`: the drain may be taken one waiter at a time. */
  lemma CompleteAllAppend(status: map<WaiterId, Signal>, a: seq<WaiterId>, b: seq<WaiterId>)
    requires forall i :: 0 <= i < |a| ==> a[i] in status
    requires forall i :: 0 <= i < |b| ==> b[i] in status
    ensures CompleteAll(status, a + b) == CompleteAll(CompleteAll(status, a), b)
  {
  }

  /** The wake log of a drain names exactly the drained awaitables, in the same (FIFO) order. */
  lemma WakesAreInOrder(ids: seq<WaiterId>, aborted: bool, available: int)
    ensures WokenIds(Wakes(ids, aborted, available)) == ids
  {
  }
}
