/**
 * The window that `OutputFlowControl` keeps in its `_flow` field.
 *
 * The `FlowControl` type itself is not part of this model. `Reset` assigns
 * `_flow` a new instance, so the window is modelled as a value (a datatype),
 * and its operations are an ASSUMED arithmetic contract:
 *   - a window update is accepted exactly when the new window stays at or
 *     below 2^31-1, the maximum of section 6.9.1 of RFC 7540;
 *   - a window that goes below zero is legal (section 6.9.2 of RFC 7540);
 *   - `Advance` adds its (signed) argument without a bound check;
 *   - `Abort` only raises the aborted flag.
 */
module FlowControl {

  /** Largest legal flow-control window, 2^31-1 (section 6.9.1 of RFC 7540). */
  const MaxWindowSize: int := 0x7FFF_FFFF

  /** Bytes the sender may still emit (possibly negative) and the aborted flag. */
  datatype Window = Window(available: int, isAborted: bool)

  /** The outcome of `TryUpdateWindow`: whether it was accepted, and the window afterwards. */
  datatype UpdateResult = UpdateResult(ok: bool, window: Window)

  /** `new FlowControl(initialWindowSize)`: a fresh, non-aborted window. */
  function Fresh(initialWindowSize: nat): Window
    requires initialWindowSize <= MaxWindowSize
  {
    Window(initialWindowSize, false)
  }

  /** Adds `bytes` to the window. */
  function Advance(w: Window, bytes: int): Window
  {
    Window(w.available + bytes, w.isAborted)
  }

  /**
   * Applies a signed delta unless the result would exceed the maximum window
   * (assumed rule): the delta is compared with the room left below the maximum.
   */
  function TryUpdate(w: Window, delta: int): (r: UpdateResult)
    ensures r.ok <==> w.available + delta <= MaxWindowSize
    ensures r.ok ==> r.window.available == w.available + delta && r.window.available <= MaxWindowSize
    ensures !r.ok ==> r.window == w
    ensures r.window.isAborted == w.isAborted
  {
    var maxUpdate := MaxWindowSize - w.available;
    if delta > maxUpdate then UpdateResult(false, w)
    else UpdateResult(true, Window(w.available + delta, w.isAborted))
  }

  /** Raises the aborted flag; the window count is kept. */
  function Abort(w: Window): Window
  {
    Window(w.available, true)
  }

  /** A window that a negative delta drives below zero is accepted and stays live. */
  lemma NegativeWindowAccepted(w: Window, delta: int)
    requires w.available + delta < 0
    ensures TryUpdate(w, delta).ok
    ensures TryUpdate(w, delta).window == Window(w.available + delta, w.isAborted)
  {
  }

  /** Aborting twice is the same as aborting once. */
  lemma AbortIdempotent(w: Window)
    ensures Abort(Abort(w)) == Abort(w)
    ensures Abort(w).isAborted && Abort(w).available == w.available
  {
  }

  // ---------------------------------------------------------------------------
  // Runs of window events: the inbound path calls Advance (a credit) or
  // TryUpdateWindow (a signed size change) in some order.

  datatype WindowEvent = Credit(bytes: int) | SizeChange(delta: int)

  function Step(w: Window, e: WindowEvent): Window
  {
    match e
    case Credit(bytes) => Advance(w, bytes)
    case SizeChange(delta) => TryUpdate(w, delta).window
  }

  /** The window after applying `events` in order. */
  function Replay(w: Window, events: seq<WindowEvent>): Window
    decreases |events|
  {
    if events == [] then w else Replay(Step(w, events[0]), events[1..])
  }

  /** The events of a run that took effect: every credit and every accepted size change. */
  function Accepted(w: Window, events: seq<WindowEvent>): (r: seq<WindowEvent>)
    ensures |r| <= |events|
    decreases |events|
  {
    if events == [] then []
    else
      var e := events[0];
      var rest := Accepted(Step(w, e), events[1..]);
      if e.SizeChange? && !TryUpdate(w, e.delta).ok then rest else [e] + rest
  }

  /** Sum of the byte counts and deltas carried by `events`, whatever the window. */
  function Total(events: seq<WindowEvent>): int
    decreases |events|
  {
    if events == [] then 0
    else
      (match events[0] case Credit(b) => b case SizeChange(d) => d) + Total(events[1..])
  }

  /**
   * After any run of credits and size changes, the window equals the initial
   * window plus the sum of the deltas that were accepted; rejected updates
   * contribute nothing, and the aborted flag is never touched.
   */
  lemma {:induction false} ReplayIsInitialPlusAccepted(w: Window, events: seq<WindowEvent>)
    ensures Replay(w, events).available == w.available + Total(Accepted(w, events))
    ensures Replay(w, events).isAborted == w.isAborted
    decreases |events|
  {
    if events != [] {
      var e := events[0];
      ReplayIsInitialPlusAccepted(Step(w, e), events[1..]);
      var rest := Accepted(Step(w, e), events[1..]);
      if !(e.SizeChange? && !TryUpdate(w, e.delta).ok) {
        assert ([e] + rest)[1..] == rest;
      }
    }
  }

  /**
   * Dropping the rejected updates from a run does not change where it ends:
   * a rejected update is exactly a no-op.
   */
  lemma {:induction false} ReplayOfAcceptedIsSame(w: Window, events: seq<WindowEvent>)
    ensures Replay(w, Accepted(w, events)) == Replay(w, events)
    decreases |events|
  {
    if events != [] {
      var e := events[0];
      ReplayOfAcceptedIsSame(Step(w, e), events[1..]);
      var rest := Accepted(Step(w, e), events[1..]);
      if !(e.SizeChange? && !TryUpdate(w, e.delta).ok) {
        assert ([e] + rest)[0] == e && ([e] + rest)[1..] == rest;
      }
    }
  }
}
