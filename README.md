# Output flow control for HTTP/2 (Kestrel `OutputFlowControl`), modelled in Dafny

`OutputFlowControl` keeps the send window of one HTTP/2 stream or connection.
It also keeps a lazily allocated FIFO queue of awaitables. A producer that
finds no window registers an awaitable and suspends on it. When a window update
leaves the window positive, queued awaitables are completed head first. `Abort`
raises the aborted flag before it completes every waiter. `Reset` gives a
pooled stream a fresh window.

Files:

- `flow_control.dfy` (module `FlowControl`): the window kept in `_flow`. It is
  modelled as a value (`Window`) with the assumed arithmetic of the `FlowControl`
  type. That type is not part of this model. The rule assumed for it: an update
  is accepted exactly when the result stays at or below 2^31-1 (section 6.9.1 of
  RFC 7540), and a negative result is legal (section 6.9.2 of RFC 7540). The
  module also replays runs of credits and size changes.
- `awaitables.dfy` (module `Awaitables`): awaitables as identities with a
  pending/completed state, and `Wake` records. A `Wake` notes each completion
  together with the aborted flag and window at the moment of completion. A
  producer resumed later may find a different state when it re-checks.
- `output_flow_control.dfy` (module `OutputFlow`): the drain loop of
  `TryUpdateWindow` as written and as intended, the assertion of `Reset`, and
  the class `OutputFlowControl`. The class has the window, the queue (`queue`,
  `queueAllocated`), the awaitables the queue may hand back (`spare`), their
  states (`status`) and a ghost log of completions (`wakeLog`). Each method
  changes these fields the way the C# method does, except that
  `TryUpdateWindow` drains with the corrected loop guard (see Findings). `Available()` and
  `IsAborted()` are the two read-only properties.
- `scenarios.dfy` (module `Scenarios`): client methods that run concrete
  sequences of calls and prove their outcome from the contracts alone.

`ReusableQueue` and `ManualResetValueTaskSource` are not part of this model.
The class uses them through small methods (`TryEnqueueExisting`, `Enqueue`,
`Dequeue`, `NewAwaitable`, `ResetAwaitable`, `TrySetResult`). Each of those
methods is stated by the contract the controller relies on. `Dequeue` requires
a non-empty queue. `TryEnqueueExisting` either hands back some previously
dequeued awaitable, appended at the tail, or fails.

Two behaviours of the code worth noting:
`Advance` never wakes anybody, even when it makes the window positive. Only an
accepted `TryUpdateWindow` drains the queue, and it then wakes every queued
waiter, not one per available byte.

## Model

| member | source | states |
|---|---|---|
| `FlowControl.TryUpdate` | src/Servers/Kestrel/Core/src/Internal/Http2/FlowControl/OutputFlowControl.cs:63-68 | Assumed window rule: the update is accepted iff old window + delta <= 2^31-1. When accepted, the window is exactly old + delta, even below zero. When refused, the window is unchanged. The aborted flag is never touched. |
| `FlowControl.NegativeWindowAccepted` | src/Servers/Kestrel/Core/src/Internal/Http2/FlowControl/OutputFlowControl.cs:63-65 | A delta that drives the window below zero is accepted, and the window becomes that negative value. |
| `FlowControl.AbortIdempotent` | src/Servers/Kestrel/Core/src/Internal/Http2/FlowControl/OutputFlowControl.cs:84 | Aborting the window twice equals aborting it once. Abort sets the flag and keeps the count. |
| `FlowControl.ReplayIsInitialPlusAccepted` | src/Servers/Kestrel/Core/src/Internal/Http2/FlowControl/OutputFlowControl.cs:58-68 | After any run of `Advance` and `TryUpdateWindow` calls, the window equals the initial window plus the sum of the accepted deltas. The aborted flag is unchanged. |
| `FlowControl.ReplayOfAcceptedIsSame` | src/Servers/Kestrel/Core/src/Internal/Http2/FlowControl/OutputFlowControl.cs:66-78 | A refused update is a no-op. Dropping the refused updates from a run does not change the final window. |
| `Awaitables.WakesAreInOrder` | src/Servers/Kestrel/Core/src/Internal/Http2/FlowControl/OutputFlowControl.cs:70-73 | The log of a drain names exactly the drained awaitables, in queue (FIFO) order. |
| `Awaitables.CompleteAllIdempotent` | src/Servers/Kestrel/Core/src/Internal/Http2/FlowControl/OutputFlowControl.cs:72 | Completing the same awaitables again leaves their states as they were, so `TrySetResult` is idempotent. |
| `Awaitables.CompleteAllAppend` | src/Servers/Kestrel/Core/src/Internal/Http2/FlowControl/OutputFlowControl.cs:86-89 | Completing `a + b` equals completing `a` and then `b`. So a drain taken one awaitable per turn completes the whole list. |
| `OutputFlow.GuardsDisagreeOnlyOnEmptyQueue` | src/Servers/Kestrel/Core/src/Internal/Http2/FlowControl/OutputFlowControl.cs:70 | The written guard `Count >= 0` and the intended `Count > 0` differ exactly when the window is positive and the allocated queue is empty. |
| `OutputFlow.DrainAsWritten` | src/Servers/Kestrel/Core/src/Internal/Http2/FlowControl/OutputFlowControl.cs:70-73 | The loop as written, as a function of window, queue presence and queue. Whatever the outcome, the awaitables it completed are a prefix of the queue, in queue order. |
| `OutputFlow.DrainAsWrittenFaults` | src/Servers/Kestrel/Core/src/Internal/Http2/FlowControl/OutputFlowControl.cs:70-73 | Characterises `DrainAsWritten` on every input. As written, with a positive window and an allocated queue, the loop completes every queued awaitable and then always calls `Dequeue` on the empty queue. Otherwise it wakes nobody. |
| `OutputFlow.DrainAsWrittenOneWaiter` | src/Servers/Kestrel/Core/src/Internal/Http2/FlowControl/OutputFlowControl.cs:70-73 | Concrete inputs: window 1 with one waiter, or with none, and the written loop ends in `Dequeue` on an empty queue. |
| `OutputFlow.DrainIntended` | src/Servers/Kestrel/Core/src/Internal/Http2/FlowControl/OutputFlowControl.cs:70-73 | The loop with the guard `Count > 0`. The awaitables it completes are a prefix of the queue, in queue order. |
| `OutputFlow.DrainIntendedWakesAllEligible` | src/Servers/Kestrel/Core/src/Internal/Http2/FlowControl/OutputFlowControl.cs:70-73 | Characterises `DrainIntended` on every input. With the guard `Count > 0`, the loop completes the whole queue head first when the window is positive and the queue exists. Otherwise it completes nobody. |
| `OutputFlow.DrainsAgreeWhenNoFault` | src/Servers/Kestrel/Core/src/Internal/Http2/FlowControl/OutputFlowControl.cs:70-73 | Whenever the written loop ends normally, it woke nobody, and so did the intended loop. |
| `OutputFlow.ResetAssertAsWritten` | src/Servers/Kestrel/Core/src/Internal/Http2/FlowControl/OutputFlowControl.cs:55 | The assertion as written: when it holds, no waiter is queued; when it does not hold although no waiter is queued, the cause is a dereference of the unallocated queue. |
| `OutputFlow.ResetAssertAsWrittenRejectsUnallocated` | src/Servers/Kestrel/Core/src/Internal/Http2/FlowControl/OutputFlowControl.cs:55 | The written assertion dereferences the queue field. It therefore fails on every controller that never registered a waiter, though that queue is empty. On an allocated queue it agrees with "no waiter queued". |
| `OutputFlow.DrainHeadKeepsInvariant` | src/Servers/Kestrel/Core/src/Internal/Http2/FlowControl/OutputFlowControl.cs:86-89 | Dequeuing the head and completing it keeps the queue invariant. Queued awaitables stay pending, distinct and outside the reusable set. |
| `OutputFlow.DrainOneKeepsPrefix` | src/Servers/Kestrel/Core/src/Internal/Http2/FlowControl/OutputFlowControl.cs:86-89 | Each turn of a drain loop completes the current head, which was still pending. The completed prefix of the entry queue grows by one, in order. |
| `OutputFlow.OutputFlowControl.Available` | src/Servers/Kestrel/Core/src/Internal/Http2/FlowControl/OutputFlowControl.cs:19 | The window count of `_flow`. It reads only the controller's own state. That the count can go negative follows from `FlowControl.NegativeWindowAccepted` and the contract of `TryUpdateWindow`. |
| `OutputFlow.OutputFlowControl.IsAborted` | src/Servers/Kestrel/Core/src/Internal/Http2/FlowControl/OutputFlowControl.cs:20 | The aborted flag of the current window. It reads only the controller's own state. |
| `OutputFlow.DrainTurnKeepsPrefix` | src/Servers/Kestrel/Core/src/Internal/Http2/FlowControl/OutputFlowControl.cs:86-89 | A proof step, not behaviour of the source: `DrainOneKeepsPrefix` restated over the values the fields hold after the turn, so the loops of `TryUpdateWindow` and `Abort` re-establish their invariant directly. |
| `OutputFlow.OutputFlowControl.constructor` | src/Servers/Kestrel/Core/src/Internal/Http2/FlowControl/OutputFlowControl.cs:14-17 | `Available == initialWindowSize` and `!IsAborted`. No queue is allocated and no awaitable exists. |
| `OutputFlow.OutputFlowControl.AvailabilityAwaitable` | src/Servers/Kestrel/Core/src/Internal/Http2/FlowControl/OutputFlowControl.cs:22-47 | Requires `!IsAborted && Available <= 0`. Allocates the queue if absent. Appends exactly one pending awaitable at the tail, either a reused one or a new one. The window and the other awaitables are unchanged. |
| `OutputFlow.OutputFlowControl.Reset` | src/Servers/Kestrel/Core/src/Internal/Http2/FlowControl/OutputFlowControl.cs:50-56 | Requires that no waiter is queued. Afterwards `Available == initialWindowSize` and `!IsAborted`. It modifies only the window, so the queue object and the awaitables are kept. |
| `OutputFlow.OutputFlowControl.Advance` | src/Servers/Kestrel/Core/src/Internal/Http2/FlowControl/OutputFlowControl.cs:58-61 | The window moves by `bytes` and the aborted flag is kept. It modifies only the window, so the queue is untouched and nobody is woken. |
| `OutputFlow.OutputFlowControl.TryUpdateWindow` | src/Servers/Kestrel/Core/src/Internal/Http2/FlowControl/OutputFlowControl.cs:63-79 | Returns true iff the window rule accepts. On false, nothing changes. On true, the window is old + delta. If the window is now positive, every queued awaitable is completed head first and the queue is empty. Otherwise no awaitable is touched. The log equals the intended drain. |
| `OutputFlow.OutputFlowControl.Abort` | src/Servers/Kestrel/Core/src/Internal/Http2/FlowControl/OutputFlowControl.cs:81-90 | The aborted flag is set first. Then every queued awaitable is completed head first, and each completion is made with `IsAborted` already true. The queue ends empty and the window count is kept. A second call changes nothing. |
| `OutputFlow.OutputFlowControl.ReleaseHead` | src/Servers/Kestrel/Core/src/Internal/Http2/FlowControl/OutputFlowControl.cs:72 | `Dequeue().TrySetResult(null)`, the body of both drain loops (lines 72 and 88): the head leaves the queue and is kept for reuse. It is completed, and since it was pending exactly one wake is logged, under the current flag and window. |
| `OutputFlow.OutputFlowControl.TryEnqueueExisting` | src/Servers/Kestrel/Core/src/Internal/Http2/FlowControl/OutputFlowControl.cs:36 | Either hands back a previously dequeued awaitable, appended at the tail, or fails and changes nothing. |
| `OutputFlow.OutputFlowControl.Enqueue` | src/Servers/Kestrel/Core/src/Internal/Http2/FlowControl/OutputFlowControl.cs:43 | Appends the new awaitable at the tail. |
| `OutputFlow.OutputFlowControl.Dequeue` | src/Servers/Kestrel/Core/src/Internal/Http2/FlowControl/OutputFlowControl.cs:72 | Requires a non-empty queue. Returns and removes the head, which the queue keeps for reuse. |
| `OutputFlow.OutputFlowControl.NewAwaitable` | src/Servers/Kestrel/Core/src/Internal/Http2/FlowControl/OutputFlowControl.cs:42 | Returns an awaitable never seen before, in the pending state. |
| `OutputFlow.OutputFlowControl.ResetAwaitable` | src/Servers/Kestrel/Core/src/Internal/Http2/FlowControl/OutputFlowControl.cs:38 | The reused awaitable becomes pending again. |
| `OutputFlow.OutputFlowControl.TrySetResult` | src/Servers/Kestrel/Core/src/Internal/Http2/FlowControl/OutputFlowControl.cs:88 | Marks the awaitable completed. It logs a wake, with the current flag and window, only if the awaitable was pending. On a completed one it is a no-op. |

## Left out

- `FlowControl`, `ReusableQueue` and `ManualResetValueTaskSource` are not part of this model. Their behaviour is the contract stated for them above. The window rule in particular is an assumption, not verified source behaviour.
- `OutputFlow.OutputFlowControl.Advance`: the model assumes that `FlowControl.Advance` adds `bytes` to the window. If it consumed window instead, the sign would change in `FlowControl.Advance`, in `FlowControl.Total` (which counts a credit `Credit(b)` as `+b`), and so in the statements of `FlowControl.ReplayIsInitialPlusAccepted` and of `OutputFlow.OutputFlowControl.Advance`. The class-level facts (touches only the window, wakes nobody) do not depend on the sign.
- `OutputFlow.OutputFlowControl.Advance`: does not model 32-bit wrap-around of `Available`, because the window is an unbounded integer and `Advance` has no bound check.
- `FlowControl.TryUpdate`: does not model overflow of `int` in the collaborator's own arithmetic. Only the mathematical rule "result <= 2^31-1" is stated.
- The `uint` to `int` conversion of the initial window size: callers pass a `nat` no larger than 2^31-1.
- The written loop of `TryUpdateWindow` (`Count >= 0`) is modelled as the pure function `DrainAsWritten`, not as a method. A method with that guard cannot meet `Dequeue`'s precondition. The class drains with the intended guard; see Findings.
- Async continuation machinery (`ValueTask`, the scheduler resuming producers): a completion is a state change plus a `Wake` record of the flag and window at the moment of completion. What a resumed producer sees when it later re-checks the controller is not modelled; after `Abort` and `Reset`, for instance, it finds a fresh, non-aborted window.
- Thread safety and interleavings: the class takes no lock, and callers serialise access.
- Which previously dequeued awaitable `TryEnqueueExisting` hands back, and when it fails, depend on the queue's slot layout. The model leaves that choice open.
- Each `Debug.Assert` is a precondition (for `Reset`, the intended check `ResetAllowed`, not the assertion as written; see Findings). Its message text, and its absence in release builds, are not modelled.

## Findings

| source | as written | input that shows it | evidently intended | confidence | as-written member | corrected member |
|---|---|---|---|---|---|---|
| src/Servers/Kestrel/Core/src/Internal/Http2/FlowControl/OutputFlowControl.cs:70 | `while (_flow.Available > 0 && _awaitableQueue?.Count >= 0)`: for an allocated queue the test never fails, and the body does not change the window | a controller with an allocated queue (one waiter, say), then `TryUpdateWindow(1)` from window 0: after the waiter is completed the loop calls `Dequeue` on the empty queue | `Count > 0`, the guard of the loop in `Abort` at line 86 | high; not executed | `OutputFlow.DrainAsWrittenFaults` | `OutputFlow.OutputFlowControl.TryUpdateWindow` |
| src/Servers/Kestrel/Core/src/Internal/Http2/FlowControl/OutputFlowControl.cs:55 | `Debug.Assert(_awaitableQueue.Count == 0, ...)` reads `Count` through a field that is null until a first waiter registered | `new OutputFlowControl(10)` then `Reset(20)` in a debug build: null dereference although no waiter is queued | `_awaitableQueue == null \|\| _awaitableQueue.Count == 0` | medium; not executed | `OutputFlow.ResetAssertAsWrittenRejectsUnallocated` | `OutputFlow.OutputFlowControl.Reset` |
