/**
 * HTTP/2 output flow control for one stream or one connection
 * (`OutputFlowControl`): a window, and a lazily allocated FIFO queue of
 * awaitables that producers wait on while the window is not positive.
 *
 * The first part states the two drain loops of the class as pure functions:
 * the loop of `TryUpdateWindow` with its guard as written (`Count >= 0`) and
 * as intended (`Count > 0`, the guard `Abort` uses). The second part is the
 * class, which drains with the intended guard.
 */
module OutputFlow {
  import opened FlowControl
  import opened Awaitables

  // ---------------------------------------------------------------------------
  // The drain loop of TryUpdateWindow

  /**
   * The loop guard of `TryUpdateWindow` as written:
   * `_flow.Available > 0 && _awaitableQueue?.Count >= 0`. A null queue makes
   * the lifted comparison false; for an allocated queue `Count >= 0` always holds.
   */
  predicate GuardAsWritten(available: int, queueAllocated: bool, count: int)
  {
    available > 0 && queueAllocated && count >= 0
  }

  /** The guard as intended: some window and at least one queued awaitable. */
  predicate GuardIntended(available: int, queueAllocated: bool, count: int)
  {
    available > 0 && queueAllocated && count > 0
  }

  /** The two guards disagree exactly once the allocated queue is empty and the window positive. */
  lemma GuardsDisagreeOnlyOnEmptyQueue(available: int, queueAllocated: bool, count: nat)
    ensures GuardAsWritten(available, queueAllocated, count) != GuardIntended(available, queueAllocated, count)
            <==> available > 0 && queueAllocated && count == 0
  {
  }

  /** How a run of the drain loop ends. */
  datatype DrainOutcome =
    | Drained(woken: seq<WaiterId>)          // the guard became false
    | DequeueOnEmpty(woken: seq<WaiterId>)   // `Dequeue` was called on an empty queue

  /**
   * The loop of `TryUpdateWindow` as written. The body neither changes the
   * window nor stops on an empty queue, so each turn dequeues the head and
   * completes it, until `Dequeue` is reached with nothing queued.
   */
  function DrainAsWritten(available: int, queueAllocated: bool, queue: seq<WaiterId>): (r: DrainOutcome)
    ensures |r.woken| <= |queue| && r.woken == queue[..|r.woken|]
    decreases |queue|
  {
    if !GuardAsWritten(available, queueAllocated, |queue|) then Drained([])
    else if queue == [] then DequeueOnEmpty([])
    else
      match DrainAsWritten(available, queueAllocated, queue[1..])
      case Drained(w) => Drained([queue[0]] + w)
      case DequeueOnEmpty(w) => DequeueOnEmpty([queue[0]] + w)
  }

  /**
   * As written, a successful window update that leaves the window positive
   * with an allocated queue ALWAYS ends in a `Dequeue` on an empty queue,
   * after completing every queued awaitable; in every other case nothing is woken.
   */
  lemma {:induction false} DrainAsWrittenFaults(available: int, queueAllocated: bool, queue: seq<WaiterId>)
    ensures DrainAsWritten(available, queueAllocated, queue)
            == if available > 0 && queueAllocated then DequeueOnEmpty(queue) else Drained([])
    decreases |queue|
  {
    if available > 0 && queueAllocated && queue != [] {
      DrainAsWrittenFaults(available, queueAllocated, queue[1..]);
      assert [queue[0]] + queue[1..] == queue;
    }
  }

  /** The smallest input that shows it: one waiter, window 1, and the loop still dequeues a second time. */
  lemma DrainAsWrittenOneWaiter()
    ensures DrainAsWritten(1, true, [0]) == DequeueOnEmpty([0])
    ensures DrainAsWritten(1, true, []) == DequeueOnEmpty([])
  {
    DrainAsWrittenFaults(1, true, [0]);
  }

  /** The loop of `TryUpdateWindow` with the intended guard: the awaitables it completes, in order. */
  function DrainIntended(available: int, queueAllocated: bool, queue: seq<WaiterId>): (r: seq<WaiterId>)
    ensures |r| <= |queue| && r == queue[..|r|]
    decreases |queue|
  {
    if GuardIntended(available, queueAllocated, |queue|)
    then [queue[0]] + DrainIntended(available, queueAllocated, queue[1..])
    else []
  }

  /**
   * With the intended guard the loop wakes every queued awaitable, head first,
   * when the window is positive and the queue exists, and nobody otherwise:
   * the window does not change inside the loop, so it never stops half-way.
   */
  lemma {:induction false} DrainIntendedWakesAllEligible(available: int, queueAllocated: bool, queue: seq<WaiterId>)
    ensures DrainIntended(available, queueAllocated, queue)
            == if available > 0 && queueAllocated then queue else []
    decreases |queue|
  {
    if available > 0 && queueAllocated && queue != [] {
      DrainIntendedWakesAllEligible(available, queueAllocated, queue[1..]);
      assert [queue[0]] + queue[1..] == queue;
    }
  }

  /** Where the as-written loop returns normally, it agrees with the intended one. */
  lemma DrainsAgreeWhenNoFault(available: int, queueAllocated: bool, queue: seq<WaiterId>)
    requires DrainAsWritten(available, queueAllocated, queue).Drained?
    ensures DrainAsWritten(available, queueAllocated, queue).woken == DrainIntended(available, queueAllocated, queue)
    ensures DrainIntended(available, queueAllocated, queue) == []
  {
    DrainAsWrittenFaults(available, queueAllocated, queue);
    DrainIntendedWakesAllEligible(available, queueAllocated, queue);
  }

  // ---------------------------------------------------------------------------
  // The assertion of Reset

  datatype AssertOutcome = Holds | Fails | NullDereference

  /**
   * `Debug.Assert(_awaitableQueue.Count == 0)` as written: it reads `Count`
   * through the queue field, which is null until a first waiter registered.
   */
  function ResetAssertAsWritten(queueAllocated: bool, count: int): (r: AssertOutcome)
    ensures r == Holds ==> ResetAllowed(queueAllocated, count)
    ensures r != Holds && ResetAllowed(queueAllocated, count) ==> r == NullDereference
  {
    if !queueAllocated then NullDereference
    else if count == 0 then Holds
    else Fails
  }

  /** What `Reset` is meant to demand: no waiter is left queued (a missing queue has none). */
  predicate ResetAllowed(queueAllocated: bool, count: int)
  {
    !queueAllocated || count == 0
  }

  /**
   * The as-written assertion rejects every controller that never registered
   * a waiter, although its queue is trivially empty; on an allocated queue it
   * agrees with the intended check.
   */
  lemma ResetAssertAsWrittenRejectsUnallocated(queueAllocated: bool, count: int)
    ensures !queueAllocated ==> ResetAssertAsWritten(queueAllocated, count) == NullDereference
                                && ResetAllowed(queueAllocated, count)
    ensures queueAllocated ==> (ResetAssertAsWritten(queueAllocated, count) == Holds
                                <==> ResetAllowed(queueAllocated, count))
  {
  }

  // ---------------------------------------------------------------------------
  // The controller

  /**
   * Without a queue object nothing is queued or spare; every queued awaitable
   * is pending, queued at most once and not among the spares; every awaitable
   * known was allocated.
   */
  ghost predicate QueueInvariant(queueAllocated: bool, queue: seq<WaiterId>, spare: set<WaiterId>,
                                 status: map<WaiterId, Signal>, nextId: WaiterId)
  {
    && (!queueAllocated ==> queue == [] && spare == {})
    && (forall i :: 0 <= i < |queue| ==> queue[i] in status && status[queue[i]] == Pending)
    && (forall i :: 0 <= i < |queue| ==> queue[i] !in spare)
    && (forall i, j :: 0 <= i < j < |queue| ==> queue[i] != queue[j])
    && spare <= status.Keys
    && (forall id :: id in status ==> id < nextId)
  }

  /** Dequeuing the head and completing it keeps the invariant. */
  lemma DrainHeadKeepsInvariant(queueAllocated: bool, queue: seq<WaiterId>, spare: set<WaiterId>,
                                status: map<WaiterId, Signal>, nextId: WaiterId)
    requires QueueInvariant(queueAllocated, queue, spare, status, nextId)
    requires queueAllocated && |queue| > 0
    ensures QueueInvariant(queueAllocated, queue[1..], spare + {queue[0]}, status[queue[0] := Completed], nextId)
  {
    forall i | 0 <= i < |queue[1..]|
      ensures queue[1..][i] != queue[0]
    {
      assert queue[1..][i] == queue[i + 1];
    }
  }

  /** One more turn of a drain loop: the prefix completed so far grows by the next awaitable. */
  lemma DrainPrefixStep(status0: map<WaiterId, Signal>, log0: seq<Wake>, spare0: set<WaiterId>,
                        queue0: seq<WaiterId>, k: nat, aborted: bool, available: int)
    requires k < |queue0|
    requires forall i :: 0 <= i < |queue0| ==> queue0[i] in status0
    ensures CompleteAll(status0, queue0[..k + 1]) == CompleteAll(status0, queue0[..k])[queue0[k] := Completed]
    ensures log0 + Wakes(queue0[..k + 1], aborted, available) == log0 + Wakes(queue0[..k], aborted, available) + [Wake(queue0[k], aborted, available)]
    ensures spare0 + Elems(queue0[..k + 1]) == spare0 + Elems(queue0[..k]) + {queue0[k]}
  {
    assert queue0[..k + 1] == queue0[..k] + [queue0[k]];
    CompleteAllAppend(status0, queue0[..k], [queue0[k]]);
    assert queue0[..k + 1][..k] == queue0[..k];
  }

  /**
   * Loop invariant of both drain loops: the first `k` awaitables of the queue
   * `queue0` found on entry have been dequeued and completed in order, each
   * completion seeing `aborted` and `available`; the rest is still queued.
   */
  ghost predicate DrainedPrefix(queue0: seq<WaiterId>, status0: map<WaiterId, Signal>, log0: seq<Wake>,
                                spare0: set<WaiterId>, aborted: bool, available: int, k: nat,
                                queueAllocated: bool, queue: seq<WaiterId>, spare: set<WaiterId>,
                                status: map<WaiterId, Signal>, wakeLog: seq<Wake>, nextId: WaiterId)
  {
    && QueueInvariant(queueAllocated, queue, spare, status, nextId)
    && (forall i :: 0 <= i < |queue0| ==> queue0[i] in status0)
    && k <= |queue0|
    && queue == queue0[k..]
    && status == CompleteAll(status0, queue0[..k])
    && wakeLog == log0 + Wakes(queue0[..k], aborted, available)
    && spare == spare0 + Elems(queue0[..k])
  }

  /** One turn of a drain loop (dequeue the head, complete it) keeps `DrainedPrefix` with `k + 1`. */
  lemma DrainOneKeepsPrefix(queue0: seq<WaiterId>, status0: map<WaiterId, Signal>, log0: seq<Wake>,
                            spare0: set<WaiterId>, aborted: bool, available: int, k: nat,
                            queueAllocated: bool, queue: seq<WaiterId>, spare: set<WaiterId>,
                            status: map<WaiterId, Signal>, wakeLog: seq<Wake>, nextId: WaiterId)
    requires DrainedPrefix(queue0, status0, log0, spare0, aborted, available, k,
                           queueAllocated, queue, spare, status, wakeLog, nextId)
    requires queueAllocated && |queue| > 0
    ensures queue[0] in status && status[queue[0]] == Pending
    ensures DrainedPrefix(queue0, status0, log0, spare0, aborted, available, k + 1,
                          queueAllocated, queue[1..], spare + {queue[0]}, status[queue[0] := Completed],
                          wakeLog + [Wake(queue[0], aborted, available)], nextId)
  {
    DrainHeadKeepsInvariant(queueAllocated, queue, spare, status, nextId);
    DrainPrefixStep(status0, log0, spare0, queue0, k, aborted, available);
    assert queue0[k + 1..] == queue[1..];
  }

  /**
   * `DrainOneKeepsPrefix` stated for the values the fields hold after the turn,
   * so a loop can re-establish its invariant from the fields as they are.
   */
  lemma DrainTurnKeepsPrefix(queue0: seq<WaiterId>, status0: map<WaiterId, Signal>, log0: seq<Wake>,
                             spare0: set<WaiterId>, aborted: bool, available: int, k: nat,
                             queueAllocated: bool, queue: seq<WaiterId>, spare: set<WaiterId>,
                             status: map<WaiterId, Signal>, wakeLog: seq<Wake>, nextId: WaiterId,
                             queue1: seq<WaiterId>, spare1: set<WaiterId>,
                             status1: map<WaiterId, Signal>, wakeLog1: seq<Wake>)
    requires DrainedPrefix(queue0, status0, log0, spare0, aborted, available, k,
                           queueAllocated, queue, spare, status, wakeLog, nextId)
    requires queueAllocated && |queue| > 0
    requires queue1 == queue[1..] && spare1 == spare + {queue[0]}
    requires status1 == status[queue[0] := Completed]
    requires wakeLog1 == wakeLog + [Wake(queue[0], aborted, available)]
    ensures DrainedPrefix(queue0, status0, log0, spare0, aborted, available, k + 1,
                          queueAllocated, queue1, spare1, status1, wakeLog1, nextId)
  {
    DrainOneKeepsPrefix(queue0, status0, log0, spare0, aborted, available, k,
                        queueAllocated, queue, spare, status, wakeLog, nextId);
  }

  class OutputFlowControl {
    /** `_flow`: the window and the aborted flag. */
    var flow: Window
    /** `_awaitableQueue != null`. */
    var queueAllocated: bool
    /** The queued awaitables, head first. */
    var queue: seq<WaiterId>
    /** Awaitables the queue dequeued earlier and may hand back for reuse. */
    var spare: set<WaiterId>
    /** The state of every awaitable allocated so far. */
    var status: map<WaiterId, Signal>
    /** Stands in for allocation: no awaitable with this or a larger id exists yet. */
    var nextId: WaiterId
    /** Every completion so far, in the order the continuations were released. */
    ghost var wakeLog: seq<Wake>

    /** The object invariant: `QueueInvariant` of the current fields. */
    ghost predicate Valid()
      reads this
    {
      QueueInvariant(queueAllocated, queue, spare, status, nextId)
    }

    /** `Available`: bytes that may still be sent; negative after a shrinking size change. */
    function Available(): (r: int)
      reads this
      ensures r == flow.available
    {
      flow.available
    }

    /** `IsAborted`: whether `Abort` ran since construction or the last `Reset`. */
    function IsAborted(): (r: bool)
      reads this
      ensures r == flow.isAborted
    {
      flow.isAborted
    }

    /** A fresh window of the given size, not aborted, and no queue yet. */
    constructor (initialWindowSize: nat)
      requires initialWindowSize <= MaxWindowSize
      ensures Valid()
      ensures Available() == initialWindowSize && !IsAborted()
      ensures !queueAllocated && queue == [] && spare == {} && status == map[]
      ensures wakeLog == []
    {
      flow := Fresh(initialWindowSize);
      queueAllocated := false;
      queue := [];
      spare := {};
      status := map[];
      nextId := 0;
      wakeLog := [];
    }

    /**
     * Registers a waiter: allocates the queue if there is none, then appends
     * exactly one pending awaitable at the tail, either a reused one the
     * queue handed back or a new one. The window, the other awaitables and
     * the wake log are untouched.
     */
    method AvailabilityAwaitable() returns (a: WaiterId)
      requires Valid()
      requires !IsAborted() && Available() <= 0
      modifies this
      ensures Valid()
      ensures flow == old(flow)
      ensures queueAllocated
      ensures queue == old(queue) + [a] && a !in old(queue)
      ensures status == old(status)[a := Pending]
      ensures a in old(spare) || (a == old(nextId) && a !in old(status))
      ensures spare == old(spare) - {a}
      ensures wakeLog == old(wakeLog)
    {
      if !queueAllocated {
        queueAllocated, queue, spare := true, [], {};
      }
      var reused;
      reused, a := TryEnqueueExisting();
      if reused {
        ResetAwaitable(a);
      } else {
        a := NewAwaitable();
        Enqueue(a);
      }
    }

    /**
     * Gives the window a fresh size for a reused stream. Only the window is
     * replaced: the queue object, its spares and the awaitables are kept.
     */
    method Reset(initialWindowSize: nat)
      requires Valid()
      requires initialWindowSize <= MaxWindowSize
      requires ResetAllowed(queueAllocated, |queue|)
      modifies this`flow
      ensures Valid()
      ensures Available() == initialWindowSize && !IsAborted()
    {
      flow := Fresh(initialWindowSize);
    }

    /** Adds `bytes` to the window; nothing else changes and nobody is woken. */
    method Advance(bytes: int)
      requires Valid()
      modifies this`flow
      ensures Valid()
      ensures flow == FlowControl.Advance(old(flow), bytes)
      ensures Available() == old(Available()) + bytes && IsAborted() == old(IsAborted())
    {
      flow := FlowControl.Advance(flow, bytes);
    }

    /**
     * Applies a signed delta to the window. On failure nothing changes. On
     * success the window moves by exactly `bytes` (possibly below zero), and
     * if it is then positive every queued awaitable is completed head first,
     * each completion seeing the new window; otherwise no awaitable is touched.
     */
    method TryUpdateWindow(bytes: int) returns (ok: bool)
      requires Valid()
      modifies this
      ensures Valid()
      ensures ok <==> old(Available()) + bytes <= MaxWindowSize
      ensures !ok ==> unchanged(this)
      ensures ok ==> flow == TryUpdate(old(flow), bytes).window
      ensures ok ==> Available() == old(Available()) + bytes && IsAborted() == old(IsAborted())
      ensures ok ==> wakeLog == old(wakeLog) + Wakes(DrainIntended(Available(), old(queueAllocated), old(queue)),
                                                     IsAborted(), Available())
      ensures ok && Available() > 0 ==>
                queue == [] && status == CompleteAll(old(status), old(queue))
                && spare == old(spare) + Elems(old(queue))
      ensures ok && Available() <= 0 ==>
                queue == old(queue) && status == old(status) && spare == old(spare) && wakeLog == old(wakeLog)
      ensures queueAllocated == old(queueAllocated) && nextId == old(nextId)
    {
      var update := TryUpdate(flow, bytes);
      ok := update.ok;
      if ok {
        flow := update.window;
        ghost var q0, s0, log0, spare0 := queue, status, wakeLog, spare;
        ghost var k: nat := 0;
        assert q0[..0] == [] && q0[0..] == q0;
        while flow.available > 0 && queueAllocated && |queue| > 0
          invariant flow == update.window && queueAllocated == old(queueAllocated) && nextId == old(nextId)
          invariant DrainedPrefix(q0, s0, log0, spare0, flow.isAborted, flow.available, k,
                                  queueAllocated, queue, spare, status, wakeLog, nextId)
          invariant flow.available <= 0 ==> k == 0
          modifies this`queue, this`spare, this`status, this`wakeLog
          decreases |queue|
        {
          ghost var queueB, spareB, statusB, logB := queue, spare, status, wakeLog;
          assert Valid();
          var a := ReleaseHead();
          DrainTurnKeepsPrefix(q0, s0, log0, spare0, flow.isAborted, flow.available, k,
                               queueAllocated, queueB, spareB, statusB, logB, nextId,
                               queue, spare, status, wakeLog);
          k := k + 1;
        }
        ghost var woken := DrainIntended(flow.available, queueAllocated, q0);
        DrainIntendedWakesAllEligible(flow.available, queueAllocated, q0);
        assert q0[..k] == woken;
        assert wakeLog == log0 + Wakes(woken, flow.isAborted, flow.available);
        assert old(queue) == q0 && old(wakeLog) == log0 && old(queueAllocated) == queueAllocated;
        assert Available() == flow.available && IsAborted() == flow.isAborted;
        assert woken == DrainIntended(Available(), old(queueAllocated), old(queue));
        assert wakeLog == old(wakeLog) + Wakes(woken, IsAborted(), Available());
      }
    }

    /**
     * Raises the aborted flag first, then completes every queued awaitable
     * head first, each completion made with the flag already raised. Afterwards the
     * queue is empty; a second call changes nothing.
     */
    method Abort()
      requires Valid()
      modifies this
      ensures Valid()
      ensures flow == FlowControl.Abort(old(flow))
      ensures IsAborted() && Available() == old(Available())
      ensures queue == []
      ensures status == CompleteAll(old(status), old(queue))
      ensures wakeLog == old(wakeLog) + Wakes(old(queue), true, old(Available()))
      ensures spare == old(spare) + Elems(old(queue))
      ensures queueAllocated == old(queueAllocated) && nextId == old(nextId)
      ensures old(IsAborted()) && old(queue) == [] ==>
                flow == old(flow) && status == old(status) && spare == old(spare) && wakeLog == old(wakeLog)
    {
      flow := FlowControl.Abort(flow);
      ghost var flow1, q0, s0, log0, spare0 := flow, queue, status, wakeLog, spare;
      ghost var k: nat := 0;
      assert q0[..0] == [] && q0[0..] == q0;
      while queueAllocated && |queue| > 0
        invariant flow == flow1 && queueAllocated == old(queueAllocated) && nextId == old(nextId)
        invariant DrainedPrefix(q0, s0, log0, spare0, true, flow.available, k,
                                queueAllocated, queue, spare, status, wakeLog, nextId)
        modifies this`queue, this`spare, this`status, this`wakeLog
        decreases |queue|
      {
        ghost var queueB, spareB, statusB, logB := queue, spare, status, wakeLog;
        assert Valid();
        var a := ReleaseHead();
        DrainTurnKeepsPrefix(q0, s0, log0, spare0, true, flow.available, k,
                             queueAllocated, queueB, spareB, statusB, logB, nextId,
                             queue, spare, status, wakeLog);
        k := k + 1;
      }
      assert q0[..k] == q0;
      if q0 == [] {
        assert Elems(q0) == {} && Wakes(q0, true, flow.available) == [];
        assert old(flow).isAborted ==> flow == old(flow);
      }
    }

    /**
     * `_awaitableQueue.Dequeue().TrySetResult(null)`, the body of both drain
     * loops: the head leaves the queue, is kept for reuse, and is completed;
     * it was pending, so exactly one wake is logged, under the current window.
     */
    method ReleaseHead() returns (a: WaiterId)
      requires Valid() && queueAllocated && |queue| > 0
      modifies this`queue, this`spare, this`status, this`wakeLog
      ensures a == old(queue)[0] && queue == old(queue)[1..] && spare == old(spare) + {a}
      ensures status == old(status)[a := Completed]
      ensures wakeLog == old(wakeLog) + [Wake(a, flow.isAborted, flow.available)]
    {
      a := Dequeue();
      TrySetResult(a);
    }

    // -------------------------------------------------------------------------
    // The collaborators as this class uses them: `ReusableQueue` (allocation,
    // TryEnqueueExisting, Enqueue, Dequeue) and `ManualResetValueTaskSource`
    // (allocation, Reset, TrySetResult). Their internals are not part of this
    // model; each is stated by the contract the controller relies on.

    /**
     * `TryEnqueueExisting`: either hands back some previously dequeued
     * awaitable, appending it at the tail, or fails and changes nothing.
     */
    method TryEnqueueExisting() returns (ok: bool, a: WaiterId)
      requires queueAllocated
      modifies this`queue, this`spare
      ensures ok ==> a in old(spare) && queue == old(queue) + [a] && spare == old(spare) - {a}
      ensures !ok ==> queue == old(queue) && spare == old(spare)
    {
      if spare == {} {
        return false, 0;
      }
      a :| a in spare;
      queue := queue + [a];
      spare := spare - {a};
      ok := true;
    }

    /** `Enqueue`: appends at the tail. */
    method Enqueue(a: WaiterId)
      requires queueAllocated
      modifies this`queue
      ensures queue == old(queue) + [a]
    {
      queue := queue + [a];
    }

    /** `Dequeue`: removes the head, which the queue keeps for later reuse; the queue must not be empty. */
    method Dequeue() returns (a: WaiterId)
      requires queueAllocated && |queue| > 0
      modifies this`queue, this`spare
      ensures a == old(queue)[0] && queue == old(queue)[1..] && spare == old(spare) + {a}
    {
      a := queue[0];
      queue := queue[1..];
      spare := spare + {a};
    }

    /** `new ManualResetValueTaskSource<object>()`: a pending awaitable never seen before. */
    method NewAwaitable() returns (a: WaiterId)
      requires forall id :: id in status ==> id < nextId
      modifies this`status, this`nextId
      ensures a == old(nextId) && a !in old(status)
      ensures status == old(status)[a := Pending] && nextId == a + 1
    {
      a := nextId;
      nextId := nextId + 1;
      status := status[a := Pending];
    }

    /** `awaitable.Reset()`: makes a reused awaitable pending again. */
    method ResetAwaitable(a: WaiterId)
      requires a in status
      modifies this`status
      ensures status == old(status)[a := Pending]
    {
      status := status[a := Pending];
    }

    /**
     * `TrySetResult(null)`: completes the awaitable, releasing its producer,
     * and logs the window and aborted flag at that moment. On an awaitable
     * already completed it does nothing.
     */
    method TrySetResult(a: WaiterId)
      requires a in status
      modifies this`status, this`wakeLog
      ensures status == old(status)[a := Completed]
      ensures wakeLog == old(wakeLog) + (if old(status)[a] == Pending then [Wake(a, IsAborted(), Available())] else [])
    {
      if status[a] == Pending {
        status := status[a := Completed];
        wakeLog := wakeLog + [Wake(a, flow.isAborted, flow.available)];
      }
    }
  }
}
