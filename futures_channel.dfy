/** The bridge from CoreFoundation stream callbacks to poll-based async I/O
    (src/corebluetooth/l2cap_channel/futures_channel.rs).

    A shared context holds a sticky event bitmask, ONE waker slot used by both
    reads and writes, and the strong count of the `Arc` that owns it. Native
    callbacks OR event bits in and wake the stored waker; `poll_read` and
    `poll_write` either complete with the native I/O result or store the
    caller's waker and suspend. The background thread that registers the
    callbacks and opens both streams is `InRunloop`.

    Threads are abstracted away: every poll, callback, retain and release is
    one atomic step on the context. The readiness predicates
    (`has_bytes_available`, `has_space_available`) and the values returned by
    native read, write, open and set-client calls are parameters.

    The pure `...Step` functions below are the specification of each step; the
    methods on the classes are proved to perform exactly that step. */
module FuturesChannel {
  import opened Wrappers
  import opened CfStream

  /** The events `in_runloop` registers for on both streams: all five. */
  const RegisteredEvents: EventMask := {OpenCompleted, HasBytesAvailable, CanAcceptBytes, EndEncountered, ErrorOccurred}

  /** An event that ends or breaks the stream. */
  predicate Terminal(eventType: EventMask)
  {
    EndEncountered in eventType || ErrorOccurred in eventType
  }

  /** A task's waker; waking it is the only thing done with it. */
  datatype Waker = Waker(task: nat)

  /** `Poll<io::Result<usize>>` as these polls produce it: they never return an error. */
  datatype Poll = Pending | Ready(count: nat)

  /** The abstract state of a `CFAsyncStreamContext`, together with what the
      callbacks have done to the outside world: the wakers woken so far, in
      order, and the number of `CFRunLoopStop` requests made. */
  datatype ContextState = ContextState(
    event: EventMask,
    waker: Option<Waker>,
    strong: nat,
    woken: seq<Waker>,
    stopRequests: nat)

  /** The context `FuturesCFStream::cf_stream` creates: no events, no waker,
      one strong reference for the stream handle and one moved into the thread. */
  const InitialContext := ContextState({}, None, 2, [], 0)

  // ---------------------------------------------------------------------------
  // Specification of the steps

  /** `set_waker`: asserts the slot is empty and stores the caller's waker. */
  function SetWakerStep(s: ContextState, w: Waker): (r: ContextState)
    requires s.waker.None?
    ensures r.waker == Some(w)
    ensures r.(waker := None) == s
  {
    s.(waker := Some(w))
  }

  /** When a poll does not panic: a ready stream needs a non-negative native
      result (-1 hits `todo!`, any other negative value `unreachable!`), and a
      stream that is not ready needs the waker slot empty (the assert in `set_waker`). */
  predicate PollDefined(s: ContextState, ready: bool, native: int)
  {
    if ready then native >= 0 else s.waker.None?
  }

  /** `poll_read` (ready = `has_bytes_available`, native = the native read) and
      `poll_write` (ready = `has_space_available`, native = the native write). */
  function PollStep(s: ContextState, w: Waker, ready: bool, native: int): (r: (ContextState, Poll))
    requires PollDefined(s, ready, native)
    // Ready exactly when the stream is ready, with the native count, state untouched
    ensures r.1.Ready? <==> ready
    ensures r.1.Ready? ==> r.1.count == native && r.0 == s
    // otherwise the caller's waker is stored and nothing else changes
    ensures r.1.Pending? ==> r.0 == SetWakerStep(s, w)
  {
    if ready then (s, Ready(native as nat)) else (SetWakerStep(s, w), Pending)
  }

  /** How many `CFRunLoopStop` calls `cfstream_callback` makes for one event:
      one for the EndEncountered bit and one for the ErrorOccurred bit. */
  function StopsFor(eventType: EventMask): (n: nat)
    ensures n > 0 <==> Terminal(eventType)
    ensures n <= 2
  {
    (if EndEncountered in eventType then 1 else 0)
    + (if ErrorOccurred in eventType then 1 else 0)
  }

  /** `cfstream_callback` on a non-null context. */
  function CallbackStep(s: ContextState, eventType: EventMask): (r: ContextState)
    // bits are only added: the old ones and the new event's are set, no others
    ensures s.event <= r.event && eventType <= r.event
    ensures forall e :: e in r.event ==> e in s.event || e in eventType
    // the slot is always emptied, and a stored waker is woken once
    ensures r.waker.None?
    ensures r.woken == s.woken + (if s.waker.Some? then [s.waker.value] else [])
    // a stop is requested if and only if the event ends or breaks the stream
    ensures r.stopRequests > s.stopRequests <==> Terminal(eventType)
    ensures r.strong == s.strong
  {
    var woken := s.woken + (if s.waker.Some? then [s.waker.value] else []);
    ContextState(s.event + eventType, None, s.strong, woken, s.stopRequests + StopsFor(eventType))
  }

  /** `cfstream_context_clone`: one more strong reference. */
  function RetainStep(s: ContextState): (r: ContextState)
    ensures r.strong == s.strong + 1
    ensures r.(strong := s.strong) == s
  {
    s.(strong := s.strong + 1)
  }

  /** `cfstream_context_drop`: one strong reference fewer. Decrementing a
      count that is already zero is undefined behaviour in Rust. */
  function ReleaseStep(s: ContextState): (r: ContextState)
    requires s.strong > 0
    ensures r.strong + 1 == s.strong
    ensures r.(strong := s.strong) == s
  {
    s.(strong := s.strong - 1)
  }

  // ---------------------------------------------------------------------------
  // Properties of the steps

  /** A poll that completes leaves the waker slot as it was. */
  lemma ReadyPollKeepsWaker(s: ContextState, w: Waker, native: int)
    requires native >= 0
    ensures PollStep(s, w, true, native).0.waker == s.waker
    ensures PollStep(s, w, true, native).1 == Ready(native)
  {
  }

  /** Reads and writes share the one slot: two polls that both suspend, with
      no callback between them, fail the assert in `set_waker`, whichever
      direction each of them polls. */
  lemma SecondPendingPollPanics(s: ContextState, w1: Waker, w2: Waker, native1: int, native2: int)
    requires PollDefined(s, false, native1)
    ensures !PollDefined(PollStep(s, w1, false, native1).0, false, native2)
  {
  }

  /** A callback between two suspending polls empties the slot, so the second
      poll may suspend; the first poll's waker has been woken. */
  lemma CallbackRearmsPoll(s: ContextState, w: Waker, native: int, eventType: EventMask, native2: int)
    requires PollDefined(s, false, native)
    ensures PollDefined(CallbackStep(PollStep(s, w, false, native).0, eventType), false, native2)
    ensures CallbackStep(PollStep(s, w, false, native).0, eventType).woken == s.woken + [w]
  {
  }

  /** Retaining and then releasing leaves the count, and everything else, unchanged. */
  lemma RetainThenRelease(s: ContextState)
    ensures ReleaseStep(RetainStep(s)) == s
  {
  }

  /** The state after the callbacks for `events`, delivered in order. */
  function Callbacks(s: ContextState, events: seq<EventMask>): (r: ContextState)
    decreases |events|
  {
    if events == [] then s else Callbacks(CallbackStep(s, events[0]), events[1..])
  }

  /** The OR of a run of event masks. */
  function UnionOf(events: seq<EventMask>): EventMask
    decreases |events|
  {
    if events == [] then {} else events[0] + UnionOf(events[1..])
  }

  /** After a run of callbacks the mask is exactly the old mask OR-ed with
      every delivered event: no bit is ever cleared, every delivered bit is set. */
  lemma {:induction false} CallbacksAccumulate(s: ContextState, events: seq<EventMask>)
    ensures Callbacks(s, events).event == s.event + UnionOf(events)
    ensures s.event <= Callbacks(s, events).event
    ensures forall i :: 0 <= i < |events| ==> events[i] <= Callbacks(s, events).event
    decreases |events|
  {
    if events != [] {
      CallbacksAccumulate(CallbackStep(s, events[0]), events[1..]);
      forall i | 1 <= i < |events|
        ensures events[i] <= Callbacks(s, events).event
      {
        assert events[i] == events[1..][i - 1];
      }
    }
  }

  /** After a non-empty run of callbacks the slot is empty, the waker stored
      before the run has been woken exactly once and no other waker has, and
      the strong count is untouched. */
  lemma {:induction false} CallbacksWakeOnce(s: ContextState, events: seq<EventMask>)
    requires events != []
    ensures Callbacks(s, events).waker.None?
    ensures Callbacks(s, events).woken == s.woken + (if s.waker.Some? then [s.waker.value] else [])
    ensures Callbacks(s, events).strong == s.strong
    decreases |events|
  {
    var s1 := CallbackStep(s, events[0]);
    if |events| > 1 {
      CallbacksWakeOnce(s1, events[1..]);
    }
  }

  /** The run loop is asked to stop during a run of callbacks if and only if
      one of the delivered events carries EndEncountered or ErrorOccurred. */
  lemma {:induction false} CallbacksStopIffTerminal(s: ContextState, events: seq<EventMask>)
    ensures Callbacks(s, events).stopRequests >= s.stopRequests
    ensures Callbacks(s, events).stopRequests > s.stopRequests
            <==> exists i :: 0 <= i < |events| && Terminal(events[i])
    decreases |events|
  {
    if events != [] {
      CallbacksStopIffTerminal(CallbackStep(s, events[0]), events[1..]);
      if exists i :: 1 <= i < |events| && Terminal(events[i]) {
        var i :| 1 <= i < |events| && Terminal(events[i]);
        assert events[1..][i - 1] == events[i];
      }
      if exists i :: 0 <= i < |events| - 1 && Terminal(events[1..][i]) {
        var i :| 0 <= i < |events| - 1 && Terminal(events[1..][i]);
        assert events[i + 1] == events[1..][i];
      }
    }
  }

  /** `n` retains in a row. */
  function Retains(s: ContextState, n: nat): (r: ContextState)
    ensures r.strong == s.strong + n
    ensures r.(strong := s.strong) == s
  {
    if n == 0 then s else RetainStep(Retains(s, n - 1))
  }

  /** `n` releases in a row, which needs `n` references to release. */
  function Releases(s: ContextState, n: nat): (r: ContextState)
    requires s.strong >= n
    ensures r.strong + n == s.strong
    ensures r.(strong := s.strong) == s
  {
    if n == 0 then s else ReleaseStep(Releases(s, n - 1))
  }

  /** Every retain the native side makes is balanced by a release: the count
      returns to where it started, and it never drops below it on the way. */
  lemma BalancedRetainsAndReleases(s: ContextState, n: nat, k: nat)
    requires k <= n
    ensures Releases(Retains(s, n), k).strong >= s.strong
    ensures Releases(Retains(s, n), n) == s
  {
  }

  // ---------------------------------------------------------------------------
  // The imperative objects

  /** `CFAsyncStreamContext`, with the strong count of the `Arc` around it. */
  class AsyncStreamContext {
    var event: EventMask
    var waker: Option<Waker>
    var strong: nat
    /** Wakers woken by callbacks, in order (`waker.wake()`). */
    var woken: seq<Waker>
    /** `CFRunLoopStop` calls made by callbacks. */
    var stopRequests: nat

    function State(): ContextState
      reads this
    {
      ContextState(event, waker, strong, woken, stopRequests)
    }

    /** `Arc::new(CFAsyncStreamContext { .. })`: default fields, one reference. */
    constructor ()
      ensures State() == InitialContext.(strong := 1)
    {
      event := {};
      waker := None;
      strong := 1;
      woken := [];
      stopRequests := 0;
    }
  }

  /** `FuturesCFStream`: the async stream over the two native streams. */
  class FuturesCFStream {
    const context: AsyncStreamContext

    /** `FuturesCFStream::cf_stream`: a new context, whose clone goes to the
        run-loop thread (the thread itself is not modelled; `InRunloop` is
        what it runs). */
    constructor FromStreams()
      ensures fresh(context)
      ensures context.State() == InitialContext
    {
      var c := new AsyncStreamContext();
      c.strong := c.strong + 1;
      context := c;
    }

    method SetWaker(w: Waker)
      requires context.waker.None?
      modifies context
      ensures context.State() == SetWakerStep(old(context.State()), w)
    {
      context.waker := Some(w);
    }

    /** `poll_read`; `hasBytesAvailable` and `nativeRead` are the answers of
        the native input stream. */
    method PollRead(w: Waker, hasBytesAvailable: bool, nativeRead: int) returns (p: Poll)
      requires PollDefined(context.State(), hasBytesAvailable, nativeRead)
      modifies context
      ensures (context.State(), p) == PollStep(old(context.State()), w, hasBytesAvailable, nativeRead)
    {
      if hasBytesAvailable {
        p := Ready(nativeRead as nat);
      } else {
        SetWaker(w);
        p := Pending;
      }
    }

    /** `poll_write`; `hasSpaceAvailable` and `nativeWrite` are the answers of
        the native output stream. */
    method PollWrite(w: Waker, hasSpaceAvailable: bool, nativeWrite: int) returns (p: Poll)
      requires PollDefined(context.State(), hasSpaceAvailable, nativeWrite)
      modifies context
      ensures (context.State(), p) == PollStep(old(context.State()), w, hasSpaceAvailable, nativeWrite)
    {
      if hasSpaceAvailable {
        p := Ready(nativeWrite as nat);
      } else {
        SetWaker(w);
        p := Pending;
      }
    }

    /** `poll_flush` and `poll_close` complete at once, without touching the context. */
    method PollFlush() returns (done: bool)
      ensures done
    {
      done := true;
    }
  }

  /** `cfstream_callback`, which both `cfreadstream_callback` and
      `cfwritestream_callback` forward to; a null context pointer panics. */
  method Callback(info: AsyncStreamContext?, eventType: EventMask)
    requires info != null
    modifies info
    ensures info.State() == CallbackStep(old(info.State()), eventType)
  {
    info.event := info.event + eventType;
    var w := info.waker;
    info.waker := None;
    if w.Some? {
      info.woken := info.woken + [w.value];
    }
    if EndEncountered in eventType {
      info.stopRequests := info.stopRequests + 1;
    }
    if ErrorOccurred in eventType {
      info.stopRequests := info.stopRequests + 1;
    }
  }

  /** `cfstream_context_clone`: returns the same context, one reference more. */
  method ContextRetain(info: AsyncStreamContext) returns (r: AsyncStreamContext)
    modifies info
    ensures r == info
    ensures info.State() == RetainStep(old(info.State()))
  {
    info.strong := info.strong + 1;
    r := info;
  }

  /** `cfstream_context_drop`: one reference fewer. */
  method ContextRelease(info: AsyncStreamContext)
    requires info.strong > 0
    modifies info
    ensures info.State() == ReleaseStep(old(info.State()))
  {
    info.strong := info.strong - 1;
  }

  // ---------------------------------------------------------------------------
  // The run-loop thread

  /** How `in_runloop` ends. */
  datatype RunOutcome = ReadOpenFailed | WriteOpenFailed | LoopReturned

  /** The native calls `in_runloop` makes, in order, given whether each open
      succeeds: for each stream set the client, schedule it and open it; stop
      at the first failed open; run the loop only when both are open; and on
      return the locals are dropped, the write stream before the read stream.
      The lemmas below state what this order guarantees. */
  function RunloopTrace(loop: RunLoopRef, mode: ModeRef, readOpened: bool, writeOpened: bool): (r: seq<CFCall>)
    // the read stream is always set up first
    ensures |r| >= 3 && r[..3] == Setup(ReadSide, loop, mode)
  {
    var readSetup := Setup(ReadSide, loop, mode);
    if !readOpened then
      readSetup + DropCalls(ReadSide, Some((loop, mode)), false)
    else
      var writeSetup := Setup(WriteSide, loop, mode);
      if !writeOpened then
        readSetup + writeSetup
        + DropCalls(WriteSide, Some((loop, mode)), false) + DropCalls(ReadSide, Some((loop, mode)), true)
      else
        readSetup + writeSetup + [RunLoopRun]
        + DropCalls(WriteSide, Some((loop, mode)), true) + DropCalls(ReadSide, Some((loop, mode)), true)
  }

  /** Set the client, schedule, open: the set-up of one stream. */
  function Setup(side: Side, loop: RunLoopRef, mode: ModeRef): (r: seq<CFCall>)
    ensures |r| == 3 && RunLoopRun !in r
    ensures forall c :: c in r ==> c.StreamOp? && c.side == side && !c.call.Close? && !c.call.Unschedule?
  {
    [StreamOp(side, StreamCall.SetClient(RegisteredEvents)), StreamOp(side, StreamCall.Schedule(loop, mode)),
     StreamOp(side, StreamCall.Open)]
  }

  /** The loop runs if and only if both streams opened, and only after both opens. */
  lemma RunloopRunsOnlyAfterBothOpens(loop: RunLoopRef, mode: ModeRef, readOpened: bool, writeOpened: bool)
    ensures RunLoopRun in RunloopTrace(loop, mode, readOpened, writeOpened) <==> readOpened && writeOpened
    ensures forall i :: 0 <= i < |RunloopTrace(loop, mode, readOpened, writeOpened)|
                        && RunloopTrace(loop, mode, readOpened, writeOpened)[i] == RunLoopRun
              ==> StreamOp(ReadSide, StreamCall.Open) in RunloopTrace(loop, mode, readOpened, writeOpened)[..i]
                  && StreamOp(WriteSide, StreamCall.Open) in RunloopTrace(loop, mode, readOpened, writeOpened)[..i]
  {
    var r := RunloopTrace(loop, mode, readOpened, writeOpened);
    var readSetup := Setup(ReadSide, loop, mode);
    var writeSetup := Setup(WriteSide, loop, mode);
    var readDrop := DropCalls(ReadSide, Some((loop, mode)), readOpened);
    var writeDrop := DropCalls(WriteSide, Some((loop, mode)), writeOpened);
    assert RunLoopRun !in readDrop && RunLoopRun !in writeDrop;
    if !readOpened {
      assert r == readSetup + readDrop;
    } else if !writeOpened {
      assert r == readSetup + writeSetup + writeDrop + readDrop;
    } else {
      var before := readSetup + writeSetup;
      var after := writeDrop + readDrop;
      assert r == before + [RunLoopRun] + after;
      forall i | 0 <= i < |r| && r[i] == RunLoopRun
        ensures r[..i] == before
      {
      }
      assert before[2] == StreamOp(ReadSide, StreamCall.Open);
      assert before[5] == StreamOp(WriteSide, StreamCall.Open);
    }
  }

  /** A failed read open leaves the write stream untouched: it is never
      given a client, scheduled, opened, closed or unscheduled. */
  lemma FailedReadOpenSparesWriteStream(loop: RunLoopRef, mode: ModeRef, writeOpened: bool)
    ensures forall c :: c in RunloopTrace(loop, mode, false, writeOpened) ==> c.StreamOp? && c.side == ReadSide
  {
  }

  /** A stream is closed if and only if its open succeeded; every stream that
      was scheduled is unscheduled from the same loop and mode. */
  lemma RunloopUndoesWhatItDid(loop: RunLoopRef, mode: ModeRef, readOpened: bool, writeOpened: bool)
    ensures StreamOp(ReadSide, Close) in RunloopTrace(loop, mode, readOpened, writeOpened) <==> readOpened
    ensures StreamOp(WriteSide, Close) in RunloopTrace(loop, mode, readOpened, writeOpened) <==> readOpened && writeOpened
    ensures StreamOp(ReadSide, Unschedule(loop, mode)) in RunloopTrace(loop, mode, readOpened, writeOpened)
    ensures StreamOp(WriteSide, StreamCall.Schedule(loop, mode)) in RunloopTrace(loop, mode, readOpened, writeOpened)
            <==> readOpened
    ensures StreamOp(WriteSide, Unschedule(loop, mode)) in RunloopTrace(loop, mode, readOpened, writeOpened)
            <==> readOpened
  {
  }

  /** The set-up of one stream in `in_runloop`: a new wrapper, `set_client`
      (which must return 1, an `assert_eq!`), `schedule` on the current loop
      and common modes, then `open`. */
  method SetUpStream(side: Side, cf: CoreFoundation, loop: RunLoopRef, mode: ModeRef, setClient: int, open: int)
    returns (stream: CFStream, ok: bool)
    requires setClient == 1 && (open == 0 || open == 1)
    modifies cf
    ensures fresh(stream) && stream.cf == cf && stream.side == side && !stream.dropped
    ensures stream.scheduled == Some((loop, mode)) && stream.open == ok
    ensures ok <==> open == 1
    ensures cf.calls == old(cf.calls) + Setup(side, loop, mode)
  {
    stream := new CFStream(side, cf);
    var accepted := stream.SetClient(RegisteredEvents, setClient);
    assert accepted == 1;
    stream.Schedule(loop, mode);
    ok := stream.Open(open);
  }

  /** Concatenation is associative; stated once so that the traces below can
      be regrouped without unfolding them. */
  lemma AppendAssociative<T>(a: seq<T>, b: seq<T>, c: seq<T>)
    ensures a + (b + c) == (a + b) + c
  {
  }

  /** The calls `in_runloop` makes once the read stream is open: set up the
      write stream, run the loop if it opened, then drop both streams. */
  function WriteTrace(loop: RunLoopRef, mode: ModeRef, writeOpened: bool): (r: seq<CFCall>)
    ensures RunloopTrace(loop, mode, true, writeOpened) == Setup(ReadSide, loop, mode) + r
  {
    Setup(WriteSide, loop, mode) + (if writeOpened then [RunLoopRun] else [])
    + DropCalls(WriteSide, Some((loop, mode)), writeOpened) + DropCalls(ReadSide, Some((loop, mode)), true)
  }

  /** The second half of `in_runloop`, with the read stream already open. */
  method OpenWriteAndRun(cf: CoreFoundation, readStream: CFStream, currentLoop: RunLoopRef, commonModes: ModeRef,
                         writeSetClient: int, writeOpen: int)
    returns (outcome: RunOutcome)
    requires writeSetClient == 1 && (writeOpen == 0 || writeOpen == 1)
    requires readStream.cf == cf && readStream.side == ReadSide && !readStream.dropped
    requires readStream.scheduled == Some((currentLoop, commonModes)) && readStream.open
    modifies cf, readStream
    ensures outcome == if writeOpen == 0 then WriteOpenFailed else LoopReturned
    ensures cf.calls == old(cf.calls) + WriteTrace(currentLoop, commonModes, writeOpen == 1)
  {
    ghost var calls0 := cf.calls;
    ghost var writeSetup := Setup(WriteSide, currentLoop, commonModes);
    ghost var run: seq<CFCall> := if writeOpen == 1 then [RunLoopRun] else [];
    ghost var writeDrop := DropCalls(WriteSide, Some((currentLoop, commonModes)), writeOpen == 1);
    ghost var readDrop := DropCalls(ReadSide, Some((currentLoop, commonModes)), true);

    var writeStream, ok := SetUpStream(WriteSide, cf, currentLoop, commonModes, writeSetClient, writeOpen);
    if ok {
      // CFRunLoopRun: blocks until a callback stops the loop
      cf.calls := cf.calls + [RunLoopRun];
      outcome := LoopReturned;
    } else {
      outcome := WriteOpenFailed;
    }
    assert cf.calls == calls0 + writeSetup + run;
    writeStream.Drop();
    readStream.Drop();
    assert cf.calls == calls0 + writeSetup + run + writeDrop + readDrop;
    AppendAssociative(calls0, writeSetup + run + writeDrop, readDrop);
    AppendAssociative(calls0, writeSetup + run, writeDrop);
    AppendAssociative(calls0, writeSetup, run);
  }

  /** The stream work of `in_runloop`: set up the read stream, then the
      write stream, stopping at the first failed open; run the loop when both
      are open; drop the locals on every return, the write stream first. */
  method OpenStreamsAndRun(cf: CoreFoundation, currentLoop: RunLoopRef, commonModes: ModeRef,
                           readSetClient: int, readOpen: int, writeSetClient: int, writeOpen: int)
    returns (outcome: RunOutcome)
    requires readSetClient == 1 && (readOpen == 0 || readOpen == 1)
    requires readOpen == 1 ==> writeSetClient == 1 && (writeOpen == 0 || writeOpen == 1)
    modifies cf
    ensures outcome == if readOpen == 0 then ReadOpenFailed else if writeOpen == 0 then WriteOpenFailed else LoopReturned
    ensures cf.calls == old(cf.calls) + RunloopTrace(currentLoop, commonModes, readOpen == 1, writeOpen == 1)
  {
    ghost var calls0 := cf.calls;
    ghost var readSetup := Setup(ReadSide, currentLoop, commonModes);

    var readStream, ok := SetUpStream(ReadSide, cf, currentLoop, commonModes, readSetClient, readOpen);
    if !ok {
      ghost var readDrop := DropCalls(ReadSide, Some((currentLoop, commonModes)), false);
      readStream.Drop();
      AppendAssociative(calls0, readSetup, readDrop);
      return ReadOpenFailed;
    }
    ghost var calls1 := cf.calls;
    outcome := OpenWriteAndRun(cf, readStream, currentLoop, commonModes, writeSetClient, writeOpen);
    AppendAssociative(calls0, readSetup, WriteTrace(currentLoop, commonModes, writeOpen == 1));
  }

  /** `in_runloop`, run by the background thread with its own reference to
      the context. `readSetClient`, `readOpen`, `writeSetClient` and
      `writeOpen` are what the native calls return; each `set_client` must
      return 1 and each open returns 0 or 1. The callbacks the run loop
      dispatches while `CFRunLoopRun` blocks are separate `Callback` steps. */
  method InRunloop(context: AsyncStreamContext, cf: CoreFoundation, currentLoop: RunLoopRef, commonModes: ModeRef,
                   readSetClient: int, readOpen: int, writeSetClient: int, writeOpen: int)
    returns (outcome: RunOutcome)
    requires context.strong > 0
    requires readSetClient == 1 && (readOpen == 0 || readOpen == 1)
    requires readOpen == 1 ==> writeSetClient == 1 && (writeOpen == 0 || writeOpen == 1)
    modifies context, cf
    ensures outcome == if readOpen == 0 then ReadOpenFailed else if writeOpen == 0 then WriteOpenFailed else LoopReturned
    ensures cf.calls == old(cf.calls) + RunloopTrace(currentLoop, commonModes, readOpen == 1, writeOpen == 1)
    // the reference moved into the client context replaces the thread's own, which is dropped on return
    ensures context.State() == old(context.State())
  {
    // Arc::into_raw(context.clone()) for the client context's `info`
    context.strong := context.strong + 1;
    outcome := OpenStreamsAndRun(cf, currentLoop, commonModes, readSetClient, readOpen, writeSetClient, writeOpen);
    // the thread's own `Arc` is dropped when `in_runloop` returns
    context.strong := context.strong - 1;
  }
}
