/** The `CFStream<T>` wrapper around a CoreFoundation read or write stream
    (src/corebluetooth/l2cap_channel/futures_channel/cf_stream.rs).

    The wrapper remembers whether it scheduled the stream on a run loop and
    whether it opened it, and its destructor undoes exactly those two things.
    The native CoreFoundation functions are not modelled; every call the
    wrapper makes on them is appended to the log of a `CoreFoundation` object,
    and the value a native function returns is a parameter. */
module CfStream {
  import opened Wrappers

  /** Opaque CoreFoundation references; only their identity matters. */
  type RunLoopRef = nat
  type ModeRef = nat

  /** Which of the two native streams a call is made on (`CFReadStreamRef` or `CFWriteStreamRef`). */
  datatype Side = ReadSide | WriteSide

  /** The flags of a `CFStreamEventType`, as CoreFoundation's CFStream.h
      defines them (the bit values are given by `Flag`). A bitmask of these
      flags is modelled as the set of flags whose bits are one; `MaskOf` gives
      the bitmask back, OR-ing two masks is the union of their sets, and
      `mask & flag != 0` is membership. */
  datatype StreamEvent = OpenCompleted | HasBytesAvailable | CanAcceptBytes | ErrorOccurred | EndEncountered

  type EventMask = set<StreamEvent>

  /** The bit each flag occupies in a `CFStreamEventType`. */
  function Flag(e: StreamEvent): (bit: bv64)
    ensures bit in {1, 2, 4, 8, 16}
  {
    match e
    case OpenCompleted => 1
    case HasBytesAvailable => 2
    case CanAcceptBytes => 4
    case ErrorOccurred => 8
    case EndEncountered => 16
  }

  /** The `CFStreamEventType` bitmask whose set bits are the flags of `s`. */
  function MaskOf(s: EventMask): (mask: bv64)
    ensures mask < 32
  {
    (if OpenCompleted in s then 1 else 0)
    | (if HasBytesAvailable in s then 2 else 0)
    | (if CanAcceptBytes in s then 4 else 0)
    | (if ErrorOccurred in s then 8 else 0)
    | (if EndEncountered in s then 16 else 0)
  }

  /** `mask & flag != 0` tests membership of the flag in the set. */
  lemma MaskTestsMembership(s: EventMask, e: StreamEvent)
    ensures MaskOf(s) & Flag(e) != 0 <==> e in s
  {
  }

  /** OR-ing two masks is the union of their sets of flags. */
  lemma MaskOfUnion(a: EventMask, b: EventMask)
    ensures MaskOf(a + b) == MaskOf(a) | MaskOf(b)
  {
  }

  /** A mask and its set of flags determine each other. */
  lemma MaskDeterminesFlags(a: EventMask, b: EventMask)
    ensures MaskOf(a) == MaskOf(b) <==> a == b
  {
    if MaskOf(a) == MaskOf(b) {
      forall e: StreamEvent
        ensures e in a <==> e in b
      {
        MaskTestsMembership(a, e);
        MaskTestsMembership(b, e);
      }
    }
  }

  /** A call on one native stream. */
  datatype StreamCall =
    | SetClient(events: EventMask)
    | Schedule(runLoop: RunLoopRef, mode: ModeRef)
    | Unschedule(runLoop: RunLoopRef, mode: ModeRef)
    | Open
    | Close

  /** A call into CoreFoundation: on a stream, or `CFRunLoopRun`. */
  datatype CFCall = StreamOp(side: Side, call: StreamCall) | RunLoopRun

  /** The native side, seen only through the calls made on it, in order. */
  class CoreFoundation {
    var calls: seq<CFCall>

    constructor ()
      ensures calls == []
    {
      calls := [];
    }
  }

  /** The native calls the destructor makes for a stream in the given state. */
  function DropCalls(side: Side, scheduled: Option<(RunLoopRef, ModeRef)>, open: bool): (r: seq<CFCall>)
    // every call is a close or an unschedule of this stream
    ensures forall c :: c in r ==> c.StreamOp? && c.side == side && (c.call.Close? || c.call.Unschedule?)
    // the stream is closed if and only if it is open
    ensures StreamOp(side, Close) in r <==> open
    // it is unscheduled if and only if it was scheduled, from the loop and mode recorded then
    ensures forall l: RunLoopRef, m: ModeRef :: StreamOp(side, Unschedule(l, m)) in r <==> scheduled == Some((l, m))
    // close comes before unschedule
    ensures forall i, j :: 0 <= i < |r| && 0 <= j < |r| && r[i].call.Close? && r[j].call.Unschedule? ==> i < j
  {
    (if open then [StreamOp(side, Close)] else [])
    + (match scheduled
       case Some((l, m)) => [StreamOp(side, Unschedule(l, m))]
       case None => [])
  }

  /** A stream whose open failed is not closed, but it is still unscheduled. */
  lemma FailedOpenIsOnlyUnscheduled(side: Side, l: RunLoopRef, m: ModeRef)
    ensures DropCalls(side, Some((l, m)), false) == [StreamOp(side, Unschedule(l, m))]
    ensures StreamOp(side, Close) !in DropCalls(side, Some((l, m)), false)
  {
  }

  class CFStream {
    /** The native stream this wrapper owns (`stream: T`). */
    const side: Side
    const cf: CoreFoundation
    var scheduled: Option<(RunLoopRef, ModeRef)>
    var open: bool
    /** Set once `Drop` has run; Rust runs a destructor exactly once. */
    var dropped: bool

    /** `CFStream::new`: neither scheduled nor open. */
    constructor (side: Side, cf: CoreFoundation)
      ensures this.side == side && this.cf == cf
      ensures scheduled == None && !open && !dropped
    {
      this.side := side;
      this.cf := cf;
      scheduled := None;
      open := false;
      dropped := false;
    }

    /** Schedules the stream and records exactly `(runLoop, mode)`. */
    method Schedule(runLoop: RunLoopRef, mode: ModeRef)
      requires !dropped
      modifies this, cf
      ensures scheduled == Some((runLoop, mode))
      ensures open == old(open) && !dropped
      ensures cf.calls == old(cf.calls) + [StreamOp(side, StreamCall.Schedule(runLoop, mode))]
    {
      cf.calls := cf.calls + [StreamOp(side, StreamCall.Schedule(runLoop, mode))];
      scheduled := Some((runLoop, mode));
    }

    /** Opens the stream; `native` is what the native open returns, a
        CoreFoundation `Boolean` that is 0 or 1 (any other value is `unreachable!`). */
    method Open(native: int) returns (ok: bool)
      requires !dropped
      requires native == 0 || native == 1
      modifies this, cf
      ensures ok <==> native == 1
      // the flag is set on success and left alone on failure
      ensures open == (old(open) || ok)
      ensures scheduled == old(scheduled) && !dropped
      ensures cf.calls == old(cf.calls) + [StreamOp(side, StreamCall.Open)]
    {
      cf.calls := cf.calls + [StreamOp(side, StreamCall.Open)];
      if native == 1 {
        open := true;
        ok := true;
      } else {
        ok := false;
      }
    }

    /** Registers the client callback; changes nothing in the wrapper and
        forwards what the native call returns. */
    method SetClient(events: EventMask, native: int) returns (r: int)
      requires !dropped
      modifies cf
      ensures r == native
      ensures cf.calls == old(cf.calls) + [StreamOp(side, StreamCall.SetClient(events))]
    {
      cf.calls := cf.calls + [StreamOp(side, StreamCall.SetClient(events))];
      r := native;
    }

    /** The destructor: close if open, then unschedule if scheduled. */
    method Drop()
      requires !dropped
      modifies this, cf
      ensures dropped
      ensures scheduled == old(scheduled) && open == old(open)
      ensures cf.calls == old(cf.calls) + DropCalls(side, old(scheduled), old(open))
    {
      if open {
        cf.calls := cf.calls + [StreamOp(side, Close)];
      }
      if scheduled.Some? {
        var (l, m) := scheduled.value;
        cf.calls := cf.calls + [StreamOp(side, Unschedule(l, m))];
      }
      dropped := true;
    }
  }
}
