/**
 * The Android event pipe: the `Event` tag enum, its one-byte wire form, the
 * `wake` / `poll_events` pair over the anonymous pipe `PIPE`, and the pure
 * mappings used by the activity callbacks (focus flag to event, log level to
 * log priority).
 */
module NdkEvents {
  import opened Wrappers
  import opened NativeInts

  /** Lifecycle, window and input occurrences. `#[repr(u8)]` and fieldless, so
      each value is one byte holding its declaration index. */
  datatype Event =
    | Start
    | Resume
    | SaveInstanceState
    | Pause
    | Stop
    | Destroy
    | ConfigChanged
    | LowMemory
    | WindowLostFocus
    | WindowHasFocus
    | WindowCreated
    | WindowResized
    | WindowRedrawNeeded
    | WindowDestroyed
    | InputQueueCreated
    | InputQueueDestroyed
    | ContentRectChanged

  /** `size_of::<Event>()`: one byte. */
  const EventSize: nat := 1
  /** Number of `Event` variants; tags are `0 .. EventCount - 1`. */
  const EventCount: nat := 17

  /** The byte the `repr(u8)` layout gives each variant. */
  function Tag(e: Event): (b: u8)
    ensures b < EventCount
  {
    match e
    case Start => 0
    case Resume => 1
    case SaveInstanceState => 2
    case Pause => 3
    case Stop => 4
    case Destroy => 5
    case ConfigChanged => 6
    case LowMemory => 7
    case WindowLostFocus => 8
    case WindowHasFocus => 9
    case WindowCreated => 10
    case WindowResized => 11
    case WindowRedrawNeeded => 12
    case WindowDestroyed => 13
    case InputQueueCreated => 14
    case InputQueueDestroyed => 15
    case ContentRectChanged => 16
  }

  /** Reading a byte back as an `Event`; bytes past the last tag are not events. */
  function FromTag(b: u8): (r: Option<Event>)
    ensures r.Some? <==> b < EventCount
    ensures r.Some? ==> Tag(r.value) == b
  {
    if b == 0 then Some(Start)
    else if b == 1 then Some(Resume)
    else if b == 2 then Some(SaveInstanceState)
    else if b == 3 then Some(Pause)
    else if b == 4 then Some(Stop)
    else if b == 5 then Some(Destroy)
    else if b == 6 then Some(ConfigChanged)
    else if b == 7 then Some(LowMemory)
    else if b == 8 then Some(WindowLostFocus)
    else if b == 9 then Some(WindowHasFocus)
    else if b == 10 then Some(WindowCreated)
    else if b == 11 then Some(WindowResized)
    else if b == 12 then Some(WindowRedrawNeeded)
    else if b == 13 then Some(WindowDestroyed)
    else if b == 14 then Some(InputQueueCreated)
    else if b == 15 then Some(InputQueueDestroyed)
    else if b == 16 then Some(ContentRectChanged)
    else None
  }

  /** The record `wake` writes: the event's bytes. */
  function Encode(e: Event): (bytes: seq<u8>)
    ensures |bytes| == EventSize
  {
    [Tag(e)]
  }

  /** What `poll_events` makes of the bytes one `read` returned: an event only
      when exactly `EventSize` bytes came back. */
  function Decode(bytes: seq<u8>): (r: Option<Event>)
    ensures r.Some? ==> |bytes| == EventSize
  {
    if |bytes| == EventSize then FromTag(bytes[0]) else None
  }

  /** Round trip: a full-size read of a written record yields the event written. */
  lemma DecodeEncode(e: Event)
    ensures Decode(Encode(e)) == Some(e)
  {
    match e
    case Start =>
    case Resume =>
    case SaveInstanceState =>
    case Pause =>
    case Stop =>
    case Destroy =>
    case ConfigChanged =>
    case LowMemory =>
    case WindowLostFocus =>
    case WindowHasFocus =>
    case WindowCreated =>
    case WindowResized =>
    case WindowRedrawNeeded =>
    case WindowDestroyed =>
    case InputQueueCreated =>
    case InputQueueDestroyed =>
    case ContentRectChanged =>
  }

  /** Distinct events have distinct records, so nothing is confused on the wire. */
  lemma EncodeInjective(a: Event, b: Event)
    ensures Encode(a) == Encode(b) <==> a == b
  {
    if Encode(a) == Encode(b) {
      DecodeEncode(a);
      DecodeEncode(b);
    }
  }

  /** A short read is never taken for some event. */
  lemma ShortReadIsNoEvent(bytes: seq<u8>)
    requires |bytes| < EventSize
    ensures Decode(bytes) == None
  {
  }

  /** The byte stream a sequence of `wake` calls leaves in the pipe. */
  function EncodeAll(es: seq<Event>): (bytes: seq<u8>)
    ensures |bytes| == |es| * EventSize
  {
    if es == [] then [] else Encode(es[0]) + EncodeAll(es[1..])
  }

  /** Reads the stream record by record (what repeated full-size reads return). */
  function DecodeAll(bytes: seq<u8>): (r: seq<Option<Event>>)
    ensures |r| == |bytes| / EventSize
    decreases |bytes|
  {
    if |bytes| < EventSize then [] else [Decode(bytes[..EventSize])] + DecodeAll(bytes[EventSize..])
  }

  function Somes(es: seq<Event>): (r: seq<Option<Event>>)
    ensures |r| == |es|
    ensures forall i :: 0 <= i < |es| ==> r[i] == Some(es[i])
  {
    if es == [] then [] else [Some(es[0])] + Somes(es[1..])
  }

  /** FIFO at the byte level: reading back the stream of any number of records
      yields the events in the order they were written, none torn or lost. */
  lemma {:induction false} DecodeAllEncodeAll(es: seq<Event>)
    ensures DecodeAll(EncodeAll(es)) == Somes(es)
  {
    if es != [] {
      var bytes := EncodeAll(es);
      assert bytes[..EventSize] == Encode(es[0]);
      assert bytes[EventSize..] == EncodeAll(es[1..]);
      DecodeEncode(es[0]);
      DecodeAllEncodeAll(es[1..]);
    }
  }

  /** The event the `focus` trampoline sends for the `has_focus` flag. */
  function FocusEvent(hasFocus: i32): (e: Event)
    ensures hasFocus == 0 <==> e == WindowLostFocus
    ensures hasFocus != 0 <==> e == WindowHasFocus
  {
    if hasFocus == 0 then WindowLostFocus else WindowHasFocus
  }

  /** The live `Java_..._MainActivity_*` entry points; each immediately wakes
      the event pipe with one event. */
  datatype ActivityCallback =
    | OnResume
    | OnPause
    | OnFocus(hasFocus: i32)
    | OnStart
    | OnStop
    | OnSave
    | OnDestroy
    | OnMemory

  /** The event each entry point writes. */
  function CallbackEvent(cb: ActivityCallback): (e: Event)
    ensures cb.OnFocus? <==> e.WindowLostFocus? || e.WindowHasFocus?
    ensures !(e.WindowCreated? || e.WindowResized? || e.WindowRedrawNeeded? || e.WindowDestroyed?)
    ensures !(e.InputQueueCreated? || e.InputQueueDestroyed? || e.ContentRectChanged? || e.ConfigChanged?)
  {
    match cb
    case OnResume => Resume
    case OnPause => Pause
    case OnFocus(f) => FocusEvent(f)
    case OnStart => Start
    case OnStop => Stop
    case OnSave => SaveInstanceState
    case OnDestroy => Destroy
    case OnMemory => LowMemory
  }

  /** The logger's levels. */
  datatype Level = Error | Warn | Info | Debug | Trace

  /** `android_LogPriority` values: VERBOSE 2, DEBUG 3, INFO 4, WARN 5, ERROR 6. */
  const ANDROID_LOG_VERBOSE: int := 2
  const ANDROID_LOG_DEBUG: int := 3
  const ANDROID_LOG_INFO: int := 4
  const ANDROID_LOG_WARN: int := 5
  const ANDROID_LOG_ERROR: int := 6

  /** Severity rank of a level, `Trace` lowest. */
  function Severity(l: Level): nat
  {
    match l
    case Trace => 0
    case Debug => 1
    case Info => 2
    case Warn => 3
    case Error => 4
  }

  /** The priority `android_log` passes to `__android_log_write`. */
  function LogPriority(l: Level): (prio: int)
    ensures ANDROID_LOG_VERBOSE <= prio <= ANDROID_LOG_ERROR
    ensures l == Trace <==> prio == ANDROID_LOG_VERBOSE
    ensures l == Error <==> prio == ANDROID_LOG_ERROR
  {
    match l
    case Error => ANDROID_LOG_ERROR
    case Warn => ANDROID_LOG_WARN
    case Info => ANDROID_LOG_INFO
    case Debug => ANDROID_LOG_DEBUG
    case Trace => ANDROID_LOG_VERBOSE
  }

  /** The mapping keeps the order of severities and never merges two levels. */
  lemma LogPriorityMonotone(a: Level, b: Level)
    ensures Severity(a) < Severity(b) <==> LogPriority(a) < LogPriority(b)
    ensures LogPriority(a) == LogPriority(b) ==> a == b
  {
  }

  /**
   * The anonymous pipe `PIPE`: `buffer` holds the bytes written and not yet
   * read; `capacity` is the room the OS gives the pipe. The ghost `pending`
   * is the queue of events those bytes stand for.
   */
  class EventPipe {
    var buffer: seq<u8>
    const capacity: nat
    ghost var pending: seq<Event>

    ghost predicate Valid()
      reads this
    {
      buffer == EncodeAll(pending) && |buffer| <= capacity
    }

    constructor (capacity: nat)
      ensures Valid() && this.capacity == capacity
      ensures buffer == [] && pending == []
    {
      this.capacity := capacity;
      buffer := [];
      pending := [];
    }

    /**
     * `wake`: writes one whole record. `PIPE` is blocking and a one-byte
     * write is atomic, so on a full pipe the write waits for the reader; the
     * requires takes the state in which it goes through. (The source aborts
     * only when the write fails.)
     */
    method Wake(e: Event)
      requires Valid()
      requires |buffer| + EventSize <= capacity
      modifies this
      ensures Valid()
      ensures buffer == old(buffer) + Encode(e)
      ensures pending == old(pending) + [e]
    {
      EncodeAllSnoc(pending, e);
      buffer := buffer + Encode(e);
      pending := pending + [e];
    }

    /**
     * `poll_events`: one `read` of up to `EventSize` bytes. `n` is the count
     * the OS reports (negative on error, 0 when nothing is there). Only a
     * full-size read yields an event, and it is the oldest one written.
     */
    method PollEvents(n: int) returns (r: Option<Event>)
      requires Valid()
      requires n <= EventSize && n <= |buffer|
      modifies this
      ensures Valid()
      ensures r.Some? <==> n == EventSize
      ensures r.Some? ==> old(pending) != [] && r.value == old(pending)[0]
                          && pending == old(pending)[1..] && buffer == old(buffer)[EventSize..]
      ensures r.None? ==> buffer == old(buffer) && pending == old(pending)
    {
      if n == EventSize {
        var record := buffer[..EventSize];
        assert pending != [];
        assert record == Encode(pending[0]);
        DecodeEncode(pending[0]);
        r := Decode(record);
        buffer := buffer[EventSize..];
        pending := pending[1..];
      } else {
        r := None;
      }
    }
  }

  lemma {:induction false} EncodeAllSnoc(es: seq<Event>, e: Event)
    ensures EncodeAll(es + [e]) == EncodeAll(es) + Encode(e)
  {
    if es != [] {
      assert (es + [e])[1..] == es[1..] + [e];
      EncodeAllSnoc(es[1..], e);
    }
  }

  /** Two events woken in turn into an empty pipe are polled in the same
      order, and the pipe is empty again afterwards. */
  method WakeTwiceThenPoll(pipe: EventPipe, a: Event, b: Event) returns (first: Option<Event>, second: Option<Event>)
    requires pipe.Valid() && pipe.buffer == [] && pipe.capacity >= 2 * EventSize
    modifies pipe
    ensures first == Some(a) && second == Some(b)
    ensures pipe.Valid() && pipe.buffer == [] && pipe.pending == []
  {
    pipe.Wake(a);
    pipe.Wake(b);
    first := pipe.PollEvents(EventSize);
    second := pipe.PollEvents(EventSize);
  }
}
