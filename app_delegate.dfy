/**
 * The macOS application delegate: the callbacks AppKit invokes on it and the
 * calls each forwards to the application state, and the per-instance
 * auxiliary state boxed in an instance variable by `new` and freed by
 * `dealloc`.
 *
 * Objective-C objects a callback receives are values of `NSObject`, with
 * nil and wrong-class objects as their own cases. The application state is
 * a sink: each handler returns the calls it makes on it (and on the shared
 * application).
 */
module AppDelegate {
  import opened Wrappers
  import opened NativeInts

  datatype ActivationPolicy = Regular | Accessory | Prohibited

  datatype AuxDelegateState = AuxDelegateState(activationPolicy: ActivationPolicy, activateIgnoringOtherApps: bool)

  /** The state `new` attaches to every delegate. */
  const DefaultAuxState: AuxDelegateState := AuxDelegateState(Regular, true)

  /** Objective-C `BOOL`, a signed char. */
  type BOOL = x: int | -0x80 <= x < 0x80
  const NO: BOOL := 0
  const YES: BOOL := 1

  /** A string object, by its UTF-8 bytes. */
  datatype NSString = NSString(utf8: seq<u8>)

  /** An object argument as the callbacks inspect it. */
  datatype NSObject =
    | Nil
    | NSData(bytes: seq<u8>)
    | NSError(localizedDescription: Option<NSString>)
    | OtherObject

  /** A parsed URL, by its serialization. */
  datatype Url = Url(serialization: string)

  /** The calls the delegate makes: `registerForRemoteNotifications` is sent
      to the shared `NSApplication`; the others go to `AppState`. */
  datatype DelegateCall =
    | RegisterForRemoteNotifications
    | Launched
    | OpenUrls(urls: seq<Url>)
    | Reopen(hasVisibleWindows: bool)
    | DidRegisterPushToken(token: seq<u8>)
    | DidFailToRegisterPushToken(error: string)

  const NullErrorMessage: string := "Unknown error (null error object)"

  /** `applicationDidFinishLaunching:`: registers for remote notifications
      when built with push notifications, then reports the launch. */
  function DidFinishLaunching(pushNotifications: bool): (calls: seq<DelegateCall>)
    ensures |calls| > 0 && calls[|calls| - 1] == Launched
    ensures RegisterForRemoteNotifications in calls <==> pushNotifications
  {
    (if pushNotifications then [RegisterForRemoteNotifications] else []) + [Launched]
  }

  /** `applicationShouldHandleReopen:hasVisibleWindows:` returns its argument
      and reports whether it is not `NO`. */
  function ShouldHandleReopen(hasVisibleWindows: BOOL): (r: (BOOL, seq<DelegateCall>))
    ensures r.0 == hasVisibleWindows
    ensures |r.1| == 1 && r.1[0].Reopen?
    ensures r.1[0].hasVisibleWindows <==> r.0 != NO
  {
    (hasVisibleWindows, [Reopen(hasVisibleWindows != NO)])
  }

  /** `applicationSupportsSecureRestorableState:` always answers `YES`. */
  function SupportsSecureRestorableState(): (r: BOOL)
    ensures r == YES && r != NO
  {
    YES
  }

  /** The URLs `application:openURLs:` reports, in one `OpenUrls` call: the
      entries that parse, in input order; the others are dropped without error. */
  function ParsedUrls(urls: seq<string>, parse: string -> Option<Url>): (r: seq<Url>)
    ensures |r| <= |urls|
  {
    if urls == [] then []
    else (match parse(urls[0]) case Some(u) => [u] case None => []) + ParsedUrls(urls[1..], parse)
  }

  /** Filtering distributes over concatenation: order is kept. */
  lemma {:induction false} ParsedUrlsAppend(a: seq<string>, b: seq<string>, parse: string -> Option<Url>)
    ensures ParsedUrls(a + b, parse) == ParsedUrls(a, parse) + ParsedUrls(b, parse)
  {
    if a == [] {
      assert a + b == b;
    } else {
      assert (a + b)[0] == a[0];
      assert (a + b)[1..] == a[1..] + b;
      ParsedUrlsAppend(a[1..], b, parse);
    }
  }

  /** `application:openURLs:`: a single `open_urls` call with the parsed URLs. */
  function DidOpenUrls(urls: seq<string>, parse: string -> Option<Url>): (calls: seq<DelegateCall>)
    ensures |calls| == 1 && calls[0].OpenUrls?
    ensures |calls[0].urls| <= |urls|
    ensures urls == [] ==> calls[0].urls == []
  {
    [OpenUrls(ParsedUrls(urls, parse))]
  }

  /** A URL is reported iff some entry parses to it. */
  lemma {:induction false} ParsedUrlsMembers(urls: seq<string>, parse: string -> Option<Url>, u: Url)
    ensures u in ParsedUrls(urls, parse) <==> exists i :: 0 <= i < |urls| && parse(urls[i]) == Some(u)
  {
    if urls != [] {
      ParsedUrlsMembers(urls[1..], parse, u);
      if exists i :: 0 <= i < |urls| && parse(urls[i]) == Some(u) {
        var i :| 0 <= i < |urls| && parse(urls[i]) == Some(u);
        if i > 0 {
          assert urls[1..][i - 1] == urls[i];
        }
      }
      if exists i :: 0 <= i < |urls[1..]| && parse(urls[1..][i]) == Some(u) {
        var i :| 0 <= i < |urls[1..]| && parse(urls[1..][i]) == Some(u);
        assert urls[i + 1] == urls[1..][i];
      }
    }
  }

  /** When every entry parses, every entry is reported, at its own position. */
  lemma {:induction false} ParsedUrlsAllValid(urls: seq<string>, parse: string -> Option<Url>)
    requires forall i :: 0 <= i < |urls| ==> parse(urls[i]).Some?
    ensures |ParsedUrls(urls, parse)| == |urls|
    ensures forall i :: 0 <= i < |urls| ==> ParsedUrls(urls, parse)[i] == parse(urls[i]).value
  {
    if urls != [] {
      assert forall i :: 0 <= i < |urls[1..]| ==> urls[1..][i] == urls[i + 1];
      ParsedUrlsAllValid(urls[1..], parse);
    }
  }

  /** `application:didRegisterForRemoteNotificationsWithDeviceToken:`. */
  function DidRegisterForApns(tokenData: NSObject): (calls: seq<DelegateCall>)
    ensures calls == [] <==> !tokenData.NSData?
    ensures tokenData.NSData? ==> calls == [DidRegisterPushToken(tokenData.bytes)]
  {
    match tokenData
    case Nil => []
    case NSData(bytes) => [DidRegisterPushToken(bytes)]
    case _ => []
  }

  /** `application:didFailToRegisterForRemoteNotificationsWithError:`; the
      description's bytes are decoded by `lossy` (`String::from_utf8_lossy`).
      A nil error reports the placeholder message, but an `NSError` whose
      `localizedDescription` is nil returns without reporting anything. */
  function DidFailToRegisterForApns(err: NSObject, lossy: seq<u8> -> string): (calls: seq<DelegateCall>)
    ensures err.Nil? ==> calls == [DidFailToRegisterPushToken(NullErrorMessage)]
    ensures err.NSError? && err.localizedDescription.Some? ==>
      calls == [DidFailToRegisterPushToken(lossy(err.localizedDescription.value.utf8))]
    ensures calls == [] <==> !err.Nil? && (!err.NSError? || err.localizedDescription.None?)
  {
    match err
    case Nil => [DidFailToRegisterPushToken(NullErrorMessage)]
    case NSError(description) =>
      (match description
       case None => []
       case Some(s) => [DidFailToRegisterPushToken(lossy(s.utf8))])
    case _ => []
  }

  /** Each APNS callback reports at most once, and a report of one kind never
      comes from the other callback. */
  lemma ApnsReportsAtMostOnce(obj: NSObject, lossy: seq<u8> -> string)
    ensures |DidRegisterForApns(obj)| <= 1 && |DidFailToRegisterForApns(obj, lossy)| <= 1
    ensures forall c :: c in DidRegisterForApns(obj) ==> c.DidRegisterPushToken?
    ensures forall c :: c in DidFailToRegisterForApns(obj, lossy) ==> c.DidFailToRegisterPushToken?
  {
  }

  /** The address of a boxed auxiliary state; never null. */
  type Ptr = x: int | x > 0 witness 1

  /** The boxes of auxiliary state that are live, by address. */
  class AuxHeap {
    var boxes: map<Ptr, AuxDelegateState>

    constructor ()
      ensures boxes == map[]
    {
      boxes := map[];
    }
  }

  /** A delegate instance: its `auxState` instance variable. */
  class Delegate {
    var auxState: Ptr

    /** `new`: `alloc`/`init`, then a box holding the default state, at
        the address `p` the allocator hands out, stored in the ivar. */
    constructor New(heap: AuxHeap, p: Ptr)
      requires p !in heap.boxes
      modifies heap
      ensures auxState == p
      ensures heap.boxes == old(heap.boxes)[p := DefaultAuxState]
    {
      auxState := p;
      heap.boxes := heap.boxes[p := DefaultAuxState];
    }

    /** `get_aux_state_mut`, read side: the state in this delegate's box. */
    function AuxState(heap: AuxHeap): AuxDelegateState
      requires auxState in heap.boxes
      reads this, heap
    {
      heap.boxes[auxState]
    }

    /** `get_aux_state_mut`, write side: an update through the borrowed state. */
    method SetAuxState(heap: AuxHeap, s: AuxDelegateState)
      requires auxState in heap.boxes
      modifies heap
      ensures heap.boxes == old(heap.boxes)[auxState := s]
    {
      heap.boxes := heap.boxes[auxState := s];
    }

    /** `dealloc`: frees exactly this delegate's box. The box must be live;
        afterwards it is not, so a second `dealloc` would not be allowed. */
    method Dealloc(heap: AuxHeap)
      requires auxState in heap.boxes
      modifies heap
      ensures auxState !in heap.boxes
      ensures heap.boxes == old(heap.boxes) - {auxState}
    {
      heap.boxes := heap.boxes - {auxState};
    }
  }

  /** A delegate's whole life leaves the live boxes as they were. */
  method DelegateLifetime(heap: AuxHeap, p: Ptr) returns (d: Delegate)
    requires p !in heap.boxes
    modifies heap
    ensures heap.boxes == old(heap.boxes)
  {
    d := new Delegate.New(heap, p);
    assert d.AuxState(heap) == DefaultAuxState;
    d.Dealloc(heap);
    assert heap.boxes == old(heap.boxes);
  }
}
