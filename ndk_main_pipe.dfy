/**
 * The Android main-thread relay: the bounded channel `CHANNEL` (capacity 8),
 * the wake pipe `MAIN_PIPE`, the UI-thread consumer `MainPipe` with its
 * buffer of pending scripts and its optional WebView, and the looper's file
 * descriptor callback installed by `on_create`.
 *
 * Every JNI call is an abstract effect: it is appended to the trace `calls`
 * and succeeds or fails as the oracle `jni` says.
 */
module NdkMainPipe {
  import opened Wrappers

  /** `bounded(8)`. */
  const ChannelCapacity: nat := 8
  /** `size_of::<bool>()`: each wake signal is one byte. */
  const WakeSize: nat := 1

  /** A request for the UI thread. */
  datatype WebViewMessage =
    | CreateWebView(url: string, scripts: seq<string>, devtools: bool)
    | Eval

  /** The JNI effects `recv` can issue, in the order the source issues them. */
  datatype JniCall =
    | FindWebViewClass
    | NewWebView
    | GetSettings
    | SetJavaScriptEnabled
    | NewUrlString(url: string)
    | LoadUrl(url: string)
    | SetWebContentsDebuggingEnabled(enabled: bool)
    | GetClient
    | SetWebViewClient
    | GetIpc
    | NewIpcString
    | AddJavascriptInterface
    | SetContentView
    | NewGlobalRef
    | NewScriptString(script: string)
    | EvaluateJavascript(script: string)

  /** Outcome oracle of the JNI environment: whether a call succeeds. */
  type Jni = JniCall -> bool

  /** The global reference to the WebView that was installed. */
  datatype WebViewRef = WebViewRef(url: string, devtools: bool)

  /** A failed call aborts the handler (`?`), except creating the URL string,
      whose failure only skips `loadUrl`. */
  predicate Fatal(c: JniCall)
  {
    !c.NewUrlString?
  }

  predicate Passes(c: JniCall, jni: Jni)
  {
    !Fatal(c) || jni(c)
  }

  predicate AllPass(steps: seq<JniCall>, jni: Jni)
  {
    forall i :: 0 <= i < |steps| ==> Passes(steps[i], jni)
  }

  /**
   * A chain of calls joined by `?`: the calls are made in order until one
   * fails fatally. Yields the calls made and whether the chain completed.
   */
  function Run(steps: seq<JniCall>, jni: Jni): (r: (seq<JniCall>, bool))
    ensures r.0 <= steps
    ensures r.1 <==> AllPass(steps, jni)
    ensures r.1 ==> r.0 == steps
  {
    if steps == [] then ([], true)
    else if !Passes(steps[0], jni) then ([steps[0]], false)
    else
      var rest := Run(steps[1..], jni);
      ([steps[0]] + rest.0, rest.1)
  }

  /** Calls that all passed are followed by whatever the rest of the chain does. */
  lemma {:induction false} RunAfterPassing(pre: seq<JniCall>, rest: seq<JniCall>, jni: Jni)
    requires AllPass(pre, jni)
    ensures Run(pre + rest, jni) == (pre + Run(rest, jni).0, Run(rest, jni).1)
  {
    if pre != [] {
      var whole := pre + rest;
      assert whole[0] == pre[0];
      assert Passes(pre[0], jni);
      assert whole[1..] == pre[1..] + rest;
      var tail := Run(whole[1..], jni);
      assert Run(whole, jni) == ([pre[0]] + tail.0, tail.1);
      assert AllPass(pre[1..], jni) by {
        forall i | 0 <= i < |pre| - 1
          ensures Passes(pre[1..][i], jni)
        {
          assert pre[1..][i] == pre[i + 1];
        }
      }
      RunAfterPassing(pre[1..], rest, jni);
      assert tail == (pre[1..] + Run(rest, jni).0, Run(rest, jni).1);
      assert [pre[0]] + (pre[1..] + Run(rest, jni).0) == pre + Run(rest, jni).0;
    } else {
      assert pre + rest == rest;
      assert pre + Run(rest, jni).0 == Run(rest, jni).0;
    }
  }

  /** The chain stops right after the first fatal failure. */
  lemma RunStopsAt(pre: seq<JniCall>, c: JniCall, rest: seq<JniCall>, jni: Jni)
    requires AllPass(pre, jni) && !Passes(c, jni)
    ensures Run(pre + [c] + rest, jni) == (pre + [c], false)
  {
    assert pre + [c] + rest == pre + ([c] + rest);
    RunAfterPassing(pre, [c] + rest, jni);
  }

  /** The same, by position: the chain stops at the first index whose call fails fatally. */
  lemma RunStopsAtIndex(steps: seq<JniCall>, k: nat, jni: Jni)
    requires k < |steps| && AllPass(steps[..k], jni) && !Passes(steps[k], jni)
    ensures Run(steps, jni) == (steps[..k + 1], false)
  {
    assert steps == steps[..k] + [steps[k]] + steps[k + 1..];
    assert steps[..k + 1] == steps[..k] + [steps[k]];
    RunStopsAt(steps[..k], steps[k], steps[k + 1..], jni);
  }

  lemma AllPassSnoc(pre: seq<JniCall>, c: JniCall, jni: Jni)
    requires AllPass(pre, jni) && Passes(c, jni)
    ensures AllPass(pre + [c], jni)
  {
  }

  /** The chain that ends with all calls made. */
  lemma RunCompletes(pre: seq<JniCall>, jni: Jni)
    requires AllPass(pre, jni)
    ensures Run(pre, jni) == (pre, true)
  {
  }

  /** The calls `CreateWebView` makes before it appends the scripts: class,
      WebView, settings, JavaScript, the URL (loaded only if its string could
      be created) and the debugging switch. */
  function CreateSteps(url: string, devtools: bool, jni: Jni): (steps: seq<JniCall>)
    ensures LoadUrl(url) in steps <==> jni(NewUrlString(url))
    ensures forall i :: 0 <= i < |steps| && i != 4 ==> Fatal(steps[i])
  {
    [FindWebViewClass, NewWebView, GetSettings, SetJavaScriptEnabled, NewUrlString(url)]
    + (if jni(NewUrlString(url)) then [LoadUrl(url)] else [])
    + [SetWebContentsDebuggingEnabled(devtools)]
  }

  /** The calls after the scripts are appended: client, IPC interface, content
      view and the global reference that becomes `webview`. */
  function AttachSteps(): (steps: seq<JniCall>)
    ensures |steps| == 7 && steps[|steps| - 1] == NewGlobalRef
  {
    [GetClient, SetWebViewClient, GetIpc, NewIpcString, AddJavascriptInterface, SetContentView, NewGlobalRef]
  }

  /** Every attach call is joined by `?`: the chain completes iff each call succeeds. */
  lemma AttachStepsAllFatal(jni: Jni)
    ensures AllPass(AttachSteps(), jni) <==> forall i :: 0 <= i < |AttachSteps()| ==> jni(AttachSteps()[i])
  {
    var steps := AttachSteps();
    assert forall i :: 0 <= i < |steps| ==> Fatal(steps[i]);
  }

  /** For each drained script: its Java string, then `evaluateJavascript`. */
  function EvalSteps(scripts: seq<string>): (steps: seq<JniCall>)
    ensures |steps| == 2 * |scripts|
  {
    if scripts == [] then []
    else [NewScriptString(scripts[0]), EvaluateJavascript(scripts[0])] + EvalSteps(scripts[1..])
  }

  /** The scripts handed to `evaluateJavascript` in a trace, in trace order. */
  function Evaluated(calls: seq<JniCall>): seq<string>
  {
    if calls == [] then []
    else (if calls[0].EvaluateJavascript? then [calls[0].script] else []) + Evaluated(calls[1..])
  }

  /** The consumer's state: buffered scripts, the installed WebView, the JNI trace. */
  datatype PipeState = PipeState(scripts: seq<string>, webview: Option<WebViewRef>, calls: seq<JniCall>)

  /**
   * What `recv` does with one message: the new state and whether it returned
   * `Ok`. A `CreateWebView` appends its scripts once the first chain
   * completes and installs the WebView once the second does; `Eval` drains
   * the buffer through `evaluateJavascript` only when a WebView exists, and
   * the drain empties the buffer even when a call fails midway.
   */
  function Handle(st: PipeState, m: WebViewMessage, jni: Jni): (r: (PipeState, bool))
    ensures st.calls <= r.0.calls
    ensures r.0.webview == st.webview
            || (m.CreateWebView? && r.1 && r.0.webview == Some(WebViewRef(m.url, m.devtools)))
    ensures m.Eval? && st.webview.Some? ==> r.0.scripts == []
    ensures m.Eval? && st.webview.None? ==> r == (st, true)
  {
    match m
    case CreateWebView(url, s, devtools) =>
      var a := Run(CreateSteps(url, devtools, jni), jni);
      if !a.1 then (st.(calls := st.calls + a.0), false)
      else
        var b := Run(AttachSteps(), jni);
        var webview := if b.1 then Some(WebViewRef(url, devtools)) else st.webview;
        (PipeState(st.scripts + s, webview, st.calls + a.0 + b.0), b.1)
    case Eval =>
      if st.webview.None? then (st, true)
      else
        var e := Run(EvalSteps(st.scripts), jni);
        (st.(scripts := [], calls := st.calls + e.0), e.1)
  }

  /** `CreateWebView`: the buffer becomes old buffer ++ the message's scripts
      once the calls before the append all succeed, and stays as it was
      otherwise; the WebView is installed exactly when every fatal call
      succeeded, which is also when `recv` returns `Ok`. */
  lemma CreateWebViewEffect(st: PipeState, url: string, s: seq<string>, devtools: bool, jni: Jni)
    ensures var (st', ok) := Handle(st, CreateWebView(url, s, devtools), jni);
      && (AllPass(CreateSteps(url, devtools, jni), jni) ==> st'.scripts == st.scripts + s)
      && (!AllPass(CreateSteps(url, devtools, jni), jni) ==> st'.scripts == st.scripts)
      && (ok <==> AllPass(CreateSteps(url, devtools, jni), jni) && AllPass(AttachSteps(), jni))
      && (ok ==> st'.webview == Some(WebViewRef(url, devtools)))
      && (!ok ==> st'.webview == st.webview)
      && st.calls <= st'.calls
  {
  }

  /** `Eval` with no WebView changes nothing and succeeds. */
  lemma EvalWithoutWebView(st: PipeState, jni: Jni)
    requires st.webview.None?
    ensures Handle(st, Eval, jni) == (st, true)
  {
  }

  /** `Eval` with a WebView: the buffer ends empty, the scripts are evaluated in
      buffer order, all of them on success. */
  lemma EvalWithWebView(st: PipeState, jni: Jni)
    requires st.webview.Some?
    ensures var (st', ok) := Handle(st, Eval, jni);
      && st'.scripts == []
      && st'.webview == st.webview
      && st.calls <= st'.calls
      && Evaluated(st'.calls[|st.calls|..]) <= st.scripts
      && (ok ==> Evaluated(st'.calls[|st.calls|..]) == st.scripts)
  {
    var e := Run(EvalSteps(st.scripts), jni);
    var st' := Handle(st, Eval, jni).0;
    assert st'.calls[|st.calls|..] == e.0;
    EvaluatedPrefix(st.scripts, e.0);
  }

  lemma {:induction false} EvaluatedEvalSteps(scripts: seq<string>)
    ensures Evaluated(EvalSteps(scripts)) == scripts
  {
    if scripts != [] {
      var steps := EvalSteps(scripts);
      assert steps[1..] == [EvaluateJavascript(scripts[0])] + EvalSteps(scripts[1..]);
      assert steps[1..][1..] == EvalSteps(scripts[1..]);
      EvaluatedEvalSteps(scripts[1..]);
    }
  }

  /** Any prefix of the evaluation chain evaluates a prefix of the buffer. */
  lemma {:induction false} EvaluatedPrefix(scripts: seq<string>, done: seq<JniCall>)
    requires done <= EvalSteps(scripts)
    ensures Evaluated(done) <= scripts
    ensures done == EvalSteps(scripts) ==> Evaluated(done) == scripts
  {
    EvaluatedEvalSteps(scripts);
    if done != [] && scripts != [] {
      var steps := EvalSteps(scripts);
      assert done[0] == NewScriptString(scripts[0]);
      if |done| == 1 {
        assert Evaluated(done) == [];
      } else {
        assert done[1] == EvaluateJavascript(scripts[0]);
        assert done[1..][1..] == done[2..];
        assert steps[2..] == EvalSteps(scripts[1..]);
        assert done[2..] <= steps[2..];
        EvaluatedPrefix(scripts[1..], done[2..]);
        assert Evaluated(done[1..]) == [scripts[0]] + Evaluated(done[2..]);
      }
    }
  }

  /** The shared relay state: the channel's queued messages and the unread
      bytes of the wake pipe. */
  class Relay {
    var queue: seq<WebViewMessage>
    var wakeBytes: nat

    ghost predicate Valid()
      reads this
    {
      |queue| <= ChannelCapacity
    }

    /** Between callbacks every queued message has its wake byte. */
    ghost predicate Signalled()
      reads this
    {
      wakeBytes == |queue| * WakeSize
    }

    constructor ()
      ensures Valid() && Signalled() && queue == [] && wakeBytes == 0
    {
      queue := [];
      wakeBytes := 0;
    }

    /**
     * `MainPipe::send`: enqueue, and write one wake byte only if the message
     * was enqueued. On a full channel the real sender blocks until the UI
     * thread frees a slot; the model reports that as `false` with nothing
     * changed, the state from which the blocked send resumes.
     */
    method Send(m: WebViewMessage) returns (enqueued: bool)
      requires Valid()
      modifies this
      ensures Valid()
      ensures enqueued <==> |old(queue)| < ChannelCapacity
      ensures queue == if enqueued then old(queue) + [m] else old(queue)
      ensures wakeBytes == if enqueued then old(wakeBytes) + WakeSize else old(wakeBytes)
      ensures old(Signalled()) ==> Signalled()
    {
      if |queue| < ChannelCapacity {
        queue := queue + [m];
        enqueued := true;
        wakeBytes := wakeBytes + WakeSize;
      } else {
        enqueued := false;
      }
    }
  }

  /** The UI-thread consumer. `env` and `activity` are not modelled. */
  class MainPipe {
    var scripts: seq<string>
    var webview: Option<WebViewRef>
    var calls: seq<JniCall>

    function State(): PipeState
      reads this
    {
      PipeState(scripts, webview, calls)
    }

    /** As `on_create` builds it: no scripts, no WebView. */
    constructor ()
      ensures scripts == [] && webview == None && calls == []
    {
      scripts := [];
      webview := None;
      calls := [];
    }

    /**
     * One JNI effect, made as call `k` of the chain `steps` whose first `k`
     * calls are already in the trace after `c0`. A fatal failure ends the
     * chain right here.
     */
    method Invoke(c: JniCall, jni: Jni, ghost steps: seq<JniCall>, ghost k: nat, ghost c0: seq<JniCall>)
      returns (ok: bool)
      requires k < |steps| && steps[k] == c
      requires calls == c0 + steps[..k] && AllPass(steps[..k], jni)
      modifies this`calls
      ensures ok == jni(c)
      ensures calls == c0 + steps[..k + 1]
      ensures Passes(c, jni) ==> AllPass(steps[..k + 1], jni)
      ensures !Passes(c, jni) ==> Run(steps, jni) == (steps[..k + 1], false)
    {
      calls := calls + [c];
      ok := jni(c);
      assert steps[..k + 1] == steps[..k] + [c];
      if Passes(c, jni) {
        AllPassSnoc(steps[..k], c, jni);
      } else {
        RunStopsAtIndex(steps, k, jni);
      }
    }

    /** The `CreateWebView` arm of `recv`. */
    method CreateWebView(url: string, s: seq<string>, devtools: bool, jni: Jni) returns (ok: bool)
      modifies this
      ensures (State(), ok) == Handle(old(State()), WebViewMessage.CreateWebView(url, s, devtools), jni)
    {
      ok := BuildWebView(url, devtools, jni);
      if !ok { return; }
      // Initialize scripts
      scripts := scripts + s;
      ok := AttachWebView(jni);
      if !ok { return; }
      webview := Some(WebViewRef(url, devtools));
    }

    /** From `find_class` to `setWebContentsDebuggingEnabled`. */
    method BuildWebView(url: string, devtools: bool, jni: Jni) returns (ok: bool)
      modifies this`calls
      ensures (calls, ok) == (old(calls) + Run(CreateSteps(url, devtools, jni), jni).0,
                              Run(CreateSteps(url, devtools, jni), jni).1)
    {
      ghost var steps := CreateSteps(url, devtools, jni);
      CreateStepsShape(url, devtools, jni);
      ghost var c0 := calls;
      ok := Invoke(FindWebViewClass, jni, steps, 0, c0);
      if !ok { return; }
      ok := Invoke(NewWebView, jni, steps, 1, c0);
      if !ok { return; }
      ok := Invoke(GetSettings, jni, steps, 2, c0);
      if !ok { return; }
      ok := Invoke(SetJavaScriptEnabled, jni, steps, 3, c0);
      if !ok { return; }
      var urlOk := Invoke(NewUrlString(url), jni, steps, 4, c0);
      ghost var k := 5;
      if urlOk {
        ok := Invoke(LoadUrl(url), jni, steps, 5, c0);
        if !ok { return; }
        k := 6;
      }
      ok := Invoke(SetWebContentsDebuggingEnabled(devtools), jni, steps, k, c0);
      if !ok { return; }
      assert steps[..k + 1] == steps;
      RunCompletes(steps, jni);
    }

    /** From `getClient` to `new_global_ref`. */
    method AttachWebView(jni: Jni) returns (ok: bool)
      modifies this`calls
      ensures (calls, ok) == (old(calls) + Run(AttachSteps(), jni).0, Run(AttachSteps(), jni).1)
    {
      ghost var steps := AttachSteps();
      assert steps == [GetClient, SetWebViewClient, GetIpc, NewIpcString, AddJavascriptInterface, SetContentView, NewGlobalRef];
      ghost var c0 := calls;
      ok := Invoke(GetClient, jni, steps, 0, c0);
      if !ok { return; }
      ok := Invoke(SetWebViewClient, jni, steps, 1, c0);
      if !ok { return; }
      ok := Invoke(GetIpc, jni, steps, 2, c0);
      if !ok { return; }
      ok := Invoke(NewIpcString, jni, steps, 3, c0);
      if !ok { return; }
      ok := Invoke(AddJavascriptInterface, jni, steps, 4, c0);
      if !ok { return; }
      ok := Invoke(SetContentView, jni, steps, 5, c0);
      if !ok { return; }
      ok := Invoke(NewGlobalRef, jni, steps, 6, c0);
      if !ok { return; }
      assert steps[..7] == steps;
      RunCompletes(steps, jni);
    }

    /** The `Eval` arm of `recv`: `for s in self.scripts.drain(..)`. The drain
        empties the buffer as it starts, whatever the loop then does. */
    method EvalScripts(jni: Jni) returns (ok: bool)
      modifies this
      ensures (State(), ok) == Handle(old(State()), Eval, jni)
    {
      if webview.None? {
        return true;
      }
      var drained := scripts;
      scripts := [];
      ghost var steps := EvalSteps(drained);
      var i := 0;
      while i < |drained|
        invariant 0 <= i <= |drained|
        invariant scripts == [] && webview == old(webview)
        invariant calls == old(calls) + steps[..2 * i]
        invariant AllPass(steps[..2 * i], jni)
      {
        var s := drained[i];
        EvalStepsAt(drained, i);
        var r := Invoke(NewScriptString(s), jni, steps, 2 * i, old(calls));
        if !r { return false; }
        r := Invoke(EvaluateJavascript(s), jni, steps, 2 * i + 1, old(calls));
        if !r { return false; }
        i := i + 1;
      }
      assert steps[..2 * i] == steps;
      RunCompletes(steps, jni);
      ok := true;
    }

    /** `recv`: take the oldest message off the channel and handle it. The
        channel's `recv` error (a dropped sender) cannot happen with the static
        channel, and a wake byte was read, so a message is there. */
    method Recv(relay: Relay, jni: Jni) returns (ok: bool)
      requires relay.Valid() && relay.queue != []
      modifies this, relay
      ensures relay.Valid()
      ensures relay.queue == old(relay.queue)[1..] && relay.wakeBytes == old(relay.wakeBytes)
      ensures (State(), ok) == Handle(old(State()), old(relay.queue)[0], jni)
    {
      var m := relay.queue[0];
      relay.queue := relay.queue[1..];
      match m
      case CreateWebView(url, s, devtools) =>
        ok := CreateWebView(url, s, devtools, jni);
      case Eval =>
        ok := EvalScripts(jni);
    }

    /**
     * The looper callback on `MAIN_PIPE[0]`: read one wake byte (`n` is the
     * count `read` reports) and, if a whole one came, handle one message. It
     * stays registered (`true`) iff the byte was read and `recv` returned `Ok`.
     */
    method OnMainPipeReadable(relay: Relay, n: int, jni: Jni) returns (keep: bool)
      requires relay.Valid() && relay.Signalled()
      requires n <= WakeSize && n <= relay.wakeBytes
      modifies this, relay
      ensures relay.Valid() && relay.Signalled()
      ensures n == WakeSize ==>
                && old(relay.queue) != []
                && relay.queue == old(relay.queue)[1..]
                && (State(), keep) == Handle(old(State()), old(relay.queue)[0], jni)
      ensures n != WakeSize ==>
                && !keep
                && State() == old(State())
                && relay.queue == old(relay.queue)
                && relay.wakeBytes == old(relay.wakeBytes)
    {
      if n == WakeSize {
        relay.wakeBytes := relay.wakeBytes - WakeSize;
        keep := Recv(relay, jni);
      } else {
        keep := false;
      }
    }
  }

  /** Script `i` of the buffer owns positions `2 * i` and `2 * i + 1` of the chain. */
  lemma {:induction false} EvalStepsAt(scripts: seq<string>, i: nat)
    requires i < |scripts|
    ensures EvalSteps(scripts)[2 * i] == NewScriptString(scripts[i])
    ensures EvalSteps(scripts)[2 * i + 1] == EvaluateJavascript(scripts[i])
  {
    if i > 0 {
      EvalStepsAt(scripts[1..], i - 1);
    }
  }

  lemma CreateStepsShape(url: string, devtools: bool, jni: Jni)
    ensures var steps := CreateSteps(url, devtools, jni);
      && |steps| == (if jni(NewUrlString(url)) then 7 else 6)
      && steps[..5] == [FindWebViewClass, NewWebView, GetSettings, SetJavaScriptEnabled, NewUrlString(url)]
      && (jni(NewUrlString(url)) ==> steps[5] == LoadUrl(url))
      && steps[|steps| - 1] == SetWebContentsDebuggingEnabled(devtools)
  {
  }
}
