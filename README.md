# tao native glue: decision and state rules, in Dafny

This project models the small rules inside tao's native-toolkit glue.
Every native call (JNI, Objective-C messages, Win32, Carbon) is an abstract effect, a parameter or an oracle:

- **Android event pipe** (`NdkEvents`, ndk_events.dfy). The one-byte wire form of the `repr(u8)` `Event` enum, and `wake`/`poll_events` as a FIFO of whole records over the pipe `PIPE`. Also the activity trampolines' focus flag → event mapping and the `android_log` level → priority mapping.
- **Android main-thread relay** (`NdkMainPipe`, ndk_main_pipe.dfy). The capacity-8 channel with its wake byte (`MainPipe::send`, also what the `WryClient_eval` entry point calls). `MainPipe::recv` with its JNI chains: each `?` aborts the handler, `new_string(url)` failing only skips `loadUrl`, and `drain(..)` empties the script buffer even when a call fails midway. And the looper callback that decides whether it stays registered. JNI success is the oracle `jni: JniCall -> bool`; each call is appended to a trace.
- **macOS global hot keys** (`GlobalAccelerator`, global_accelerator.dfy). The Carbon modifier bitmask, the nested registration loop, and the `Once` that installs the event handler. `to_keycode`/`to_scancode` are finite tables given as parameters.
- **macOS dock progress indicator** (`ProgressBar`, progress_bar.dfy). The value/visibility update, the search for an existing indicator subview, creating one when none exists, and the once-registered indicator class. AppKit objects are Dafny classes; nil is `null`.
- **Windows tray** (`WindowsSystemTray`, windows_system_tray.dfy). The tray window procedure as a trace of native calls and the classification of tray messages into events. Also the `WININFO_STASH` thread-local and the notification area's icon table, updated by `Shell_NotifyIconW`, and the icon-handle creation with its two failure cases.
- **macOS application delegate** (`AppDelegate`, app_delegate.dfy). The callbacks, as the calls they make on the application state: reopen, secure restorable state, open URLs, and the two push-notification handlers with their guards against nil and wrong-class objects. Also the auxiliary state boxed by `new` and freed by `dealloc`.

`Wrappers.Option` and the fixed-width integers (`NativeInts`: `u8`, `u32`, `i32`, 32-bit wrap `WrapI32`, truncation `LowU32`) are in common.dfy.

## Model

| member | source | states |
|---|---|---|
| NdkEvents.Tag | src/platform_impl/android/ndk_glue.rs:232-260 | every event's byte is below 17, the number of variants |
| NdkEvents.FromTag | src/platform_impl/android/ndk_glue.rs:232-260 | a byte reads as an event iff it is below 17, and then it is the tag of that event |
| NdkEvents.Encode | src/platform_impl/android/ndk_glue.rs:217-222 | a `wake` record is exactly `size_of::<Event>()` = 1 byte |
| NdkEvents.Decode | src/platform_impl/android/ndk_glue.rs:205-215 | an event comes back only when the read returned exactly the record size |
| NdkEvents.DecodeEncode | src/platform_impl/android/ndk_glue.rs:205-222 | a full-size read of a written record yields the event written |
| NdkEvents.EncodeInjective | src/platform_impl/android/ndk_glue.rs:232-260 | two events have the same record iff they are equal |
| NdkEvents.ShortReadIsNoEvent | src/platform_impl/android/ndk_glue.rs:209-213 | a read shorter than a record is never an event |
| NdkEvents.EncodeAll | src/platform_impl/android/ndk_glue.rs:217-222 | the byte stream of a sequence of `wake`s holds exactly one record per event |
| NdkEvents.DecodeAll | src/platform_impl/android/ndk_glue.rs:205-215 | repeated full-size reads split a stream into one result per whole record |
| NdkEvents.DecodeAllEncodeAll | src/platform_impl/android/ndk_glue.rs:205-222 | reading back the byte stream of any sequence of `wake`s yields those events, in order, none torn or lost |
| NdkEvents.FocusEvent | src/platform_impl/android/ndk_glue.rs:399-410 | `has_focus == 0` gives `WindowLostFocus`, any other value `WindowHasFocus` |
| NdkEvents.CallbackEvent | src/platform_impl/android/ndk_glue.rs:381-456 | only the focus entry point sends a focus event; no live entry point sends a window, input-queue, content-rect or configuration event |
| NdkEvents.LogPriority | src/platform_impl/android/ndk_glue.rs:169-180 | priorities lie in VERBOSE (2) .. ERROR (6); `Trace` is exactly VERBOSE and `Error` exactly ERROR |
| NdkEvents.LogPriorityMonotone | src/platform_impl/android/ndk_glue.rs:169-180 | the mapping keeps the order of severities and maps distinct levels to distinct priorities |
| NdkEvents.EventPipe.constructor | src/platform_impl/android/ndk_glue.rs:199-203 | a new pipe is empty |
| NdkEvents.EventPipe.Wake | src/platform_impl/android/ndk_glue.rs:217-222 | one whole record is appended and the event joins the back of the pending queue; a full pipe, where the blocking write waits, is excluded by the requirement that the record fits |
| NdkEvents.EventPipe.PollEvents | src/platform_impl/android/ndk_glue.rs:205-215 | an event is returned iff a full record was read, and it is the oldest pending one, which leaves the pipe; otherwise nothing changes |
| NdkEvents.WakeTwiceThenPoll | src/platform_impl/android/ndk_glue.rs:205-222 | two events woken into an empty pipe are polled in the order written and leave it empty |
| NdkMainPipe.Run | src/platform_impl/android/ndk_glue.rs:56-118 | a `?` chain makes a prefix of its calls; it succeeds iff every fatal call succeeded, and then it made them all |
| NdkMainPipe.CreateSteps | src/platform_impl/android/ndk_glue.rs:56-82 | `loadUrl` is among the calls iff the URL string was created; every call but that string's creation aborts the handler on failure |
| NdkMainPipe.AttachSteps | src/platform_impl/android/ndk_glue.rs:88-118 | seven calls, ending with `new_global_ref`, the reference that becomes `webview` |
| NdkMainPipe.AttachStepsAllFatal | src/platform_impl/android/ndk_glue.rs:88-118 | the attach chain completes iff every one of its calls succeeds |
| NdkMainPipe.EvalSteps | src/platform_impl/android/ndk_glue.rs:123-131 | two calls per drained script |
| NdkMainPipe.Handle | src/platform_impl/android/ndk_glue.rs:49-138 | `recv` only appends to the JNI trace; the WebView changes only to the message's own WebView, on a `CreateWebView` that returns `Ok`; `Eval` with a WebView empties the buffer; `Eval` without one changes nothing and is `Ok` |
| NdkMainPipe.CreateStepsShape | src/platform_impl/android/ndk_glue.rs:56-82 | the calls before the script append: five fixed calls, `loadUrl` only when the URL string was created, then `setWebContentsDebuggingEnabled(devtools)` |
| NdkMainPipe.CreateWebViewEffect | src/platform_impl/android/ndk_glue.rs:54-120 | scripts become old buffer ++ the message's scripts iff the calls before line 85 all succeed; `recv` is `Ok` iff both chains succeed, and exactly then the WebView is installed; otherwise it is left as it was |
| NdkMainPipe.EvalWithoutWebView | src/platform_impl/android/ndk_glue.rs:121-133 | `Eval` with no WebView changes nothing and returns `Ok` |
| NdkMainPipe.EvalWithWebView | src/platform_impl/android/ndk_glue.rs:121-133 | `Eval` with a WebView leaves the buffer empty and evaluates a prefix of it, in buffer order; all of it when `Ok` |
| NdkMainPipe.EvaluatedEvalSteps | src/platform_impl/android/ndk_glue.rs:123-131 | the complete evaluation chain evaluates exactly the buffered scripts, in order |
| NdkMainPipe.EvaluatedPrefix | src/platform_impl/android/ndk_glue.rs:123-131 | an interrupted evaluation chain evaluates a prefix of the buffer |
| NdkMainPipe.Relay.constructor | src/platform_impl/android/ndk_glue.rs:27-32 | the channel starts empty with no wake bytes |
| NdkMainPipe.Relay.Send | src/platform_impl/android/ndk_glue.rs:42-47 | a message is enqueued iff the capacity-8 channel has room, and one wake byte is written exactly then; every queued message keeps its wake byte |
| NdkMainPipe.MainPipe.constructor | src/platform_impl/android/ndk_glue.rs:273-278 | the consumer starts with no scripts and no WebView |
| NdkMainPipe.MainPipe.Invoke | src/platform_impl/android/ndk_glue.rs:56-131 | one JNI call is appended to the trace and its outcome returned; a fatal failure is where the `?` chain stops, a success extends the passing prefix |
| NdkMainPipe.MainPipe.BuildWebView | src/platform_impl/android/ndk_glue.rs:56-82 | makes the first chain's calls, stopping at the first fatal failure |
| NdkMainPipe.MainPipe.AttachWebView | src/platform_impl/android/ndk_glue.rs:88-118 | makes the second chain's calls, stopping at the first failure |
| NdkMainPipe.MainPipe.CreateWebView | src/platform_impl/android/ndk_glue.rs:54-120 | the new state and result are those `Handle` gives for `CreateWebView` (see `CreateWebViewEffect`) |
| NdkMainPipe.MainPipe.EvalScripts | src/platform_impl/android/ndk_glue.rs:121-133 | the drain loop ends in the state and result `Handle` gives for `Eval` (see `EvalWithWebView`) |
| NdkMainPipe.MainPipe.Recv | src/platform_impl/android/ndk_glue.rs:49-138 | the oldest queued message is taken off the channel and handled as `Handle` says |
| NdkMainPipe.MainPipe.OnMainPipeReadable | src/platform_impl/android/ndk_glue.rs:281-292 | with a full wake byte read, exactly one message is handled and the callback stays registered iff `recv` was `Ok`; otherwise it deregisters and nothing changes; every queued message keeps its wake byte |
| GlobalAccelerator.ModifierMask | src/platform_impl/macos/global_accelerator.rs:55-67 | the OR of the held flags' bits; its meaning is stated by the four lemmas below |
| GlobalAccelerator.ModifierMaskBits | src/platform_impl/macos/global_accelerator.rs:55-67 | each flag is held iff its bit (512, 256, 2048, 4096) is set, and no other bit is set |
| GlobalAccelerator.ModifiersRoundTrip | src/platform_impl/macos/global_accelerator.rs:55-67 | the held flags are recovered from the mask |
| GlobalAccelerator.ModifierMaskInjective | src/platform_impl/macos/global_accelerator.rs:55-67 | two modifier states have the same mask iff they are equal |
| GlobalAccelerator.ModifierMaskValue | src/platform_impl/macos/global_accelerator.rs:55-67 | the mask is the sum of the held flags' values, lies in 0 .. 6912, and is 0 iff no modifier is held |
| GlobalAccelerator.ConvertModifiers | src/platform_impl/macos/global_accelerator.rs:55-67 | the successive OR-assignments build exactly the mask |
| GlobalAccelerator.RegistrationFor | src/platform_impl/macos/global_accelerator.rs:68-71 | one `register_hotkey` with id 1 and the mask; the scan code is cast `as i32`, unchanged below 2^31 and wrapped modulo 2^32 above |
| GlobalAccelerator.KeyRegistrations | src/platform_impl/macos/global_accelerator.rs:105-109 | one registration per key code, each with id 1 and the hot key's mask |
| GlobalAccelerator.HotKeyRegistrations | src/platform_impl/macos/global_accelerator.rs:103-110 | one registration per key code of the hot key's key, none when the key has no key codes, all with the hot key's mask |
| GlobalAccelerator.Registrations | src/platform_impl/macos/global_accelerator.rs:102-111 | every registration of the loop uses id 1 |
| GlobalAccelerator.RegistrationsShape | src/platform_impl/macos/global_accelerator.rs:98-112 | exactly one registration per key code of all hot keys, each with id 1 and a mask in 0 .. 6912 |
| GlobalAccelerator.RegistrationsAppend | src/platform_impl/macos/global_accelerator.rs:102-111 | registering two lists registers the first's hot keys before the second's, so input order is kept |
| GlobalAccelerator.SkippedWithoutKeyCodes | src/platform_impl/macos/global_accelerator.rs:103 | a hot key whose key has no key codes registers nothing |
| GlobalAccelerator.CarbonHotKeys.constructor | src/platform_impl/macos/global_accelerator.rs:86 | nothing registered, handler not installed |
| GlobalAccelerator.CarbonHotKeys.MakeAcceleratorCallback | src/platform_impl/macos/global_accelerator.rs:82-92 | afterwards the handler is installed, and it was installed once in all |
| GlobalAccelerator.CarbonHotKeys.NewAccelerator | src/platform_impl/macos/global_accelerator.rs:53-80 | appends one `register_hotkey(1, mask, scan code)` and leaves the handler installed exactly once; a key without a scan code is excluded (the source panics) |
| GlobalAccelerator.CarbonHotKeys.RegisterKeyCodes | src/platform_impl/macos/global_accelerator.rs:105-109 | the inner loop appends the registrations of one hot key's key codes in order |
| GlobalAccelerator.CarbonHotKeys.RegisterHotKey | src/platform_impl/macos/global_accelerator.rs:103-110 | one pass of the outer loop appends that hot key's registrations, none when its key has no key codes |
| GlobalAccelerator.CarbonHotKeys.RegisterGlobalAccelerators | src/platform_impl/macos/global_accelerator.rs:98-112 | appends exactly the registrations of all hot keys in input order; the handler is installed once at most, and is installed iff it already was or some key code was registered |
| ProgressBar.Clamp | src/platform_impl/macos/progress_bar.rs:29 | the result lies in 0 .. 100, equals the input inside that range and the nearer bound outside it |
| ProgressBar.Updated | src/platform_impl/macos/progress_bar.rs:28-38 | a given progress always leaves the value in 0 .. 100; an empty update leaves the look as it was |
| ProgressBar.UpdatedMeaning | src/platform_impl/macos/progress_bar.rs:28-38 | a given progress sets the clamped value and unhides; a given state sets hidden to `state == None`, overriding that unhide; with neither, nothing changes |
| ProgressBar.UpdatedIdempotent | src/platform_impl/macos/progress_bar.rs:28-38 | applying the same update twice shows what applying it once shows |
| ProgressBar.UpdatedKeepsRange | src/platform_impl/macos/progress_bar.rs:28-32 | a value in 0 .. 100 stays in 0 .. 100 |
| ProgressBar.ProgressIndicator.constructor | src/platform_impl/macos/progress_bar.rs:61-63 | a new indicator shows value 0, visible |
| ProgressBar.ProgressIndicator.Apply | src/platform_impl/macos/progress_bar.rs:27-38 | the setter sequence leaves the indicator showing the specified update of what it showed |
| ProgressBar.ContentView.constructor | src/platform_impl/macos/progress_bar.rs:47-51 | a new image view has an empty subview list |
| ProgressBar.ContentView.AddSubview | src/platform_impl/macos/progress_bar.rs:66 | the view is appended after the existing subviews |
| ProgressBar.FirstIndicator | src/platform_impl/macos/progress_bar.rs:83-91 | null iff no subview is an indicator; otherwise an indicator subview preceded only by other views |
| ProgressBar.FirstIndicatorAppend | src/platform_impl/macos/progress_bar.rs:24-25 | an indicator added to subviews holding none is the one found next time |
| ProgressBar.FirstIndicatorStable | src/platform_impl/macos/progress_bar.rs:24-25 | adding a view after an existing indicator does not change which one is found |
| ProgressBar.DockTile.constructor | src/platform_impl/macos/progress_bar.rs:18-21 | a tile given no content view, or one with no subviews, owns it and has not been redisplayed |
| ProgressBar.ExistingIndicator | src/platform_impl/macos/progress_bar.rs:72-94 | a found indicator is a subview of the tile's content view; with a content view and subviews present, none is found iff no subview is an indicator |
| ProgressBar.GetExistProgressIndicator | src/platform_impl/macos/progress_bar.rs:72-94 | the indexed search with early return finds exactly `ExistingIndicator`: none for a nil content view or nil subviews, else the first indicator subview |
| ProgressBar.IndicatorClass.Register | src/platform_impl/macos/progress_bar.rs:96-113 | afterwards the class is registered, and it was registered once in all |
| ProgressBar.CreateProgressIndicator | src/platform_impl/macos/progress_bar.rs:44-70 | an existing content view is kept, a nil one replaced by a new empty image view; a fresh indicator showing value 0 is appended after the old subviews; only the tile, its content view and the class change, so every existing indicator shows what it showed |
| ProgressBar.SetProgressIndicator | src/platform_impl/macos/progress_bar.rs:15-42 | a nil tile changes nothing; else an existing indicator is reused (view and subviews untouched) or a fresh one is appended after the old subviews of the kept content view; it ends showing the update, every other indicator of the tile shows what it showed, and the tile is redisplayed once |
| WindowsSystemTray.Classify | src/platform_impl/windows/system_tray.rs:224-282 | an event exists iff `lparam as u32` is one of `WM_LBUTTONUP`, `WM_RBUTTONUP`, `WM_LBUTTONDBLCLK` |
| WindowsSystemTray.ClassifyEvents | src/platform_impl/windows/system_tray.rs:224-281 | left button up is `LeftClick` at the icon rectangle's corner; right button up is `RightClick` and double click `DoubleClick`, both with the fixed 5 x 5 bounds at (5, 5) |
| WindowsSystemTray.LeftClickSize | src/platform_impl/windows/system_tray.rs:231-234 | for an ordered rectangle less than 2^31 wide and high, at any coordinates including negative ones, the left click's size is `right - left` by `bottom - top` |
| WindowsSystemTray.ClassifyLowBits | src/platform_impl/windows/system_tray.rs:224 | only the low 32 bits of `lparam` matter |
| WindowsSystemTray.TrayEffects | src/platform_impl/windows/system_tray.rs:220-284 | nothing happens without stashed loop data; the tray arm never posts quit, calls the default procedure or asks for the icon rectangle |
| WindowsSystemTray.WindowProc | src/platform_impl/windows/system_tray.rs:199-288 | the icon rectangle is asked for iff the message is the tray message |
| WindowsSystemTray.WindowProcDefault | src/platform_impl/windows/system_tray.rs:205-207 | every message ends with the default window procedure, and quit is posted iff the message is `WM_DESTROY` |
| WindowsSystemTray.TrayEventSent | src/platform_impl/windows/system_tray.rs:210-284 | a tray event is sent iff the message is the tray message, loop data is stashed and the `lparam` classifies; the event sent is the classification |
| WindowsSystemTray.PopupOnRightClickWithMenu | src/platform_impl/windows/system_tray.rs:240-267 | the popup menu is tracked iff it is a right click on the tray icon with loop data stashed and the tray has a menu |
| WindowsSystemTray.PopupAsWritten | src/platform_impl/windows/system_tray.rs:257-266 | the popup is tracked at the cursor for the tray's menu and window, with `uFlags` 0, so it is not bottom-aligned |
| WindowsSystemTray.PopupNeverBottomAligned | src/platform_impl/windows/system_tray.rs:257-266 | as written, every popup the procedure tracks is top-aligned, and the bottom/left flags sit in the ignored `nReserved` argument |
| WindowsSystemTray.PopupIntended | src/platform_impl/windows/system_tray.rs:262-263 | the intended popup: the same menu, window and cursor, bottom-aligned, with `nReserved` 0 |
| WindowsSystemTray.GetHIconFromBuffer | src/platform_impl/windows/system_tray.rs:296-333 | none iff the directory lookup gave offset 0 or icon creation gave null; otherwise the created handle, never null |
| WindowsSystemTray.NotifyAdd | src/platform_impl/windows/system_tray.rs:99-106 | adding succeeds iff the identifier is absent, and afterwards it is present |
| WindowsSystemTray.NotifyModify | src/platform_impl/windows/system_tray.rs:172-183 | modifying succeeds iff the identifier is present; it then holds the new icon, and no icon is added or removed |
| WindowsSystemTray.NotifyDelete | src/platform_impl/windows/system_tray.rs:186-196 | deleting succeeds iff the identifier is present, and afterwards it is absent |
| WindowsSystemTray.DeleteUndoesAdd | src/platform_impl/windows/system_tray.rs:99-106 | deleting a just-added identifier restores the notification area |
| WindowsSystemTray.TrayIconId | src/platform_impl/windows/system_tray.rs:99-101 | the icon's identifier is the tray's window with a nonzero id |
| WindowsSystemTray.RemoveIdAsWritten | src/platform_impl/windows/system_tray.rs:186-196 | `remove` as written addresses the tray's window with id 0, never the tray's icon |
| WindowsSystemTray.RemoveAsWrittenKeepsIcon | src/platform_impl/windows/system_tray.rs:186-196 | as written, removing the tray leaves its icon in the notification area |
| WindowsSystemTray.RemoveId | src/platform_impl/windows/system_tray.rs:186-196 | intended removal addresses the identifier the icon was added under |
| WindowsSystemTray.RemoveTakesIconOut | src/platform_impl/windows/system_tray.rs:290-294 | intended removal takes exactly the tray's icon out |
| WindowsSystemTray.RemovalId | src/platform_impl/windows/system_tray.rs:186-196 | the identifier a removal deletes is the tray icon's iff the removal is the intended one |
| WindowsSystemTray.WithIcon | src/platform_impl/windows/system_tray.rs:163-184 | setting the icon keeps the set of identifiers, gives the tray's icon the new handle when it is present, and leaves every other icon as it was |
| WindowsSystemTray.AfterDrop | src/platform_impl/windows/system_tray.rs:290-294 | dropping a stash with loop data deletes exactly the removal's identifier and changes no other icon; an empty stash changes nothing |
| WindowsSystemTray.TrayHost.constructor | src/platform_impl/windows/system_tray.rs:26 | the stash starts empty; the host drops loop data with the given removal |
| WindowsSystemTray.TrayHost.SetIconFromBuffer | src/platform_impl/windows/system_tray.rs:163-169 | the icon is modified only when a handle was created from the buffer |
| WindowsSystemTray.TrayHost.ReplaceStash | src/platform_impl/windows/system_tray.rs:122-128 | storing into the stash drops the loop data it held, deleting that tray's removal identifier (the icon as intended, id 0 as written) |
| WindowsSystemTray.TrayHost.Build | src/platform_impl/windows/system_tray.rs:51-144 | the tray keeps a menu handle iff a menu was given; the icon is added, set from the buffer at 32 x 32, and the loop data is stashed, dropping the old one with the host's removal |
| WindowsSystemTray.TrayHost.ThreadExit | src/platform_impl/windows/system_tray.rs:290-294 | dropping the stashed loop data deletes its removal identifier and empties the stash |
| WindowsSystemTray.BuildThenExit | src/platform_impl/windows/system_tray.rs:99-128 | a tray built on a new window has its icon while stashed; once the loop data is dropped, the intended removal restores the notification area, and the removal as written leaves the icon (`h`, 3244) there |
| WindowsSystemTray.TrayLifetime | src/platform_impl/windows/system_tray.rs:51-144 | `build` then thread exit on an empty stash: the intended removal leaves the identifiers as they were; as written the tray's icon is still present |
| AppDelegate.DidFinishLaunching | src/platform_impl/macos/app_delegate.rs:128-136 | the launch is reported last, after registering for remote notifications iff built with push notifications |
| AppDelegate.ShouldHandleReopen | src/platform_impl/macos/app_delegate.rs:162-172 | returns its argument unchanged and reports one reopen, with visible windows iff the returned value is not `NO` |
| AppDelegate.SupportsSecureRestorableState | src/platform_impl/macos/app_delegate.rs:174-178 | always `YES` |
| AppDelegate.ParsedUrls | src/platform_impl/macos/app_delegate.rs:147-156 | never more URLs than entries |
| AppDelegate.DidOpenUrls | src/platform_impl/macos/app_delegate.rs:143-159 | exactly one `open_urls` call, with no more URLs than entries |
| AppDelegate.ParsedUrlsAppend | src/platform_impl/macos/app_delegate.rs:147-156 | the filter distributes over concatenation, so input order is kept |
| AppDelegate.ParsedUrlsMembers | src/platform_impl/macos/app_delegate.rs:147-156 | a URL is reported iff some entry parses to it |
| AppDelegate.ParsedUrlsAllValid | src/platform_impl/macos/app_delegate.rs:147-156 | when every entry parses, each is reported at its own position |
| AppDelegate.DidRegisterForApns | src/platform_impl/macos/app_delegate.rs:184-197 | nothing is reported unless the token is an `NSData`, whose bytes are then reported whole |
| AppDelegate.DidFailToRegisterForApns | src/platform_impl/macos/app_delegate.rs:205-231 | a nil error reports the placeholder message; a non-`NSError` or an error without description reports nothing; otherwise its description's bytes, decoded |
| AppDelegate.ApnsReportsAtMostOnce | src/platform_impl/macos/app_delegate.rs:181-233 | each push callback reports at most once, and only its own kind of report |
| AppDelegate.Delegate.New | src/platform_impl/macos/app_delegate.rs:90-103 | a new box holding activation policy `Regular` and ignoring-other-apps `true` becomes live at a fresh address, stored in the instance variable |
| AppDelegate.Delegate.SetAuxState | src/platform_impl/macos/app_delegate.rs:84-88 | a write through the borrowed state changes only this delegate's box |
| AppDelegate.Delegate.Dealloc | src/platform_impl/macos/app_delegate.rs:105-112 | exactly this delegate's box is freed; it must be live, and afterwards it is not |
| AppDelegate.DelegateLifetime | src/platform_impl/macos/app_delegate.rs:90-112 | `new` then `dealloc` leaves the live boxes as they were |

## Findings

| source | as written | input that shows it | evidently intended | confidence | as-written member | corrected member |
|---|---|---|---|---|---|---|
| src/platform_impl/windows/system_tray.rs:186-196 | `remove` zeroes its `NOTIFYICONDATAW` and sets only `hWnd`, so `NIM_DELETE` is sent for id 0, while `build` (line 100) added the icon under `WM_USER_TRAYICON_UID` (0x855 + 1111) | any tray built on window `h`: its icon is (`h`, 3244); dropping the loop data deletes (`h`, 0), which is absent, so the icon stays in the notification area | set `uID = WM_USER_TRAYICON_UID`, as `set_hicon` does at line 178 | medium, not executed | WindowsSystemTray.RemoveAsWrittenKeepsIcon | WindowsSystemTray.RemoveTakesIconOut |
| src/platform_impl/windows/system_tray.rs:257-266 | `TrackPopupMenu` receives 0 as `uFlags` and `TPM_BOTTOMALIGN` OR `TPM_LEFTALIGN` as `nReserved`, an argument the call ignores, although the comment says to align bottom | any right click on a tray with a menu: the popup is top-aligned at the cursor | pass `TPM_BOTTOMALIGN` OR `TPM_LEFTALIGN` as `uFlags` and 0 as `nReserved` | high, not executed | WindowsSystemTray.PopupNeverBottomAligned | WindowsSystemTray.PopupIntended |

The tray host takes the removal as a parameter (`Removal`): `BuildThenExit` and `TrayLifetime` state the outcome both as written and as intended. `window_proc` is modelled as written; `PopupIntended` is the corrected call.

## Left out

- JNI internals. Each JNI call is an oracle outcome, a function of the call: two identical calls (two equal scripts, say) succeed or fail together. No property relies on this. `call_method(..)?.l()?` on `getSettings` is one call. A pending Java exception after a failed `new_string(url)` is not modelled.
- `recv`'s blocking `CHANNEL.1.recv()` and its error case: with the static channel the sender is never dropped, and a wake byte implies a queued message.
- NdkMainPipe.Relay.Send: the source blocks when the channel is full; the model returns `false` with nothing changed, the state from which the blocked send resumes. The concurrency of producers is not modelled.
- The raw `libc::pipe`/`read`/`write` calls are left out; read counts are parameters. The `ThreadLooper`/`ForeignLooper` registration, the stdout/stderr redirection and log-forwarding thread, and the condition-variable handshake in `on_create` are left out (I/O and concurrency).
- The `IpcHandler_ipc` entry point and the `IPC` raw closure call (foreign pointers). The `RwLock`-guarded `NATIVE_WINDOW`, `INPUT_QUEUE` and `CONTENT_RECT` (locking discipline). The commented-out native activity callbacks (not live code).
- NdkEvents.EventPipe.Wake: the pipe's OS capacity is a model constant. `PIPE` is blocking, so a write into a full pipe waits for the reader; the precondition excludes the full pipe, where the source blocks. The assertion on the write's result fires only when the write fails, which is not modelled.
- The Carbon static library and its trampoline. `install_event_handler`, `register_hotkey` and the boxed callback are recorded, not executed. The returned `CarbonRef` is represented by the registration's position.
- `global_accelerator_handler` prints only, and is left out.
- GlobalAccelerator.CarbonHotKeys.NewAccelerator: the mask is built as `bv32`. The source's `i32` holds the same value, since it never exceeds 6912.
- The floating-point drawing of the indicator (`draw_progress_bar`, `draw_rounded_rect`). The frame sizes, the app icon image and `autorelease` are also left out.
- ProgressBar.ProgressIndicator.Apply: `doubleValue` is an integer. The clamped progress 0 .. 100 converts to `f64` exactly.
- The declaration of `ProgressBarState` is not part of this model. `progress` is taken as an integer.
- Win32 class registration, `CreateWindowExW`, `SetWindowSubclass` and the menu handlers' event forwarding (`MenuHandler`, `send_event`). The window handle is a parameter, and the sender is the trace's `SendTrayEvent`.
- ICO decoding: `LookupIconIdFromDirectoryEx` and `CreateIconFromResourceEx` are oracles. `Shell_NotifyIconGetRect`, `GetCursorPos` and `TrackPopupMenu` are trace entries whose results are parameters. The return values of `Shell_NotifyIconW` that the source ignores are ignored.
- WindowsSystemTray.Classify: the left click's size is the 32-bit wrapped difference, as a release build computes it; a debug build would panic on overflow instead.
- The Objective-C class declaration, `msg_send` plumbing and `lazy_static` class object of the delegate. `AppState` is a sink of calls. `application_will_terminate` only forwards `AppState::exit` and is left out.
- URL parsing (`url::Url::parse`) and `String::from_utf8_lossy` are parameters. `absoluteString`/`UTF8String`/`to_string_lossy` are taken as giving the URL text.
- AppDelegate.Delegate.SetAuxState: the `RefCell::borrow_mut` of `get_aux_state_mut` panics when the state is already borrowed; the model has no outstanding borrows, so that panic is not modelled.
- AppDelegate.Delegate.New: the allocator's address is a parameter, required not to be live. `alloc`/`init` of the Objective-C object itself is not modelled.
- The thin wrappers (the macOS and iOS badge setters, the macOS status-item tray, the push-token type alias and marker trait) and the example programs.
