/**
 * The Windows system tray: the tray window's message procedure, which turns
 * a click on the notification-area icon into a tray event, and the
 * thread-local stash of loop data whose drop removes the icon.
 *
 * Win32 calls are effects in a trace (`window_proc`) or updates of the
 * notification area's icon table (`Shell_NotifyIconW`); the values native
 * calls return (the icon rectangle, the cursor position, the window
 * handle, the icon handle) are parameters.
 */
module WindowsSystemTray {
  import opened Wrappers
  import opened NativeInts

  /** Window messages and flags the procedure compares against. */
  const WM_DESTROY: u32 := 0x0002
  const WM_LBUTTONUP: u32 := 0x0202
  const WM_LBUTTONDBLCLK: u32 := 0x0203
  const WM_RBUTTONUP: u32 := 0x0205
  const WM_USER_TRAYICON: u32 := 0x400 + 1111
  const WM_USER_TRAYICON_UID: u32 := 0x855 + 1111
  /** `TrackPopupMenu` alignment flags: horizontal in bits 2-3, vertical in bits 4-5. */
  const TPM_LEFTALIGN: int := 0x0000
  const TPM_TOPALIGN: int := 0x0000
  const TPM_BOTTOMALIGN: int := 0x0020
  /** `TPM_BOTTOMALIGN | TPM_LEFTALIGN` (the OR of disjoint bits is their sum). */
  const BOTTOM_LEFT: int := TPM_BOTTOMALIGN + TPM_LEFTALIGN

  /** Native handles; 0 is the null handle. */
  type HWnd = int
  type HMenu = int
  type HIcon = int

  /** `RECT` and `POINT`: 32-bit signed coordinates. */
  datatype IconRect = IconRect(left: i32, top: i32, right: i32, bottom: i32)
  datatype Point = Point(x: i32, y: i32)

  datatype TrayEventKind = LeftClick | RightClick | DoubleClick
  /** `Rectangle { position, size }`. */
  datatype Bounds = Bounds(x: int, y: int, width: int, height: int)
  datatype TrayEvent = TrayEvent(event: TrayEventKind, bounds: Bounds)

  /** The fixed bounds reported for right and double clicks. */
  const FixedBounds: Bounds := Bounds(5, 5, 5, 5)

  datatype SystemTray = SystemTray(hwnd: HWnd, hmenu: Option<HMenu>)
  /** `WindowsLoopData`; its event sender is the trace's `SendTrayEvent`. */
  datatype LoopData = LoopData(systemTray: SystemTray)

  /** The tray message's `lparam as u32` classified into a tray event. */
  function Classify(lparam: int, rect: IconRect): (r: Option<TrayEvent>)
    ensures r.Some? <==> LowU32(lparam) in {WM_LBUTTONUP, WM_RBUTTONUP, WM_LBUTTONDBLCLK}
  {
    var code := LowU32(lparam);
    if code == WM_LBUTTONUP then
      Some(TrayEvent(LeftClick, Bounds(rect.left, rect.top,
                                       WrapI32(rect.right - rect.left), WrapI32(rect.bottom - rect.top))))
    else if code == WM_RBUTTONUP then Some(TrayEvent(RightClick, FixedBounds))
    else if code == WM_LBUTTONDBLCLK then Some(TrayEvent(DoubleClick, FixedBounds))
    else None
  }

  /** Which event each tray message yields, and the left click's bounds: the
      icon rectangle's corner and extent. */
  lemma ClassifyEvents(lparam: int, rect: IconRect)
    ensures LowU32(lparam) == WM_LBUTTONUP ==>
      && Classify(lparam, rect).Some?
      && Classify(lparam, rect).value.event == LeftClick
      && Classify(lparam, rect).value.bounds.x == rect.left
      && Classify(lparam, rect).value.bounds.y == rect.top
    ensures LowU32(lparam) == WM_RBUTTONUP ==> Classify(lparam, rect) == Some(TrayEvent(RightClick, FixedBounds))
    ensures LowU32(lparam) == WM_LBUTTONDBLCLK ==> Classify(lparam, rect) == Some(TrayEvent(DoubleClick, FixedBounds))
  {
  }

  /** For an ordered rectangle, on any monitor (negative coordinates
      included), the left click's size is its true extent: the 32-bit
      subtraction does not wrap. */
  lemma LeftClickSize(lparam: int, rect: IconRect)
    requires LowU32(lparam) == WM_LBUTTONUP
    requires rect.left <= rect.right && rect.right - rect.left < 0x8000_0000
    requires rect.top <= rect.bottom && rect.bottom - rect.top < 0x8000_0000
    ensures Classify(lparam, rect).value.bounds.width == rect.right - rect.left >= 0
    ensures Classify(lparam, rect).value.bounds.height == rect.bottom - rect.top >= 0
  {
  }

  /** The classification reads only the low 32 bits of `lparam`. */
  lemma ClassifyLowBits(lparam: int, rect: IconRect)
    ensures Classify(lparam + 0x1_0000_0000, rect) == Classify(lparam, rect)
  {
    assert LowU32(lparam + 0x1_0000_0000) == LowU32(lparam);
  }

  /** The native calls `window_proc` makes, in order. */
  datatype Effect =
    | PostQuitMessage(exitCode: int)
    | GetIconRect(hwnd: HWnd, uid: u32)
    | GetCursorPos
    | SendTrayEvent(ev: TrayEvent)
    | SetForegroundWindow(hwnd: HWnd)
    | TrackPopupMenu(menu: HMenu, flags: int, x: int, y: int, reserved: int, owner: HWnd)
    | DefWindowProc(hwnd: HWnd, msg: u32, wparam: int, lparam: int)

  /** The vertical alignment bits of `TrackPopupMenu`'s flags: 0 top, 1 centre, 2 bottom. */
  function VerticalAlignment(flags: int): int
  {
    (flags / 0x10) % 4
  }

  /** The popup call as written: `uFlags` is 0 and the alignment goes into
      `nReserved`, which `TrackPopupMenu` ignores. */
  function PopupAsWritten(menu: HMenu, cursor: Point, hwnd: HWnd): (e: Effect)
    ensures e.TrackPopupMenu? && e.menu == menu && e.owner == hwnd && e.x == cursor.x && e.y == cursor.y
    ensures VerticalAlignment(e.flags) != VerticalAlignment(BOTTOM_LEFT)
  {
    TrackPopupMenu(menu, 0, cursor.x, cursor.y, BOTTOM_LEFT, hwnd)
  }

  /** The popup call the comment beside it asks for: bottom-aligned at the cursor. */
  function PopupIntended(menu: HMenu, cursor: Point, hwnd: HWnd): (e: Effect)
    ensures e.TrackPopupMenu? && e.menu == menu && e.owner == hwnd && e.x == cursor.x && e.y == cursor.y
    ensures VerticalAlignment(e.flags) == VerticalAlignment(TPM_BOTTOMALIGN) == 2
    ensures e.reserved == 0
  {
    TrackPopupMenu(menu, BOTTOM_LEFT, cursor.x, cursor.y, 0, hwnd)
  }

  /** The calls made for a tray message once the icon rectangle is known. */
  function TrayEffects(hwnd: HWnd, lparam: int, stash: Option<LoopData>, rect: IconRect, cursor: Point): (effects: seq<Effect>)
    ensures stash.None? ==> effects == []
    ensures forall e :: e in effects ==> !e.PostQuitMessage? && !e.DefWindowProc? && !e.GetIconRect?
  {
    if stash.None? then []
    else match Classify(lparam, rect)
      case None => []
      case Some(ev) =>
        if ev.event == RightClick then
          [GetCursorPos, SendTrayEvent(ev)]
          + (match stash.value.systemTray.hmenu
             case None => []
             case Some(menu) =>
               [SetForegroundWindow(hwnd), PopupAsWritten(menu, cursor, hwnd)])
        else [SendTrayEvent(ev)]
  }

  /** `window_proc`: quit on destroy, a tray event for a click on the icon
      while loop data is stashed, and always the default procedure last. */
  function WindowProc(hwnd: HWnd, msg: u32, wparam: int, lparam: int,
                      stash: Option<LoopData>, rect: IconRect, cursor: Point): (effects: seq<Effect>)
    ensures GetIconRect(hwnd, WM_USER_TRAYICON_UID) in effects <==> msg == WM_USER_TRAYICON
  {
    (if msg == WM_DESTROY then [PostQuitMessage(0)] else [])
    + (if msg == WM_USER_TRAYICON
       then [GetIconRect(hwnd, WM_USER_TRAYICON_UID)] + TrayEffects(hwnd, lparam, stash, rect, cursor)
       else [])
    + [DefWindowProc(hwnd, msg, wparam, lparam)]
  }

  predicate Sends(effects: seq<Effect>)
  {
    exists i :: 0 <= i < |effects| && effects[i].SendTrayEvent?
  }

  predicate ShowsPopup(effects: seq<Effect>)
  {
    exists i :: 0 <= i < |effects| && effects[i].TrackPopupMenu?
  }

  /** Every message reaches the default procedure, as the last call, and
      only `WM_DESTROY` posts quit. */
  lemma WindowProcDefault(hwnd: HWnd, msg: u32, wparam: int, lparam: int,
                          stash: Option<LoopData>, rect: IconRect, cursor: Point)
    ensures var effects := WindowProc(hwnd, msg, wparam, lparam, stash, rect, cursor);
      && |effects| > 0
      && effects[|effects| - 1] == DefWindowProc(hwnd, msg, wparam, lparam)
      && (PostQuitMessage(0) in effects <==> msg == WM_DESTROY)
  {
    var effects := WindowProc(hwnd, msg, wparam, lparam, stash, rect, cursor);
    if msg != WM_DESTROY {
      assert forall i :: 0 <= i < |effects| ==> !effects[i].PostQuitMessage?;
    }
  }

  /** A tray event is sent exactly for a tray message that classifies, while
      loop data is stashed; the event sent is the classification. */
  lemma TrayEventSent(hwnd: HWnd, msg: u32, wparam: int, lparam: int,
                      stash: Option<LoopData>, rect: IconRect, cursor: Point)
    ensures var effects := WindowProc(hwnd, msg, wparam, lparam, stash, rect, cursor);
      && (Sends(effects) <==> msg == WM_USER_TRAYICON && stash.Some? && Classify(lparam, rect).Some?)
      && forall i :: 0 <= i < |effects| && effects[i].SendTrayEvent? ==> effects[i].ev == Classify(lparam, rect).value
  {
    var effects := WindowProc(hwnd, msg, wparam, lparam, stash, rect, cursor);
    var quit: seq<Effect> := if msg == WM_DESTROY then [PostQuitMessage(0)] else [];
    if msg == WM_USER_TRAYICON && stash.Some? && Classify(lparam, rect).Some? {
      var i := |quit| + 1 + (if Classify(lparam, rect).value.event == RightClick then 1 else 0);
      assert effects[i].SendTrayEvent?;
    }
  }

  /** The popup menu is tracked exactly on a right click while the stashed
      tray has a menu. */
  lemma PopupOnRightClickWithMenu(hwnd: HWnd, msg: u32, wparam: int, lparam: int,
                                  stash: Option<LoopData>, rect: IconRect, cursor: Point)
    ensures ShowsPopup(WindowProc(hwnd, msg, wparam, lparam, stash, rect, cursor))
        <==> msg == WM_USER_TRAYICON && stash.Some? && LowU32(lparam) == WM_RBUTTONUP
             && stash.value.systemTray.hmenu.Some?
  {
    var effects := WindowProc(hwnd, msg, wparam, lparam, stash, rect, cursor);
    var quit: seq<Effect> := if msg == WM_DESTROY then [PostQuitMessage(0)] else [];
    if msg == WM_USER_TRAYICON && stash.Some? && LowU32(lparam) == WM_RBUTTONUP
       && stash.value.systemTray.hmenu.Some? {
      assert effects[|quit| + 4].TrackPopupMenu?;
    }
  }

  /** As written, every popup the procedure tracks is top-aligned: the
      bottom alignment never reaches `uFlags`. */
  lemma PopupNeverBottomAligned(hwnd: HWnd, msg: u32, wparam: int, lparam: int,
                                stash: Option<LoopData>, rect: IconRect, cursor: Point)
    ensures forall e :: e in WindowProc(hwnd, msg, wparam, lparam, stash, rect, cursor) && e.TrackPopupMenu? ==>
      VerticalAlignment(e.flags) == VerticalAlignment(TPM_TOPALIGN) && e.reserved == BOTTOM_LEFT
  {
    var effects := WindowProc(hwnd, msg, wparam, lparam, stash, rect, cursor);
    if msg == WM_USER_TRAYICON && stash.Some? && LowU32(lparam) == WM_RBUTTONUP
       && stash.value.systemTray.hmenu.Some? {
      var quit: seq<Effect> := if msg == WM_DESTROY then [PostQuitMessage(0)] else [];
      assert effects[|quit| + 4] == PopupAsWritten(stash.value.systemTray.hmenu.value, cursor, hwnd);
      assert forall i :: 0 <= i < |effects| && effects[i].TrackPopupMenu? ==> i == |quit| + 4;
    }
  }

  /** `get_hicon_from_buffer`: the directory lookup gives an offset (0 on
      failure), then the icon is created from the resource at that offset
      (null on failure). */
  function GetHIconFromBuffer(buffer: seq<u8>, width: i32, height: i32,
                              lookup: (seq<u8>, i32, i32) -> int,
                              create: (seq<u8>, int, int) -> HIcon): (r: Option<HIcon>)
    ensures r.None? <==> lookup(buffer, width, height) == 0
                         || create(buffer, lookup(buffer, width, height), |buffer|) == 0
    ensures r.Some? ==> r.value != 0 && r.value == create(buffer, lookup(buffer, width, height), |buffer|)
  {
    var offset := lookup(buffer, width, height);
    if offset == 0 then None
    else
      var hicon := create(buffer, offset, |buffer|);
      if hicon == 0 then None else Some(hicon)
  }

  /** The notification area's icons, each identified by its window and id,
      with its current icon handle (0 until one is set). */
  datatype IconId = IconId(hwnd: HWnd, uid: u32)
  type Icons = map<IconId, HIcon>

  /** `Shell_NotifyIconW(NIM_ADD, ..)`: fails on an identifier already present. */
  function NotifyAdd(icons: Icons, id: IconId): (r: (Icons, bool))
    ensures r.1 <==> id !in icons
    ensures r.0.Keys == icons.Keys + {id}
  {
    if id in icons then (icons, false) else (icons[id := 0], true)
  }

  /** `Shell_NotifyIconW(NIM_MODIFY, ..)` with `NIF_ICON`: sets the icon of a present identifier. */
  function NotifyModify(icons: Icons, id: IconId, hicon: HIcon): (r: (Icons, bool))
    ensures r.1 <==> id in icons
    ensures r.0.Keys == icons.Keys
    ensures r.1 ==> r.0[id] == hicon
  {
    if id in icons then (icons[id := hicon], true) else (icons, false)
  }

  /** `Shell_NotifyIconW(NIM_DELETE, ..)`: removes a present identifier. */
  function NotifyDelete(icons: Icons, id: IconId): (r: (Icons, bool))
    ensures r.1 <==> id in icons
    ensures r.0.Keys == icons.Keys - {id}
  {
    if id in icons then (icons - {id}, true) else (icons, false)
  }

  /** Deleting what was just added restores the notification area. */
  lemma DeleteUndoesAdd(icons: Icons, id: IconId)
    requires id !in icons
    ensures NotifyDelete(NotifyAdd(icons, id).0, id) == (icons, true)
  {
    assert NotifyAdd(icons, id).0 - {id} == icons;
  }

  /** The identifier `build` adds the icon under and `set_hicon` modifies. */
  function TrayIconId(tray: SystemTray): (id: IconId)
    ensures id.hwnd == tray.hwnd && id.uid != 0
  {
    IconId(tray.hwnd, WM_USER_TRAYICON_UID)
  }

  /** The identifier `SystemTray::remove` deletes as written: the structure
      is zeroed and only `hWnd` is set, so its `uID` is 0. */
  function RemoveIdAsWritten(tray: SystemTray): (id: IconId)
    ensures id.hwnd == tray.hwnd && id != TrayIconId(tray)
  {
    IconId(tray.hwnd, 0)
  }

  /** As written, removing the tray leaves its icon in the notification area. */
  lemma RemoveAsWrittenKeepsIcon(icons: Icons, tray: SystemTray)
    requires TrayIconId(tray) in icons
    ensures TrayIconId(tray) in NotifyDelete(icons, RemoveIdAsWritten(tray)).0
  {
  }

  /** The identifier removal evidently intends: the one the icon was added under. */
  function RemoveId(tray: SystemTray): (id: IconId)
    ensures id == TrayIconId(tray)
  {
    IconId(tray.hwnd, WM_USER_TRAYICON_UID)
  }

  /** With the intended identifier, removal takes the tray's icon out. */
  lemma RemoveTakesIconOut(icons: Icons, tray: SystemTray)
    requires TrayIconId(tray) in icons
    ensures var (after, ok) := NotifyDelete(icons, RemoveId(tray));
      ok && TrayIconId(tray) !in after && after.Keys == icons.Keys - {TrayIconId(tray)}
  {
  }

  /** The icons after `set_icon_from_buffer`: modified only when a handle was made. */
  function WithIcon(icons: Icons, tray: SystemTray, hicon: Option<HIcon>): (r: Icons)
    ensures r.Keys == icons.Keys
    ensures hicon.Some? && TrayIconId(tray) in icons ==> r[TrayIconId(tray)] == hicon.value
    ensures forall id :: id in icons && id != TrayIconId(tray) ==> r[id] == icons[id]
  {
    if hicon.Some? then NotifyModify(icons, TrayIconId(tray), hicon.value).0 else icons
  }

  /** Which identifier `remove` deletes: the one the source writes, or the intended one. */
  datatype Removal = AsWritten | Intended

  function RemovalId(removal: Removal, tray: SystemTray): (id: IconId)
    ensures id == TrayIconId(tray) <==> removal == Intended
  {
    match removal
    case AsWritten => RemoveIdAsWritten(tray)
    case Intended => RemoveId(tray)
  }

  /** The icons after dropping the loop data held in a stash, if any. */
  function AfterDrop(icons: Icons, stash: Option<LoopData>, removal: Removal): (r: Icons)
    ensures stash.None? ==> r == icons
    ensures stash.Some? ==> r.Keys == icons.Keys - {RemovalId(removal, stash.value.systemTray)}
    ensures forall id :: id in r ==> id in icons && r[id] == icons[id]
  {
    if stash.Some? then NotifyDelete(icons, RemovalId(removal, stash.value.systemTray)).0 else icons
  }

  /** The tray thread: its `WININFO_STASH` and the notification area.
      `removal` says which identifier dropping loop data deletes. */
  class TrayHost {
    var stash: Option<LoopData>
    var icons: Icons
    const removal: Removal

    constructor (removal: Removal)
      ensures stash == None && icons == map[] && this.removal == removal
    {
      stash := None;
      icons := map[];
      this.removal := removal;
    }

    /** `set_icon_from_buffer` (and the public `set_icon`, at 32 x 32). */
    method SetIconFromBuffer(tray: SystemTray, buffer: seq<u8>, width: i32, height: i32,
                             lookup: (seq<u8>, i32, i32) -> int, create: (seq<u8>, int, int) -> HIcon)
      modifies this`icons
      ensures icons == WithIcon(old(icons), tray, GetHIconFromBuffer(buffer, width, height, lookup, create))
    {
      var hicon := GetHIconFromBuffer(buffer, width, height, lookup, create);
      if hicon.Some? {
        var (after, _) := NotifyModify(icons, TrayIconId(tray), hicon.value);
        icons := after;
      }
    }

    /** Replacing or clearing the stash drops the old loop data, whose
        `Drop` calls `remove` on its tray. */
    method ReplaceStash(data: Option<LoopData>)
      modifies this
      ensures stash == data
      ensures icons == AfterDrop(old(icons), old(stash), removal)
    {
      if stash.Some? {
        var (after, _) := NotifyDelete(icons, RemovalId(removal, stash.value.systemTray));
        icons := after;
      }
      stash := data;
    }

    /** `SystemTrayBuilder::build` on the tray window `hwnd`: the menu handle
        is kept iff a menu was given, the icon is added and set from the
        buffer, and the loop data is stashed. */
    method Build(menu: Option<HMenu>, hwnd: HWnd, icon: seq<u8>,
                 lookup: (seq<u8>, i32, i32) -> int, create: (seq<u8>, int, int) -> HIcon)
      returns (tray: SystemTray)
      modifies this
      ensures tray.hwnd == hwnd
      ensures tray.hmenu.Some? <==> menu.Some?
      ensures tray.hmenu == menu
      ensures stash == Some(LoopData(tray))
      ensures icons == AfterDrop(WithIcon(NotifyAdd(old(icons), TrayIconId(tray)).0, tray,
                                          GetHIconFromBuffer(icon, 32, 32, lookup, create)),
                                 old(stash), removal)
    {
      var hmenu: Option<HMenu> := None;
      if menu.Some? {
        hmenu := Some(menu.value);
      }
      tray := SystemTray(hwnd, hmenu);
      var (added, _) := NotifyAdd(icons, TrayIconId(tray));
      icons := added;
      SetIconFromBuffer(tray, icon, 32, 32, lookup, create);
      ReplaceStash(Some(LoopData(tray)));
    }

    /** The thread-local is destroyed with its thread: the stashed loop data
        is dropped. */
    method ThreadExit()
      modifies this
      ensures stash == None
      ensures icons == AfterDrop(old(icons), old(stash), removal)
    {
      ReplaceStash(None);
    }
  }

  /** A tray built on a fresh window keeps its icon while stashed. When the
      thread exits, the intended removal restores the notification area; the
      removal as written leaves the tray's icon behind. */
  lemma BuildThenExit(icons: Icons, tray: SystemTray, hicon: Option<HIcon>, removal: Removal)
    requires TrayIconId(tray) !in icons
    ensures TrayIconId(tray) in WithIcon(NotifyAdd(icons, TrayIconId(tray)).0, tray, hicon)
    ensures var after := AfterDrop(WithIcon(NotifyAdd(icons, TrayIconId(tray)).0, tray, hicon), Some(LoopData(tray)), removal);
      && (removal == Intended ==> after.Keys == icons.Keys)
      && (removal == AsWritten ==> TrayIconId(tray) in after
                                   && after.Keys == (icons.Keys - {RemoveIdAsWritten(tray)}) + {TrayIconId(tray)})
  {
    var withIcon := WithIcon(NotifyAdd(icons, TrayIconId(tray)).0, tray, hicon);
    assert withIcon.Keys == icons.Keys + {TrayIconId(tray)};
  }

  /** A tray's whole life on a thread with an empty stash: `build`, then the
      thread exits. With the removal as written the icon outlives the tray. */
  method TrayLifetime(host: TrayHost, menu: Option<HMenu>, hwnd: HWnd, icon: seq<u8>,
                      lookup: (seq<u8>, i32, i32) -> int, create: (seq<u8>, int, int) -> HIcon)
    requires host.stash.None? && IconId(hwnd, WM_USER_TRAYICON_UID) !in host.icons
    modifies host
    ensures host.stash.None?
    ensures host.removal == Intended ==> host.icons.Keys == old(host.icons.Keys)
    ensures host.removal == AsWritten ==> IconId(hwnd, WM_USER_TRAYICON_UID) in host.icons
  {
    ghost var before := host.icons;
    var tray := host.Build(menu, hwnd, icon, lookup, create);
    BuildThenExit(before, tray, GetHIconFromBuffer(icon, 32, 32, lookup, create), host.removal);
    host.ThreadExit();
  }
}
