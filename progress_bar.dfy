/**
 * The macOS dock progress indicator: how `set_progress_indicator` finds or
 * creates the indicator view in the dock tile and updates its value and
 * visibility, and the one-time registration of the indicator class.
 * AppKit objects are classes whose fields are the properties the source
 * reads and writes; `nil` is `null`.
 */
module ProgressBar {
  import W = Wrappers

  /** The requested look of the bar; `None` hides it. */
  datatype ProgressState = None | Normal | Indeterminate | Paused | Error

  /** A progress update: each part is optional. */
  datatype ProgressBarState = ProgressBarState(progress: W.Option<int>, state: W.Option<ProgressState>)

  /** `progress.clamp(0, 100)`. */
  function Clamp(p: int): (r: int)
    ensures 0 <= r <= 100
    ensures 0 <= p <= 100 ==> r == p
    ensures p < 0 ==> r == 0
    ensures p > 100 ==> r == 100
  {
    if p < 0 then 0 else if p > 100 then 100 else p
  }

  /** What the indicator shows: its `doubleValue` and whether it is hidden. */
  datatype Look = Look(value: int, hidden: bool)

  /** A freshly created indicator: value 0, visible. */
  const InitialLook: Look := Look(0, false)

  /** The specification of the update: a given progress sets the clamped
      value and shows the bar; a given state then decides visibility on its
      own, so it overrides the progress's unhide. */
  function Updated(look: Look, ps: ProgressBarState): (r: Look)
    ensures ps.progress.Some? ==> 0 <= r.value <= 100
    ensures ps == ProgressBarState(W.None, W.None) ==> r == look
  {
    var value := if ps.progress.Some? then Clamp(ps.progress.value) else look.value;
    var hidden :=
      if ps.state.Some? then ps.state.value == None
      else if ps.progress.Some? then false
      else look.hidden;
    Look(value, hidden)
  }

  /** The clauses the update promises, one per branch of the source. */
  lemma UpdatedMeaning(look: Look, ps: ProgressBarState)
    ensures ps.progress.Some? ==> Updated(look, ps).value == Clamp(ps.progress.value)
    ensures ps.progress.None? ==> Updated(look, ps).value == look.value
    ensures ps.state.Some? ==> (Updated(look, ps).hidden <==> ps.state.value == None)
    ensures ps.state.None? && ps.progress.Some? ==> !Updated(look, ps).hidden
    ensures ps.state.None? && ps.progress.None? ==> Updated(look, ps) == look
  {
  }

  /** Applying the same update twice shows the same as applying it once. */
  lemma UpdatedIdempotent(look: Look, ps: ProgressBarState)
    ensures Updated(Updated(look, ps), ps) == Updated(look, ps)
  {
  }

  /** A value within 0 .. 100 stays within 0 .. 100. */
  lemma UpdatedKeepsRange(look: Look, ps: ProgressBarState)
    requires 0 <= look.value <= 100
    ensures 0 <= Updated(look, ps).value <= 100
  {
  }

  /** An `NSProgressIndicator` (the custom subclass). */
  class ProgressIndicator {
    var doubleValue: int
    var hidden: bool

    function Shown(): Look
      reads this
    {
      Look(doubleValue, hidden)
    }

    /** `initWithFrame:`: value 0, visible. */
    constructor ()
      ensures Shown() == InitialLook
    {
      doubleValue := 0;
      hidden := false;
    }

    /** The `setDoubleValue:` / `setHidden:` sequence of `set_progress_indicator`. */
    method Apply(ps: ProgressBarState)
      modifies this
      ensures Shown() == Updated(old(Shown()), ps)
    {
      if ps.progress.Some? {
        doubleValue := Clamp(ps.progress.value);
        hidden := false;
      }
      if ps.state.Some? {
        hidden := ps.state.value == None;
      }
    }
  }

  /** An entry of a view's `subviews`: a progress indicator or some other view. */
  datatype Subview = IndicatorView(indicator: ProgressIndicator) | OtherView

  /** The dock tile's content view; its `subviews` array may be nil. */
  class ContentView {
    var subviews: W.Option<seq<Subview>>

    /** `imageViewWithImage:`: a new image view has no subviews. */
    constructor ()
      ensures subviews == W.Some([])
    {
      subviews := W.Some([]);
    }

    /** `addSubview:`. */
    method AddSubview(v: Subview)
      modifies this
      ensures subviews == W.Some((if old(subviews).Some? then old(subviews).value else []) + [v])
    {
      var current := if subviews.Some? then subviews.value else [];
      subviews := W.Some(current + [v]);
    }
  }

  /** The first progress indicator among the subviews, or null. */
  function FirstIndicator(vs: seq<Subview>): (r: ProgressIndicator?)
    ensures r == null <==> forall i :: 0 <= i < |vs| ==> vs[i].OtherView?
    ensures r != null ==> exists i :: 0 <= i < |vs| && vs[i] == IndicatorView(r)
                                     && forall j :: 0 <= j < i ==> vs[j].OtherView?
  {
    if vs == [] then null
    else if vs[0].IndicatorView? then vs[0].indicator
    else
      var r := FirstIndicator(vs[1..]);
      assert forall i :: 1 <= i < |vs| ==> vs[i] == vs[1..][i - 1];
      if r != null then
        var i :| 0 <= i < |vs[1..]| && vs[1..][i] == IndicatorView(r)
                 && forall j :: 0 <= j < i ==> vs[1..][j].OtherView?;
        assert vs[i + 1] == IndicatorView(r);
        r
      else r
  }

  /** Appending an indicator to subviews that hold none makes it the first. */
  lemma {:induction false} FirstIndicatorAppend(vs: seq<Subview>, p: ProgressIndicator)
    requires FirstIndicator(vs) == null
    ensures FirstIndicator(vs + [IndicatorView(p)]) == p
  {
    if vs != [] {
      assert (vs + [IndicatorView(p)])[1..] == vs[1..] + [IndicatorView(p)];
      assert FirstIndicator(vs[1..]) == null;
      FirstIndicatorAppend(vs[1..], p);
    }
  }

  /** Appending anything after an existing indicator does not change which is first. */
  lemma {:induction false} FirstIndicatorStable(vs: seq<Subview>, v: Subview)
    requires FirstIndicator(vs) != null
    ensures FirstIndicator(vs + [v]) == FirstIndicator(vs)
  {
    if !vs[0].IndicatorView? {
      assert (vs + [v])[1..] == vs[1..] + [v];
      FirstIndicatorStable(vs[1..], v);
    }
  }

  /** The dock tile: its content view and how often it was asked to redraw. */
  class DockTile {
    var contentView: ContentView?
    var displays: nat
    ghost var Repr: set<object>

    /** The tile owns its content view and every indicator in it. */
    ghost predicate Valid()
      reads this, Repr
    {
      this in Repr
      && (contentView != null ==>
            contentView in Repr
            && (contentView.subviews.Some? ==>
                  forall s :: s in contentView.subviews.value && s.IndicatorView? ==> s.indicator in Repr))
    }

    constructor (view: ContentView?)
      requires view != null ==> view.subviews == W.Some([])
      ensures Valid() && fresh(Repr - {view}) && contentView == view && displays == 0
    {
      contentView := view;
      displays := 0;
      Repr := {this};
      if view != null {
        var owned: ContentView := view;
        Repr := Repr + {owned};
      }
    }
  }

  /** What `get_exist_progress_indicator` finds: nothing when the content view
      or its subviews are nil, else the first indicator subview. */
  function ExistingIndicator(tile: DockTile): (r: ProgressIndicator?)
    reads tile, tile.contentView
    ensures r != null ==> tile.contentView != null && tile.contentView.subviews.Some?
                          && IndicatorView(r) in tile.contentView.subviews.value
    ensures tile.contentView != null && tile.contentView.subviews.Some? ==>
              (r == null <==> forall v :: v in tile.contentView.subviews.value ==> v.OtherView?)
  {
    if tile.contentView == null then null
    else if tile.contentView.subviews.None? then null
    else FirstIndicator(tile.contentView.subviews.value)
  }

  /** `get_exist_progress_indicator`: an indexed search with early return. */
  method GetExistProgressIndicator(tile: DockTile) returns (found: ProgressIndicator?)
    ensures found == ExistingIndicator(tile)
  {
    var contentView := tile.contentView;
    if contentView == null {
      return null;
    }
    if contentView.subviews.None? {
      return null;
    }
    var subviews := contentView.subviews.value;
    var idx := 0;
    while idx < |subviews|
      invariant 0 <= idx <= |subviews|
      invariant forall j :: 0 <= j < idx ==> subviews[j].OtherView?
    {
      if subviews[idx].IndicatorView? {
        found := subviews[idx].indicator;
        FirstIndicatorAt(subviews, idx);
        return;
      }
      idx := idx + 1;
    }
    return null;
  }

  /** An indicator preceded only by other views is the first one. */
  lemma FirstIndicatorAt(vs: seq<Subview>, i: nat)
    requires i < |vs| && vs[i].IndicatorView?
    requires forall j :: 0 <= j < i ==> vs[j].OtherView?
    ensures FirstIndicator(vs) == vs[i].indicator
  {
    var r := FirstIndicator(vs);
    assert r != null;
    var k :| 0 <= k < |vs| && vs[k] == IndicatorView(r) && forall j :: 0 <= j < k ==> vs[j].OtherView?;
    assert k == i;
  }

  /** The `static mut APP_CLASS` with its `Once`: the indicator subclass. */
  class IndicatorClass {
    var registered: bool
    var registrations: nat

    ghost predicate Valid()
      reads this
    {
      registrations == if registered then 1 else 0
    }

    constructor ()
      ensures Valid() && !registered
    {
      registered := false;
      registrations := 0;
    }

    /** `create_progress_indicator_class`: declares and registers the class
        the first time only. */
    method Register()
      requires Valid()
      modifies this
      ensures Valid() && registered && registrations == 1
    {
      if !registered {
        registrations := registrations + 1;
        registered := true;
      }
    }
  }

  /** `create_progress_indicator`: makes sure the tile has a content view (a
      new image view when it has none), then adds a new indicator to it. */
  method CreateProgressIndicator(tile: DockTile, cls: IndicatorClass) returns (p: ProgressIndicator)
    requires tile.Valid() && cls.Valid()
    requires cls !in tile.Repr
    modifies tile, tile.contentView, cls
    ensures tile.Valid() && cls.Valid() && cls.registered
    ensures fresh(p) && p.Shown() == InitialLook
    ensures fresh(tile.Repr - old(tile.Repr))
    ensures old(tile.contentView) != null ==> tile.contentView == old(tile.contentView)
    ensures tile.contentView != null
    ensures tile.contentView.subviews
         == W.Some((if old(tile.contentView) != null && old(tile.contentView.subviews).Some?
                    then old(tile.contentView.subviews).value else []) + [IndicatorView(p)])
    ensures tile.displays == old(tile.displays)
    ensures forall q: ProgressIndicator :: q in old(tile.Repr) ==> q.Shown() == old(q.Shown())
  {
    var imageView := tile.contentView;
    if imageView == null {
      imageView := new ContentView();
      tile.contentView := imageView;
      tile.Repr := tile.Repr + {imageView};
    }
    cls.Register();
    p := new ProgressIndicator();
    imageView.AddSubview(IndicatorView(p));
    tile.Repr := tile.Repr + {p};
  }

  /** `set_progress_indicator`: with a nil dock tile nothing happens; else
      the existing indicator is reused (a new one is created only when there
      is none), the update is applied to it, and the tile is redisplayed. */
  method SetProgressIndicator(tile: DockTile?, cls: IndicatorClass, ps: ProgressBarState)
    requires tile != null ==> tile.Valid() && cls !in tile.Repr
    requires cls.Valid()
    modifies if tile == null then {} else {tile} + tile.Repr, cls
    ensures tile == null ==> unchanged(cls)
    ensures tile != null ==>
      && tile.Valid() && cls.Valid()
      && fresh(tile.Repr - old(tile.Repr))
      && tile.displays == old(tile.displays) + 1
      && ExistingIndicator(tile) != null
      && (old(ExistingIndicator(tile)) != null ==>
            && ExistingIndicator(tile) == old(ExistingIndicator(tile))
            && ExistingIndicator(tile).Shown() == Updated(old(ExistingIndicator(tile).Shown()), ps)
            && tile.contentView == old(tile.contentView)
            && tile.contentView.subviews == old(tile.contentView.subviews)
            && unchanged(cls))
      && (old(ExistingIndicator(tile)) == null ==>
            && fresh(ExistingIndicator(tile))
            && ExistingIndicator(tile).Shown() == Updated(InitialLook, ps)
            && (old(tile.contentView) != null ==> tile.contentView == old(tile.contentView))
            && tile.contentView.subviews
               == W.Some((if old(tile.contentView) != null && old(tile.contentView.subviews).Some?
                          then old(tile.contentView.subviews).value else [])
                         + [IndicatorView(ExistingIndicator(tile))]))
      && (forall q: ProgressIndicator :: q in old(tile.Repr) && q != ExistingIndicator(tile) ==>
            q.Shown() == old(q.Shown()))
  {
    if tile == null {
      return;
    }
    var indicator := GetExistProgressIndicator(tile);
    if indicator == null {
      indicator := CreateProgressIndicator(tile, cls);
      var before := if old(tile.contentView) != null && old(tile.contentView.subviews).Some?
                    then old(tile.contentView.subviews).value else [];
      FirstIndicatorAppend(before, indicator);
    } else {
      assert indicator in tile.Repr;
    }
    indicator.Apply(ps);
    tile.displays := tile.displays + 1;
  }
}
