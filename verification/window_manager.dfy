/**
 * Arranging the launched applications' windows inside the area left between the two
 * sidebars. The window manager keeps an insertion-ordered registry of the windows it
 * manages, prunes the ones that have disappeared, and lays the visible ones out as one of
 * five layouts. What the desktop says about a window is an oracle; what the manager does to
 * windows is appended to `log`.
 */
module WindowManagement {
  import opened Os
  import opened OrderedKeys

  /** A rectangle: position of the top-left corner and size, in pixels. */
  datatype WindowArea = WindowArea(x: int, y: int, width: int, height: int)

  datatype Layout = Maximized | TiledHorizontal | TiledVertical | TiledQuad | Floating

  /** What the manager does to a window. */
  datatype WindowOp =
    | Place(placed: Hwnd, area: WindowArea)   // restore, move and resize to `area`, show
    | Show(shown: Hwnd)
    | Hide(hidden: Hwnd)
    | Restore(restored: Hwnd)                 // un-minimise
    | Foreground(focused: Hwnd)

  /** What one pruning query learns about a managed window. */
  datatype WindowStatus =
    | Shown          // a window, visible, not minimised
    | Minimized      // a window, visible, minimised
    | Gone           // no longer a window, or hidden
    | QueryRaises    // querying it raised

  /** The pruning pass deletes a window that is gone or cannot be queried. */
  predicate Dropped(s: WindowStatus) {
    s.Gone? || s.QueryRaises?
  }

  /** The registry entry: the application it belongs to and the window's original geometry. */
  datatype ManagedWindow = ManagedWindow(appId: string, appName: string, originalRect: WindowArea, originalStyle: int)

  /** What `add_window` learns about a handle before registering it. */
  datatype AddProbe =
    | NotAWindow
    | InfoRaises                            // GetWindowRect or GetWindowLong raised
    | Info(rect: WindowArea, style: int)

  /** The width of each of the two sidebars. */
  const SidebarWidth: int := 300

  /** The area between the sidebars: a margin of one sidebar width on the left and on the right. */
  function AvailableArea(g: WindowArea): (a: WindowArea)
    ensures a.x - g.x == SidebarWidth && (g.x + g.width) - (a.x + a.width) == SidebarWidth
    ensures a.y == g.y && a.height == g.height
  {
    WindowArea(g.x + SidebarWidth, g.y, g.width - 2 * SidebarWidth, g.height)
  }

  /** Window `i` of `n` side by side. Python's `//` by a positive count is Dafny's `/`. */
  function HorizontalTile(a: WindowArea, n: nat, i: int): WindowArea
    requires n > 0
  {
    WindowArea(a.x + i * (a.width / n), a.y, a.width / n, a.height)
  }

  /** Window `i` of `n` stacked top to bottom. */
  function VerticalTile(a: WindowArea, n: nat, i: int): WindowArea
    requires n > 0
  {
    WindowArea(a.x, a.y + i * (a.height / n), a.width, a.height / n)
  }

  /** Quadrant `i`: top-left, top-right, bottom-left, bottom-right. */
  function QuadTile(a: WindowArea, i: nat): WindowArea
    requires i < 4
  {
    var qw, qh := a.width / 2, a.height / 2;
    var positions := [(0, 0), (qw, 0), (0, qh), (qw, qh)];
    WindowArea(a.x + positions[i].0, a.y + positions[i].1, qw, qh)
  }

  /**
   * Side-by-side tiles have equal widths and the full height, start at the left edge, each
   * begins where the previous one ends, and together they leave fewer than `n` pixels of the
   * width unused.
   */
  lemma HorizontalTiling(a: WindowArea, n: nat)
    requires n > 0
    ensures HorizontalTile(a, n, 0).x == a.x
    ensures forall i :: 0 <= i < n ==> HorizontalTile(a, n, i).y == a.y && HorizontalTile(a, n, i).height == a.height
    ensures forall i :: 0 <= i < n - 1 ==>
              HorizontalTile(a, n, i).x + HorizontalTile(a, n, i).width == HorizontalTile(a, n, i + 1).x
    ensures var last := HorizontalTile(a, n, n - 1);
            0 <= (a.x + a.width) - (last.x + last.width) < n
  {
    var w := a.width / n;
    forall i | 0 <= i < n - 1
      ensures HorizontalTile(a, n, i).x + HorizontalTile(a, n, i).width == HorizontalTile(a, n, i + 1).x
    {
      assert i * w + w == (i + 1) * w;
    }
    assert (n - 1) * w + w == n * w;
    assert a.width == n * w + a.width % n;
  }

  /** Stacked tiles: the same with the roles of x and y, width and height exchanged. */
  lemma VerticalTiling(a: WindowArea, n: nat)
    requires n > 0
    ensures VerticalTile(a, n, 0).y == a.y
    ensures forall i :: 0 <= i < n ==> VerticalTile(a, n, i).x == a.x && VerticalTile(a, n, i).width == a.width
    ensures forall i :: 0 <= i < n - 1 ==>
              VerticalTile(a, n, i).y + VerticalTile(a, n, i).height == VerticalTile(a, n, i + 1).y
    ensures var last := VerticalTile(a, n, n - 1);
            0 <= (a.y + a.height) - (last.y + last.height) < n
  {
    var h := a.height / n;
    forall i | 0 <= i < n - 1
      ensures VerticalTile(a, n, i).y + VerticalTile(a, n, i).height == VerticalTile(a, n, i + 1).y
    {
      assert i * h + h == (i + 1) * h;
    }
    assert (n - 1) * h + h == n * h;
    assert a.height == n * h + a.height % n;
  }

  /**
   * The quadrants are four equal rectangles: the right ones start where the left ones end,
   * the bottom ones where the top ones end, and the bottom-right one stops less than a
   * pixel short of the area's far corner in each direction.
   */
  lemma QuadTiling(a: WindowArea)
    ensures QuadTile(a, 0).x == a.x && QuadTile(a, 0).y == a.y
    ensures forall i :: 0 <= i < 4 ==> QuadTile(a, i).width == a.width / 2 && QuadTile(a, i).height == a.height / 2
    ensures QuadTile(a, 1).x == QuadTile(a, 0).x + QuadTile(a, 0).width && QuadTile(a, 1).y == a.y
    ensures QuadTile(a, 2).y == QuadTile(a, 0).y + QuadTile(a, 0).height && QuadTile(a, 2).x == a.x
    ensures QuadTile(a, 3).x == QuadTile(a, 1).x && QuadTile(a, 3).y == QuadTile(a, 2).y
    ensures 0 <= (a.x + a.width) - (QuadTile(a, 3).x + QuadTile(a, 3).width) < 2
    ensures 0 <= (a.y + a.height) - (QuadTile(a, 3).y + QuadTile(a, 3).height) < 2
  {
  }

  /** The maximized layout: the first window fills the area, every other one is hidden. */
  function MaximizedOps(a: WindowArea, ws: seq<Hwnd>): (r: seq<WindowOp>)
    ensures |r| == |ws|
  {
    seq(|ws|, i requires 0 <= i < |ws| => if i == 0 then Place(ws[0], a) else Hide(ws[i]))
  }

  function HorizontalOps(a: WindowArea, ws: seq<Hwnd>): (r: seq<WindowOp>)
    ensures |r| == |ws|
  {
    seq(|ws|, i requires 0 <= i < |ws| => Place(ws[i], HorizontalTile(a, |ws|, i)))
  }

  function VerticalOps(a: WindowArea, ws: seq<Hwnd>): (r: seq<WindowOp>)
    ensures |r| == |ws|
  {
    seq(|ws|, i requires 0 <= i < |ws| => Place(ws[i], VerticalTile(a, |ws|, i)))
  }

  /** The quad layout: the first four windows in the quadrants, every later one hidden. */
  function QuadOps(a: WindowArea, ws: seq<Hwnd>): (r: seq<WindowOp>)
    ensures |r| == |ws|
  {
    seq(|ws|, i requires 0 <= i < |ws| => if i < 4 then Place(ws[i], QuadTile(a, i)) else Hide(ws[i]))
  }

  function FloatingOps(ws: seq<Hwnd>): (r: seq<WindowOp>)
    ensures |r| == |ws|
  {
    seq(|ws|, i requires 0 <= i < |ws| => Show(ws[i]))
  }

  /** `apply_layout` on the visible windows `ws`: nothing at all when there are none. */
  function LayoutOps(layout: Layout, a: WindowArea, ws: seq<Hwnd>): seq<WindowOp> {
    if ws == [] then []
    else match layout
      case Maximized => MaximizedOps(a, ws)
      case TiledHorizontal => HorizontalOps(a, ws)
      case TiledVertical => VerticalOps(a, ws)
      case TiledQuad => QuadOps(a, ws)
      case Floating => FloatingOps(ws)
  }

  /** Every window of a layout receives exactly one operation, in the order of the windows. */
  lemma LayoutTouchesEachWindowOnce(layout: Layout, a: WindowArea, ws: seq<Hwnd>)
    ensures var ops := LayoutOps(layout, a, ws);
            |ops| == |ws| && forall i :: 0 <= i < |ws| ==> OpTarget(ops[i]) == ws[i]
  {
  }

  /** The window an operation acts on. */
  function OpTarget(op: WindowOp): Hwnd {
    match op
    case Place(h, _) => h
    case Show(h) => h
    case Hide(h) => h
    case Restore(h) => h
    case Foreground(h) => h
  }

  /** In the maximized layout exactly one window is placed, and it is given the whole area. */
  lemma MaximizedPlacesOnlyFirst(a: WindowArea, ws: seq<Hwnd>)
    requires ws != []
    ensures var ops := MaximizedOps(a, ws);
            ops[0] == Place(ws[0], a) && forall i :: 0 < i < |ops| ==> ops[i] == Hide(ws[i])
  {
  }

  /** In the quad layout only the first four windows are placed, and every later window is hidden. */
  lemma QuadPlacesAtMostFour(a: WindowArea, ws: seq<Hwnd>)
    ensures var ops := QuadOps(a, ws);
            && (forall i :: 0 <= i < |ops| && ops[i].Place? ==> i < 4)
            && (forall i :: 4 <= i < |ops| ==> ops[i] == Hide(ws[i]))
  {
  }

  /** The windows a pruning pass reports as visible, in registry order. */
  function Visible(ws: seq<Hwnd>, status: Hwnd -> WindowStatus): (r: seq<Hwnd>)
    ensures forall h :: h in r <==> h in ws && status(h).Shown?
    ensures |r| <= |ws|
  {
    if ws == [] then []
    else
      var init := ws[..|ws| - 1];
      var h := ws[|ws| - 1];
      assert forall x :: x in ws <==> x in init || x == h;
      Visible(init, status) + (if status(h).Shown? then [h] else [])
  }

  /** The windows of `ws` a pruning pass deletes. */
  function DroppedOf(ws: seq<Hwnd>, status: Hwnd -> WindowStatus): (r: set<Hwnd>)
    ensures forall h :: h in r <==> h in ws && Dropped(status(h))
  {
    if ws == [] then {}
    else
      var init := ws[..|ws| - 1];
      var h := ws[|ws| - 1];
      assert forall x :: x in ws <==> x in init || x == h;
      DroppedOf(init, status) + (if Dropped(status(h)) then {h} else {})
  }

  /** The windows of `ws` a pruning pass deletes, in registry order. */
  function DroppedList(ws: seq<Hwnd>, status: Hwnd -> WindowStatus): (r: seq<Hwnd>)
    ensures forall h :: h in r <==> h in ws && Dropped(status(h))
  {
    if ws == [] then []
    else
      var init := ws[..|ws| - 1];
      var h := ws[|ws| - 1];
      assert forall x :: x in ws <==> x in init || x == h;
      DroppedList(init, status) + (if Dropped(status(h)) then [h] else [])
  }

  /** The walk over the registry snapshot: the windows to report and the windows to delete. */
  method ScanRegistry(keys: seq<Hwnd>, status: Hwnd -> WindowStatus) returns (visible: seq<Hwnd>, dropped: seq<Hwnd>)
    ensures visible == Visible(keys, status)
    ensures dropped == DroppedList(keys, status)
  {
    visible, dropped := [], [];
    for i := 0 to |keys|
      invariant visible == Visible(keys[..i], status)
      invariant dropped == DroppedList(keys[..i], status)
    {
      assert keys[..i + 1][..i] == keys[..i];
      var h := keys[i];
      if status(h).Shown? {
        visible := visible + [h];
      } else if Dropped(status(h)) {
        dropped := dropped + [h];
      }
    }
    assert keys[..|keys|] == keys;
  }

  /** What `get_window_list` learns about a managed window: nothing when it is no window or a query raised. */
  datatype WindowQuery = Unlisted | Queried(title: string, visible: bool, minimized: bool)

  /** One row of `get_window_list`. */
  datatype ListedWindow = ListedWindow(hwnd: Hwnd, appId: string, appName: string, title: string,
                                       isVisible: bool, isMinimized: bool)

  /** The rows for the windows `ws`, in registry order, skipping the ones that cannot be listed. */
  function WindowList(ws: seq<Hwnd>, m: map<Hwnd, ManagedWindow>, query: Hwnd -> WindowQuery): (r: seq<ListedWindow>)
    requires forall h :: h in ws ==> h in m
    ensures |r| <= |ws|
    ensures forall e :: e in r ==>
              && e.hwnd in ws && query(e.hwnd).Queried?
              && e.appId == m[e.hwnd].appId && e.appName == m[e.hwnd].appName
              && e.title == query(e.hwnd).title && e.isVisible == query(e.hwnd).visible
              && e.isMinimized == query(e.hwnd).minimized
    ensures forall h :: h in ws && query(h).Queried? ==> exists e :: e in r && e.hwnd == h
  {
    if ws == [] then []
    else
      var init := ws[..|ws| - 1];
      var h := ws[|ws| - 1];
      assert forall x :: x in ws <==> x in init || x == h;
      WindowList(init, m, query)
      + match query(h)
        case Unlisted => []
        case Queried(t, v, mi) => [ListedWindow(h, m[h].appId, m[h].appName, t, v, mi)]
  }

  class WindowManager {
    var managed: map<Hwnd, ManagedWindow>
    var order: seq<Hwnd>
    var layout: Layout
    var area: WindowArea
    var log: seq<WindowOp>

    ghost predicate Valid()
      reads this
    {
      Mirrors(order, managed)
    }

    /** `__init__`: nothing managed, the maximized layout, the area between the sidebars. */
    constructor (geometry: WindowArea)
      ensures Valid()
      ensures managed == map[] && order == [] && log == []
      ensures layout == Maximized && area == AvailableArea(geometry)
    {
      managed, order, log := map[], [], [];
      layout := Maximized;
      area := AvailableArea(geometry);
    }

    /** `managed_windows[h] = entry`. */
    method Store(h: Hwnd, entry: ManagedWindow)
      requires Valid()
      modifies this`managed, this`order
      ensures Valid()
      ensures managed == old(managed)[h := entry] && order == Put(old(order), h)
    {
      order := Put(order, h);
      managed := managed[h := entry];
    }

    /** Delete every window of `hs` from the registry. */
    method ForgetAll(hs: seq<Hwnd>)
      requires Valid()
      modifies this`managed, this`order
      ensures Valid()
      ensures managed == RestrictMap(old(managed), old(managed).Keys - Elems(hs))
      ensures order == Restrict(old(order), old(managed).Keys - Elems(hs))
    {
      managed, order := DeleteAll(managed, order, hs);
    }

    /**
     * `_get_visible_managed_windows`: walk a snapshot of the registry; a shown window is
     * reported, a minimised one kept but not reported, any other one deleted. No decision
     * depends on an earlier deletion, so the deletions are made after the walk.
     */
    method VisibleManagedWindows(status: Hwnd -> WindowStatus) returns (visible: seq<Hwnd>)
      requires Valid()
      modifies this`managed, this`order
      ensures Valid()
      ensures visible == Visible(old(order), status)
      ensures managed == RestrictMap(old(managed), old(managed).Keys - DroppedOf(old(order), status))
      ensures order == Restrict(old(order), old(managed).Keys - DroppedOf(old(order), status))
    {
      var dropped;
      visible, dropped := ScanRegistry(order, status);
      assert Elems(dropped) == DroppedOf(order, status);
      ForgetAll(dropped);
    }

    method ApplyMaximized(ws: seq<Hwnd>)
      modifies this`log
      ensures log == old(log) + MaximizedOps(area, ws)
    {
      for i := 0 to |ws|
        invariant log == old(log) + MaximizedOps(area, ws)[..i]
      {
        assert MaximizedOps(area, ws)[..i + 1] == MaximizedOps(area, ws)[..i] + [MaximizedOps(area, ws)[i]];
        if i == 0 {
          log := log + [Place(ws[i], area)];
        } else {
          log := log + [Hide(ws[i])];
        }
      }
      assert MaximizedOps(area, ws)[..|ws|] == MaximizedOps(area, ws);
    }

    method ApplyTiledHorizontal(ws: seq<Hwnd>)
      modifies this`log
      ensures log == old(log) + HorizontalOps(area, ws)
    {
      if ws == [] {
        return;
      }
      var width := area.width / |ws|;
      for i := 0 to |ws|
        invariant log == old(log) + HorizontalOps(area, ws)[..i]
      {
        assert HorizontalOps(area, ws)[..i + 1] == HorizontalOps(area, ws)[..i] + [HorizontalOps(area, ws)[i]];
        log := log + [Place(ws[i], WindowArea(area.x + i * width, area.y, width, area.height))];
      }
      assert HorizontalOps(area, ws)[..|ws|] == HorizontalOps(area, ws);
    }

    method ApplyTiledVertical(ws: seq<Hwnd>)
      modifies this`log
      ensures log == old(log) + VerticalOps(area, ws)
    {
      if ws == [] {
        return;
      }
      var height := area.height / |ws|;
      for i := 0 to |ws|
        invariant log == old(log) + VerticalOps(area, ws)[..i]
      {
        assert VerticalOps(area, ws)[..i + 1] == VerticalOps(area, ws)[..i] + [VerticalOps(area, ws)[i]];
        log := log + [Place(ws[i], WindowArea(area.x, area.y + i * height, area.width, height))];
      }
      assert VerticalOps(area, ws)[..|ws|] == VerticalOps(area, ws);
    }

    method ApplyTiledQuad(ws: seq<Hwnd>)
      modifies this`log
      ensures log == old(log) + QuadOps(area, ws)
    {
      if ws == [] {
        return;
      }
      var qw, qh := area.width / 2, area.height / 2;
      var positions := [(0, 0), (qw, 0), (0, qh), (qw, qh)];
      var first := if |ws| < 4 then |ws| else 4;
      for i := 0 to first
        invariant log == old(log) + QuadOps(area, ws)[..i]
      {
        assert QuadOps(area, ws)[..i + 1] == QuadOps(area, ws)[..i] + [QuadOps(area, ws)[i]];
        log := log + [Place(ws[i], WindowArea(area.x + positions[i].0, area.y + positions[i].1, qw, qh))];
      }
      for i := first to |ws|
        invariant log == old(log) + QuadOps(area, ws)[..i]
      {
        assert QuadOps(area, ws)[..i + 1] == QuadOps(area, ws)[..i] + [QuadOps(area, ws)[i]];
        log := log + [Hide(ws[i])];
      }
      assert QuadOps(area, ws)[..|ws|] == QuadOps(area, ws);
    }

    method ApplyFloating(ws: seq<Hwnd>)
      modifies this`log
      ensures log == old(log) + FloatingOps(ws)
    {
      for i := 0 to |ws|
        invariant log == old(log) + FloatingOps(ws)[..i]
      {
        assert FloatingOps(ws)[..i + 1] == FloatingOps(ws)[..i] + [FloatingOps(ws)[i]];
        log := log + [Show(ws[i])];
      }
      assert FloatingOps(ws)[..|ws|] == FloatingOps(ws);
    }

    /** `apply_layout`: prune, then lay out the visible windows in the current layout. */
    method ApplyLayout(status: Hwnd -> WindowStatus)
      requires Valid()
      modifies this`managed, this`order, this`log
      ensures Valid()
      ensures managed == RestrictMap(old(managed), old(managed).Keys - DroppedOf(old(order), status))
      ensures order == Restrict(old(order), old(managed).Keys - DroppedOf(old(order), status))
      ensures log == old(log) + LayoutOps(layout, area, Visible(old(order), status))
    {
      var visible := VisibleManagedWindows(status);
      if visible == [] {
        return;
      }
      match layout
      case Maximized => ApplyMaximized(visible);
      case TiledHorizontal => ApplyTiledHorizontal(visible);
      case TiledVertical => ApplyTiledVertical(visible);
      case TiledQuad => ApplyTiledQuad(visible);
      case Floating => ApplyFloating(visible);
    }

    /** `add_window`: register a window and re-apply the layout; False when the handle is not usable. */
    method AddWindow(h: Hwnd, appId: string, appName: string, probe: AddProbe, status: Hwnd -> WindowStatus)
      returns (ok: bool)
      requires Valid()
      modifies this`managed, this`order, this`log
      ensures Valid()
      ensures ok <==> probe.Info?
      ensures !ok ==> managed == old(managed) && order == old(order) && log == old(log)
      ensures ok ==>
                var m1 := old(managed)[h := ManagedWindow(appId, appName, probe.rect, probe.style)];
                var o1 := Put(old(order), h);
                && managed == RestrictMap(m1, m1.Keys - DroppedOf(o1, status))
                && order == Restrict(o1, m1.Keys - DroppedOf(o1, status))
                && log == old(log) + LayoutOps(layout, area, Visible(o1, status))
    {
      if !probe.Info? {
        return false;
      }
      Store(h, ManagedWindow(appId, appName, probe.rect, probe.style));
      ApplyLayout(status);
      ok := true;
    }

    /** `remove_window`: forget a managed window and re-apply the layout; nothing otherwise. */
    method RemoveWindow(h: Hwnd, status: Hwnd -> WindowStatus)
      requires Valid()
      modifies this`managed, this`order, this`log
      ensures Valid()
      ensures h !in old(managed) ==> managed == old(managed) && order == old(order) && log == old(log)
      ensures h in old(managed) ==>
                var m1, o1 := old(managed) - {h}, Remove(old(order), h);
                && managed == RestrictMap(m1, m1.Keys - DroppedOf(o1, status))
                && order == Restrict(o1, m1.Keys - DroppedOf(o1, status))
                && log == old(log) + LayoutOps(layout, area, Visible(o1, status))
    {
      if h !in managed {
        return;
      }
      order := Remove(order, h);
      managed := managed - {h};
      ApplyLayout(status);
    }

    /**
     * `focus_window`: un-minimise and bring forward a managed window, and in the maximized
     * layout give it the whole area. False for an unmanaged window, or when bringing it
     * forward raises.
     */
    method FocusWindow(h: Hwnd, iconic: bool, foregroundRaises: bool) returns (ok: bool)
      modifies this`log
      ensures ok <==> h in managed && !foregroundRaises
      ensures h !in managed ==> log == old(log)
      ensures h in managed ==>
                log == old(log) + (if iconic then [Restore(h)] else [])
                       + (if foregroundRaises then []
                          else [Foreground(h)] + (if layout == Maximized then [Place(h, area)] else []))
    {
      if h !in managed {
        return false;
      }
      if iconic {
        log := log + [Restore(h)];
      }
      if foregroundRaises {
        return false;
      }
      log := log + [Foreground(h)];
      if layout == Maximized {
        ApplyMaximized([h]);
      }
      ok := true;
    }

    /** `get_window_list`: one row per managed window that can still be queried, in registry order. */
    method GetWindowList(query: Hwnd -> WindowQuery) returns (list: seq<ListedWindow>)
      requires Valid()
      ensures list == WindowList(order, managed, query)
    {
      list := [];
      for i := 0 to |order|
        invariant list == WindowList(order[..i], managed, query)
      {
        assert order[..i + 1][..i] == order[..i];
        var h := order[i];
        match query(h)
        case Unlisted =>
        case Queried(t, v, mi) =>
          list := list + [ListedWindow(h, managed[h].appId, managed[h].appName, t, v, mi)];
      }
      assert order[..|order|] == order;
    }

    /** `set_layout`. */
    method SetLayout(l: Layout, status: Hwnd -> WindowStatus)
      requires Valid()
      modifies this`layout, this`managed, this`order, this`log
      ensures Valid() && layout == l
      ensures managed == RestrictMap(old(managed), old(managed).Keys - DroppedOf(old(order), status))
      ensures order == Restrict(old(order), old(managed).Keys - DroppedOf(old(order), status))
      ensures log == old(log) + LayoutOps(l, area, Visible(old(order), status))
    {
      layout := l;
      ApplyLayout(status);
    }

    /** `update_available_area`: recompute the area from the new geometry and lay out again. */
    method UpdateAvailableArea(geometry: WindowArea, status: Hwnd -> WindowStatus)
      requires Valid()
      modifies this`area, this`managed, this`order, this`log
      ensures Valid() && area == AvailableArea(geometry)
      ensures managed == RestrictMap(old(managed), old(managed).Keys - DroppedOf(old(order), status))
      ensures order == Restrict(old(order), old(managed).Keys - DroppedOf(old(order), status))
      ensures log == old(log) + LayoutOps(layout, area, Visible(old(order), status))
    {
      area := AvailableArea(geometry);
      ApplyLayout(status);
    }
  }

  /** Pruning keeps minimised windows but never reports them, and reports only windows it keeps. */
  lemma PruningKeepsMinimized(order: seq<Hwnd>, m: map<Hwnd, ManagedWindow>, status: Hwnd -> WindowStatus)
    requires Mirrors(order, m)
    ensures var kept := RestrictMap(m, m.Keys - DroppedOf(order, status));
            && (forall h :: h in m && status(h).Minimized? ==> h in kept && h !in Visible(order, status))
            && (forall h :: h in Visible(order, status) ==> h in kept)
            && (forall h :: h in m && Dropped(status(h)) ==> h !in kept)
  {
  }
}
