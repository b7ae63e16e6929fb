/**
 * The per-window state of the window hook: the motion values, the saved
 * geometry for maximize, the saved position for minimize and the interaction
 * flags, with one method per handler or effect. Animations are modelled by
 * their end value; DOM measurements arrive as parameters.
 */
module WindowBehavior {
  import opened Interfaces
  import opened WindowGeometry
  import DesktopStore

  class WindowState {
    const appId: string

    // motion values
    var x: int
    var y: int
    var width: int
    var height: int

    /** The saved geometry that the next un-maximize restores. */
    var previousSize: Geometry
    /** The position recorded by the last minimize. */
    var previousPosition: Point

    var isDragging: bool
    var isResizing: bool
    var isMinimized: bool
    var isMaximized: bool
    var constraints: Constraints
    var minimizeTarget: Target

    /**
     * Where the minimize animation drove the x/y motion values, or None while
     * they show x and y. Kept apart from x and y because it is fractional.
     */
    var minimizeAnimation: Option<Target>

    function Geom(): (g: Geometry)
      reads this
    {
      Geometry(x, y, width, height)
    }

    /** The hook's first render for a stored window. */
    constructor (win: DesktopWindow)
      ensures appId == win.appId
      ensures Geom() == Geometry(win.position.x, win.position.y, win.size.width, win.size.height)
      ensures previousSize == Geometry(0, 0, 0, 0) && previousPosition == Point(0, 0)
      ensures !isDragging && !isResizing && !isMaximized
      ensures isMinimized == IsMinimized(win.minimized)
      ensures constraints == Constraints(0, 0, 0, 0) && minimizeTarget == Target(0.0, 0.0)
      ensures minimizeAnimation == None
    {
      appId := win.appId;
      x, y := win.position.x, win.position.y;
      width, height := win.size.width, win.size.height;
      previousSize := Geometry(0, 0, 0, 0);
      previousPosition := Point(0, 0);
      isDragging, isResizing, isMaximized := false, false, false;
      isMinimized := IsMinimized(win.minimized);
      constraints := Constraints(0, 0, 0, 0);
      minimizeTarget := Target(0.0, 0.0);
      minimizeAnimation := None;
    }

    /** The effect that copies the store's `minimized` flag into the local flag. */
    method SyncMinimized(minimized: Option<bool>)
      modifies this`isMinimized
      ensures isMinimized == IsMinimized(minimized)
    {
      isMinimized := IsMinimized(minimized);
    }

    /** The effect that records where minimize should send the window. */
    method FindAppIconPosition(icon: Option<Rect>, innerWidth: int, innerHeight: int)
      modifies this`minimizeTarget
      ensures minimizeTarget == MinimizeTarget(icon, innerWidth, innerHeight)
    {
      match icon {
        case Some(rect) =>
          minimizeTarget := Target(rect.left as real + rect.width as real / 2.0,
                                   rect.top as real + rect.height as real / 2.0);
        case None =>
          minimizeTarget := Target(innerWidth as real / 2.0, (innerHeight - DockOffset) as real);
      }
    }

    /** Recomputes the drag constraints and pulls the window inside them; no container, no change. */
    method UpdateConstraints(container: Option<Container>)
      modifies this`x, this`y, this`constraints
      ensures container.None? ==> Geom() == old(Geom()) && constraints == old(constraints)
      ensures container.Some? ==>
        var c := container.value;
        Geom() == Constrain(old(Geom()), c.rectWidth, c.rectHeight)
        && constraints == ConstraintsFor(Geom(), c.rectWidth, c.rectHeight)
    {
      if container.Some? {
        var c := container.value;
        var maxX := Max(0, c.rectWidth - width);
        var maxY := Max(0, c.rectHeight - height);
        constraints := Constraints(0, 0, maxX, maxY);
        x := Min(maxX, Max(0, x));
        y := Min(maxY, Max(0, y));
      }
    }

    /** One resize step in direction `d`, followed by the constraint clamp. */
    method HandleResize(d: ResizeDirection, deltaX: int, deltaY: int, container: Option<Container>)
      modifies this`x, this`y, this`width, this`height, this`constraints
      ensures container.None? ==> Geom() == old(Geom()) && constraints == old(constraints)
      ensures container.Some? ==>
        var c := container.value;
        Geom() == Constrain(ResizeStep(old(Geom()), d, deltaX, deltaY, c.rectWidth, c.rectHeight),
                            c.rectWidth, c.rectHeight)
        && constraints == ConstraintsFor(Geom(), c.rectWidth, c.rectHeight)
    {
      if container.None? {
        return;
      }
      var maxWidth := container.value.rectWidth;
      var maxHeight := container.value.rectHeight;

      ghost var before := Geom();
      var newWidth, newHeight, newX, newY := width, height, x, y;

      if Includes(d, 'e') {
        var possibleWidth := Max(MinWidth, width + deltaX);
        newWidth := Min(maxWidth - x, possibleWidth);
      } else if Includes(d, 'w') {
        var possibleWidth := Max(MinWidth, width - deltaX);
        var maxPossibleX := maxWidth - width;
        if possibleWidth != width {
          newWidth := possibleWidth;
          newX := Min(maxPossibleX, Max(0, x + deltaX));
        }
      }
      assert Span(newX, newWidth)
          == ResizeSpan(Span(x, width), deltaX, maxWidth, MinWidth, Includes(d, 'e'), Includes(d, 'w'));

      if Includes(d, 's') {
        var possibleHeight := Max(MinHeight, height + deltaY);
        newHeight := Min(maxHeight - y, possibleHeight);
      } else if Includes(d, 'n') {
        var possibleHeight := Max(MinHeight, height - deltaY);
        var maxPossibleY := maxHeight - height;
        if possibleHeight != height {
          newHeight := possibleHeight;
          newY := Min(maxPossibleY, Max(0, y + deltaY));
        }
      }
      assert Span(newY, newHeight)
          == ResizeSpan(Span(y, height), deltaY, maxHeight, MinHeight, Includes(d, 's'), Includes(d, 'n'));
      assert Geometry(newX, newY, newWidth, newHeight) == ResizeStep(before, d, deltaX, deltaY, maxWidth, maxHeight);

      x, y, width, height := newX, newY, newWidth, newHeight;
      UpdateConstraints(container);
    }

    /** End of a resize gesture: clears the flag and reports position and size. */
    method HandleResizeEnd() returns (position: Point, size: Size)
      modifies this`isResizing
      ensures !isResizing
      ensures position == Point(x, y) && size == Size(width, height)
    {
      isResizing := false;
      position := Point(x, y);
      size := Size(width, height);
    }

    /** Removes every window of this app from the store. */
    method HandleClose(store: DesktopStore.Store)
      modifies store
      ensures store.windows == CloseWindow(old(store.windows), appId)
      ensures store.navApps == old(store.navApps) && store.trashedApps == old(store.trashedApps)
    {
      store.SetWindows(CloseWindow(store.windows, appId));
    }

    /**
     * The maximize toggle: from the normal state it saves the geometry and
     * fills the container; from the maximized state it puts the saved geometry
     * back. Either way the constraint clamp follows.
     */
    method HandleMaximize(container: Option<Container>)
      modifies this`x, this`y, this`width, this`height, this`constraints, this`previousSize, this`isMaximized
      ensures container.None? ==>
        Geom() == old(Geom()) && constraints == old(constraints)
        && previousSize == old(previousSize) && isMaximized == old(isMaximized)
      ensures container.Some? ==> isMaximized == !old(isMaximized)
      ensures container.Some? && !old(isMaximized) ==>
        var c := container.value;
        previousSize == old(Geom())
        && Geom() == Constrain(Geometry(0, 0, c.clientWidth, c.clientHeight), c.rectWidth, c.rectHeight)
      ensures container.Some? && old(isMaximized) ==>
        var c := container.value;
        previousSize == old(previousSize)
        && Geom() == Constrain(old(previousSize), c.rectWidth, c.rectHeight)
      ensures container.Some? ==>
        constraints == ConstraintsFor(Geom(), container.value.rectWidth, container.value.rectHeight)
    {
      if container.None? {
        return;
      }
      var c := container.value;
      if !isMaximized {
        previousSize := Geometry(x, y, width, height);
        x, y := 0, 0;
        width, height := c.clientWidth, c.clientHeight;
      } else {
        x, y := previousSize.x, previousSize.y;
        width, height := previousSize.width, previousSize.height;
      }
      isMaximized := !isMaximized;
      UpdateConstraints(container);
    }

    /**
     * Minimize: records the position, drives the motion values toward the
     * minimize target, raises the local flag and marks the stored window.
     */
    method HandleMinimize(store: DesktopStore.Store)
      modifies this`previousPosition, this`minimizeAnimation, this`isMinimized, store
      ensures previousPosition == Point(x, y)
      ensures minimizeAnimation == Some(MinimizeEndpoint(minimizeTarget, width, height))
      ensures isMinimized
      ensures store.windows == MarkMinimized(old(store.windows), appId)
      ensures store.navApps == old(store.navApps) && store.trashedApps == old(store.trashedApps)
    {
      previousPosition := Point(x, y);
      minimizeAnimation := Some(Target(minimizeTarget.x - width as real / 2.0,
                                       minimizeTarget.y - height as real / 2.0));
      isMinimized := true;
      store.SetWindows(MarkMinimized(store.windows, appId));
    }

    /**
     * The restore effect: when the store says "not minimized" while the local
     * flag still says minimized, the window goes back to the recorded position.
     */
    method RestoreEffect(minimized: Option<bool>)
      modifies this`x, this`y, this`minimizeAnimation, this`isMinimized
      ensures !IsMinimized(minimized) && old(isMinimized) ==>
        x == previousPosition.x && y == previousPosition.y
        && minimizeAnimation == None && !isMinimized
      ensures IsMinimized(minimized) || !old(isMinimized) ==>
        x == old(x) && y == old(y) && minimizeAnimation == old(minimizeAnimation)
        && isMinimized == old(isMinimized)
    {
      if !IsMinimized(minimized) && isMinimized {
        x, y := previousPosition.x, previousPosition.y;
        minimizeAnimation := None;
        isMinimized := false;
      }
    }
  }

  /** Maximize then un-maximize, in an unchanged container, gives back a window that was within its constraints. */
  method MaximizeRoundTrip(w: WindowState, c: Container)
    requires !w.isMaximized
    requires WithinConstraints(w.Geom(), c.rectWidth, c.rectHeight)
    modifies w
    ensures w.Geom() == old(w.Geom()) && !w.isMaximized
  {
    w.HandleMaximize(Some(c));
    w.HandleMaximize(Some(c));
  }

  /**
   * Minimize, then a constraint update and a resize step while minimized, then
   * the store clearing the flag: the window is back at exactly the position
   * it had, whatever moved it meanwhile.
   */
  method MinimizeRoundTrip(w: WindowState, store: DesktopStore.Store, c1: Option<Container>,
                           d: ResizeDirection, dx: int, dy: int, c2: Option<Container>)
    modifies w, store
    ensures w.x == old(w.x) && w.y == old(w.y) && !w.isMinimized && w.minimizeAnimation == None
  {
    w.HandleMinimize(store);
    w.UpdateConstraints(c1);
    w.HandleResize(d, dx, dy, c2);
    w.RestoreEffect(Some(false));
  }

  /**
   * A window stored as minimized that the store then un-minimizes goes to
   * (0, 0): no minimize ever recorded its position.
   */
  method RestoreStoredMinimized(win: DesktopWindow) returns (w: WindowState)
    requires IsMinimized(win.minimized)
    ensures w.x == 0 && w.y == 0 && !w.isMinimized
  {
    w := new WindowState(win);
    w.SyncMinimized(win.minimized);
    w.RestoreEffect(Some(false));
  }
}
