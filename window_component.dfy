/**
 * The window component's event handlers: click, window drag and the eight
 * inline resize handles. Drag and click are gated on the minimized flag;
 * the handles are not. Callback invocations are returned to the caller.
 */
module WindowComponent {
  import opened Interfaces
  import opened WindowGeometry
  import opened WindowBehavior

  /** The directions the window renders a resize handle for, in render order. */
  const Directions: seq<ResizeDirection> := [N, S, E, W, NE, NW, SE, SW]

  /** Exactly one handle is rendered per direction. */
  lemma DirectionsEachOnce(d: ResizeDirection)
    ensures multiset(Directions)[d] == 1
  {
  }

  /** Whether the window can be dragged and whether it receives pointer events. */
  datatype Interactivity = Interactivity(draggable: bool, pointerEvents: bool)

  function InteractivityOf(minimized: bool): (r: Interactivity)
    ensures r.draggable <==> !minimized
    ensures r.pointerEvents <==> !minimized
  {
    Interactivity(!minimized, !minimized)
  }

  /** The interaction flags the handlers flip. */
  datatype Flags = Flags(isDragging: bool, isResizing: bool)

  /** The events the window and its handles react to. */
  datatype Event = Click | DragStart | DragEnd | HandleDragStart | HandleDrag | HandleDragEnd

  /** The effect of one event on the flags of a window whose minimized flag is `minimized`. */
  function Step(f: Flags, minimized: bool, e: Event): (r: Flags)
    ensures minimized ==> r.isDragging == f.isDragging
    ensures e !in {DragStart, DragEnd} ==> r.isDragging == f.isDragging
    ensures !minimized && e == DragStart ==> r.isDragging
    ensures !minimized && e == DragEnd ==> !r.isDragging
    ensures e !in {HandleDragStart, HandleDragEnd} ==> r.isResizing == f.isResizing
    ensures e == HandleDragStart ==> r.isResizing
    ensures e == HandleDragEnd ==> !r.isResizing
  {
    match e
    case Click => f
    case DragStart => if minimized then f else f.(isDragging := true)
    case DragEnd => if minimized then f else f.(isDragging := false)
    case HandleDragStart => f.(isResizing := true)
    case HandleDrag => f
    case HandleDragEnd => f.(isResizing := false)
  }

  /** The drag handlers act exactly when the window is draggable. */
  lemma DragFollowsInteractivity(f: Flags, minimized: bool)
    ensures !InteractivityOf(minimized).draggable ==> Step(f, minimized, DragStart) == f && Step(f, minimized, DragEnd) == f
    ensures InteractivityOf(minimized).draggable ==> Step(f, minimized, DragStart).isDragging && !Step(f, minimized, DragEnd).isDragging
  {
  }

  /** The flags after a sequence of events with the minimized flag held fixed. */
  function Run(f: Flags, minimized: bool, es: seq<Event>): (r: Flags)
    decreases |es|
  {
    if es == [] then f else Run(Step(f, minimized, es[0]), minimized, es[1..])
  }

  lemma {:induction false} RunSnoc(f: Flags, minimized: bool, es: seq<Event>, e: Event)
    ensures Run(f, minimized, es + [e]) == Step(Run(f, minimized, es), minimized, e)
    decreases |es|
  {
    if es == [] {
      assert es + [e] == [e];
    } else {
      assert (es + [e])[0] == es[0];
      assert (es + [e])[1..] == es[1..] + [e];
      RunSnoc(Step(f, minimized, es[0]), minimized, es[1..], e);
    }
  }

  /** While the window is minimized, no event changes `isDragging`. */
  lemma {:induction false} MinimizedFreezesDragging(f: Flags, es: seq<Event>)
    ensures Run(f, true, es).isDragging == f.isDragging
    decreases |es|
  {
    if es != [] {
      MinimizedFreezesDragging(Step(f, true, es[0]), es[1..]);
    }
  }

  /**
   * A drag started on a visible window that is minimized before its drag end
   * stays "dragging": the drag end is ignored.
   */
  lemma MinimizeDuringDragLeavesDragging(f: Flags, es: seq<Event>)
    ensures Run(Step(f, false, DragStart), true, es + [DragEnd]).isDragging
  {
    MinimizedFreezesDragging(Step(f, false, DragStart), es + [DragEnd]);
  }

  /** Whatever happened before, a resize-handle drag end leaves the window not resizing. */
  lemma HandleDragEndClearsResizing(f: Flags, minimized: bool, es: seq<Event>)
    ensures !Run(f, minimized, es + [HandleDragEnd]).isResizing
  {
    RunSnoc(f, minimized, es, HandleDragEnd);
  }

  function FlagsOf(w: WindowState): (f: Flags)
    reads w
  {
    Flags(w.isDragging, w.isResizing)
  }

  /** Click on the window: focus only when not minimized. */
  method OnClick(w: WindowState) returns (focus: bool)
    ensures focus <==> !w.isMinimized
  {
    focus := !w.isMinimized;
  }

  /** Window drag start: ignored while minimized, otherwise marks dragging and focuses. */
  method OnDragStart(w: WindowState) returns (focus: bool)
    modifies w`isDragging
    ensures FlagsOf(w) == Step(old(FlagsOf(w)), w.isMinimized, DragStart)
    ensures focus <==> !w.isMinimized
  {
    if w.isMinimized {
      return false;
    }
    w.isDragging := true;
    focus := true;
  }

  /** Window drag end: ignored while minimized, otherwise clears dragging and reports the position. */
  method OnDragEnd(w: WindowState) returns (reported: Option<Point>)
    modifies w`isDragging
    ensures FlagsOf(w) == Step(old(FlagsOf(w)), w.isMinimized, DragEnd)
    ensures reported == if w.isMinimized then None else Some(Point(w.x, w.y))
  {
    if w.isMinimized {
      return None;
    }
    w.isDragging := false;
    reported := Some(Point(w.x, w.y));
  }

  /** Resize-handle drag start: marks resizing and focuses, minimized or not. */
  method OnHandleDragStart(w: WindowState) returns (focus: bool)
    modifies w`isResizing
    ensures FlagsOf(w) == Step(old(FlagsOf(w)), w.isMinimized, HandleDragStart)
    ensures focus
  {
    w.isResizing := true;
    focus := true;
  }

  /** Resize-handle drag: forwards the event's delta with the handle's own direction. */
  method OnHandleDrag(w: WindowState, handle: ResizeDirection, deltaX: int, deltaY: int,
                      container: Option<Container>)
    modifies w`x, w`y, w`width, w`height, w`constraints
    ensures container.None? ==> w.Geom() == old(w.Geom()) && w.constraints == old(w.constraints)
    ensures container.Some? ==>
      var c := container.value;
      w.Geom() == Constrain(ResizeStep(old(w.Geom()), handle, deltaX, deltaY, c.rectWidth, c.rectHeight),
                            c.rectWidth, c.rectHeight)
      && w.constraints == ConstraintsFor(w.Geom(), c.rectWidth, c.rectHeight)
  {
    w.HandleResize(handle, deltaX, deltaY, container);
  }

  /** Resize-handle drag end: clears resizing and reports position and size. */
  method OnHandleDragEnd(w: WindowState) returns (position: Point, size: Size)
    modifies w`isResizing
    ensures FlagsOf(w) == Step(old(FlagsOf(w)), w.isMinimized, HandleDragEnd)
    ensures position == Point(w.x, w.y) && size == Size(w.width, w.height)
  {
    position, size := w.HandleResizeEnd();
  }
}
