/**
 * The standalone resize handle: an idle/resizing tracker driven by pointer
 * down, move, up and cancel, which emits one resize call per move while
 * resizing. Pointer capture and cursor styling are not modelled.
 */
module ResizeHandle {
  import opened Interfaces

  function Plus(a: Point, b: Point): (p: Point) { Point(a.x + b.x, a.y + b.y) }

  function Minus(a: Point, b: Point): (p: Point) { Point(a.x - b.x, a.y - b.y) }

  /** The sum of a sequence of deltas. */
  function Total(ds: seq<Point>): (sum: Point)
  {
    if ds == [] then Point(0, 0) else Plus(ds[0], Total(ds[1..]))
  }

  /** The last pointer position of a gesture that went down at `start` and then moved through `moves`. */
  function LastOr(start: Point, moves: seq<Point>): (p: Point)
  {
    if moves == [] then start else moves[|moves| - 1]
  }

  /** The deltas a gesture emits: each move minus the position before it. */
  function Deltas(start: Point, moves: seq<Point>): (ds: seq<Point>)
    ensures |ds| == |moves|
    decreases |moves|
  {
    if moves == [] then [] else [Minus(moves[0], start)] + Deltas(moves[0], moves[1..])
  }

  /** The deltas of a gesture add up to its net pointer displacement. */
  lemma {:induction false} DeltasTelescope(start: Point, moves: seq<Point>)
    ensures Total(Deltas(start, moves)) == Minus(LastOr(start, moves), start)
    decreases |moves|
  {
    if moves != [] {
      DeltasTelescope(moves[0], moves[1..]);
      var ds := Deltas(start, moves);
      assert ds[1..] == Deltas(moves[0], moves[1..]);
      assert LastOr(moves[0], moves[1..]) == LastOr(start, moves);
    }
  }

  /** One more move appends one delta, taken against the previous position. */
  lemma {:induction false} DeltasSnoc(start: Point, moves: seq<Point>, p: Point)
    ensures Deltas(start, moves + [p]) == Deltas(start, moves) + [Minus(p, LastOr(start, moves))]
    decreases |moves|
  {
    if moves == [] {
      assert moves + [p] == [p];
    } else {
      assert (moves + [p])[0] == moves[0];
      assert (moves + [p])[1..] == moves[1..] + [p];
      DeltasSnoc(moves[0], moves[1..], p);
      assert LastOr(moves[0], moves[1..]) == LastOr(start, moves);
    }
  }

  /** One call of the resize callback. */
  datatype ResizeCall = ResizeCall(direction: ResizeDirection, deltaX: int, deltaY: int)

  class ResizeTracker {
    const direction: ResizeDirection
    var isResizing: bool
    var lastPosition: Point

    /** Where the current gesture went down, the positions it moved through and the deltas it emitted. */
    ghost var downPosition: Point
    ghost var moves: seq<Point>
    ghost var emitted: seq<Point>

    ghost predicate Valid()
      reads this
    {
      isResizing ==> emitted == Deltas(downPosition, moves) && lastPosition == LastOr(downPosition, moves)
    }

    constructor (d: ResizeDirection)
      ensures Valid()
      ensures direction == d && !isResizing && lastPosition == Point(0, 0)
    {
      direction := d;
      isResizing := false;
      lastPosition := Point(0, 0);
      downPosition := Point(0, 0);
      moves, emitted := [], [];
    }

    /** Pointer down: start (or restart) a gesture at `p` and call the start callback. */
    method PointerDown(p: Point) returns (startCalled: bool)
      requires Valid()
      modifies this`isResizing, this`lastPosition, this`downPosition, this`moves, this`emitted
      ensures Valid()
      ensures isResizing && lastPosition == p && startCalled
      ensures downPosition == p && moves == [] && emitted == []
    {
      isResizing := true;
      lastPosition := p;
      downPosition, moves, emitted := p, [], [];
      startCalled := true;
    }

    /** Pointer move: while idle nothing happens; while resizing one delta is emitted. */
    method PointerMove(p: Point) returns (call: Option<ResizeCall>)
      requires Valid()
      modifies this`lastPosition, this`moves, this`emitted
      ensures Valid()
      ensures !isResizing ==>
        call == None && lastPosition == old(lastPosition) && moves == old(moves) && emitted == old(emitted)
      ensures isResizing ==>
        call == Some(ResizeCall(direction, p.x - old(lastPosition).x, p.y - old(lastPosition).y))
        && lastPosition == p
        && moves == old(moves) + [p]
        && emitted == old(emitted) + [Minus(p, old(lastPosition))]
      ensures isResizing ==> Total(emitted) == Minus(p, downPosition)
    {
      if !isResizing {
        return None;
      }
      var deltaX := p.x - lastPosition.x;
      var deltaY := p.y - lastPosition.y;
      call := Some(ResizeCall(direction, deltaX, deltaY));
      DeltasSnoc(downPosition, moves, p);
      emitted := emitted + [Point(deltaX, deltaY)];
      moves := moves + [p];
      lastPosition := p;
      DeltasTelescope(downPosition, moves);
    }

    /** Pointer up (also the pointer-cancel listener): end the gesture and call the end callback once. */
    method PointerUp() returns (endCalled: bool)
      requires Valid()
      modifies this`isResizing
      ensures Valid()
      ensures !isResizing
      ensures endCalled == old(isResizing)
    {
      if !isResizing {
        return false;
      }
      isResizing := false;
      endCalled := true;
    }

    /** Pointer cancel runs the same listener as pointer up. */
    method PointerCancel() returns (endCalled: bool)
      requires Valid()
      modifies this`isResizing
      ensures Valid()
      ensures !isResizing
      ensures endCalled == old(isResizing)
    {
      endCalled := PointerUp();
    }
  }

  /** An up followed by a cancel ends one gesture once: the second release calls nothing. */
  method ReleaseTwice(t: ResizeTracker) returns (first: bool, second: bool)
    requires t.Valid()
    modifies t
    ensures first == old(t.isResizing) && !second && !t.isResizing
  {
    first := t.PointerUp();
    second := t.PointerCancel();
  }
}
