/**
 * The arithmetic and list rebuilds of the window hook, as functions on values:
 * the drag constraint clamp, the per-axis resize rule, the minimize animation
 * target and the list updates made by minimize and close.
 */
module WindowGeometry {
  import opened Interfaces

  const MinWidth := 200
  const MinHeight := 150

  /** Offset of the fallback minimize target above the viewport's bottom edge. */
  const DockOffset := 40

  /** The motion values x, y, width and height of one window. */
  datatype Geometry = Geometry(x: int, y: int, width: int, height: int)

  /** The drag constraints handed to the drag engine. */
  datatype Constraints = Constraints(left: int, top: int, right: int, bottom: int)

  /**
   * The parent element of a window: its bounding-rectangle size (used for
   * clamping and resizing) and its client size (used for maximize).
   */
  datatype Container = Container(rectWidth: int, rectHeight: int, clientWidth: int, clientHeight: int)

  /** A bounding rectangle as the browser reports it. */
  datatype Rect = Rect(left: int, top: int, width: int, height: int)

  /** A point in fractional pixels (only the minimize animation needs halves). */
  datatype Target = Target(x: real, y: real)

  function Max(a: int, b: int): (m: int)
    ensures a <= m && b <= m && (m == a || m == b)
  {
    if a < b then b else a
  }

  function Min(a: int, b: int): (m: int)
    ensures m <= a && m <= b && (m == a || m == b)
  {
    if a < b then a else b
  }

  /** `Math.min(hi, Math.max(lo, v))`: `lo` loses when the interval is empty. */
  function Clamp(v: int, lo: int, hi: int): (r: int)
    ensures lo <= hi ==> lo <= r <= hi
    ensures lo <= v <= hi ==> r == v
    ensures r <= hi
  {
    Min(hi, Max(lo, v))
  }

  /** The largest x and y the constraints allow for a window of this size. */
  function ConstraintsFor(g: Geometry, containerWidth: int, containerHeight: int): (c: Constraints)
    ensures c.left == 0 && c.top == 0 && 0 <= c.right && 0 <= c.bottom
    ensures g.width <= containerWidth ==> c.right == containerWidth - g.width
    ensures g.width > containerWidth ==> c.right == 0
    ensures g.height <= containerHeight ==> c.bottom == containerHeight - g.height
    ensures g.height > containerHeight ==> c.bottom == 0
  {
    Constraints(0, 0, Max(0, containerWidth - g.width), Max(0, containerHeight - g.height))
  }

  /** The window lies inside its constraints. */
  predicate WithinConstraints(g: Geometry, containerWidth: int, containerHeight: int)
  {
    var c := ConstraintsFor(g, containerWidth, containerHeight);
    c.left <= g.x <= c.right && c.top <= g.y <= c.bottom
  }

  /** Moves the window into its constraints; its size is never touched. */
  function Constrain(g: Geometry, containerWidth: int, containerHeight: int): (r: Geometry)
    ensures r.width == g.width && r.height == g.height
    ensures WithinConstraints(r, containerWidth, containerHeight)
    ensures WithinConstraints(g, containerWidth, containerHeight) ==> r == g
    ensures g.width <= containerWidth ==> r.x + r.width <= containerWidth
    ensures g.height <= containerHeight ==> r.y + r.height <= containerHeight
  {
    var c := ConstraintsFor(g, containerWidth, containerHeight);
    g.(x := Clamp(g.x, 0, c.right), y := Clamp(g.y, 0, c.bottom))
  }

  /** Clamping twice is clamping once. */
  lemma ConstrainIdempotent(g: Geometry, containerWidth: int, containerHeight: int)
    ensures Constrain(Constrain(g, containerWidth, containerHeight), containerWidth, containerHeight)
         == Constrain(g, containerWidth, containerHeight)
  {
  }

  /** One axis of a window: its origin and its extent along that axis. */
  datatype Span = Span(pos: int, len: int)

  /**
   * The resize rule for one axis. `far` is set when the dragged edge is the
   * right (bottom) one, `near` when it is the left (top) one; `far` wins when
   * both are set. A far edge moves the extent only, clamped to the minimum and
   * to the container; the container bound wins, so the extent can end up below
   * the minimum. A near edge moves origin and extent together, but only when
   * the new extent differs from the old one, and the origin is clamped
   * against the OLD extent.
   */
  function ResizeSpan(s: Span, delta: int, limit: int, minLen: int, far: bool, near: bool): (r: Span)
    ensures far ==> r.pos == s.pos && r.len <= limit - s.pos
    ensures far && minLen <= s.len + delta <= limit - s.pos ==> r.len == s.len + delta
    ensures far && s.len + delta < minLen ==> r.len == Min(minLen, limit - s.pos)
    ensures far && s.len + delta > limit - s.pos ==> r.len == limit - s.pos
    ensures far && r.len < minLen ==> r.len == limit - s.pos
    ensures !far && near && Max(minLen, s.len - delta) == s.len ==> r == s
    ensures !far && near && Max(minLen, s.len - delta) != s.len ==>
      r.len == Max(minLen, s.len - delta) && minLen <= r.len && r.len != s.len
    ensures !far && near && Max(minLen, s.len - delta) != s.len ==> r.pos == Clamp(s.pos + delta, 0, limit - s.len)
    ensures !far && near && minLen <= s.len - delta && 0 <= s.pos + delta <= limit - s.len ==> r.pos + r.len == s.pos + s.len
    ensures !far && !near ==> r == s
  {
    if far then
      Span(s.pos, Min(limit - s.pos, Max(minLen, s.len + delta)))
    else if near then
      var possible := Max(minLen, s.len - delta);
      if possible != s.len then Span(Clamp(s.pos + delta, 0, limit - s.len), possible) else s
    else
      s
  }

  /**
   * The geometry a resize step assigns before the constraint clamp runs:
   * the horizontal axis follows the letters 'e'/'w', the vertical one 's'/'n'.
   */
  function ResizeStep(g: Geometry, d: ResizeDirection, dx: int, dy: int,
                      containerWidth: int, containerHeight: int): (r: Geometry)
    ensures d in {N, S} ==> r.x == g.x && r.width == g.width
    ensures d in {E, W} ==> r.y == g.y && r.height == g.height
    ensures Includes(d, 'e') ==> r.x == g.x && r.x + r.width <= containerWidth
    ensures Includes(d, 's') ==> r.y == g.y && r.y + r.height <= containerHeight
  {
    var h := ResizeSpan(Span(g.x, g.width), dx, containerWidth, MinWidth, Includes(d, 'e'), Includes(d, 'w'));
    var v := ResizeSpan(Span(g.y, g.height), dy, containerHeight, MinHeight, Includes(d, 's'), Includes(d, 'n'));
    Geometry(h.pos, v.pos, h.len, v.len)
  }

  /** An east resize next to the container's right edge leaves the width below 200. */
  lemma EastResizeCanUndercutMinimum()
    ensures ResizeStep(Geometry(150, 0, 300, 300), E, 0, 0, 300, 600).width == 150 < MinWidth
  {
  }

  /**
   * A west resize clamps x against the old width, so a window that grows past
   * the container keeps x = 0 and its right edge leaves the container, even
   * after the constraint clamp.
   */
  lemma WestResizeCanOverflow()
    ensures var r := Constrain(ResizeStep(Geometry(0, 0, 300, 200), W, -200, 0, 400, 400), 400, 400);
            r.x == 0 && r.x + r.width == 500 > 400
  {
  }

  /**
   * Where minimize sends a window: the centre of the app's dock icon, or the
   * bottom centre of the viewport when no icon is found.
   */
  function MinimizeTarget(icon: Option<Rect>, innerWidth: int, innerHeight: int): (t: Target)
    ensures icon.Some? ==> t.x - icon.value.left as real == (icon.value.left + icon.value.width) as real - t.x
    ensures icon.Some? ==> t.y - icon.value.top as real == (icon.value.top + icon.value.height) as real - t.y
    ensures icon.None? ==> 2.0 * t.x == innerWidth as real && t.y == (innerHeight - DockOffset) as real
  {
    match icon
    case Some(r) => Target(r.left as real + r.width as real / 2.0, r.top as real + r.height as real / 2.0)
    case None => Target(innerWidth as real / 2.0, (innerHeight - DockOffset) as real)
  }

  /** The top-left point minimize animates toward: it centres the window on the target. */
  function MinimizeEndpoint(target: Target, width: int, height: int): (p: Target)
    ensures p.x + width as real / 2.0 == target.x
    ensures p.y + height as real / 2.0 == target.y
  {
    Target(target.x - width as real / 2.0, target.y - height as real / 2.0)
  }

  /** The stored window list after minimize: only the `minimized` flag of matching windows changes. */
  function MarkMinimized(ws: seq<DesktopWindow>, appId: string): (r: seq<DesktopWindow>)
    ensures |r| == |ws|
    ensures forall i :: 0 <= i < |ws| && ws[i].appId != appId ==> r[i] == ws[i]
    ensures forall i :: 0 <= i < |ws| && ws[i].appId == appId ==> r[i] == ws[i].(minimized := Some(true))
  {
    if ws == [] then []
    else
      var w := ws[0];
      [if w.appId == appId then w.(minimized := Some(true)) else w] + MarkMinimized(ws[1..], appId)
  }

  /** Every window of the app is minimized afterwards, and nothing but that flag changes. */
  lemma MarkMinimizedEffect(ws: seq<DesktopWindow>, appId: string, i: int)
    requires 0 <= i < |ws|
    ensures var w := MarkMinimized(ws, appId)[i];
            w.appId == ws[i].appId && w.position == ws[i].position && w.size == ws[i].size
            && w.zIndex == ws[i].zIndex
            && (ws[i].appId == appId ==> IsMinimized(w.minimized))
  {
  }

  /** The stored window list after close: every window of the app is gone. */
  function CloseWindow(ws: seq<DesktopWindow>, appId: string): (r: seq<DesktopWindow>)
    ensures forall w :: w in r <==> w in ws && w.appId != appId
    ensures |r| <= |ws|
  {
    if ws == [] then []
    else if ws[0].appId == appId then CloseWindow(ws[1..], appId)
    else [ws[0]] + CloseWindow(ws[1..], appId)
  }

  /** Close keeps the other windows in their original order: it distributes over concatenation. */
  lemma {:induction false} CloseWindowAppend(a: seq<DesktopWindow>, b: seq<DesktopWindow>, appId: string)
    ensures CloseWindow(a + b, appId) == CloseWindow(a, appId) + CloseWindow(b, appId)
  {
    if a == [] {
      assert a + b == b;
    } else {
      assert (a + b)[0] == a[0];
      assert (a + b)[1..] == a[1..] + b;
      CloseWindowAppend(a[1..], b, appId);
    }
  }

  /** Closing a window that is not open changes nothing. */
  lemma {:induction false} CloseAbsentWindow(ws: seq<DesktopWindow>, appId: string)
    requires forall w :: w in ws ==> w.appId != appId
    ensures CloseWindow(ws, appId) == ws
  {
    if ws != [] {
      CloseAbsentWindow(ws[1..], appId);
    }
  }

  /** Closing twice is closing once. */
  lemma CloseWindowIdempotent(ws: seq<DesktopWindow>, appId: string)
    ensures CloseWindow(CloseWindow(ws, appId), appId) == CloseWindow(ws, appId)
  {
  }
}
