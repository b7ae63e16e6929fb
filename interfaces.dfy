/**
 * Value types shared by the desktop components: the dock entry, the stored
 * window record and the eight resize directions.
 */
module Interfaces {

  datatype Option<T> = None | Some(value: T)

  /** An application shown in the dock or sitting in the trash; `id` is its identity. */
  datatype DesktopApp = DesktopApp(id: string, name: string)

  datatype Point = Point(x: int, y: int)

  datatype Size = Size(width: int, height: int)

  /** A window record as the desktop store keeps it; `minimized` is an optional flag. */
  datatype DesktopWindow = DesktopWindow(
    appId: string,
    position: Point,
    size: Size,
    zIndex: int,
    minimized: Option<bool>)

  /** `minimized || false`: an absent flag reads as "not minimized". */
  predicate IsMinimized(w: Option<bool>)
  {
    w == Some(true)
  }

  datatype ResizeDirection = N | S | E | W | NE | NW | SE | SW

  /** The string value of a direction, as the components pass it around. */
  function Letters(d: ResizeDirection): (s: string)
    ensures 1 <= |s| <= 2
  {
    match d
    case N => "n"
    case S => "s"
    case E => "e"
    case W => "w"
    case NE => "ne"
    case NW => "nw"
    case SE => "se"
    case SW => "sw"
  }

  /** `direction.includes(c)` for a one-letter `c`. */
  predicate Includes(d: ResizeDirection, c: char)
  {
    c in Letters(d)
  }

  /**
   * Every direction names at most one letter per axis, and a direction names
   * an axis exactly when it is not a pure vertical (resp. horizontal) one.
   */
  lemma LettersPerAxis(d: ResizeDirection)
    ensures !(Includes(d, 'e') && Includes(d, 'w'))
    ensures !(Includes(d, 'n') && Includes(d, 's'))
    ensures (Includes(d, 'e') || Includes(d, 'w')) <==> d !in {N, S}
    ensures (Includes(d, 'n') || Includes(d, 's')) <==> d !in {E, W}
  {
  }
}
