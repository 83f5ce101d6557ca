/**
 * Pointer hit-testing for frameless windows: the 8-pixel resize border
 * (one cascade picks the cursor on CursorMoved, a second picks the
 * drag-resize direction on a left press) and the drag / no-drag region
 * tests.  `Rect::contains` is left uninterpreted: it is the `inside`
 * parameter.  Coordinates are reals; f32/f64 rounding is not modelled.
 */
module HitTest {
  import opened Wrappers

  datatype Point = Point(x: real, y: real)

  datatype Rect = Rect(x: real, y: real, width: real, height: real)

  const Border: real := 8.0

  datatype Direction = NorthWest | NorthEast | SouthWest | SouthEast | West | East | North | South

  datatype CursorIcon =
    | DefaultCursor
    | NwResize | NeResize | SwResize | SeResize
    | WResize | EResize | NResize | SResize

  /** The test each branch of the cascades makes, on its own. */
  predicate Zone(d: Direction, x: real, y: real, w: real, h: real) {
    match d
    case NorthWest => x < Border && y < Border
    case NorthEast => x > w - Border && y < Border
    case SouthWest => x < Border && y > h - Border
    case SouthEast => x > w - Border && y > h - Border
    case West => x < Border
    case East => x > w - Border
    case North => y < Border
    case South => y > h - Border
  }

  /** The order in which both cascades try the directions. */
  const Priority: seq<Direction> := [NorthWest, NorthEast, SouthWest, SouthEast, West, East, North, South]

  /** Within `Border` of some edge of a `w` by `h` window. */
  predicate InBorderZone(x: real, y: real, w: real, h: real) {
    x < Border || x > w - Border || y < Border || y > h - Border
  }

  /** Reference definition: the first direction of `ds` whose zone holds. */
  function FirstZone(ds: seq<Direction>, x: real, y: real, w: real, h: real): Option<Direction> {
    if ds == [] then None
    else if Zone(ds[0], x, y, w, h) then Some(ds[0])
    else FirstZone(ds[1..], x, y, w, h)
  }

  /** The cascade of the left-press handler, choosing a `ResizeDirection`. */
  function ResizeDirection(x: real, y: real, w: real, h: real): (r: Option<Direction>)
    ensures r.None? <==> !InBorderZone(x, y, w, h)
    ensures r.Some? ==> Zone(r.value, x, y, w, h)
  {
    if x < Border && y < Border then Some(NorthWest)
    else if x > w - Border && y < Border then Some(NorthEast)
    else if x < Border && y > h - Border then Some(SouthWest)
    else if x > w - Border && y > h - Border then Some(SouthEast)
    else if x < Border then Some(West)
    else if x > w - Border then Some(East)
    else if y < Border then Some(North)
    else if y > h - Border then Some(South)
    else None
  }

  /** The cascade of the CursorMoved handler, choosing a resize cursor. */
  function ResizeCursor(x: real, y: real, w: real, h: real): (r: Option<CursorIcon>)
    ensures r.None? <==> !InBorderZone(x, y, w, h)
    ensures r != Some(DefaultCursor)
  {
    if x < Border && y < Border then Some(NwResize)
    else if x > w - Border && y < Border then Some(NeResize)
    else if x < Border && y > h - Border then Some(SwResize)
    else if x > w - Border && y > h - Border then Some(SeResize)
    else if x < Border then Some(WResize)
    else if x > w - Border then Some(EResize)
    else if y < Border then Some(NResize)
    else if y > h - Border then Some(SResize)
    else None
  }

  function CursorFor(d: Direction): CursorIcon {
    match d
    case NorthWest => NwResize
    case NorthEast => NeResize
    case SouthWest => SwResize
    case SouthEast => SeResize
    case West => WResize
    case East => EResize
    case North => NResize
    case South => SResize
  }

  /** The press cascade is "first zone in priority order NW, NE, SW, SE, W, E, N, S". */
  lemma {:induction false} CascadeFollowsPriority(x: real, y: real, w: real, h: real)
    ensures ResizeDirection(x, y, w, h) == FirstZone(Priority, x, y, w, h)
  {
    var s8: seq<Direction> := [South];
    var s7 := [North] + s8;
    var s6 := [East] + s7;
    var s5 := [West] + s6;
    var s4 := [SouthEast] + s5;
    var s3 := [SouthWest] + s4;
    var s2 := [NorthEast] + s3;
    var s1 := [NorthWest] + s2;
    assert s1 == Priority;
    FirstZoneStep(South, [], x, y, w, h);
    assert [South] + [] == s8;
    FirstZoneStep(North, s8, x, y, w, h);
    FirstZoneStep(East, s7, x, y, w, h);
    FirstZoneStep(West, s6, x, y, w, h);
    FirstZoneStep(SouthEast, s5, x, y, w, h);
    FirstZoneStep(SouthWest, s4, x, y, w, h);
    FirstZoneStep(NorthEast, s3, x, y, w, h);
    FirstZoneStep(NorthWest, s2, x, y, w, h);
  }

  /** One step of `FirstZone`: try the head, else the rest. */
  lemma FirstZoneStep(d: Direction, rest: seq<Direction>, x: real, y: real, w: real, h: real)
    ensures FirstZone([d] + rest, x, y, w, h) == if Zone(d, x, y, w, h) then Some(d) else FirstZone(rest, x, y, w, h)
  {
    assert ([d] + rest)[1..] == rest;
  }

  /** For every point the cursor cascade shows the cursor of the direction a press would resize in. */
  lemma CursorAgreesWithDirection(x: real, y: real, w: real, h: real)
    ensures var d := ResizeDirection(x, y, w, h);
            ResizeCursor(x, y, w, h) == if d.Some? then Some(CursorFor(d.value)) else None
  {
  }

  /** Some region of `regions` contains `p`. */
  predicate AnyContains(regions: seq<Rect>, p: Point, inside: (Rect, Point) -> bool) {
    exists i :: 0 <= i < |regions| && inside(regions[i], p)
  }

  /** The `for no_drag_region in ... { if contains { hit = true; break } }` loop. */
  method HitsAny(regions: seq<Rect>, p: Point, inside: (Rect, Point) -> bool) returns (hit: bool)
    ensures hit <==> AnyContains(regions, p, inside)
  {
    hit := false;
    var i := 0;
    while i < |regions|
      invariant 0 <= i <= |regions|
      invariant !hit
      invariant forall j :: 0 <= j < i ==> !inside(regions[j], p)
    {
      if inside(regions[i], p) {
        hit := true;
        break;
      }
      i := i + 1;
    }
  }

  /**
   * The drag-region loop of the press handler: a drag region that contains
   * the point counts only if no no-drag region contains it too.
   */
  method DragHit(drag: seq<Rect>, noDrag: seq<Rect>, p: Point, inside: (Rect, Point) -> bool)
    returns (hit: bool)
    ensures hit <==> AnyContains(drag, p, inside) && !AnyContains(noDrag, p, inside)
  {
    hit := false;
    var i := 0;
    while i < |drag|
      invariant 0 <= i <= |drag|
      invariant !hit
      invariant (exists j :: 0 <= j < i && inside(drag[j], p)) ==> AnyContains(noDrag, p, inside)
    {
      if inside(drag[i], p) {
        var hitNoDrag := HitsAny(noDrag, p, inside);
        if !hitNoDrag {
          hit := true;
          break;
        }
      }
      i := i + 1;
    }
  }
}
