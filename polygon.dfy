/** The point-list shape (`Polygon`). Its authoritative geometry is the
    ordered vertex list `points`; `bounds` folds over it to derive the box. */
module Polygons {
  import opened Geometry

  /** Starting value of the running minima in `bounds`. */
  const MIN_START: real := 10000000.0
  /** Starting value of the running maxima in `bounds`. */
  const MAX_START: real := 0.0

  datatype Axis = Horizontal | Vertical

  function Coord(p: Point, axis: Axis): real {
    if axis == Horizontal then p.x else p.y
  }

  /** The running minimum `bounds` keeps on one axis after visiting `pts` in order:
      it starts at `MIN_START` and a vertex lowers it when strictly smaller. */
  function Lowest(pts: seq<Point>, axis: Axis): real {
    if |pts| == 0 then MIN_START
    else
      var m := Lowest(pts[..|pts| - 1], axis);
      var c := Coord(pts[|pts| - 1], axis);
      if c < m then c else m
  }

  /** The running maximum, starting at `MAX_START`. */
  function Highest(pts: seq<Point>, axis: Axis): real {
    if |pts| == 0 then MAX_START
    else
      var m := Highest(pts[..|pts| - 1], axis);
      var c := Coord(pts[|pts| - 1], axis);
      if c > m then c else m
  }

  /** Every coordinate lies in the range the starting values of `bounds` bracket. */
  predicate InRange(pts: seq<Point>) {
    forall k :: 0 <= k < |pts| ==>
      MAX_START <= pts[k].x <= MIN_START && MAX_START <= pts[k].y <= MIN_START
  }

  /** The position `bounds` writes for the vertex list `pts`; only `radius`
      is kept from before. */
  function Boxed(pts: seq<Point>, radius: real): (r: Position)
    ensures Derived(r) && r.radius == radius
    ensures r.left == Lowest(pts, Horizontal) && r.top == Lowest(pts, Vertical)
    ensures r.right == Highest(pts, Horizontal) && r.bottom == Highest(pts, Vertical)
  {
    var minX, maxX := Lowest(pts, Horizontal), Highest(pts, Horizontal);
    var minY, maxY := Lowest(pts, Vertical), Highest(pts, Vertical);
    Position(minX, minY, minY, minX, maxX, maxY, maxX - minX, maxY - minY,
             Point(minX + (maxX - minX) / 2.0, minY + (maxY - minY) / 2.0), radius)
  }

  /** The box depends on the vertices alone, so a second `bounds` changes nothing. */
  lemma BoundsIdempotent(pts: seq<Point>, radius: real)
    ensures Boxed(pts, Boxed(pts, radius).radius) == Boxed(pts, radius)
  {
  }

  /** An empty vertex list leaves the sentinel box. */
  lemma BoundsOfEmpty(radius: real)
    ensures Boxed([], radius).left == 10000000.0 && Boxed([], radius).top == 10000000.0
    ensures Boxed([], radius).right == 0.0 && Boxed([], radius).bottom == 0.0
    ensures Boxed([], radius).width == -10000000.0 && Boxed([], radius).height == -10000000.0
  {
  }

  /** For a non-empty list whose coordinates do not exceed `MIN_START`, the
      running minimum is the least coordinate: no larger than any, equal to one. */
  lemma {:induction false} LowestIsLeast(pts: seq<Point>, axis: Axis)
    requires |pts| > 0
    requires forall k :: 0 <= k < |pts| ==> Coord(pts[k], axis) <= MIN_START
    ensures forall k :: 0 <= k < |pts| ==> Lowest(pts, axis) <= Coord(pts[k], axis)
    ensures exists k :: 0 <= k < |pts| && Lowest(pts, axis) == Coord(pts[k], axis)
  {
    var n := |pts| - 1;
    var init := pts[..n];
    if n == 0 {
      assert Lowest(pts, axis) == Coord(pts[0], axis);
    } else {
      LowestIsLeast(init, axis);
      var j :| 0 <= j < n && Lowest(init, axis) == Coord(init[j], axis);
      if Coord(pts[n], axis) < Lowest(init, axis) {
        assert Lowest(pts, axis) == Coord(pts[n], axis);
      } else {
        assert Lowest(pts, axis) == Coord(pts[j], axis);
      }
      forall k | 0 <= k < |pts| ensures Lowest(pts, axis) <= Coord(pts[k], axis) {
        if k < n { assert init[k] == pts[k]; }
      }
    }
  }

  /** For a non-empty list whose coordinates are not below `MAX_START`, the
      running maximum is the greatest coordinate. */
  lemma {:induction false} HighestIsGreatest(pts: seq<Point>, axis: Axis)
    requires |pts| > 0
    requires forall k :: 0 <= k < |pts| ==> Coord(pts[k], axis) >= MAX_START
    ensures forall k :: 0 <= k < |pts| ==> Highest(pts, axis) >= Coord(pts[k], axis)
    ensures exists k :: 0 <= k < |pts| && Highest(pts, axis) == Coord(pts[k], axis)
  {
    var n := |pts| - 1;
    var init := pts[..n];
    if n == 0 {
      assert Highest(pts, axis) == Coord(pts[0], axis);
    } else {
      HighestIsGreatest(init, axis);
      var j :| 0 <= j < n && Highest(init, axis) == Coord(init[j], axis);
      if Coord(pts[n], axis) > Highest(init, axis) {
        assert Highest(pts, axis) == Coord(pts[n], axis);
      } else {
        assert Highest(pts, axis) == Coord(pts[j], axis);
      }
      forall k | 0 <= k < |pts| ensures Highest(pts, axis) >= Coord(pts[k], axis) {
        if k < n { assert init[k] == pts[k]; }
      }
    }
  }

  /** When every coordinate on `axis` is negative, no vertex raises the
      running maximum above its starting value 0, so `bounds` puts the right
      (or bottom) edge at 0 whatever the vertices are. */
  lemma {:induction false} StartingMaximumSurvives(pts: seq<Point>, axis: Axis)
    requires forall k :: 0 <= k < |pts| ==> Coord(pts[k], axis) < MAX_START
    ensures Highest(pts, axis) == MAX_START
  {
    if |pts| > 0 {
      StartingMaximumSurvives(pts[..|pts| - 1], axis);
    }
  }

  /** Likewise, when every coordinate on `axis` exceeds 10000000 the left (or
      top) edge stays at 10000000. */
  lemma {:induction false} StartingMinimumSurvives(pts: seq<Point>, axis: Axis)
    requires forall k :: 0 <= k < |pts| ==> Coord(pts[k], axis) > MIN_START
    ensures Lowest(pts, axis) == MIN_START
  {
    if |pts| > 0 {
      StartingMinimumSurvives(pts[..|pts| - 1], axis);
    }
  }

  /** In range, `bounds` gives the true bounding box: left and top are the least
      x and y, right and bottom the greatest, and the size is not negative. */
  lemma BoundsInRange(pts: seq<Point>, radius: real)
    requires |pts| > 0 && InRange(pts)
    ensures forall k :: 0 <= k < |pts| ==>
      Boxed(pts, radius).left <= pts[k].x <= Boxed(pts, radius).right
      && Boxed(pts, radius).top <= pts[k].y <= Boxed(pts, radius).bottom
    ensures exists k :: 0 <= k < |pts| && pts[k].x == Boxed(pts, radius).left
    ensures exists k :: 0 <= k < |pts| && pts[k].x == Boxed(pts, radius).right
    ensures exists k :: 0 <= k < |pts| && pts[k].y == Boxed(pts, radius).top
    ensures exists k :: 0 <= k < |pts| && pts[k].y == Boxed(pts, radius).bottom
    ensures Boxed(pts, radius).width >= 0.0 && Boxed(pts, radius).height >= 0.0
  {
    LowestIsLeast(pts, Horizontal);
    LowestIsLeast(pts, Vertical);
    HighestIsGreatest(pts, Horizontal);
    HighestIsGreatest(pts, Vertical);
  }

  /** The box `bounds` derives for a polygon lying at negative coordinates:
      the running maxima start at 0 and no vertex raises them, so the right and
      bottom edges stay at 0, beyond every vertex. */
  lemma BoundsAtNegativeCoordinates()
    ensures Boxed([Point(-5.0, -3.0), Point(-1.0, -2.0)], 0.0).right == 0.0
    ensures Boxed([Point(-5.0, -3.0), Point(-1.0, -2.0)], 0.0).bottom == 0.0
    ensures Boxed([Point(-5.0, -3.0), Point(-1.0, -2.0)], 0.0).width == 5.0
  {
    var pts := [Point(-5.0, -3.0), Point(-1.0, -2.0)];
    assert pts[..1] == [pts[0]] && pts[..1][..0] == [];
    assert Highest(pts[..1], Horizontal) == 0.0 && Highest(pts[..1], Vertical) == 0.0;
    assert Lowest(pts[..1], Horizontal) == -5.0;
  }

  /** `a - b`, componentwise. */
  function Offset(a: Point, b: Point): Point {
    Point(a.x - b.x, a.y - b.y)
  }

  /** Every vertex moved back by `d`. */
  function Translated(pts: seq<Point>, d: Point): seq<Point> {
    seq(|pts|, k requires 0 <= k < |pts| => Offset(pts[k], d))
  }

  /** Translation keeps every vertex's offset from every other vertex. */
  lemma TranslationKeepsOffsets(pts: seq<Point>, d: Point)
    ensures forall i, j :: 0 <= i < |pts| && 0 <= j < |pts| ==>
      Offset(Translated(pts, d)[i], Translated(pts, d)[j]) == Offset(pts[i], pts[j])
  {
  }

  /** When a list and its translate are both in range, the running extremes
      move by exactly the translation. */
  lemma ExtremesShift(pts: seq<Point>, d: Point, axis: Axis)
    requires |pts| > 0 && InRange(pts) && InRange(Translated(pts, d))
    ensures Lowest(Translated(pts, d), axis) == Lowest(pts, axis) - Coord(d, axis)
    ensures Highest(Translated(pts, d), axis) == Highest(pts, axis) - Coord(d, axis)
  {
    var t := Translated(pts, d);
    LowestIsLeast(pts, axis);
    LowestIsLeast(t, axis);
    HighestIsGreatest(pts, axis);
    HighestIsGreatest(t, axis);
    var i :| 0 <= i < |pts| && Lowest(pts, axis) == Coord(pts[i], axis);
    var j :| 0 <= j < |t| && Lowest(t, axis) == Coord(t[j], axis);
    assert Lowest(t, axis) <= Coord(t[i], axis);
    assert Lowest(pts, axis) <= Coord(pts[j], axis);
    var i' :| 0 <= i' < |pts| && Highest(pts, axis) == Coord(pts[i'], axis);
    var j' :| 0 <= j' < |t| && Highest(t, axis) == Coord(t[j'], axis);
    assert Highest(t, axis) >= Coord(t[i'], axis);
    assert Highest(pts, axis) >= Coord(pts[j'], axis);
  }

  /** `move(point)` translates by the old centre minus `point`. Starting from
      fresh bounds and staying in range, the new centre is `point`. */
  lemma MoveCentresOnPoint(pts: seq<Point>, radius: real, point: Point)
    requires |pts| > 0 && InRange(pts)
    requires InRange(Translated(pts, Offset(Boxed(pts, radius).center, point)))
    ensures Boxed(Translated(pts, Offset(Boxed(pts, radius).center, point)), radius).center == point
  {
    var d := Offset(Boxed(pts, radius).center, point);
    ExtremesShift(pts, d, Horizontal);
    ExtremesShift(pts, d, Vertical);
  }

  /** The index of the first vertex equal to `point`, if any. */
  function FirstIndex(pts: seq<Point>, point: Point): (r: Option<nat>)
    ensures r.None? <==> point !in pts
    ensures r.Some? ==>
      (r.value < |pts| && pts[r.value] == point && forall j :: 0 <= j < r.value ==> pts[j] != point)
  {
    if |pts| == 0 then None
    else if pts[0] == point then Some(0)
    else match FirstIndex(pts[1..], point)
      case None => None
      case Some(i) => Some(i + 1)
  }

  /** The vertex list after `resize(point, current)`: the first vertex equal to
      `point` becomes `current`; when that is an end of a closed path (more
      than one vertex, first equal to last) both ends become `current`. */
  function Reshaped(pts: seq<Point>, point: Point, current: Point): (r: seq<Point>)
    ensures |r| == |pts|
  {
    match FirstIndex(pts, point)
    case None => pts
    case Some(i) =>
      var last := |pts| - 1;
      if (i == 0 || i == last) && |pts| > 1 && pts[0] == pts[last]
      then pts[0 := current][last := current]
      else pts[i := current]
  }

  /** No vertex equals the grabbed point: nothing moves. */
  lemma ReshapeNoMatch(pts: seq<Point>, point: Point, current: Point)
    requires point !in pts
    ensures Reshaped(pts, point, current) == pts
  {
  }

  /** Only the first matching vertex moves, unless it closes the path. Later
      copies of the same point stay where they were. */
  lemma ReshapeFirstOnly(pts: seq<Point>, i: nat, current: Point)
    requires i < |pts| && forall j :: 0 <= j < i ==> pts[j] != pts[i]
    requires !(i == 0 && |pts| > 1 && pts[0] == pts[|pts| - 1])
    ensures Reshaped(pts, pts[i], current) == pts[i := current]
  {
  }

  /** Grabbing the shared end of a closed path moves both ends together. */
  lemma ReshapeClosedPath(pts: seq<Point>, current: Point)
    requires |pts| > 1 && pts[0] == pts[|pts| - 1]
    ensures Reshaped(pts, pts[0], current) == pts[0 := current][|pts| - 1 := current]
  {
  }

  class Polygon {
    var points: seq<Point>
    var position: Position
    var selected: bool

    /** The box is fresh: it is what `bounds` derives from the vertices. */
    ghost predicate Valid()
      reads this
    {
      position == Boxed(points, position.radius)
    }

    /** An imported polygon (`new Polygon(record, true)`): the record's
        vertices and position are copied and then `bounds` derives the box. */
    constructor (points: seq<Point>, position: Position)
      ensures Valid() && !selected
      ensures this.points == points && this.position == Boxed(points, position.radius)
    {
      this.points := points;
      this.position := position;
      selected := false;
      new;
      Bounds();
    }

    method Bounds()
      modifies this
      ensures points == old(points) && selected == old(selected)
      ensures position == Boxed(points, old(position.radius))
      ensures Valid()
    {
      var minX, maxX, minY, maxY := MIN_START, MAX_START, MIN_START, MAX_START;
      var i := 0;
      while i < |points|
        invariant 0 <= i <= |points|
        invariant minX == Lowest(points[..i], Horizontal) && maxX == Highest(points[..i], Horizontal)
        invariant minY == Lowest(points[..i], Vertical) && maxY == Highest(points[..i], Vertical)
      {
        var point := points[i];
        if point.x < minX {
          minX := point.x;
        }
        if point.x > maxX {
          maxX := point.x;
        }
        if point.y < minY {
          minY := point.y;
        }
        if point.y > maxY {
          maxY := point.y;
        }
        assert points[..i + 1][..i] == points[..i];
        i := i + 1;
      }
      assert points[..i] == points;
      position := position.(x := minX);
      position := position.(y := minY);
      position := position.(top := minY);
      position := position.(left := minX);
      position := position.(right := maxX);
      position := position.(width := maxX - minX);
      position := position.(height := maxY - minY);
      position := position.(bottom := maxY);
      position := position.(center := Point(position.x + position.width / 2.0,
                                            position.y + position.height / 2.0));
    }

    /** Translates every vertex by `point` minus the stored centre, then
        recomputes the box. */
    method Move(point: Point)
      modifies this
      ensures points == Translated(old(points), Offset(old(position.center), point))
      ensures position == Boxed(points, old(position.radius)) && selected == old(selected)
      ensures Valid()
      ensures old(Valid()) && |old(points)| > 0 && InRange(old(points)) && InRange(points)
        ==> position.center == point
    {
      ghost var start := points;
      var difference := Offset(position.center, point);
      var i := 0;
      while i < |points|
        invariant 0 <= i <= |points| == |old(points)|
        invariant forall k :: 0 <= k < i ==> points[k] == Offset(old(points)[k], difference)
        invariant forall k :: i <= k < |points| ==> points[k] == old(points)[k]
        invariant position == old(position) && selected == old(selected)
      {
        points := points[i := Point(points[i].x - difference.x, points[i].y - difference.y)];
        i := i + 1;
      }
      Bounds();
      if old(Valid()) && |start| > 0 && InRange(start) && InRange(points) {
        MoveCentresOnPoint(start, old(position.radius), point);
      }
    }

    /** Handle search: a copy of the first vertex, in list order, within
        `radius` of `point` on both axes, or `None` (the `false` that `near` returns).
        A missing radius counts as 0. */
    method Near(point: Point, radius: Option<real>) returns (r: Option<Point>)
      ensures r.None? <==> forall k :: 0 <= k < |points| ==> !Within(points[k], point, RadiusOrZero(radius))
      ensures r.Some? ==>
        exists k :: (0 <= k < |points| && r.value == points[k]
          && Within(points[k], point, RadiusOrZero(radius))
          && forall j :: 0 <= j < k ==> !Within(points[j], point, RadiusOrZero(radius)))
    {
      var rad := RadiusOrZero(radius);
      for i := 0 to |points|
        invariant forall j :: 0 <= j < i ==> !Within(points[j], point, rad)
      {
        if points[i].x - rad <= point.x && points[i].x + rad >= point.x
          && points[i].y - rad <= point.y && points[i].y + rad >= point.y
        {
          return Some(Point(points[i].x, points[i].y));
        }
      }
      return None;
    }

    /** Moves the first vertex equal to `point` (or both ends of a closed
        path) to `current`, then recomputes the box. The width and height
        clamps before `bounds` are overwritten by it. */
    method Resize(point: Point, current: Point)
      modifies this
      ensures points == Reshaped(old(points), point, current)
      ensures position == Boxed(points, old(position.radius)) && selected == old(selected)
      ensures Valid()
    {
      var n := |points|;
      var i := 0;
      while i < n
        invariant 0 <= i <= n == |points|
        invariant points == old(points) && position == old(position)
        invariant forall j :: 0 <= j < i ==> points[j] != point
      {
        if points[i] == point {
          if (i == 0 || i == n - 1) && n > 1 {
            if points[0] == points[n - 1] {
              points := points[0 := current];
              points := points[n - 1 := current];
              break;
            }
          }
          points := points[i := current];
          break;
        }
        i := i + 1;
      }
      if position.width < 0.0 {
        position := position.(width := 0.0);
      }
      if position.height < 0.0 {
        position := position.(height := 0.0);
      }
      Bounds();
    }
  }
}
