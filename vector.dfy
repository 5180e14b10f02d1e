/** The axis-aligned box shape (`Vector`, an image placed in a box). Its
    authoritative geometry is `x`, `y`, `width` and `height`; `bounds` derives
    the rest. The read-only queries `hit` and `near` depend on the position
    alone and are functions of it. */
module Vectors {
  import opened Geometry

  /** The box that `bounds` derives from `x`, `y`, `width` and `height`. */
  function Bounded(p: Position): (r: Position)
    ensures Derived(r)
    ensures r.x == p.x && r.y == p.y && r.width == p.width && r.height == p.height
    ensures r.radius == p.radius
  {
    p.(top := p.y, left := p.x, right := p.x + p.width, bottom := p.y + p.height,
       center := Point(p.x + p.width / 2.0, p.y + p.height / 2.0))
  }

  /** Calling `bounds` a second time changes nothing. */
  lemma BoundsIdempotent(p: Position)
    ensures Bounded(Bounded(p)) == Bounded(p)
  {
  }

  /** A box is left alone by `bounds` exactly when its derived fields are already fresh. */
  lemma BoundsFixesExactlyDerived(p: Position)
    ensures Bounded(p) == p <==> Derived(p)
  {
  }

  /** Point pick. A supplied radius is overwritten with 0 before use, so the
      test is closed-box containment whatever `radius` is. */
  function Hit(p: Position, point: Point, radius: real): (r: bool)
    ensures r <==> p.x <= point.x <= p.x + p.width && p.y <= point.y <= p.y + p.height
  {
    var margin := 0.0;
    var hit := true;
    var hit := if point.x < p.x - margin then false else hit;
    var hit := if point.x > p.x + p.width + margin then false else hit;
    var hit := if point.y < p.y - margin then false else hit;
    if point.y > p.y + p.height + margin then false else hit
  }

  /** The radius argument makes no difference to `hit`. */
  lemma HitIgnoresRadius(p: Position, point: Point, r1: real, r2: real)
    ensures Hit(p, point, r1) == Hit(p, point, r2)
  {
  }

  /** The four resize handles in the order `near` checks them: top-left,
      top-right, bottom-left, bottom-right. */
  function Corners(p: Position): seq<Point> {
    [Point(p.x, p.y), Point(p.x + p.width, p.y),
     Point(p.x, p.y + p.height), Point(p.x + p.width, p.y + p.height)]
  }

  /** Handle search: the first corner, in `Corners` order, within `radius` of
      `point` on both axes, or `None` (the `false` that `near` returns) when there is none.
      A missing radius counts as 0. */
  function Near(p: Position, point: Point, radius: Option<real>): (r: Option<Point>)
    ensures r.None? <==> forall c :: c in Corners(p) ==> !Within(c, point, RadiusOrZero(radius))
    ensures r.Some? ==>
      exists k :: (0 <= k < 4 && r.value == Corners(p)[k]
        && Within(Corners(p)[k], point, RadiusOrZero(radius))
        && forall j :: 0 <= j < k ==> !Within(Corners(p)[j], point, RadiusOrZero(radius)))
  {
    var rad := RadiusOrZero(radius);
    var cs := Corners(p);
    assert cs[0] in cs && cs[1] in cs && cs[2] in cs && cs[3] in cs;
    if p.x - rad <= point.x && p.x + rad >= point.x && p.y - rad <= point.y && p.y + rad >= point.y then
      Some(Point(p.x, p.y))
    else if p.x + p.width - rad <= point.x && p.x + p.width + rad >= point.x
      && p.y - rad <= point.y && p.y + rad >= point.y then
      Some(Point(p.x + p.width, p.y))
    else if p.x - rad <= point.x && p.x + rad >= point.x
      && p.y + p.height - rad <= point.y && p.y + p.height + rad >= point.y then
      Some(Point(p.x, p.y + p.height))
    else if p.x + p.width - rad <= point.x && p.x + p.width + rad >= point.x
      && p.y + p.height - rad <= point.y && p.y + p.height + rad >= point.y then
      Some(Point(p.x + p.width, p.y + p.height))
    else
      None
  }

  /** Leaving the radius out is the same as passing 0. */
  lemma NearDefaultsRadius(p: Position, point: Point)
    ensures Near(p, point, None) == Near(p, point, Some(0.0))
  {
  }

  /** The position after `resize(point, current)`: four corner cases applied
      one after the other, each seeing the fields the previous ones wrote.
      Only `x`, `y`, `width` and `height` are written. */
  function Resized(p: Position, point: Point, current: Point): (r: Position)
    ensures r.(x := p.x, y := p.y, width := p.width, height := p.height) == p
  {
    var dx, dy := point.x - current.x, point.y - current.y;
    var p1 := if p.x == point.x && p.y == point.y
      then p.(x := p.x - dx, y := p.y - dy, width := p.width + dx, height := p.height + dy)
      else p;
    var p2 := if p1.x + p1.width == point.x && p1.y == point.y
      then p1.(y := p1.y - dy, width := p1.width - dx, height := p1.height + dy)
      else p1;
    var p3 := if p2.x == point.x && p2.y + p2.height == point.y
      then p2.(x := p2.x - dx, width := p2.width + dx, height := p2.height - dy)
      else p2;
    if p3.x + p3.width == point.x && p3.y + p3.height == point.y
    then p3.(width := p3.width - dx, height := p3.height - dy)
    else p3
  }

  /** Dragging corner `k` of a box with non-zero width and height moves that
      corner to `current` and keeps the diagonally opposite corner `3 - k` fixed. */
  lemma ResizeMovesCorner(p: Position, k: nat, current: Point)
    requires k < 4 && p.width != 0.0 && p.height != 0.0
    ensures Corners(Resized(p, Corners(p)[k], current))[k] == current
    ensures Corners(Resized(p, Corners(p)[k], current))[3 - k] == Corners(p)[3 - k]
  {
  }

  /** A grabbed point that is none of the four corners leaves the box as it was. */
  lemma ResizeElsewhereUnchanged(p: Position, point: Point, current: Point)
    requires forall k :: 0 <= k < 4 ==> Corners(p)[k] != point
    ensures Resized(p, point, current) == p
  {
    assert Corners(p)[0] != point && Corners(p)[1] != point;
    assert Corners(p)[2] != point && Corners(p)[3] != point;
  }

  /** Width and height are not clamped: dragging the top-left corner past the
      bottom-right one leaves a negative width and height. */
  lemma ResizeCanInvert(p: Position, current: Point)
    requires p.width > 0.0 && p.height > 0.0
    requires current.x > p.x + p.width && current.y > p.y + p.height
    ensures Resized(p, Corners(p)[0], current).width < 0.0
    ensures Resized(p, Corners(p)[0], current).height < 0.0
  {
  }

  class Vector {
    var position: Position
    var selected: bool

    /** An imported vector (`new Vector(record, true)`): the record's
        position is copied and then `bounds` derives the box. */
    constructor (position: Position)
      ensures this.position == Bounded(position) && !selected
    {
      this.position := position;
      selected := false;
      new;
      Bounds();
    }

    method Bounds()
      modifies this
      ensures position == Bounded(old(position)) && selected == old(selected)
    {
      position := position.(top := position.y);
      position := position.(left := position.x);
      position := position.(right := position.left + position.width);
      position := position.(bottom := position.top + position.height);
      position := position.(center := Point(position.x + position.width / 2.0,
                                            position.y + position.height / 2.0));
    }

    /** Re-centres the box on `point`, keeping its size. The new position is
        fully determined: derived fields fresh, centre at `point`. */
    method Move(point: Point)
      modifies this
      ensures Derived(position) && position.center == point
      ensures position.width == old(position.width) && position.height == old(position.height)
      ensures position.radius == old(position.radius) && selected == old(selected)
    {
      position := position.(x := point.x - position.width / 2.0);
      position := position.(y := point.y - position.height / 2.0);
      position := position.(top := position.y);
      position := position.(left := position.x);
      position := position.(right := point.x + position.width / 2.0);
      position := position.(center := point);
      position := position.(bottom := point.y + position.height / 2.0);
    }

    method Resize(point: Point, current: Point)
      modifies this
      ensures position == Resized(old(position), point, current) && selected == old(selected)
    {
      if position.x == point.x && position.y == point.y {
        position := position.(x := position.x - (point.x - current.x));
        position := position.(y := position.y - (point.y - current.y));
        position := position.(width := position.width + (point.x - current.x));
        position := position.(height := position.height + (point.y - current.y));
      }
      if position.x + position.width == point.x && position.y == point.y {
        position := position.(y := position.y - (point.y - current.y));
        position := position.(width := position.width - (point.x - current.x));
        position := position.(height := position.height + (point.y - current.y));
      }
      if position.x == point.x && position.y + position.height == point.y {
        position := position.(x := position.x - (point.x - current.x));
        position := position.(width := position.width + (point.x - current.x));
        position := position.(height := position.height - (point.y - current.y));
      }
      if position.x + position.width == point.x && position.y + position.height == point.y {
        position := position.(width := position.width - (point.x - current.x));
        position := position.(height := position.height - (point.y - current.y));
      }
    }
  }
}
