/** The scene store and the selection logic of a canvas project: the ordered
    list of root entries (`data`), the `editing` flag, marquee and point
    selection, import of plain records, and the button radius rule of the
    renderer. */
module Projects {
  import opened Geometry
  import Vectors
  import Polygons

  /** The ten shape classes a record's `type` can name. */
  datatype ShapeType = Arc | Line | Text | Chart | Group | Circle | Button | Vector | Polygon | Rectangle

  /** The shape class a `type` string names, or `None` for an unknown one. */
  function TypeOf(tag: string): (t: Option<ShapeType>)
    ensures t.None? <==>
      tag !in ["arc", "line", "text", "chart", "group", "circle", "button", "vector", "polygon", "rectangle"]
  {
    if tag == "arc" then Some(Arc)
    else if tag == "line" then Some(Line)
    else if tag == "text" then Some(Text)
    else if tag == "chart" then Some(Chart)
    else if tag == "group" then Some(Group)
    else if tag == "circle" then Some(Circle)
    else if tag == "button" then Some(Button)
    else if tag == "vector" then Some(Vector)
    else if tag == "polygon" then Some(Polygon)
    else if tag == "rectangle" then Some(Rectangle)
    else None
  }

  /** A plain record as `export` writes it and `import` reads it. */
  datatype Record = Record(tag: string, position: Position, points: seq<Point>,
                           children: seq<Record>, selected: bool)

  /** A child of an imported group: a converted shape, or the record left as it was. */
  datatype Node = Converted(shape: ShapeType, source: Record, children: seq<Node>) | Unconverted(source: Record)

  /** What an `Entry` stands for: a shape of one of the eight classes this
      model treats as opaque (with a group's children), or a record pushed
      into the store unconverted. */
  datatype Kind = Shape(shape: ShapeType, children: seq<Node>) | Raw(record: Record)

  /** A store entry that is neither a `Vector` nor a `Polygon`. Its
      `position` and `selected` fields are authoritative: for a raw record,
      `kind.record` keeps the record as it was pushed, and `deselect`, `select`
      and `hit` change only the fields. */
  class Entry {
    const kind: Kind
    var position: Position
    var selected: bool

    constructor (kind: Kind, position: Position, selected: bool)
      ensures this.kind == kind && this.position == position && this.selected == selected
    {
      this.kind := kind;
      this.position := position;
      this.selected := selected;
    }
  }

  /** A reference held by the store. */
  datatype Item = VectorItem(vector: Vectors.Vector) | PolygonItem(polygon: Polygons.Polygon) | EntryItem(entry: Entry)

  function Obj(it: Item): object {
    match it
    case VectorItem(v) => v
    case PolygonItem(p) => p
    case EntryItem(e) => e
  }

  datatype Form = VectorForm | PolygonForm(points: seq<Point>) | EntryForm(kind: Kind)

  /** The current state of one entry, as a value. */
  datatype View = View(form: Form, position: Position, selected: bool)

  function ViewOf(it: Item): View
    reads Obj(it)
  {
    match it
    case VectorItem(v) => View(VectorForm, v.position, v.selected)
    case PolygonItem(p) => View(PolygonForm(p.points), p.position, p.selected)
    case EntryItem(e) => View(EntryForm(e.kind), e.position, e.selected)
  }

  /** A record pushed unconverted: it has no `hit` method. */
  predicate IsRaw(v: View) {
    v.form.EntryForm? && v.form.kind.Raw?
  }

  /** The `hit` of the shape classes whose hit test is a call into the
      drawing surface (a polygon's point-in-path test) or is not part of this
      model (arc, line, text, chart, group, circle, button, rectangle). */
  type ForeignHit = (View, Point, real) -> bool

  /** The entry's own `hit(point, radius)`. A raw record has none; callers
      rule that case out first. */
  predicate Struck(v: View, point: Point, radius: real, foreign: ForeignHit) {
    match v.form
    case VectorForm => Vectors.Hit(v.position, point, radius)
    case PolygonForm(_) => foreign(v, point, radius)
    case EntryForm(kind) => kind.Shape? && foreign(v, point, radius)
  }

  /** Marquee test: the box lies fully inside the marquee. */
  predicate Encloses(marquee: Position, box: Position) {
    && marquee.top <= box.top
    && marquee.left <= box.left
    && marquee.right >= box.right
    && marquee.bottom >= box.bottom
  }

  /** The outcome of filtering the store by `hit` and sorting by width. */
  datatype Pick = NoHit | Picked(index: nat) | TypeError

  /** `data.filter(item => item.hit(point, radius))` followed by the sort on
      width: the entry that comes first. The comparator answers -1 on equal
      widths, so nothing is promised about which of several equally narrow
      hits comes first; this scan keeps the earliest. Reaching a raw record,
      whose `hit` is not a function, throws. */
  method Narrowest(items: seq<Item>, point: Point, radius: real, foreign: ForeignHit) returns (pick: Pick)
    ensures pick.TypeError? <==> exists i :: 0 <= i < |items| && IsRaw(ViewOf(items[i]))
    ensures pick.NoHit? <==>
      (forall i :: 0 <= i < |items| ==> !IsRaw(ViewOf(items[i])) && !Struck(ViewOf(items[i]), point, radius, foreign))
    ensures pick.Picked? ==>
      && pick.index < |items|
      && Struck(ViewOf(items[pick.index]), point, radius, foreign)
      && forall j :: 0 <= j < |items| && Struck(ViewOf(items[j]), point, radius, foreign) ==>
           ViewOf(items[pick.index]).position.width <= ViewOf(items[j]).position.width
  {
    pick := NoHit;
    for i := 0 to |items|
      invariant forall j :: 0 <= j < i ==> !IsRaw(ViewOf(items[j]))
      invariant !pick.TypeError?
      invariant pick.NoHit? ==> forall j :: 0 <= j < i ==> !Struck(ViewOf(items[j]), point, radius, foreign)
      invariant pick.Picked? ==>
        && pick.index < i
        && Struck(ViewOf(items[pick.index]), point, radius, foreign)
        && forall j :: 0 <= j < i && Struck(ViewOf(items[j]), point, radius, foreign) ==>
             ViewOf(items[pick.index]).position.width <= ViewOf(items[j]).position.width
    {
      var v := ViewOf(items[i]);
      if IsRaw(v) {
        return TypeError;
      }
      if Struck(v, point, radius, foreign) {
        if pick.NoHit? || v.position.width < ViewOf(items[pick.index]).position.width {
          pick := Picked(i);
        }
      }
    }
  }

  /** How `import` turns a child of a group record: the group import has no
      case for `chart`, so a chart child stays a plain record, like a child
      of unknown type. */
  function ImportChild(rec: Record): Node
    decreases rec, 1
  {
    match TypeOf(rec.tag)
    case None => Unconverted(rec)
    case Some(t) =>
      if t == Chart then Unconverted(rec)
      else if t == Group then Converted(Group, rec, ImportChildren(rec.children))
      else Converted(t, rec, [])
  }

  function ImportChildren(children: seq<Record>): seq<Node>
    decreases children, 0
  {
    if children == [] then []
    else [ImportChild(children[0])] + ImportChildren(children[1..])
  }

  /** The entry `import` appends for one record, as a view. A vector or a
      polygon is constructed and derives its box; a group converts its
      children; a record of unknown type is pushed as it is. */
  function Imported(rec: Record): View {
    match TypeOf(rec.tag)
    case None => View(EntryForm(Raw(rec)), rec.position, rec.selected)
    case Some(t) =>
      if t == Vector then View(VectorForm, Vectors.Bounded(rec.position), false)
      else if t == Polygon then
        View(PolygonForm(rec.points), Polygons.Boxed(rec.points, rec.position.radius), false)
      else if t == Group then View(EntryForm(Shape(Group, ImportChildren(rec.children))), rec.position, false)
      else View(EntryForm(Shape(t, [])), rec.position, false)
  }

  /** Group import maps its children one to one, in order. */
  lemma {:induction false} ImportChildrenInOrder(children: seq<Record>)
    ensures |ImportChildren(children)| == |children|
    ensures forall i :: 0 <= i < |children| ==> ImportChildren(children)[i] == ImportChild(children[i])
  {
    if children != [] {
      ImportChildrenInOrder(children[1..]);
    }
  }

  /** Each child keeps its record and, when converted, the class its `type`
      names; every class but `chart` is converted. */
  lemma ImportChildKeepsType(rec: Record)
    ensures ImportChild(rec).source == rec
    ensures ImportChild(rec).Converted? <==> TypeOf(rec.tag).Some? && rec.tag != "chart"
    ensures ImportChild(rec).Converted? ==> TypeOf(rec.tag) == Some(ImportChild(rec).shape)
  {
  }

  /** A chart record is converted at the root, but not inside a group. */
  lemma ChartOnlyConvertedAtRoot(rec: Record)
    requires rec.tag == "chart"
    ensures Imported(rec).form == EntryForm(Shape(Chart, []))
    ensures ImportChild(rec) == Unconverted(rec)
  {
  }

  /** A record of unknown type is appended unchanged: the entry is the record
      itself, with its own position and selection flag. */
  lemma ImportKeepsUnknownRecord(rec: Record)
    requires TypeOf(rec.tag).None?
    ensures IsRaw(Imported(rec)) && Imported(rec).form.kind.record == rec
    ensures Imported(rec).position == rec.position && Imported(rec).selected == rec.selected
  {
  }

  /** A vector or polygon starts unselected, whatever the record says (its
      `set` never copies `selected`), and with fresh bounds. The eight shape
      classes not part of this model are assumed to start unselected too. */
  lemma ImportedShapesStartFresh(rec: Record)
    requires TypeOf(rec.tag).Some?
    ensures !Imported(rec).selected && !IsRaw(Imported(rec))
    ensures TypeOf(rec.tag) == Some(Vector) ==> Derived(Imported(rec).position)
    ensures TypeOf(rec.tag) == Some(Polygon) ==>
      Imported(rec).position == Polygons.Boxed(rec.points, Imported(rec).position.radius)
  {
  }

  /** The button renderer's radius rule: a single else-if chain, so at most
      one adjustment per call. */
  function NormalizedRadius(radius: real, width: real, height: real): (r: real)
    ensures r == radius || r == width / 2.0 || r == height / 2.0 || r == 0.0
    ensures radius > width / 2.0 ==> r == width / 2.0
    ensures radius <= width / 2.0 && radius > height / 2.0 ==> r == height / 2.0
    ensures radius <= width / 2.0 && radius <= height / 2.0 && radius < 0.0 ==> r == 0.0
    ensures 0.0 <= radius <= width / 2.0 && radius <= height / 2.0 ==> r == radius
  {
    if radius > width / 2.0 then width / 2.0
    else if radius > height / 2.0 then height / 2.0
    else if radius < 0.0 then 0.0
    else radius
  }

  /** One call can leave the radius above half the height (a wide button
      with a large radius is first cut to half the width). */
  lemma OneNormalizationMayExceedHalfHeight()
    ensures NormalizedRadius(10.0, 10.0, 4.0) == 5.0 > 4.0 / 2.0
  {
  }

  /** For a box of non-negative size, two calls (two frames) bring any radius
      into [0, min(width, height) / 2], after which it no longer changes. */
  lemma NormalizationSettlesInTwoCalls(radius: real, width: real, height: real)
    requires width >= 0.0 && height >= 0.0
    ensures var r := NormalizedRadius(NormalizedRadius(radius, width, height), width, height);
      0.0 <= r <= width / 2.0 && r <= height / 2.0 && NormalizedRadius(r, width, height) == r
  {
  }

  class Project {
    /** The scene store, in paint order. */
    var data: seq<Item>
    var editing: bool

    constructor ()
      ensures data == [] && !editing
    {
      data := [];
      editing := false;
    }

    ghost function Objects(): set<object>
      reads this
    {
      set it | it in data :: Obj(it)
    }

    /** No object is held twice by the store. */
    ghost predicate Valid()
      reads this
    {
      forall i, j :: 0 <= i < j < |data| ==> Obj(data[i]) != Obj(data[j])
    }

    static method SetSelected(it: Item, b: bool)
      modifies Obj(it)
      ensures ViewOf(it) == old(ViewOf(it)).(selected := b)
    {
      match it
      case VectorItem(v) => v.selected := b;
      case PolygonItem(p) => p.selected := b;
      case EntryItem(e) => e.selected := b;
    }

    /** Clears `selected` on every root entry and changes nothing else: group
        children are values inside their group's entry and are not touched. */
    method Deselect()
      requires Valid()
      modifies Objects()
      ensures Valid() && data == old(data) && editing == old(editing)
      ensures forall i :: 0 <= i < |data| ==> ViewOf(data[i]) == old(ViewOf(data[i])).(selected := false)
    {
      for i := 0 to |data|
        invariant forall j :: 0 <= j < i ==> ViewOf(data[j]) == old(ViewOf(data[j])).(selected := false)
        invariant forall j :: i <= j < |data| ==> ViewOf(data[j]) == old(ViewOf(data[j]))
      {
        SetSelected(data[i], false);
      }
    }

    /** Marquee selection. With a marquee given and `editing` on, every entry
        whose box lies inside the marquee becomes selected; every other flag
        is kept. Without a marquee, or outside editing, nothing changes. */
    method Select(marquee: Option<Position>)
      requires Valid()
      modifies Objects()
      ensures Valid() && data == old(data) && editing == old(editing)
      ensures forall i :: 0 <= i < |data| ==>
        ViewOf(data[i]) == if marquee.Some? && editing && Encloses(marquee.value, old(ViewOf(data[i])).position)
                           then old(ViewOf(data[i])).(selected := true)
                           else old(ViewOf(data[i]))
    {
      if marquee.Some? {
        var m := marquee.value;
        for i := 0 to |data|
          invariant forall j :: 0 <= j < i ==>
            ViewOf(data[j]) == if editing && Encloses(m, old(ViewOf(data[j])).position)
                               then old(ViewOf(data[j])).(selected := true)
                               else old(ViewOf(data[j]))
          invariant forall j :: i <= j < |data| ==> ViewOf(data[j]) == old(ViewOf(data[j]))
        {
          if Encloses(m, ViewOf(data[i]).position) {
            if editing {
              SetSelected(data[i], true);
            }
          }
        }
      }
    }

    /** Point selection; `radius` defaults to 0. The entries whose `hit` is
        true are sorted by width and, when `editing` is on, the first becomes
        selected: exactly one flag is set, on an entry no wider than any other
        hit entry, and no flag is cleared; when exactly one hit entry is the
        narrowest, it is the one selected. When the store holds a raw record
        the filter throws and nothing changes. */
    method Hit(point: Point, radius: Option<real>, foreign: ForeignHit) returns (thrown: bool)
      requires Valid()
      modifies Objects()
      ensures Valid() && data == old(data) && editing == old(editing)
      ensures thrown <==> exists i :: 0 <= i < |data| && IsRaw(old(ViewOf(data[i])))
      ensures thrown || !editing
        || (forall i :: 0 <= i < |data| ==> !Struck(old(ViewOf(data[i])), point, RadiusOrZero(radius), foreign))
        ==> forall i :: 0 <= i < |data| ==> ViewOf(data[i]) == old(ViewOf(data[i]))
      ensures !thrown && editing
        && (exists i :: 0 <= i < |data| && Struck(old(ViewOf(data[i])), point, RadiusOrZero(radius), foreign))
        ==> exists k :: (0 <= k < |data|
          && Struck(old(ViewOf(data[k])), point, RadiusOrZero(radius), foreign)
          && (forall j :: 0 <= j < |data| && Struck(old(ViewOf(data[j])), point, RadiusOrZero(radius), foreign)
                ==> old(ViewOf(data[k])).position.width <= old(ViewOf(data[j])).position.width)
          && ViewOf(data[k]) == old(ViewOf(data[k])).(selected := true)
          && forall j :: 0 <= j < |data| && j != k ==> ViewOf(data[j]) == old(ViewOf(data[j])))
      ensures forall m :: (0 <= m < |data| && !thrown && editing
        && Struck(old(ViewOf(data[m])), point, RadiusOrZero(radius), foreign)
        && (forall j :: 0 <= j < |data| && j != m && Struck(old(ViewOf(data[j])), point, RadiusOrZero(radius), foreign)
              ==> old(ViewOf(data[m])).position.width < old(ViewOf(data[j])).position.width)
        ==> (ViewOf(data[m]) == old(ViewOf(data[m])).(selected := true)
          && forall j :: 0 <= j < |data| && j != m ==> ViewOf(data[j]) == old(ViewOf(data[j]))))
    {
      var pick := Narrowest(data, point, RadiusOrZero(radius), foreign);
      assert forall j :: 0 <= j < |data| ==> ViewOf(data[j]) == old(ViewOf(data[j]));
      thrown := pick.TypeError?;
      if pick.Picked? && editing {
        SelectAt(pick.index);
        assert Struck(old(ViewOf(data[pick.index])), point, RadiusOrZero(radius), foreign);
      }
    }

    /** Sets `selected` on the entry at index `k` and on nothing else. */
    method SelectAt(k: nat)
      requires Valid() && k < |data|
      modifies Obj(data[k])
      ensures Valid() && data == old(data) && editing == old(editing)
      ensures ViewOf(data[k]) == old(ViewOf(data[k])).(selected := true)
      ensures forall j :: 0 <= j < |data| && j != k ==> ViewOf(data[j]) == old(ViewOf(data[j]))
    {
      var it := data[k];
      assert Obj(it) != this;
      SetSelected(it, true);
      forall j | 0 <= j < |data| && j != k
        ensures ViewOf(data[j]) == old(ViewOf(data[j]))
      {
        assert Obj(data[j]) != Obj(it);
      }
    }

    /** Appends one entry per record, after the existing entries and in
        input order; existing entries are untouched. */
    method Import(records: seq<Record>)
      requires Valid()
      modifies this
      ensures Valid() && editing == old(editing)
      ensures |data| == old(|data|) + |records| && data[..old(|data|)] == old(data)
      ensures forall i :: 0 <= i < old(|data|) ==> ViewOf(data[i]) == old(ViewOf(data[i]))
      ensures forall i :: old(|data|) <= i < |data| ==> ViewOf(data[i]) == Imported(records[i - old(|data|)])
      ensures forall i :: old(|data|) <= i < |data| ==> fresh(Obj(data[i]))
    {
      var n := |data|;
      for k := 0 to |records|
        invariant Valid() && editing == old(editing)
        invariant |data| == n + k && data[..n] == old(data)
        invariant forall i :: 0 <= i < n ==> ViewOf(data[i]) == old(ViewOf(data[i]))
        invariant forall i :: n <= i < |data| ==> ViewOf(data[i]) == Imported(records[i - n])
        invariant forall i :: n <= i < |data| ==> fresh(Obj(data[i]))
      {
        Append(records[k]);
      }
    }

    /** One step of `import`: convert the record and push the result. */
    method Append(rec: Record)
      requires Valid()
      modifies this
      ensures Valid() && editing == old(editing)
      ensures |data| == |old(data)| + 1 && data[..|old(data)|] == old(data)
      ensures forall i :: 0 <= i < |old(data)| ==> ViewOf(data[i]) == old(ViewOf(data[i]))
      ensures fresh(Obj(data[|old(data)|])) && ViewOf(data[|old(data)|]) == Imported(rec)
    {
      var item := ImportItem(rec);
      assert forall i :: 0 <= i < |data| ==> Obj(data[i]) != Obj(item);
      Push(item);
    }

    /** `data.push(item)` for an object the store does not hold yet. */
    method Push(item: Item)
      requires Valid() && forall i :: 0 <= i < |data| ==> Obj(data[i]) != Obj(item)
      modifies this
      ensures Valid() && editing == old(editing) && data == old(data) + [item]
    {
      data := data + [item];
    }

    /** One record, as the switch on `type` converts it. */
    static method ImportItem(rec: Record) returns (item: Item)
      ensures fresh(Obj(item)) && ViewOf(item) == Imported(rec)
    {
      match TypeOf(rec.tag)
      case None =>
        var e := new Entry(Raw(rec), rec.position, rec.selected);
        item := EntryItem(e);
      case Some(t) =>
        if t == Vector {
          var v := new Vectors.Vector(rec.position);
          item := VectorItem(v);
        } else if t == Polygon {
          var p := new Polygons.Polygon(rec.points, rec.position);
          item := PolygonItem(p);
        } else if t == Group {
          var e := new Entry(Shape(Group, ImportChildren(rec.children)), rec.position, false);
          item := EntryItem(e);
        } else {
          var e := new Entry(Shape(t, []), rec.position, false);
          item := EntryItem(e);
        }
    }

    /** `import([])`: the store is left exactly as it was. */
    method Reset()
      requires Valid()
      modifies this
      ensures Valid() && data == old(data) && editing == old(editing)
      ensures forall i :: 0 <= i < |data| ==> ViewOf(data[i]) == old(ViewOf(data[i]))
    {
      Import([]);
    }
  }
}
