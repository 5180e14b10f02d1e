# Canvas scene store, selection and shape geometry — a Dafny model

This project models the sequential core of a 2D canvas editing library:

- the **scene store** of a `Project`: the ordered list `data` of root entries
  (paint order), the `editing` flag, clearing the selection (`deselect`),
  marquee selection (`select`), point selection with the narrowest-hit rule
  (`hit`), import of plain records (`import`, `ImportGroup`) and `reset`, and
  the button renderer's radius rule;
- the **box shape** `Vector`: `bounds`, `move`, `hit`, `near`, `resize`;
- the **point-list shape** `Polygon`: `bounds`, `move`, `near`, `resize`.

Coordinates are `real`. Files:

- `geometry.dfy` (module `Geometry`): `Point`, `Position` (the bounding box
  record), `Option`, the "within radius on both axes" test and the predicate
  `Derived` (top/left/right/bottom/center agree with x/y/width/height).
- `vector.dfy` (module `Vectors`): class `Vector` with the state-changing
  `Bounds`, `Move`, `Resize`; its read-only queries `Hit` and `Near` are
  functions of the position; `Bounded` and `Resized` are the functions the
  methods are proved against.
- `polygon.dfy` (module `Polygons`): class `Polygon` over a `seq<Point>`;
  `Bounds` is the min/max fold with starting values 10000000 (minima) and 0
  (maxima), proved against `Boxed`, which is defined by the running fold
  `Lowest`/`Highest`; `Move`, `Near` and `Resize` are loops proved against
  `Translated`, a first-match specification and `Reshaped`.
- `project.dfy` (module `Projects`): the store holds references (`Item`) to `Vector`, `Polygon` and `Entry` objects (`Entry`
  stands for the eight other shape classes and for records pushed
  unconverted). `ViewOf` reads one entry's current state as a value;
  `Valid()` says no object is held twice. Methods that change the store
  state the new state of every entry in terms of its old state.

The code is followed where it departs from what a reader might expect:
an `import` record of unknown `type` is appended as it is (not dropped);
inside a group a `chart` child is not converted; `Vector.resize` does not
clamp width or height (they can become negative); `Polygon.resize` clamps
width and height and then `bounds` overwrites them; an empty polygon keeps
the sentinel box (left = top = 10000000, right = bottom = 0), and a polygon at
negative coordinates keeps right = bottom = 0; the point-pick
sort gives no defined winner among equally narrow hits; a radius passed to
`Vector.hit` is replaced by 0; the button rule is one else-if chain, so one
call can leave the radius above half the height.

## Model

| member | source | states |
|---|---|---|
| `Geometry.RadiusOrZero` | projects/core/src/lib/shapes/vector.ts:103-105 | the radius argument with a missing one read as 0 (the same default opens `Polygon.near` and the project's `hit`) |
| `Vectors.Bounded` | projects/core/src/lib/shapes/vector.ts:36-45 | the derived box: top = y, left = x, right = x + width, bottom = y + height, center at the midpoint; x, y, width, height and radius kept |
| `Vectors.BoundsIdempotent` | projects/core/src/lib/shapes/vector.ts:36-45 | a second `bounds` gives the same position |
| `Vectors.BoundsFixesExactlyDerived` | projects/core/src/lib/shapes/vector.ts:36-45 | `bounds` leaves a position alone exactly when its derived fields are already fresh |
| `Vectors.Vector.Bounds` | projects/core/src/lib/shapes/vector.ts:36-45 | the new position is `Bounded` of the old one; selection unchanged |
| `Vectors.Vector.constructor` | projects/core/src/lib/shapes/vector.ts:23-34 | an imported vector holds the record's position with derived fields fresh, unselected |
| `Vectors.Vector.Move` | projects/core/src/lib/shapes/vector.ts:49-57 | width, height, radius kept; center = point; derived fields consistent (so x = point.x − width/2, right = left + width, bottom = top + height) |
| `Vectors.Hit` | projects/core/src/lib/shapes/vector.ts:82-99 | true exactly for closed-box containment x ≤ p.x ≤ x + width, y ≤ p.y ≤ y + height, whatever radius is passed |
| `Vectors.HitIgnoresRadius` | projects/core/src/lib/shapes/vector.ts:83-85 | the supplied radius has no effect on the result |
| `Vectors.Corners` | projects/core/src/lib/shapes/vector.ts:106-128 | the four handles in the order `near` tests them: top-left, top-right, bottom-left, bottom-right |
| `Vectors.Near` | projects/core/src/lib/shapes/vector.ts:102-131 | `None` exactly when no corner is within radius on both axes; otherwise the first corner in checking order that is |
| `Vectors.NearDefaultsRadius` | projects/core/src/lib/shapes/vector.ts:103-105 | a missing radius behaves as 0 |
| `Vectors.Resized` | projects/core/src/lib/shapes/vector.ts:133-154 | four corner cases applied in sequence; only x, y, width, height differ from the old position |
| `Vectors.Vector.Resize` | projects/core/src/lib/shapes/vector.ts:133-154 | the new position is `Resized` of the old one; selection unchanged |
| `Vectors.ResizeMovesCorner` | projects/core/src/lib/shapes/vector.ts:134-153 | with non-zero width and height, grabbing corner k moves it to `current` and keeps the opposite corner fixed |
| `Vectors.ResizeElsewhereUnchanged` | projects/core/src/lib/shapes/vector.ts:134-153 | a grabbed point that is no corner leaves the position unchanged |
| `Vectors.ResizeCanInvert` | projects/core/src/lib/shapes/vector.ts:135-138 | width and height are not clamped: dragging top-left past bottom-right makes both negative |
| `Polygons.Lowest` | projects/core/src/lib/shapes/polygon.ts:37-55 | the running minimum on one axis after visiting the vertices in order, starting at 10000000 and lowered only by a strictly smaller coordinate |
| `Polygons.Highest` | projects/core/src/lib/shapes/polygon.ts:38-55 | the running maximum on one axis, starting at 0 and raised only by a strictly greater coordinate |
| `Polygons.Boxed` | projects/core/src/lib/shapes/polygon.ts:36-67 | left/top are the running minima from 10000000, right/bottom the running maxima from 0; right = left + width, bottom = top + height, center at the midpoint; radius kept |
| `Polygons.BoundsIdempotent` | projects/core/src/lib/shapes/polygon.ts:36-67 | the box depends only on the vertices, so a second `bounds` changes nothing |
| `Polygons.BoundsOfEmpty` | projects/core/src/lib/shapes/polygon.ts:37-63 | no vertices: left = top = 10000000, right = bottom = 0, width = height = −10000000 |
| `Polygons.LowestIsLeast` | projects/core/src/lib/shapes/polygon.ts:37-55 | for a non-empty list with coordinates ≤ 10000000 the running minimum is the least coordinate and is attained |
| `Polygons.HighestIsGreatest` | projects/core/src/lib/shapes/polygon.ts:38-55 | for a non-empty list with coordinates ≥ 0 the running maximum is the greatest coordinate and is attained |
| `Polygons.BoundsInRange` | projects/core/src/lib/shapes/polygon.ts:36-63 | non-empty, coordinates in [0, 10000000]: every vertex lies in the box, each side touches a vertex, width and height ≥ 0 |
| `Polygons.Polygon.Bounds` | projects/core/src/lib/shapes/polygon.ts:36-68 | vertices and selection unchanged; position = `Boxed` of the vertices |
| `Polygons.Polygon.constructor` | projects/core/src/lib/shapes/polygon.ts:26-34 | an imported polygon holds the record's vertices and the box `bounds` derives from them, unselected |
| `Polygons.BoundsAtNegativeCoordinates` | projects/core/src/lib/shapes/polygon.ts:37-63 | a polygon at negative coordinates gets right = bottom = 0 from the starting maxima, so the box reaches past every vertex and width is 5 where the vertices span 4 |
| `Polygons.StartingMaximumSurvives` | projects/core/src/lib/shapes/polygon.ts:38-55 | for any list whose coordinates on an axis are all negative, the running maximum stays 0 |
| `Polygons.StartingMinimumSurvives` | projects/core/src/lib/shapes/polygon.ts:37-55 | for any list whose coordinates on an axis all exceed 10000000, the running minimum stays 10000000 |
| `Polygons.Translated` | projects/core/src/lib/shapes/polygon.ts:75-78 | every vertex minus the same difference, in order, the list length kept |
| `Polygons.TranslationKeepsOffsets` | projects/core/src/lib/shapes/polygon.ts:76-79 | the offset between any two vertices is preserved |
| `Polygons.ExtremesShift` | projects/core/src/lib/shapes/polygon.ts:36-63 | with the list and its translate in range, the running extremes move by exactly the translation |
| `Polygons.MoveCentresOnPoint` | projects/core/src/lib/shapes/polygon.ts:70-80 | from fresh bounds and staying in range, `move(p)` puts the new centre at p |
| `Polygons.Polygon.Move` | projects/core/src/lib/shapes/polygon.ts:70-80 | vertices translated by (old centre − point), then position = bounds of the new vertices; when the old box was the one `bounds` derives and the vertices stay in [0, 10000000], the new centre is the point |
| `Polygons.Polygon.Near` | projects/core/src/lib/shapes/polygon.ts:143-156 | `None` exactly when no vertex is within radius on both axes; otherwise a copy of the first one in list order that is; radius defaults to 0 |
| `Polygons.FirstIndex` | projects/core/src/lib/shapes/polygon.ts:159-160 | the index of the first vertex equal to the grabbed point, or `None` exactly when there is none |
| `Polygons.Reshaped` | projects/core/src/lib/shapes/polygon.ts:159-174 | the vertex list after the resize scan; its length never changes |
| `Polygons.ReshapeNoMatch` | projects/core/src/lib/shapes/polygon.ts:159-160 | no vertex equals the grabbed point: the list is unchanged |
| `Polygons.ReshapeFirstOnly` | projects/core/src/lib/shapes/polygon.ts:160-172 | outside the closed-path case only the first matching vertex becomes `current` |
| `Polygons.ReshapeClosedPath` | projects/core/src/lib/shapes/polygon.ts:161-168 | grabbing the shared end of a closed path (length > 1, first = last) moves both ends to `current` |
| `Polygons.Polygon.Resize` | projects/core/src/lib/shapes/polygon.ts:158-182 | vertices = `Reshaped`; the width/height clamps are overwritten, position = bounds of the new vertices |
| `Projects.TypeOf` | projects/core/src/lib/project.ts:646-677 | `None` exactly for a `type` outside the ten known names |
| `Projects.Encloses` | projects/core/src/lib/project.ts:687-701 | the marquee filter: the box's top, left, right and bottom all lie within the marquee's |
| `Projects.Struck` | projects/core/src/lib/project.ts:714 | the entry's own `hit(point, radius)`: the box test for a vector; the `foreign` oracle for a polygon (its point-in-path test) and for the eight classes not modelled; a raw record has no `hit` and callers rule it out |
| `Projects.ImportChild` | projects/core/src/lib/project.ts:589-618 | one group child: converted to the class its `type` names, recursively for a group; kept as a record for `chart` and unknown types |
| `Projects.ImportChildren` | projects/core/src/lib/project.ts:587-622 | the `children.map` of `ImportGroup`: each child converted in order |
| `Projects.Imported` | projects/core/src/lib/project.ts:645-679 | the entry `import` pushes for one record: a vector or polygon with fresh bounds and unselected, a group with its converted children, another known class unselected, or the record itself for an unknown type |
| `Projects.Project.Deselect` | projects/core/src/lib/project.ts:173-177 | every root entry unselected; store, editing flag, positions, shapes and group children unchanged |
| `Projects.Project.Select` | projects/core/src/lib/project.ts:685-708 | with a marquee and editing: an entry becomes selected iff marquee.top ≤ top, marquee.left ≤ left, marquee.right ≥ right, marquee.bottom ≥ bottom; other flags kept; without a marquee or outside editing nothing changes |
| `Projects.Narrowest` | projects/core/src/lib/project.ts:714-723 | the filter-and-sort pick: a type error exactly when a raw record is in the store; no hit exactly when no entry is hit; otherwise a hit entry whose width is ≤ that of every hit entry |
| `Projects.Project.SelectAt` | projects/core/src/lib/project.ts:725 | sets `selected` on one entry and changes nothing else |
| `Projects.Project.Hit` | projects/core/src/lib/project.ts:710-728 | radius defaults to 0; with editing and some hit, exactly one flag is set, on a narrowest hit entry, and none cleared; a unique narrowest hit entry is the one set; otherwise (or on a raw record) nothing changes |
| `Projects.ImportChildrenInOrder` | projects/core/src/lib/project.ts:588-619 | a group's children are converted one to one, in order |
| `Projects.ImportChildKeepsType` | projects/core/src/lib/project.ts:589-618 | each child keeps its record; it is converted iff its `type` is known and not `chart`, and then to the class its `type` names |
| `Projects.ChartOnlyConvertedAtRoot` | projects/core/src/lib/project.ts:587-619 | a `chart` record is converted at the root but stays a plain record inside a group |
| `Projects.ImportKeepsUnknownRecord` | projects/core/src/lib/project.ts:644-679 | a record of unknown `type` is appended unchanged, with its own position and flag |
| `Projects.ImportedShapesStartFresh` | projects/core/src/lib/project.ts:632-638 | converted records start unselected; a vector or polygon starts with fresh bounds |
| `Projects.Project.ImportItem` | projects/core/src/lib/project.ts:571-642 | one record becomes one fresh entry whose state is `Imported` of the record |
| `Projects.Project.Import` | projects/core/src/lib/project.ts:644-683 | appends exactly one new object per record, after the existing entries and in input order, the k-th being `Imported` of the k-th record; existing entries untouched; no object held twice |
| `Projects.Project.Append` | projects/core/src/lib/project.ts:645-679 | one step of the import loop: one new object, whose state is `Imported` of the record, pushed at the end; earlier entries untouched |
| `Projects.Project.Push` | projects/core/src/lib/project.ts:679 | `data.push`: the item is added at the end and nothing else changes |
| `Projects.Project.Reset` | projects/core/src/lib/project.ts:129-131 | `import([])`: the store is left exactly as it was |
| `Projects.NormalizedRadius` | projects/core/src/lib/project.ts:435-441 | at most one adjustment: above width/2 becomes width/2; otherwise above height/2 becomes height/2; otherwise negative becomes 0 |
| `Projects.OneNormalizationMayExceedHalfHeight` | projects/core/src/lib/project.ts:435-438 | one call can leave the radius above half the height |
| `Projects.NormalizationSettlesInTwoCalls` | projects/core/src/lib/project.ts:435-441 | for non-negative width and height, two calls bring any radius into [0, min(width, height)/2], where it stays |

## Left out

- Rendering: the frame loop `draw`, `gridify`, the per-shape drawing routines apart from the button radius rule, `download`, the DOM event listeners and the event subjects of the project constructor; these are calls into the 2D context and the DOM.
- `Polygon.hit` builds a path on the drawing surface and asks it for point-in-path containment; it and the `hit` of the eight classes not modelled (arc, line, text, chart, group, circle, button, rectangle) are the `foreign` parameter of `Projects.Project.Hit`. Their drawing side effects are not modelled.
- The shape classes arc, line, text, chart, group, circle, button and rectangle are not part of this model: their entries (`Projects.Entry`) carry the record's position as given, a `selected` flag and, for a group, its converted children as values.
- Projects.ImportedShapesStartFresh: for the eight classes above, starting unselected whatever the record says is an assumption, made to match `Vector` and `Polygon` (whose `set` never copies `selected`); their constructors are not part of this model.
- `Vector.bounds` rescheduling itself every animation frame, and the image loading of a vector: browser scheduling and resources.
- `Vector.hit` called without a radius: the radius stays undefined, every comparison with it is false and the box reports a hit for any point (floating-point NaN behaviour); the model always passes a radius, as the project's `hit` does.
- Object aliasing: the shared default position object of `Vector`, a polygon sharing its caller's vertex array, and a raw record being the caller's own object are modelled as values or fresh objects.
- Vertices and the centre are values. `Polygon.move` shifts each vertex object in place, so a vertex object listed twice in `points` (say a closed path whose last entry is the same object as its first) is shifted twice; `Polygons.Polygon.Move` shifts each index once. `Vector.move` stores the caller's own point object as `center`, so a later change to that object moves the centre; the model copies the point.
- The permissive field copying of `set`, `export`'s deep copy, identifier generation, and records that lack `position` or `points` (which would make `select` throw or fall back to defaults): every record carries a position, a vertex list, children and a `selected` flag.
- The store is one array shared by every project and by shape constructors called without `skip`; the model gives each `Project` its own `data`.
- Floating-point rounding: coordinates are JavaScript doubles and the model computes with exact reals. `Derived` after `Vector.move` (which writes `right` as point.x + width/2, not left + width), `Vectors.ResizeMovesCorner` and `Polygons.MoveCentresOnPoint` hold exactly only in real arithmetic.
- `import` is asynchronous and resolves to `true`; the promise is not modelled, only the synchronous appends.
- Projects.Project.Hit: does not say which of several equally narrow hit entries is selected, because the sort comparator returns -1 for equal widths and so defines no order among them.
