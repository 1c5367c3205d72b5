# bidimensional, modelled in Dafny

`bidimensional` is a small Python library of plane geometry: coordinates,
lines and segments, triangles with their circumcircle, polygons whose
vertices are labelled "A", "B", …, and a natural cubic spline through a
list of coordinates. The repository carries several drifted revisions of the
same classes. This project models every revision of that core in Dafny.

Coordinates are exact `real`s: each property is stated and proved in exact
arithmetic. `sqrt`, `hypot` and the linear solve of the spline are
parameters. Where a property needs it, a square root is required to be a
genuine one (`MathLib.IsSqrt`). An answer of the solve must satisfy the
system the spline builds (`SplineFit.Solves`).

Python's dynamic type checks are modelled with `Arg<T>`: `Typed(v)` is an
argument of the expected class and `Mistyped` is anything else. A raised
exception is the `Err`/`Raised` arm of `Result`/`Outcome`, carrying the
Python exception (`TypeError`, `ValueError`, `IndexError`,
`ZeroDivisionError`, `AttributeError`).

Objects whose fields the library updates in place are Dafny classes.
Examples are the coordinate setters, the line and triangle property caches,
the circumcircle objects that swap their vertices and the spline fields. Each
of their methods states the whole new state.

| file | module | source |
|---|---|---|
| common.dfy | `Common`, `MathLib`, `Plane` | exceptions, `abs`/`floor`/`ceil`/`trunc`, the square root, the point value |
| core_coordinates.dfy | `CoreCoordinates` | `src/bidimensional/core/coordinates.py` |
| legacy_coordinates.dfy | `LegacyCoordinates` | `src/bidimensional/coordinates.py` (coordinate with sequence operands, ordering, early `Line`) |
| root_coordinate.dfy | `RootCoordinate` | `coordinate.py` (`Coordinate2D`) |
| operations.dfy | `Operations` | `src/bidimensional/core/operations.py` |
| lines.dfy | `Lines` | `src/bidimensional/core/lines.py` |
| circumkernel.dfy | `CircumKernel` | the centre construction and relabelling shared by all circumcircle revisions |
| triangles.dfy | `Triangles` | `src/bidimensional/polygons/triangle.py` |
| legacy_circumcircle.dfy | `LegacyCircumcircle` | `src/bidimensional/circumcircle.py` and `src/circumcenter.py` (the same code) |
| circumcenter.dfy | `RootCircumcenter` | `circumcenter.py` (unguarded) |
| spline_base.dfy | `SplineFit` | `SplineBase` of `src/bidimensional/functions/spline.py` |
| spline.dfy | `Splines` | `Spline` of `src/bidimensional/functions/spline.py` |
| polygon.dfy | `Polygons` | `src/bidimensional/polygons/polygon.py` |

Some code is shared between revisions, and each shared operation is modelled once:

- `coordinate.py` shares its sum and difference (lines 51-59), equality
  (125-133), truthiness, length, indexing and iteration (144-172) with
  `core/coordinates.py`; the `CoreCoordinates` members model both. Its
  ordering operators (105-123) are those of `coordinates.py`, modelled by
  `LegacyCoordinates.Lt`, `Le`, `Gt` and `Ge`.
- The `Coordinate` of `coordinates.py` has the same setters, unary operators,
  equality and sequence protocol as the one of `core/coordinates.py`, and the
  same `int()`/`float()` (lines 260-264) as `coordinate.py`.
- `src/circumcenter.py` is `circumcircle.py` over `Coordinate2D`, with the
  centre and radius named `circumcenter` and `circumradius`: its constructor
  (42-57), setters (73-94, 110-131, 147-168), collinearity test (190-206)
  and calculation (208-312) are the `LegacyCircumcircle.Circumcircle`
  members.

## Model

| member | source | states |
|---|---|---|
| Common.Abs | src/bidimensional/core/coordinates.py:160-161 | `abs` of a component is non-negative and equals it up to sign |
| Common.Floor | src/bidimensional/core/coordinates.py:172-173 | `math.floor` is the greatest whole number at or below its argument |
| Common.Ceil | src/bidimensional/core/coordinates.py:175-176 | `math.ceil` is the least whole number at or above its argument |
| Common.Trunc | src/bidimensional/core/coordinates.py:178-179 | `math.trunc` rounds toward zero: floor for non-negative, ceiling for negative values |
| MathLib.SqrtInjective | src/bidimensional/core/operations.py:33 | a genuine square root maps two non-negative numbers to the same root only when they are equal |
| MathLib.SqrtFacts | src/bidimensional/core/operations.py:33 | a square root is non-negative and zero only at zero |
| Plane.DistSqFacts | src/bidimensional/core/operations.py:33 | the squared distance is symmetric, non-negative, and zero exactly between equal points |
| CoreCoordinates.Add | src/bidimensional/core/coordinates.py:116-120 | `+` raises TypeError exactly for a non-coordinate operand |
| CoreCoordinates.Sub | src/bidimensional/core/coordinates.py:122-126 | `-` raises TypeError exactly for a non-coordinate operand |
| CoreCoordinates.Mul | src/bidimensional/core/coordinates.py:128-132 | `*` raises TypeError exactly for a non-coordinate operand |
| CoreCoordinates.AddSubInverse | src/bidimensional/core/coordinates.py:116-126 | subtracting what was added gives the original back, and the other way round |
| CoreCoordinates.AddMulCommute | src/bidimensional/core/coordinates.py:116-132 | `+` and `*` do not depend on operand order |
| CoreCoordinates.Units | src/bidimensional/core/coordinates.py:116-132 | the origin is the unit of `+` and (1, 1) the unit of `*` |
| CoreCoordinates.DivAsWritten | src/bidimensional/core/coordinates.py:134-138 | `/` as written raises TypeError exactly for a non-coordinate operand |
| CoreCoordinates.DivAsWrittenIsMul | src/bidimensional/core/coordinates.py:134-138 | `/` as written is `*` by the operand reflected in the x axis |
| CoreCoordinates.FloorDivAsWritten | src/bidimensional/core/coordinates.py:140-145 | `//` as written is the componentwise floor of `/` as written |
| CoreCoordinates.ModAsWritten | src/bidimensional/core/coordinates.py:147-152 | `%` as written raises TypeError exactly for a non-coordinate operand |
| CoreCoordinates.DivModAsWritten | src/bidimensional/core/coordinates.py:134-152 | the floor/modulo split holds only for the reflected product, not for p itself |
| CoreCoordinates.DivAsWrittenCounterexample | src/bidimensional/core/coordinates.py:134-152 | (1,1)/(2,2) is (2,-2), which times (2,2) is not (1,1); `//` gives (2,-2), `%` gives the origin; true division gives (0.5,0.5) |
| CoreCoordinates.TrueDiv | src/bidimensional/core/coordinates.py:134-138 | componentwise division raises TypeError for a non-coordinate and ZeroDivisionError for a zero component, and nothing else |
| CoreCoordinates.TrueDivInverse | src/bidimensional/core/coordinates.py:134-138 | q is p / v exactly when q * v is p |
| CoreCoordinates.FloorDiv | src/bidimensional/core/coordinates.py:140-145 | `//` on true division fails exactly when `/` does, with the same error |
| CoreCoordinates.Mod | src/bidimensional/core/coordinates.py:147-152 | `%` on true division fails exactly when `/` does, with the same error |
| CoreCoordinates.DivModIdentity | src/bidimensional/core/coordinates.py:140-152 | on true division, (p // v) * v + p % v == p, and each remainder has the divisor's sign and is smaller than it |
| CoreCoordinates.Neg | src/bidimensional/core/coordinates.py:154-155 | unary `-` is the additive inverse |
| CoreCoordinates.Pos | src/bidimensional/core/coordinates.py:157-158 | unary `+` gives the same value |
| CoreCoordinates.NegInvolution | src/bidimensional/core/coordinates.py:154-155 | negating twice is the identity, and p - p is the origin |
| CoreCoordinates.AbsPoint | src/bidimensional/core/coordinates.py:160-161 | `abs` gives non-negative components equal to the originals up to sign |
| CoreCoordinates.AbsOfNeg | src/bidimensional/core/coordinates.py:154-161 | `abs` ignores a sign change and is idempotent |
| CoreCoordinates.FloorPoint | src/bidimensional/core/coordinates.py:172-173 | `floor` gives the greatest whole components at or below p |
| CoreCoordinates.CeilPoint | src/bidimensional/core/coordinates.py:175-176 | `ceil` gives the least whole components at or above p |
| CoreCoordinates.TruncPoint | src/bidimensional/core/coordinates.py:178-179 | `trunc` gives whole components of the same sign, with magnitude less than one below |
| CoreCoordinates.RoundingRelations | src/bidimensional/core/coordinates.py:172-179 | ceil is floor through negation; floor is idempotent; trunc is floor on non-negative and ceil on non-positive points |
| CoreCoordinates.CeilUnique | src/bidimensional/core/coordinates.py:175-176 | only one whole number satisfies the ceiling bounds |
| CoreCoordinates.CeilOfNeg | src/bidimensional/core/coordinates.py:175-176 | ceil(r) is -floor(-r) |
| CoreCoordinates.Round | src/bidimensional/core/coordinates.py:166-170 | TypeError exactly when n is not an int; otherwise each component is rounded with n digits |
| CoreCoordinates.Eq | src/bidimensional/core/coordinates.py:181-185 | `==` raises TypeError exactly for a non-coordinate; otherwise true iff both components are equal |
| CoreCoordinates.Ne | src/bidimensional/core/coordinates.py:187-191 | `!=` fails like `==` and is otherwise its negation |
| CoreCoordinates.EqualityExamples | src/bidimensional/core/coordinates.py:181-191 | (0,0) == (0,0), and (0, 0.00001) != (0,0) |
| CoreCoordinates.Truthy | src/bidimensional/core/coordinates.py:202-203 | a coordinate is false exactly when it is the origin |
| CoreCoordinates.Len | src/bidimensional/core/coordinates.py:205-206 | `len` is the number of components iteration yields |
| CoreCoordinates.Reversed | src/bidimensional/core/coordinates.py:228-230 | `reversed` yields the iteration order backwards |
| CoreCoordinates.GetItem | src/bidimensional/core/coordinates.py:208-214 | index 0 is x, index 1 is y, any other index raises IndexError |
| CoreCoordinates.ItemsDetermineValue | src/bidimensional/core/coordinates.py:208-226 | items agree with x and y, and two coordinates with equal items are equal |
| CoreCoordinates.Coordinate.constructor | src/bidimensional/core/coordinates.py:37-45 | a new coordinate holds both given components |
| CoreCoordinates.Coordinate.SetX | src/bidimensional/core/coordinates.py:56-69 | TypeError and nothing changed for a non-number; otherwise x is replaced and y kept |
| CoreCoordinates.Coordinate.SetY | src/bidimensional/core/coordinates.py:80-93 | TypeError and nothing changed for a non-number; otherwise y is replaced and x kept |
| CoreCoordinates.Coordinate.SetItem | src/bidimensional/core/coordinates.py:216-222 | without a type check, index 0/1 replaces that component and keeps the other; another index raises IndexError and changes nothing |
| CoreCoordinates.Coordinate.DelAttr | src/bidimensional/core/coordinates.py:240-246 | every call ends in AttributeError and changes nothing, "x" and "y" included |
| LegacyCoordinates.Coerce | src/bidimensional/coordinates.py:68-70 | a coordinate, or a tuple/list/set of exactly two numbers, is accepted as a coordinate; anything else is not |
| LegacyCoordinates.SequenceActsAsCoordinate | src/bidimensional/coordinates.py:68-122 | each of `+ - * / // %` gives the same result for a two-item sequence as for the coordinate built from it |
| LegacyCoordinates.OtherOperandsRejected | src/bidimensional/coordinates.py:68-122 | each of `+ - * / // %` raises TypeError for any other operand, including a sequence of another length |
| LegacyCoordinates.TupleDivExample | src/bidimensional/coordinates.py:95-102 | (1,1) / (1,2) is (1,-2), the same multiplication as the core `/`, where true division gives (1,0.5) |
| LegacyCoordinates.Lt | src/bidimensional/coordinates.py:154-158 | `<` raises TypeError for a non-coordinate; otherwise true iff every component is smaller |
| LegacyCoordinates.Le | src/bidimensional/coordinates.py:160-164 | `<=` raises TypeError for a non-coordinate; otherwise true iff no component is larger |
| LegacyCoordinates.Gt | src/bidimensional/coordinates.py:166-170 | `>` is `<` with the operands swapped, with the same TypeError |
| LegacyCoordinates.Ge | src/bidimensional/coordinates.py:172-176 | `>=` is `<=` with the operands swapped, with the same TypeError |
| LegacyCoordinates.ComponentwiseOrder | src/bidimensional/coordinates.py:154-176 | `<=` is reflexive, antisymmetric and transitive, `<` irreflexive and stronger than `<=` |
| LegacyCoordinates.OrderNotTotal | src/bidimensional/coordinates.py:160-176 | (0,1) and (1,0) are incomparable |
| LegacyCoordinates.Slope | src/bidimensional/coordinates.py:331-339 | ZeroDivisionError exactly for a vertical line; otherwise the slope times the run is the rise |
| LegacyCoordinates.Intersection | src/bidimensional/coordinates.py:341-364 | ZeroDivisionError when either line is vertical; otherwise None exactly for equal slopes |
| LegacyCoordinates.IntersectionAgreesWithCore | src/bidimensional/coordinates.py:341-364 | for non-vertical lines the result is that of `core/lines.py`, a point on both lines |
| LegacyCoordinates.VerticalLineRaises | src/bidimensional/coordinates.py:331-339 | a vertical line raises here, where the core revision substitutes a run of 1e-14 |
| LegacyCoordinates.Line.Init | src/bidimensional/coordinates.py:301-305 | the object `__init__` leaves once both setters accept: a and b stored, empty slope cache |
| LegacyCoordinates.Line.Create | src/bidimensional/coordinates.py:301-326 | TypeError exactly when a or b is not a coordinate, otherwise a fresh line holding a and b with an empty slope cache |
| LegacyCoordinates.Line.SetA | src/bidimensional/coordinates.py:311-317 | TypeError and nothing changed for a non-coordinate; otherwise a is replaced, b kept and the cache cleared |
| LegacyCoordinates.Line.SetB | src/bidimensional/coordinates.py:323-329 | TypeError and nothing changed for a non-coordinate; otherwise b is replaced, a kept and the cache cleared |
| LegacyCoordinates.Line.GetSlope | src/bidimensional/coordinates.py:331-339 | the slope of the current endpoints, stored in the cache when it exists |
| LegacyCoordinates.Line.Intersect | src/bidimensional/coordinates.py:341-367 | TypeError for a non-line; otherwise the intersection of the current endpoints, endpoints untouched |
| LegacyCoordinates.Line.Equals | src/bidimensional/coordinates.py:369-373 | TypeError for a non-line; otherwise equality of a with a and b with b, in order |
| LegacyCoordinates.Line.NotEquals | src/bidimensional/coordinates.py:375-379 | `!=` fails like `==` and is otherwise its negation |
| LegacyCoordinates.Line.GetItem | src/bidimensional/coordinates.py:384-390 | index 0 is a, index 1 is b, another index raises IndexError |
| LegacyCoordinates.Line.SetItem | src/bidimensional/coordinates.py:392-398 | index 0/1 goes through the validating setter of that endpoint; another index raises IndexError and changes nothing |
| LegacyCoordinates.Line.Reversed | src/bidimensional/coordinates.py:404-406 | iteration order backwards |
| LegacyCoordinates.OrderedEquality | src/bidimensional/coordinates.py:369-373 | the line p-q is not equal to q-p here, although the core revision treats them as equal |
| RootCoordinate.Scale | coordinate.py:61-63 | `*` by a number scales both components; a non-number raises TypeError |
| RootCoordinate.Div | coordinate.py:65-67 | `/` by a number raises TypeError for a non-number and ZeroDivisionError for zero, and nothing else |
| RootCoordinate.ScaleDivInverse | coordinate.py:61-67 | dividing undoes scaling and scaling undoes dividing, for a non-zero scalar |
| RootCoordinate.FloorDiv | coordinate.py:69-71 | `//` is the componentwise floor of `/`, failing exactly when `/` does |
| RootCoordinate.Mod | coordinate.py:73-75 | `%` fails exactly when `/` does, with the same error |
| RootCoordinate.DivModIdentity | coordinate.py:69-75 | (p // s) * s + p % s == p componentwise, each remainder with the sign of s and smaller |
| RootCoordinate.ComponentDivMod | coordinate.py:69-75 | the same identity for one component |
| RootCoordinate.Int | coordinate.py:205-206 | `int()` is the sum of the two components, each truncated toward zero |
| RootCoordinate.Float | coordinate.py:208-209 | `float()` is the sum of the components |
| RootCoordinate.IntNearFloat | coordinate.py:205-209 | `int()` and `float()` differ by less than 2, and agree when both components are whole |
| RootCoordinate.Coordinate2D.Init | coordinate.py:27-29 | the raw object holds the given components |
| RootCoordinate.Coordinate2D.Create | coordinate.py:27-49 | TypeError exactly when a component is not a number; otherwise the components unconverted |
| RootCoordinate.Coordinate2D.SetX | coordinate.py:35-39 | TypeError and nothing changed for a non-number; otherwise x replaced and y kept |
| RootCoordinate.Coordinate2D.SetY | coordinate.py:45-49 | TypeError and nothing changed for a non-number; otherwise y replaced and x kept |
| RootCoordinate.Coordinate2D.SetItem | coordinate.py:158-164 | IndexError outside 0/1, TypeError for a non-number, both changing nothing; otherwise that item replaced and the other kept |
| Operations.Distance | src/bidimensional/core/operations.py:17-33 | TypeError exactly when an argument is not a coordinate; otherwise the Euclidean distance |
| Operations.DistanceFacts | src/bidimensional/core/operations.py:17-33 | distance is symmetric, non-negative, and zero exactly between equal points |
| Operations.Midpoint | src/bidimensional/core/operations.py:62-78 | TypeError exactly when an argument is not a coordinate |
| Operations.MidpointHalves | src/bidimensional/core/operations.py:62-78 | the midpoint m has m - a == b - m, hence is as far from a as from b |
| Operations.Area | src/bidimensional/core/operations.py:81-100 | the loop with the trailing index j = -1 computes the absolute shoelace sum over edges (last, first), (first, second), …, halved; it is never negative |
| Operations.ShoelaceTriangle | src/bidimensional/core/operations.py:81-100 | on three vertices the area is half the absolute signed-area determinant |
| Operations.ShoelaceReversedTriangle | src/bidimensional/core/operations.py:81-100 | listing the vertices backwards negates the sum, so the area ignores orientation |
| Operations.ShoelaceUnitExample | src/bidimensional/core/operations.py:81-100 | (0,0), (1,1), (1,0) has area 0.5 |
| Operations.Values | src/bidimensional/core/operations.py:115-118 | the coordinates, once all arguments are checked |
| Operations.Perimeter | src/bidimensional/core/operations.py:103-118 | TypeError exactly when some argument is not a coordinate |
| Operations.PerimeterOfTriangle | src/bidimensional/core/operations.py:103-118 | for three coordinates the pairwise sum is the sum of the three sides |
| Operations.PerimeterOfQuadrilateral | src/bidimensional/core/operations.py:103-118 | for four coordinates the pairwise sum also counts both diagonals |
| Lines.Slope | src/bidimensional/core/lines.py:108-131 | the slope times the run is the rise, the run being 1e-14 for a vertical line |
| Lines.Intersection | src/bidimensional/core/lines.py:133-162 | None exactly when the slopes are equal |
| Lines.IntersectionOnBoth | src/bidimensional/core/lines.py:153-162 | the returned point satisfies both line equations |
| Lines.IntersectionUnique | src/bidimensional/core/lines.py:153-162 | any point on both lines of different slopes is the returned one |
| Lines.IntersectionSymmetric | src/bidimensional/core/lines.py:133-162 | intersecting l1 with l2 gives the same as l2 with l1 |
| Lines.DefiningPointsOnLine | src/bidimensional/core/lines.py:108-131 | both defining points of a non-vertical line satisfy its equation |
| Lines.LineIntersectionExample | src/bidimensional/core/lines.py:133-162 | (0,0)-(1,1) meets (-1,-1)-(-2,0) at (-1,-1) |
| Lines.SegmentIntersection | src/bidimensional/core/lines.py:357-392 | the line intersection, returned exactly when it lies in the closed endpoint ranges of both segments |
| Lines.BoxedPointOnSegment | src/bidimensional/core/lines.py:357-392 | a point in the box of a non-vertical segment and on its line is a + t(b - a) with t in [0, 1] |
| Lines.SegmentIntersectionOnSegments | src/bidimensional/core/lines.py:357-392 | a segment intersection lies between the endpoints of both segments |
| Lines.SegmentIntersectionExample | src/bidimensional/core/lines.py:357-392 | (0,0)-(1,1) meets (0,0)-(-1,1) at (0,0) |
| Lines.SameEndpointsMeaning | src/bidimensional/core/lines.py:193-205 | set equality of endpoints means the same endpoints in the same or swapped order |
| Lines.SegmentHashConsistent | src/bidimensional/core/lines.py:441-447 | segments that compare equal hash equally, whatever the element hashes |
| Lines.Line.Init | src/bidimensional/core/lines.py:46-56 | the object `__init__` leaves once both setters accept: a and b stored, empty cache |
| Lines.Line.Create | src/bidimensional/core/lines.py:46-106 | TypeError exactly when a or b is not a coordinate, otherwise a fresh line holding a and b with an empty cache |
| Lines.Line.SetA | src/bidimensional/core/lines.py:67-81 | TypeError and nothing changed for a non-coordinate; otherwise a replaced, b kept, cache cleared |
| Lines.Line.SetB | src/bidimensional/core/lines.py:92-106 | TypeError and nothing changed for a non-coordinate; otherwise b replaced, a kept, cache cleared |
| Lines.Line.GetSlope | src/bidimensional/core/lines.py:108-131 | the slope of the current endpoints, now held in the cache |
| Lines.Line.Intersect | src/bidimensional/core/lines.py:133-191 | `intersect` and `*`: TypeError for a non-line; otherwise the intersection of the current endpoints, endpoints untouched |
| Lines.Line.Equals | src/bidimensional/core/lines.py:193-205 | TypeError for a non-line; otherwise equality of the endpoint sets |
| Lines.Line.NotEquals | src/bidimensional/core/lines.py:207-219 | `!=` fails like `==` and is otherwise its negation |
| Lines.Line.GetItem | src/bidimensional/core/lines.py:229-246 | index 0 is a, index 1 is b, another index raises IndexError |
| Lines.Line.SetItem | src/bidimensional/core/lines.py:248-263 | index 0/1 goes through that endpoint's validating setter; another index raises IndexError and changes nothing |
| Lines.Line.Iter | src/bidimensional/core/lines.py:265-272 | iteration yields a then b |
| Lines.Line.Reversed | src/bidimensional/core/lines.py:274-281 | iteration order backwards |
| Lines.Segment.Init | src/bidimensional/core/lines.py:318-325 | the object `__init__` leaves once the inherited setters accept: a and b stored, empty slope and distance caches |
| Lines.Segment.Create | src/bidimensional/core/lines.py:318-325 | TypeError exactly when an endpoint is not a coordinate (through the inherited setters), otherwise a fresh segment holding a and b with empty caches |
| Lines.Segment.SetA | src/bidimensional/core/lines.py:67-81 | the inherited setter: TypeError and nothing changed, or a replaced and both caches cleared |
| Lines.Segment.SetB | src/bidimensional/core/lines.py:92-106 | the inherited setter: TypeError and nothing changed, or b replaced and both caches cleared |
| Lines.Segment.X | src/bidimensional/core/lines.py:327-334 | a.x plus the x displacement is b.x |
| Lines.Segment.Y | src/bidimensional/core/lines.py:336-343 | a.y plus the y displacement is b.y |
| Lines.Segment.Distance | src/bidimensional/core/lines.py:345-355 | the length of the segment, now held in the cache |
| Lines.Segment.Intersect | src/bidimensional/core/lines.py:357-392 | TypeError for a non-line; otherwise the bounded intersection, both operands' endpoints untouched |
| Lines.Segment.Equals | src/bidimensional/core/lines.py:413-425 | TypeError unless the argument is a segment; otherwise equality of endpoint sets |
| Lines.Segment.NotEquals | src/bidimensional/core/lines.py:427-439 | accepts any line, unlike `==`: TypeError only for a non-line, otherwise inequality of endpoint sets |
| Lines.Segment.Hash | src/bidimensional/core/lines.py:441-447 | the hash does not depend on endpoint order |
| CircumKernel.Circumscribe | src/bidimensional/polygons/triangle.py:228-316 | the construction either raises ZeroDivisionError or gives a radius equal to the centre's distance to a |
| CircumKernel.Relabel | src/bidimensional/polygons/triangle.py:217-226 | the two conditional swaps keep the multiset of vertices |
| CircumKernel.RelabelClearsVertical | src/bidimensional/polygons/triangle.py:217-226 | for a non-collinear triple, ab and ac have non-zero x displacement after relabelling |
| CircumKernel.DetSwaps | src/bidimensional/polygons/triangle.py:217-226 | swapping two vertices negates the determinant |
| CircumKernel.CircumscribeDefined | src/bidimensional/polygons/triangle.py:228-316 | with a genuine square root the construction succeeds exactly when ab and ac are not vertical and the vertices are not collinear |
| CircumKernel.CenterOnBisectors | src/bidimensional/polygons/triangle.py:228-316 | whenever the construction succeeds, the centre is equidistant from a, b and c |
| CircumKernel.ConstructionCircumscribes | src/bidimensional/polygons/triangle.py:228-316 | whenever the construction succeeds, its circle passes through all three vertices |
| CircumKernel.EquidistantUnique | src/bidimensional/polygons/triangle.py:228-316 | three non-collinear points have at most one equidistant point |
| CircumKernel.CircleUnique | src/bidimensional/polygons/triangle.py:228-316 | three non-collinear points lie on exactly one circle |
| CircumKernel.RelabelledCircumscribes | src/bidimensional/polygons/triangle.py:217-316 | on a non-collinear triple, relabelling then constructing gives the circle through the original vertices |
| CircumKernel.RelabelledCircleSymmetric | src/bidimensional/polygons/triangle.py:217-316 | the relabelled construction gives the same circle for any order of the same vertices |
| CircumKernel.DetOfSameSet | src/bidimensional/polygons/triangle.py:172-210 | the determinant of a reordering is the same up to sign |
| CircumKernel.GatedCircle | src/bidimensional/circumcircle.py:185-302 | ValueError exactly for a zero determinant; the only other failure is ZeroDivisionError |
| CircumKernel.GatedCircleCircumscribes | src/bidimensional/circumcircle.py:185-302 | with a genuine square root the gated construction succeeds exactly on non-collinear input, with the circle through the vertices |
| CircumKernel.NotConcyclic | src/bidimensional/polygons/triangle.py:228-316 | two points of a set at different squared distances from a centre rule out every circle about that centre through the set |
| CircumKernel.CircumscribedEquidistant | src/bidimensional/polygons/triangle.py:228-316 | the centre of a circle through three points is equally far from each of them |
| CircumKernel.ExampleEquidistant | src/bidimensional/polygons/triangle.py:228-316 | the only point equally far from (0,0), (2,0) and (0,2) is (1,1), the centre of their circle |
| CircumKernel.ExampleFar | src/bidimensional/polygons/triangle.py:228-316 | no circle centred at (1,1) passes through both (0,0) and (4,4) |
| Triangles.SlopeCollinearIffDet | src/bidimensional/polygons/triangle.py:172-210 | the slope test (all x equal, all y equal, or two defined slopes equal) holds exactly when the determinant is zero |
| Triangles.HasEqualPairSmall | src/bidimensional/polygons/triangle.py:207-210 | a list of up to three slopes has a repeated pair exactly when two entries are equal |
| Triangles.CollinearExamples | src/bidimensional/polygons/triangle.py:611-651 | (0,0),(1,1),(2,2), (0,0),(0,1),(0,-1) and (0,0),(1,0),(-1,0) are collinear; (0,0),(1,1),(2,3) is not |
| Triangles.AnyEqualPair | src/bidimensional/polygons/triangle.py:207-210 | the nested scan finds a repeated pair exactly when one exists |
| Triangles.CollinearBySlopes | src/bidimensional/polygons/triangle.py:611-651 | the appended-slopes test decides exactly the vanishing of the determinant |
| Triangles.CircleOf | src/bidimensional/polygons/triangle.py:172-316 | ValueError exactly for collinear vertices; the only other failure is ZeroDivisionError |
| Triangles.CircleOfIsGated | src/bidimensional/polygons/triangle.py:172-316 | gating by slopes or by the determinant gives the same circle |
| Triangles.CircleOfCircumscribes | src/bidimensional/polygons/triangle.py:172-316 | with a genuine square root a non-collinear triangle has a circle, through all three vertices |
| Triangles.CircleOfSymmetric | src/bidimensional/polygons/triangle.py:172-316 | the circle does not depend on the order of the vertices |
| Triangles.Circumcircle.Init | src/bidimensional/polygons/triangle.py:42-44 | the raw object holds the given vertices |
| Triangles.Circumcircle.Create | src/bidimensional/polygons/triangle.py:42-45 | TypeError for a non-coordinate c; otherwise success exactly when the circle exists, with the relabelled vertices and the circle stored |
| Triangles.Circumcircle.EnsureNonCollinear | src/bidimensional/polygons/triangle.py:172-210 | returns normally exactly when the determinant is non-zero, otherwise ValueError |
| Triangles.Circumcircle.Calculate | src/bidimensional/polygons/triangle.py:212-316 | ValueError with nothing touched for collinear vertices; otherwise relabels in place and stores centre and radius, a circle through the old vertices |
| Triangles.Circumcircle.SetA | src/bidimensional/polygons/triangle.py:61-80 | TypeError and nothing changed for a non-coordinate; otherwise replaces a and recalculates |
| Triangles.Circumcircle.SetB | src/bidimensional/polygons/triangle.py:96-115 | TypeError and nothing changed for a non-coordinate; otherwise replaces b and recalculates |
| Triangles.Circumcircle.SetC | src/bidimensional/polygons/triangle.py:131-150 | TypeError and nothing changed for a non-coordinate; otherwise replaces c and recalculates |
| Triangles.Weights | src/bidimensional/polygons/triangle.py:791-809 | ZeroDivisionError exactly for a degenerate triangle; otherwise three weights summing to 1 |
| Triangles.ContainsPoint | src/bidimensional/polygons/triangle.py:773-811 | ZeroDivisionError exactly for a degenerate triangle |
| Triangles.WeightsReconstruct | src/bidimensional/polygons/triangle.py:791-809 | the weights reproduce the point as a combination of the vertices |
| Triangles.CombinationWeights | src/bidimensional/polygons/triangle.py:791-809 | the weights of a combination are its own coefficients |
| Triangles.ContainsIffConvex | src/bidimensional/polygons/triangle.py:773-811 | every convex combination of the vertices is contained |
| Triangles.ContainedIsConvex | src/bidimensional/polygons/triangle.py:773-811 | every contained point is a convex combination of the vertices |
| Triangles.VerticesContained | src/bidimensional/polygons/triangle.py:773-811 | the vertices themselves are contained, although the docstring says edges are excluded |
| Triangles.AreaOf | src/bidimensional/polygons/triangle.py:472-484 | the area is half the absolute determinant |
| Triangles.AreaOfSameSet | src/bidimensional/polygons/triangle.py:472-484 | the area depends only on the set of vertices |
| Triangles.SidesPerimeterDistinct | src/bidimensional/polygons/triangle.py:485-500 | with distinct vertices the perimeter is the three sides, equal to `perimeter(a, b, c)` |
| Triangles.SidesPerimeterRepeated | src/bidimensional/polygons/triangle.py:454-500 | with a repeated vertex the set of sides drops the duplicate |
| Triangles.PerimeterFromSquares | src/bidimensional/polygons/triangle.py:485-500 | the perimeter from the squared side lengths |
| Triangles.PerimeterExample | src/bidimensional/polygons/triangle.py:485-500 | (0,0), (1,1), (1,0) has perimeter sqrt(2) + 2 |
| Triangles.AreaExample | src/bidimensional/polygons/triangle.py:472-484 | (0,0), (1,1), (1,0) has area 0.5 |
| Triangles.OrderNotTotal | src/bidimensional/polygons/triangle.py:716-771 | two different triangles of equal area: none of `>=`, `<` and `<=` holds between them |
| Triangles.Triangle.Init | src/bidimensional/polygons/triangle.py:348-350 | the raw object holds the vertices with an empty cache |
| Triangles.Triangle.Create | src/bidimensional/polygons/triangle.py:348-354 | TypeError exactly when a vertex is not a coordinate; otherwise the vertices with an empty cache |
| Triangles.Triangle.SetA | src/bidimensional/polygons/triangle.py:366-381 | TypeError and nothing changed for a non-coordinate; otherwise a replaced and every cached property cleared |
| Triangles.Triangle.SetB | src/bidimensional/polygons/triangle.py:393-408 | as `SetA`, for b |
| Triangles.Triangle.SetC | src/bidimensional/polygons/triangle.py:420-435 | as `SetA`, for c |
| Triangles.Triangle.Area | src/bidimensional/polygons/triangle.py:472-484 | half the absolute determinant of the current vertices, now cached |
| Triangles.Triangle.Perimeter | src/bidimensional/polygons/triangle.py:485-500 | the lengths of the distinct sides summed once each, now cached |
| Triangles.Triangle.Circumcenter | src/bidimensional/polygons/triangle.py:518-532 | the centre of the circle of the current vertices, or its error |
| Triangles.Triangle.Circumradius | src/bidimensional/polygons/triangle.py:533-546 | the radius of the circle of the current vertices, or its error |
| Triangles.Triangle.GetCircle | src/bidimensional/polygons/triangle.py:518-546 | the cached circumcircle is that of the current vertices |
| Triangles.Triangle.IsCollinear | src/bidimensional/polygons/triangle.py:611-651 | true exactly when the determinant is zero |
| Triangles.Triangle.Contains | src/bidimensional/polygons/triangle.py:773-811 | ZeroDivisionError exactly when degenerate; true only for a convex combination of the vertices |
| Triangles.Triangle.Equals | src/bidimensional/polygons/triangle.py:689-702 | TypeError for a non-triangle; otherwise equality of the vertex sets |
| Triangles.Triangle.NotEquals | src/bidimensional/polygons/triangle.py:704-714 | the negation of `==`, with the same TypeError |
| Triangles.Triangle.Greater | src/bidimensional/polygons/triangle.py:716-730 | TypeError for a non-triangle; otherwise larger area |
| Triangles.Triangle.Less | src/bidimensional/polygons/triangle.py:745-758 | TypeError for a non-triangle; otherwise smaller area |
| Triangles.Triangle.GreaterOrEqual | src/bidimensional/polygons/triangle.py:732-743 | strictly larger or equal vertex sets; an equal triangle qualifies and is neither larger nor smaller |
| Triangles.Triangle.LessOrEqual | src/bidimensional/polygons/triangle.py:760-771 | strictly smaller or equal vertex sets |
| LegacyCircumcircle.Circumcircle.Init | src/bidimensional/circumcircle.py:37-50 | the raw vertices with the flag left set |
| LegacyCircumcircle.Circumcircle.Create | src/bidimensional/circumcircle.py:37-52 | success exactly when the gated circle exists; relabelled vertices, circle stored, flag still set |
| LegacyCircumcircle.Circumcircle.EnsureNonCollinear | src/bidimensional/circumcircle.py:185-196 | normal return exactly for a non-zero determinant, otherwise ValueError |
| LegacyCircumcircle.Circumcircle.Calculate | src/bidimensional/circumcircle.py:198-302 | ValueError with nothing touched for collinear vertices; otherwise relabels in place and stores a circle through the old vertices |
| LegacyCircumcircle.Circumcircle.SetA | src/bidimensional/circumcircle.py:68-89 | TypeError and nothing changed for a non-coordinate; with the flag set, a replaced and centre and radius left as they were; otherwise a replaced and recalculated |
| LegacyCircumcircle.Circumcircle.SetB | src/bidimensional/circumcircle.py:105-126 | as `SetA`, for b |
| LegacyCircumcircle.Circumcircle.SetC | src/bidimensional/circumcircle.py:142-163 | as `SetA`, for c |
| LegacyCircumcircle.StaleAfterSet | src/bidimensional/circumcircle.py:44-89 | after construction and a setter call, the stored circle is still the one through the old vertices |
| LegacyCircumcircle.StaleWitness | src/bidimensional/circumcircle.py:44-89 | for (0,0), (2,0), (0,2) then a := (4,4): the centre of the old circle is (1,1), and no circle about it passes through the stored vertices |
| LegacyCircumcircle.ExampleInputs | src/bidimensional/circumcircle.py:44-89 | those inputs meet the requirements of both scenario methods |
| LegacyCircumcircle.Circumcircle.CreateIntended | src/bidimensional/circumcircle.py:37-52 | the constructor with the flag cleared after the first calculation |
| LegacyCircumcircle.RecomputedAfterSet | src/bidimensional/circumcircle.py:68-89 | with the flag cleared, a setter call leaves a circle through the stored vertices |
| RootCircumcenter.Circumcenter.Init | circumcenter.py:45-48 | the raw field writes |
| RootCircumcenter.Circumcenter.Create | circumcenter.py:41-54 | TypeError for a non-coordinate a; AttributeError from the construction when b or c is not one and lacks `.x`/`.y`; otherwise three recalculations on the caller's order |
| RootCircumcenter.Circumcenter.Calculate | circumcenter.py:181-272 | Done with the constructed circle exactly when the construction succeeds; otherwise ZeroDivisionError with the old values kept |
| RootCircumcenter.Circumcenter.SetA | circumcenter.py:70-89 | TypeError and nothing changed for a non-coordinate; otherwise a replaced and recalculated |
| RootCircumcenter.Circumcenter.SetB | circumcenter.py:105-124 | as `SetA`, for b |
| RootCircumcenter.Circumcenter.SetC | circumcenter.py:140-159 | as `SetA`, for c |
| RootCircumcenter.UnguardedDomain | circumcenter.py:181-272 | the construction succeeds exactly when ab and ac are not vertical and the triangle is not collinear, and then circumscribes it; every failure is ZeroDivisionError |
| RootCircumcenter.VerticalSideRejected | circumcenter.py:181-272 | a valid triangle with a vertical side ab fails, where the relabelling revisions find its circle |
| SplineFit.Diffs | src/bidimensional/functions/spline.py:47-48 | `numpy.diff`: one fewer entry, each the difference of consecutive values |
| SplineFit.IncreasingGaps | src/bidimensional/functions/spline.py:47-48 | increasing knots have positive gaps |
| SplineFit.RowDotBand | src/bidimensional/functions/spline.py:159-183 | the matrix is tridiagonal: a row product only sees the band |
| SplineFit.DiagonallyDominant | src/bidimensional/functions/spline.py:159-183 | with positive gaps every entry is non-negative and each diagonal entry exceeds the rest of its row |
| SplineFit.Rhs | src/bidimensional/functions/spline.py:185-203 | one right-hand-side entry per value |
| SplineFit.NaturalBoundary | src/bidimensional/functions/spline.py:57-60 | any solution of the system has b[0] = b[n-1] = 0 |
| SplineFit.SolvedRow | src/bidimensional/functions/spline.py:57-60 | an interior row of the solved system, read off the band |
| SplineFit.CalcMatrixA | src/bidimensional/functions/spline.py:159-183 | the loop fills an n x n array whose entries are the unit end rows and the h, 2(h+h'), h' band, zero elsewhere |
| SplineFit.CalcMatrixB | src/bidimensional/functions/spline.py:185-203 | the loop fills a vector of zeros at both ends and 3(dy/h' - dy/h) in between |
| SplineFit.CoeffC | src/bidimensional/functions/spline.py:66-70 | one coefficient c per segment |
| SplineFit.CoeffA | src/bidimensional/functions/spline.py:72-73 | one coefficient a per segment |
| SplineFit.SegmentReachesRight | src/bidimensional/functions/spline.py:66-73 | a segment built by the c and a formulas ends at the next value |
| SplineFit.SegmentCurveRight | src/bidimensional/functions/spline.py:72-73 | its second derivative at the right end is 2 b[i+1] |
| SplineFit.SegmentSlopeRight | src/bidimensional/functions/spline.py:66-73 | its first derivative at the right end in terms of y and b |
| SplineFit.BisectRight | src/bidimensional/functions/spline.py:205-216 | the insertion point is at most the length |
| SplineFit.BisectSplits | src/bidimensional/functions/spline.py:205-216 | every knot before the insertion point is at most t and every one after exceeds it |
| SplineFit.SplineBase.Init | src/bidimensional/functions/spline.py:41-73 | the fitted object over knots, values and a solution |
| SplineFit.SplineBase.Create | src/bidimensional/functions/spline.py:41-73 | IndexError exactly for fewer than two knots; otherwise the fit with d the values and c, a from the formulas |
| SplineFit.SplineBase.SearchIndex | src/bidimensional/functions/spline.py:205-216 | the largest i with x[i] <= t: a segment index below the last knot, n-1 at the last knot |
| SplineFit.SplineBase.Position | src/bidimensional/functions/spline.py:75-102 | None exactly outside [x0, xn-1]; IndexError exactly at the last knot |
| SplineFit.SplineBase.FirstDerivative | src/bidimensional/functions/spline.py:104-130 | None exactly outside the range; IndexError exactly at the last knot |
| SplineFit.SplineBase.SecondDerivative | src/bidimensional/functions/spline.py:132-157 | None exactly outside the range; IndexError exactly at the last knot |
| SplineFit.SplineBase.ClampedIndex | src/bidimensional/functions/spline.py:205-216 | the intended segment: within the segments and containing t |
| SplineFit.SplineBase.ClampedPosition | src/bidimensional/functions/spline.py:75-102 | defined on the whole closed range and equal to `position` wherever that answers |
| SplineFit.SplineBase.ClampedFirstDerivative | src/bidimensional/functions/spline.py:104-130 | as `ClampedPosition`, for the first derivative |
| SplineFit.SplineBase.ClampedSecondDerivative | src/bidimensional/functions/spline.py:132-157 | as `ClampedPosition`, for the second derivative |
| SplineFit.InterpolatesAtLeftKnots | src/bidimensional/functions/spline.py:94-102 | the spline passes through each data point that starts a segment |
| SplineFit.Coefficients | src/bidimensional/functions/spline.py:51-73 | d is the values and each segment satisfies the c and a formulas |
| SplineFit.SegmentEndsAtNextValue | src/bidimensional/functions/spline.py:66-73 | each segment ends at the next data value, whatever b is |
| SplineFit.SecondDerivativeContinuous | src/bidimensional/functions/spline.py:154-157 | the second derivative is continuous across knots |
| SplineFit.FirstDerivativeContinuous | src/bidimensional/functions/spline.py:57-73 | the first derivative is continuous across interior knots, by the solved system |
| SplineFit.InteriorRow | src/bidimensional/functions/spline.py:159-203 | an interior row of the solved system in terms of the knots |
| SplineFit.NaturalEnds | src/bidimensional/functions/spline.py:57-60 | zero second derivative at both ends |
| SplineFit.LastKnotRaises | src/bidimensional/functions/spline.py:205-216 | all three queries raise IndexError at the last knot, where the clamped position is the last value |
| Splines.Knots | src/bidimensional/functions/spline.py:376-387 | one knot per coordinate, starting at 0, each adding the distance to the next coordinate |
| Splines.HypotOfStep | src/bidimensional/functions/spline.py:376-387 | each knot step is non-negative and zero only between equal coordinates |
| Splines.KnotStep | src/bidimensional/functions/spline.py:376-387 | consecutive knots never decrease and stay equal exactly for repeated coordinates |
| Splines.KnotsNondecreasing | src/bidimensional/functions/spline.py:376-387 | the knots never decrease |
| Splines.KnotsIncreasing | src/bidimensional/functions/spline.py:376-387 | the knots strictly increase exactly when no two consecutive coordinates coincide |
| Splines.DistinctKnots | src/bidimensional/functions/spline.py:376-387 | distinct consecutive coordinates give strictly increasing knots |
| Splines.RepeatedKnot | src/bidimensional/functions/spline.py:376-387 | a repeated coordinate repeats a knot |
| Splines.Grid | src/bidimensional/functions/spline.py:455-460 | `numpy.arange` in exact arithmetic: start + j * step |
| Splines.GridBounds | src/bidimensional/functions/spline.py:455-460 | every grid point lies in [start, stop), the grid reaches stop, and a non-empty range starts at start |
| Splines.PositionAt | src/bidimensional/functions/spline.py:389-402 | the point whose coordinates both fits answer at t |
| Splines.CurvatureAt | src/bidimensional/functions/spline.py:404-428 | all four derivatives answer at t, and the speed term is non-negative |
| Splines.YawAt | src/bidimensional/functions/spline.py:430-446 | the two first derivatives that `atan2` receives |
| Splines.SampleGrid | src/bidimensional/functions/spline.py:448-470 | every sample lies in [first knot, last knot), starting at the first knot |
| Splines.Positions | src/bidimensional/functions/spline.py:448-470 | one position per sample, in sample order |
| Splines.Curvatures | src/bidimensional/functions/spline.py:448-470 | one curvature per sample, in sample order |
| Splines.Yaws | src/bidimensional/functions/spline.py:448-470 | one yaw per sample, in sample order |
| Splines.Spline.Init | src/bidimensional/functions/spline.py:245-256 | the fields of a constructed spline, consistent with its fits and results |
| Splines.Spline.Create | src/bidimensional/functions/spline.py:245-256 | IndexError exactly for fewer than two coordinates; otherwise x, y, knots, the two fits and the unchecked step are stored |
| Splines.Spline.SetX | src/bidimensional/functions/spline.py:268-282 | TypeError and nothing changed for anything but a list or tuple (numpy arrays included) or for a non-number item; otherwise x alone replaced |
| Splines.Spline.SetY | src/bidimensional/functions/spline.py:294-308 | as `SetX`, for y |
| Splines.Spline.SetGenerationStep | src/bidimensional/functions/spline.py:320-334 | TypeError for a non-number, ValueError for a step <= 0, both changing nothing; otherwise the step alone replaced |
| Splines.Spline.Len | src/bidimensional/functions/spline.py:555-556 | the number of stored x values |
| Splines.KnotsOfSpline | src/bidimensional/functions/spline.py:252-254 | a constructed spline has one knot per coordinate, from 0, strictly increasing |
| Splines.FirstSampleIsFirstCoordinate | src/bidimensional/functions/spline.py:448-470 | the first position is the first coordinate |
| Splines.ResultsAligned | src/bidimensional/functions/spline.py:448-470 | positions, curvature and yaw are aligned on the same in-range sample |
| Polygons.Padding | src/bidimensional/polygons/polygon.py:44-64 | `ceil(n / 26)`: the shortest label length giving at least n labels, zero only for n = 0 |
| Polygons.Prefix | src/bidimensional/polygons/polygon.py:44-64 | each word gets the letter in front |
| Polygons.LettersChains | src/bidimensional/polygons/polygon.py:44-64 | A..Z increases, Z..A decreases, and both hold the same letters |
| Polygons.CrMembers | src/bidimensional/polygons/polygon.py:44-64 | `combinations_with_replacement` over an ordered alphabet yields exactly the ordered words of the length over it |
| Polygons.WordsMembers | src/bidimensional/polygons/polygon.py:44-64 | the enumeration holds exactly the words of the length over the alphabet |
| Polygons.WordsSorted | src/bidimensional/polygons/polygon.py:44-64 | over an increasing alphabet the words are in strictly increasing order |
| Polygons.SortedDistinct | src/bidimensional/polygons/polygon.py:44-64 | sorted labels are distinct |
| Polygons.Keep | src/bidimensional/polygons/polygon.py:44-64 | keeps exactly the labels among the words |
| Polygons.Labels | src/bidimensional/polygons/polygon.py:44-64 | the labels of a length are sorted and distinct |
| Polygons.LabelsAreSortedCombinations | src/bidimensional/polygons/polygon.py:44-64 | the labels are exactly the joins from A..Z and from Z..A, sorted without repeats |
| Polygons.SingleLetterLabels | src/bidimensional/polygons/polygon.py:44-64 | for length one the labels are "A" to "Z" in order |
| Polygons.Zip | src/bidimensional/polygons/polygon.py:88-94 | every key is one of the first min(labels, vertices) labels |
| Polygons.ZipValues | src/bidimensional/polygons/polygon.py:88-94 | the k-th label maps to the k-th vertex |
| Polygons.ZipSize | src/bidimensional/polygons/polygon.py:88-94 | distinct labels lose no pair: min(labels, vertices) entries |
| Polygons.Annotate | src/bidimensional/polygons/polygon.py:88-94 | min(label count, vertex count) entries |
| Polygons.AnnotateSingleLetters | src/bidimensional/polygons/polygon.py:44-94 | for 1 to 26 vertices the k-th vertex is stored under the k-th letter, with no other key |
| Polygons.TriangleLabels | src/bidimensional/polygons/polygon.py:44-94 | three vertices are stored as A, B and C |
| Polygons.Polygon.Init | src/bidimensional/polygons/polygon.py:36-42 | the vertices annotated |
| Polygons.Polygon.Create | src/bidimensional/polygons/polygon.py:36-42 | TypeError exactly when some vertex is not a coordinate; otherwise the annotated vertices |
| Polygons.Polygon.SetVertices | src/bidimensional/polygons/polygon.py:75-94 | TypeError with nothing changed when any vertex is not a coordinate; otherwise the annotated vertices replace the old ones |

## Left out

- Plotting (`plot`, `plot_*`, the styles): drawing, not geometry. The console warning `Line.slope` prints for a vertical line (`core/lines.py`) is an output effect and is not modelled either; `Lines.Line.GetSlope` returns the same value without it.
- Floating point. Coordinates are exact reals, so rounding, `1e-14` perturbations and `numpy.arange` quirks are not modelled. The only exception is the 1e-14 run of a vertical line, kept as a constant.
- `sqrt`/`hypot`: a parameter, with `IsSqrt` where the square root must be genuine.
- `acos`/`degrees`, and therefore `angle`, `Triangle.angles` and `is_right`/`is_obtuse`/`is_acute`/`is_equilateral`/`is_isosceles`/`is_scalene`: these classify angles by floating-point comparison.
- `atan2` and `** 1.5`: the yaw and curvature are kept as the arguments those functions receive (`Yaw`, `Curvature`).
- `numpy.linalg.solve`: the solution b is an input that must solve the system built by `CalcMatrixA`/`CalcMatrixB`.
- SplineFit.SplineBase.Create: the knots must strictly increase. With a repeated coordinate numpy divides by a zero gap (inf/nan), which has no exact counterpart.
- Splines.Spline.Create: it requires a positive step. The source stores any step unchecked, and `numpy.arange` with a step <= 0 is not modelled.
- The `ValueError` check on the lengths of x and y in the `Spline` constructor cannot fire: both lists come from the same coordinates.
- `Spline.yaw` returns the bound method `plot_yaw` instead of the yaw list. The model keeps the yaw list the results computed and does not model a method value.
- `Spline.knots`, `positions`, `curvature`: plain getters of the stored fields.
- `__str__`, `__repr__`, `__hash__` values of the coordinate classes and lines, `__invert__` (raises on floats), `__pow__`, `__copy__`, `__getattr__`, `__bytes__`, `__complex__`, `__oct__`, `__hex__`, `__index__`, `__coerce__`, `__format__`, `__getstate__`/`__setstate__`/`__reduce__`: conversion and protocol plumbing with no geometric content.
- `Line.__hash__` in `core/lines.py` hashes the ordered pair while `==` compares endpoint sets, so equal lines can hash differently. Hash values are not modelled; `Segment.__hash__` is, because it is symmetric.
- The `coordinates.py` Coordinate's `__delattr__` and the early `Line.__delattr__`/`__getattr__`: attribute plumbing; the core revision's `__delattr__` is modelled.
- `coordinate.py`'s `__delattr__`: `del self.x` (or `del self.y`) inside it calls `__delattr__` again with the same name, so deleting x or y recurses until RecursionError, and every other name raises AttributeError. The model has no counterpart for recursion-depth exhaustion, so this method is not modelled.
- Lines.Line.Equals: models `Line.__eq__` alone. For `line == segment` Python first calls the reflected `Segment.__eq__`, because `Segment` is a subclass that overrides it, and that raises TypeError because the line is not a segment. The model passes a segment as its `line`, so it answers Ok for that comparison, and the TypeError is not modelled.
- RootCircumcenter.Circumcenter.Create: a mistyped `b` or `c` is taken to lack `.x`/`.y`, so the model answers AttributeError. An object that carries numeric `.x`/`.y` but is not a `Coordinate2D` (a core `Coordinate`, say) passes the calculation and ends in ZeroDivisionError from it or in TypeError from its own setter; the model does not promise those outcomes.
- Arguments the source never type-checks are taken as `Point` (or `real`): `a` and `b` of `Triangles.Circumcircle.Create`, the vertices of `LegacyCircumcircle.Circumcircle.Create`/`CreateIntended`, the points of `Operations.Area`, the point of `Triangles.Triangle.Contains` (a non-coordinate raises AttributeError on `value.x` before any ZeroDivisionError), the coordinates given to `Splines.Spline.Create`, the components of the `CoreCoordinates.Coordinate` constructor, and the items of a sequence that `LegacyCoordinates.Coerce` turns into a coordinate (`Coordinate(*value)` runs `float()` on them, so ("1", "2") is accepted and ("a", "b") raises ValueError; the model's items are reals). A wrong argument there fails later, on attribute access (AttributeError) or inside `float()` (ValueError or TypeError), and that failure is not modelled.
- `round(x, n)` with n digits: `CoreCoordinates.Round` takes the rounding function as a parameter.
- Polygons.AnnotateSingleLetters: proved for up to 26 vertices. For more vertices the model states the size of the map (`Annotate`, `ZipSize`) and the labels' membership and order (`LabelsAreSortedCombinations`), not which label each vertex gets.
- `Polygon.plot` and the `vertices` getter. `tests/polygons/test_polygon.py` expects ValueError for fewer than three or duplicate vertices, and `sides`/`area`/`perimeter`/`__eq__`. `polygon.py` implements none of these, so they are not modelled.
- Operations.Midpoint: its value is stated through `MidpointHalves` rather than in its own contract.
- Operations.Perimeter and Operations.Values: the value is stated through `PerimeterOfTriangle` and `PerimeterOfQuadrilateral`.
- `src/bidimensional/operations.py`, `src/bidimensional/polygons.py` and `src/polygons.py` are not part of this model. They wrap `sqrt`/`acos` or `Triangle`.

## Findings

| source | as written | input that shows it | evidently intended | confidence | as-written member | corrected member |
|---|---|---|---|---|---|---|
| src/bidimensional/core/coordinates.py:134-152 | `/` multiplies by (v.x, -v.y), and `//` and `%` are built on it | (1,1) / (2,2) gives (2,-2) | componentwise division, with `(p // v) * v + p % v == p` | not executed | CoreCoordinates.DivAsWrittenCounterexample | CoreCoordinates.DivModIdentity |
| src/bidimensional/coordinates.py:95-122 | the same multiplication for `/`, also for a tuple operand | (1,1) / (1,2) gives (1,-2) | (1, 0.5) | not executed | LegacyCoordinates.TupleDivExample | CoreCoordinates.TrueDivInverse |
| src/bidimensional/circumcircle.py:44-89 | `__init__` leaves `_initial_setting` True, so the setters never recalculate | (0,0),(2,0),(0,2), then a = (4,4): the centre stays (1,1), off the new triangle's circle | the flag cleared after the first calculation, so that setters recompute | not executed | LegacyCircumcircle.StaleWitness | LegacyCircumcircle.RecomputedAfterSet |
| src/circumcenter.py:49-94 | the same flag left True, so the setters never recalculate | (0,0),(2,0),(0,2), then a = (4,4) | setters recompute circumcenter and circumradius | not executed | LegacyCircumcircle.StaleAfterSet | LegacyCircumcircle.Circumcircle.CreateIntended |
| circumcenter.py:181-272 | no relabelling: a vertical side ab divides by zero | (0,0),(0,2),(2,0) raises ZeroDivisionError | the circle through any non-collinear triple | not executed | RootCircumcenter.VerticalSideRejected | CircumKernel.GatedCircleCircumscribes |
| src/bidimensional/functions/spline.py:205-216 | at t = x[-1] the search index is n-1, past the last coefficient | any spline queried at its last knot raises IndexError | the last segment is used, giving y[-1] | not executed | SplineFit.LastKnotRaises | SplineFit.SplineBase.ClampedPosition |
