/** The map, its cells and the vision boxes (World.h, World.cpp). Everything here is geometry: no
    sessions yet. A vision box is the set of cells on the map within Chebyshev distance
    `vision` of its centre. */
module Grid {

  datatype Cell = Cell(x: int, y: int)

  datatype Pos = Pos(x: real, y: real)

  function Dist(a: int, b: int): nat {
    if a < b then b - a else a - b
  }

  function Min(a: int, b: int): int {
    if a < b then a else b
  }

  function Max(a: int, b: int): int {
    if a < b then b else a
  }

  /** Chebyshev distance at most r. */
  predicate Near(a: Cell, b: Cell, r: int) {
    Dist(a.x, b.x) <= r && Dist(a.y, b.y) <= r
  }

  /** The closed disc of radius r around p. */
  predicate InDisc(p: Pos, q: Pos, r: real) {
    (q.x - p.x) * (q.x - p.x) + (q.y - p.y) * (q.y - p.y) <= r * r
  }

  /** A C++ conversion from float to int: the fraction is dropped, toward zero. */
  function Trunc(v: real): int {
    if v >= 0.0 then v.Floor else -((-v).Floor)
  }

  /** C++ integer division, which also rounds toward zero. */
  function TruncDiv(n: int, d: int): int
    requires d > 0
  {
    if n >= 0 then n / d else -((-n) / d)
  }

  /** MAP_SIZE, GRID_SIZE and VISION_RANGE. */
  datatype Constants = Constants(mapSize: int, gridSize: int, vision: int)

  type Area = a: Constants | 0 < a.gridSize <= a.mapSize && 0 <= a.vision
    witness Constants(1000, 100, 1)

  /** GRID_COUNT */
  function Count(a: Area): (n: int)
    ensures n >= 1
  {
    CountPositive(a.mapSize, a.gridSize);
    a.mapSize / a.gridSize
  }

  predicate IsInvalid(a: Area, c: Cell) {
    c.x < 0 || c.y < 0 || c.x >= Count(a) || c.y >= Count(a)
  }

  function Axis(a: Area, v: real): (g: int)
    ensures 0 <= g < Count(a)
  {
    var g := TruncDiv(Trunc(v), a.gridSize);
    var g := if g < 0 then 0 else g;
    if g >= Count(a) then Count(a) - 1 else g
  }

  function GetGridPos(a: Area, p: Pos): (c: Cell)
    ensures !IsInvalid(a, c)
  {
    Cell(Axis(a, p.x), Axis(a, p.y))
  }

  /** The cell is in the vision box of `centre`. */
  predicate InBox(a: Area, c: Cell, centre: Cell) {
    !IsInvalid(a, c) && Near(c, centre, a.vision)
  }

  /** The cell is in the vision box of `from` and not in that of `to`. */
  predicate InStripe(a: Area, c: Cell, from: Cell, to: Cell) {
    InBox(a, c, from) && !Near(c, to, a.vision)
  }

  /** The cells of that stripe in the order of the nested dy/dx loops, from offset (dx, dy) on. */
  function StripeFrom(a: Area, from: Cell, to: Cell, dy: int, dx: int): seq<Cell>
    decreases a.vision - dy, a.vision - dx
  {
    if dy > a.vision then []
    else if dx > a.vision then StripeFrom(a, from, to, dy + 1, -a.vision)
    else
      var c := Cell(from.x + dx, from.y + dy);
      (if InStripe(a, c, from, to) then [c] else []) + StripeFrom(a, from, to, dy, dx + 1)
  }

  function Stripe(a: Area, from: Cell, to: Cell): seq<Cell> {
    StripeFrom(a, from, to, -a.vision, -a.vision)
  }

  /** Closed form of "the vision box of `o` meets the stripe": the two boxes overlap, and their
      common rectangle, clipped to the map, sticks out of the box of `to`. */
  predicate Touches(a: Area, o: Cell, from: Cell, to: Cell) {
    && Near(o, from, 2 * a.vision)
    && (|| Max(0, Max(o.x, from.x) - a.vision) < to.x - a.vision
        || Min(Count(a) - 1, Min(o.x, from.x) + a.vision) > to.x + a.vision
        || Max(0, Max(o.y, from.y) - a.vision) < to.y - a.vision
        || Min(Count(a) - 1, Min(o.y, from.y) + a.vision) > to.y + a.vision)
  }

  lemma MulMonotone(g: int, k: int, q: int)
    requires g > 0 && k <= q
    ensures g * k <= g * q
  {
    assert g * (q - k) >= 0;
  }

  lemma SmallerFactor(g: int, q: int, k: int)
    requires g > 0 && g * q < g * k
    ensures q < k
  {
    if k <= q {
      MulMonotone(g, k, q);
    }
  }

  lemma CountPositive(size: int, cell: int)
    requires 0 < cell <= size
    ensures size / cell >= 1
  {
    var q := size / cell;
    assert size == cell * q + size % cell;
    assert cell * (q + 1) == cell * q + cell;
    SmallerFactor(cell, 1, q + 1);
  }

  lemma {:induction false} StripeFromMembers(a: Area, from: Cell, to: Cell, dy: int, dx: int, c: Cell)
    requires -a.vision <= dy && -a.vision <= dx
    ensures c in StripeFrom(a, from, to, dy, dx) <==>
            InStripe(a, c, from, to) && (c.y - from.y > dy || (c.y - from.y == dy && c.x - from.x >= dx))
    decreases a.vision - dy, a.vision - dx
  {
    if dy > a.vision {
    } else if dx > a.vision {
      StripeFromMembers(a, from, to, dy + 1, -a.vision, c);
    } else {
      StripeFromMembers(a, from, to, dy, dx + 1, c);
    }
  }

  /** The nested loops visit exactly the cells of V(from) \ V(to). */
  lemma {:induction false} StripeMembers(a: Area, from: Cell, to: Cell, c: Cell)
    ensures c in Stripe(a, from, to) <==> InStripe(a, c, from, to)
  {
    StripeFromMembers(a, from, to, -a.vision, -a.vision, c);
  }

  /** Two vision boxes, both clipped to the map, intersect exactly when their centres are within
      twice the vision range. */
  lemma BoxesMeet(a: Area, p: Cell, o: Cell)
    requires !IsInvalid(a, p) && !IsInvalid(a, o)
    ensures (exists c: Cell :: InBox(a, c, p) && InBox(a, c, o)) <==> Near(p, o, 2 * a.vision)
  {
    if Near(p, o, 2 * a.vision) {
      var mid := Cell((p.x + o.x) / 2, (p.y + o.y) / 2);
      assert InBox(a, mid, p) && InBox(a, mid, o);
    }
  }

  /** `Touches` is what it says: some cell of the stripe lies in the vision box of `o`. */
  lemma TouchesMeansSharedCell(a: Area, o: Cell, from: Cell, to: Cell)
    requires !IsInvalid(a, o) && !IsInvalid(a, from)
    ensures Touches(a, o, from, to) <==> exists c: Cell :: InStripe(a, c, from, to) && InBox(a, c, o)
  {
    if Touches(a, o, from, to) {
      var _ := CornerOfStripe(a, o, from, to);
    }
    forall c: Cell | InStripe(a, c, from, to) && InBox(a, c, o)
      ensures Touches(a, o, from, to)
    {
      SharedCellTouches(a, o, from, to, c);
    }
  }

  /** The corners of the common rectangle of two boxes. */
  function LowCorner(a: Area, o: Cell, f: Cell): Cell {
    Cell(Max(0, Max(o.x, f.x) - a.vision), Max(0, Max(o.y, f.y) - a.vision))
  }

  function HighCorner(a: Area, o: Cell, f: Cell): Cell {
    Cell(Min(Count(a) - 1, Min(o.x, f.x) + a.vision), Min(Count(a) - 1, Min(o.y, f.y) + a.vision))
  }

  lemma CornersInBoth(a: Area, o: Cell, f: Cell)
    requires !IsInvalid(a, o) && !IsInvalid(a, f) && Near(o, f, 2 * a.vision)
    ensures InBox(a, LowCorner(a, o, f), o) && InBox(a, LowCorner(a, o, f), f)
    ensures InBox(a, HighCorner(a, o, f), o) && InBox(a, HighCorner(a, o, f), f)
  {
    hide Count, Max, Min, Dist;
    CornersShared(Count(a), a.vision, o.x, f.x);
    CornersShared(Count(a), a.vision, o.y, f.y);
  }

  lemma CornerOfStripe(a: Area, o: Cell, from: Cell, to: Cell) returns (c: Cell)
    requires !IsInvalid(a, o) && !IsInvalid(a, from)
    requires Touches(a, o, from, to)
    ensures InStripe(a, c, from, to) && InBox(a, c, o)
  {
    hide IsInvalid, Count;
    CornersInBoth(a, o, from);
    var lo := LowCorner(a, o, from);
    c := if lo.x < to.x - a.vision || lo.y < to.y - a.vision then lo else HighCorner(a, o, from);
  }

  lemma SharedCellTouches(a: Area, o: Cell, from: Cell, to: Cell, c: Cell)
    requires InStripe(a, c, from, to) && InBox(a, c, o)
    ensures Touches(a, o, from, to)
  {
    var n := Count(a);
    assert 0 <= c.x < n && 0 <= c.y < n;
  }

  /** Along one axis: both ends of the common interval lie on the map and in both boxes. */
  lemma CornersShared(n: int, r: nat, o: int, f: int)
    requires 0 <= o < n && 0 <= f < n && Dist(o, f) <= 2 * r
    ensures var lo, hi := Max(0, Max(o, f) - r), Min(n - 1, Min(o, f) + r);
            0 <= lo <= hi < n && Dist(lo, o) <= r && Dist(lo, f) <= r && Dist(hi, o) <= r && Dist(hi, f) <= r
  {
  }

  lemma TouchedIsNear(a: Area, o: Cell, from: Cell, to: Cell)
    requires Touches(a, o, from, to)
    ensures Near(o, from, 2 * a.vision)
  {
  }

  lemma NearSymmetric(c: Cell, d: Cell, r: int)
    ensures Near(c, d, r) <==> Near(d, c, r)
    ensures r >= 0 ==> Near(c, c, r)
  {
  }

  /** A box that meets V(from) and avoids V(from) \ V(to) still meets V(to): the step of the
      2 * vision bound. */
  lemma UntouchedStaysNear(a: Area, o: Cell, from: Cell, to: Cell)
    requires !IsInvalid(a, o) && !IsInvalid(a, from) && !IsInvalid(a, to)
    requires Near(o, from, 2 * a.vision) && !Touches(a, o, from, to)
    ensures Near(o, to, 2 * a.vision)
  {
    BoxesMeet(a, o, from);
    var c: Cell :| InBox(a, c, o) && InBox(a, c, from);
    TouchesMeansSharedCell(a, o, from, to);
    assert InBox(a, c, to);
    BoxesMeet(a, o, to);
  }

  function NonNegative(v: real): real {
    if v < 0.0 then 0.0 else v
  }

  lemma AxisBelowZero(a: Area, v: real)
    requires v < 0.0
    ensures Axis(a, v) == 0 && Axis(a, 0.0) == 0
  {
    assert (-v).Floor >= 0;
    assert (-v).Floor / a.gridSize >= 0 by {
      var q := (-v).Floor / a.gridSize;
      assert (-v).Floor == a.gridSize * q + (-v).Floor % a.gridSize;
      assert a.gridSize * (q + 1) == a.gridSize * q + a.gridSize;
      SmallerFactor(a.gridSize, 0, q + 1);
    }
    assert 0 / a.gridSize == 0;
  }

  /** Coordinates at most n cells apart lie in cells at most n apart, off the map too. */
  lemma AxisContracts(a: Area, u: real, v: real, n: nat)
    requires -((n * a.gridSize) as real) <= u - v <= (n * a.gridSize) as real
    ensures Dist(Axis(a, u), Axis(a, v)) <= n
  {
    var u0, v0 := NonNegative(u), NonNegative(v);
    if u < 0.0 {
      AxisBelowZero(a, u);
    }
    if v < 0.0 {
      AxisBelowZero(a, v);
    }
    if u0 < v0 {
      FloorContracts(a.gridSize, u0.Floor, v0.Floor, n);
    } else {
      FloorContracts(a.gridSize, v0.Floor, u0.Floor, n);
    }
  }

  /** The cell of a coordinate is the one whose span holds it; off the covered map it is the first or the
      last. */
  lemma AxisHolds(a: Area, v: real)
    ensures v < 0.0 ==> Axis(a, v) == 0
    ensures 0.0 <= v < (Count(a) * a.gridSize) as real ==>
              (Axis(a, v) * a.gridSize) as real <= v < ((Axis(a, v) + 1) * a.gridSize) as real
    ensures v >= (Count(a) * a.gridSize) as real ==> Axis(a, v) == Count(a) - 1
  {
    if v < 0.0 {
      AxisBelowZero(a, v);
    } else {
      var g, q := a.gridSize, v.Floor / a.gridSize;
      DivisionHolds(g, v.Floor);
      if v < (Count(a) * g) as real {
        assert g * q < g * Count(a);
        SmallerFactor(g, q, Count(a));
        assert Axis(a, v) == q;
      } else {
        assert g * Count(a) < g * (q + 1);
        SmallerFactor(g, Count(a), q + 1);
      }
    }
  }

  lemma DivisionHolds(g: int, n: nat)
    requires g > 0
    ensures g * (n / g) <= n < g * (n / g + 1) && n / g >= 0
  {
    var q := n / g;
    assert n == g * q + n % g;
    assert g * (q + 1) == g * q + g;
    SmallerFactor(g, 0, q + 1);
  }

  lemma FloorContracts(g: int, u: int, v: int, n: nat)
    requires g > 0 && 0 <= u <= v && v - u <= n * g
    ensures 0 <= v / g - u / g <= n
  {
    var p, q := u / g, v / g;
    assert u == g * p + u % g && v == g * q + v % g;
    assert g * (p + 1 + n) == g * p + g + n * g;
    SmallerFactor(g, q, p + 1 + n);
    assert g * (q + 1) == g * q + g;
    SmallerFactor(g, p, q + 1);
  }
}
