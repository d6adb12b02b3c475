/** Line simplification for the map: Douglas-Peucker with an explicit stack,
    over exact coordinates. */
module Simplify {
  import opened Common

  datatype Point = Point(x: real, y: real)

  // ---- Distance to a segment ----

  function Dot(a: Point, b: Point, p: Point): real { (p.x - a.x) * (b.x - a.x) + (p.y - a.y) * (b.y - a.y) }

  function Length(a: Point, b: Point): real { (b.x - a.x) * (b.x - a.x) + (b.y - a.y) * (b.y - a.y) }

  function Clamp(t: real): real { if t < 0.0 then 0.0 else if t > 1.0 then 1.0 else t }

  /** Where the point projects onto the segment, as a fraction of it. */
  function Foot(a: Point, b: Point, p: Point): real {
    if Length(a, b) != 0.0 then Clamp(Dot(a, b, p) / Length(a, b)) else 0.0
  }

  /** Squared distance from a point to the point a fraction along a segment. */
  function SquaredAt(a: Point, b: Point, p: Point, t: real): real {
    (p.x - a.x - t * (b.x - a.x)) * (p.x - a.x - t * (b.x - a.x)) +
    (p.y - a.y - t * (b.y - a.y)) * (p.y - a.y - t * (b.y - a.y))
  }

  function Squared(a: Point, b: Point, p: Point): real { SquaredAt(a, b, p, Foot(a, b, p)) }

  lemma Expand(d: real, t: real, q: real)
    ensures (q - t * d) * (q - t * d) == q * q - 2.0 * t * (q * d) + t * t * (d * d)
  {
  }

  lemma SquaredQuadratic(a: Point, b: Point, p: Point, t: real)
    ensures SquaredAt(a, b, p, t) == Length(a, p) - 2.0 * t * Dot(a, b, p) + t * t * Length(a, b)
  {
    Expand(b.x - a.x, t, p.x - a.x);
    Expand(b.y - a.y, t, p.y - a.y);
  }

  lemma SquareNonNegative(x: real)
    ensures x * x >= 0.0
  {
  }

  lemma SquareOverSelf(x: real, z: real)
    requires x != 0.0 && z == x * x
    ensures z / x == x
  {
  }

  lemma RootOfZero(x: real)
    requires x * x == 0.0
    ensures x == 0.0
  {
    if x != 0.0 {
      SquareOverSelf(x, 0.0);
    }
  }

  lemma ZeroSum(a: real, b: real)
    requires a >= 0.0 && b >= 0.0 && a + b == 0.0
    ensures a == 0.0 && b == 0.0
  {
  }

  lemma ZeroLength(x: real, y: real)
    requires x * x + y * y == 0.0
    ensures x == 0.0 && y == 0.0
  {
    SquareNonNegative(x);
    SquareNonNegative(y);
    ZeroSum(x * x, y * y);
    RootOfZero(x);
    RootOfZero(y);
  }

  lemma ProductNonNegative(x: real, y: real)
    requires (x >= 0.0 && y >= 0.0) || (x <= 0.0 && y <= 0.0)
    ensures x * y >= 0.0
  {
  }

  /** A quadratic with a clamped vertex is least there. */
  lemma ClampedVertex(length: real, dot: real, u: real)
    requires length > 0.0 && 0.0 <= u <= 1.0
    ensures var t := Clamp(dot / length);
      u * u * length - 2.0 * u * dot >= t * t * length - 2.0 * t * dot
  {
    var v := dot / length;
    assert dot == v * length;
    var t := Clamp(v);
    assert u * u * length - 2.0 * u * dot - (t * t * length - 2.0 * t * dot)
        == length * ((u - t) * (u + t - 2.0 * v)) by {
      Factor(length, v, u, t);
    }
    if t == v {
      SquareNonNegative(u - t);
    } else {
      ProductNonNegative(u - t, u + t - 2.0 * v);
    }
    ProductNonNegative(length, (u - t) * (u + t - 2.0 * v));
  }

  lemma Factor(l: real, v: real, u: real, t: real)
    ensures u * u * l - 2.0 * u * (v * l) - (t * t * l - 2.0 * t * (v * l)) == l * ((u - t) * (u + t - 2.0 * v))
  {
    assert (u - t) * (u + t - 2.0 * v) == u * u - t * t - 2.0 * v * u + 2.0 * v * t;
    Spread(l, u * u, t * t, 2.0 * v * u, 2.0 * v * t);
  }

  lemma Spread(l: real, w: real, x: real, y: real, z: real)
    ensures l * (w - x - y + z) == l * w - l * x - l * y + l * z
  {
  }

  lemma LengthNonNegative(a: Point, b: Point)
    ensures Length(a, b) >= 0.0
  {
    SquareNonNegative(b.x - a.x);
    SquareNonNegative(b.y - a.y);
  }

  lemma PointSegment(a: Point, b: Point, p: Point, u: real, t: real)
    requires Length(a, b) == 0.0
    ensures SquaredAt(a, b, p, u) == SquaredAt(a, b, p, t)
  {
    ZeroLength(b.x - a.x, b.y - a.y);
  }

  /** The clamped projection is the nearest point of the whole segment. */
  lemma FootIsNearest(a: Point, b: Point, p: Point, u: real)
    requires 0.0 <= u <= 1.0
    ensures 0.0 <= Foot(a, b, p) <= 1.0
    ensures Squared(a, b, p) <= SquaredAt(a, b, p, u)
  {
    LengthNonNegative(a, b);
    if Length(a, b) != 0.0 {
      SquaredQuadratic(a, b, p, u);
      SquaredQuadratic(a, b, p, Foot(a, b, p));
      ClampedVertex(Length(a, b), Dot(a, b, p), u);
    } else {
      PointSegment(a, b, p, u, Foot(a, b, p));
    }
  }

  // ---- The recursive reading ----

  /** Squared distance of the third index's point from the chord of the first
      two. */
  type Chord = (nat, nat, nat) -> real

  function ChordOf(points: seq<Point>): Chord {
    (s: nat, e: nat, i: nat) =>
      if s < |points| && e < |points| && i < |points| then Squared(points[s], points[e], points[i]) else 0.0
  }

  /** The scan's state before index k: the best index, or the start if no point
      has been out of tolerance. */
  function Farthest(d: Chord, s: nat, e: nat, limit: real, k: nat): (f: nat)
    requires s < k
    ensures f == s || s < f < k
  {
    if k == s + 1 then s
    else
      var f := Farthest(d, s, e, limit, k - 1);
      if d(s, e, k - 1) > (if f == s then limit else d(s, e, f)) then k - 1 else f
  }

  /** It is the first of the farthest points that are out of tolerance. */
  lemma {:induction false} FarthestIs(d: Chord, s: nat, e: nat, limit: real, k: nat)
    requires s < k
    ensures var f := Farthest(d, s, e, limit, k);
      if f == s then forall i :: s < i < k ==> d(s, e, i) <= limit
      else
        && d(s, e, f) > limit
        && (forall i :: s < i < k ==> d(s, e, i) <= d(s, e, f))
        && (forall i :: s < i < f ==> d(s, e, i) < d(s, e, f))
    decreases k
  {
    if k > s + 1 {
      FarthestIs(d, s, e, limit, k - 1);
    }
  }

  /** Where a range is split: at the farthest point strictly inside it. */
  function Split(d: Chord, s: nat, e: nat, limit: real): (f: nat)
    requires s <= e
    ensures f == s || s < f < e
  {
    if e <= s + 1 then s else Farthest(d, s, e, limit, e)
  }

  lemma SplitIs(d: Chord, s: nat, e: nat, limit: real)
    requires s <= e
    ensures Split(d, s, e, limit) == s <==> forall i :: s < i < e ==> d(s, e, i) <= limit
  {
    if e > s + 1 {
      FarthestIs(d, s, e, limit, e);
    }
  }

  /** Indices kept strictly inside a range. */
  function Kept(d: Chord, s: nat, e: nat, limit: real): set<nat>
    requires s <= e
    decreases e - s
  {
    var f := Split(d, s, e, limit);
    if f == s then {} else Kept(d, s, f, limit) + {f} + Kept(d, f, e, limit)
  }

  lemma {:induction false} KeptInside(d: Chord, s: nat, e: nat, limit: real)
    requires s <= e
    ensures forall i :: i in Kept(d, s, e, limit) ==> s < i < e
    decreases e - s
  {
    var f := Split(d, s, e, limit);
    if f != s {
      KeptInside(d, s, f, limit);
      KeptInside(d, f, e, limit);
    }
  }

  // ---- The loop ----

  type Range = (nat, nat)

  predicate Ranges(pending: seq<Range>, n: nat) {
    forall i :: 0 <= i < |pending| ==> pending[i].0 <= pending[i].1 < n
  }

  /** What the ranges on the stack will still add. */
  function ToCome(d: Chord, pending: seq<Range>, limit: real, n: nat): set<nat>
    requires Ranges(pending, n)
  {
    if pending == [] then {}
    else
      var top := pending[|pending| - 1];
      ToCome(d, pending[..|pending| - 1], limit, n) + Kept(d, top.0, top.1, limit)
  }

  function Work(pending: seq<Range>): nat {
    if pending == [] then 0
    else
      var top := pending[|pending| - 1];
      Work(pending[..|pending| - 1]) + (if top.1 > top.0 then 2 * (top.1 - top.0) - 1 else 1)
  }

  lemma PushTwo(d: Chord, pending: seq<Range>, a: Range, b: Range, limit: real, n: nat)
    requires Ranges(pending, n) && a.0 < a.1 < n && b.0 < b.1 < n
    ensures Ranges(pending + [a, b], n)
    ensures ToCome(d, pending + [a, b], limit, n)
         == ToCome(d, pending, limit, n) + Kept(d, a.0, a.1, limit) + Kept(d, b.0, b.1, limit)
    ensures Work(pending + [a, b]) == Work(pending) + 2 * (a.1 - a.0) - 1 + 2 * (b.1 - b.0) - 1
  {
    var two := pending + [a, b];
    assert two[..|two| - 1] == pending + [a];
    assert (pending + [a])[..|pending|] == pending;
  }

  /** Splitting the top range keeps the final answer and uses up work. */
  lemma SplitStep(d: Chord, pending: seq<Range>, s: nat, e: nat, limit: real, n: nat, keep: set<nat>, goal: set<nat>)
    requires Ranges(pending + [(s, e)], n) && keep + ToCome(d, pending + [(s, e)], limit, n) == goal
    ensures s <= e < n && Ranges(pending, n) && Work(pending) < Work(pending + [(s, e)])
    ensures var f := Split(d, s, e, limit);
      if f == s then keep + ToCome(d, pending, limit, n) == goal
      else
        && Ranges(pending + [(s, f), (f, e)], n)
        && keep + {f} + ToCome(d, pending + [(s, f), (f, e)], limit, n) == goal
        && Work(pending + [(s, f), (f, e)]) < Work(pending + [(s, e)])
  {
    var all := pending + [(s, e)];
    assert all[|all| - 1] == (s, e) && all[..|all| - 1] == pending;
    var f := Split(d, s, e, limit);
    if f != s {
      PushTwo(d, pending, (s, f), (f, e), limit, n);
    }
  }

  /** The scan over one range. */
  method Scan(points: seq<Point>, start: nat, end: nat, limit: real) returns (farthest: nat)
    requires start <= end < |points|
    ensures farthest == Split(ChordOf(points), start, end, limit)
  {
    var a, b := points[start], points[end];
    ghost var d := ChordOf(points);
    var length := Length(a, b);
    var distance := limit;
    farthest := start;
    var index := start + 1;
    while index < end
      invariant start + 1 <= index && (index <= end || end <= start + 1)
      invariant index <= end ==> farthest == Farthest(d, start, end, limit, index)
      invariant index > end ==> farthest == start
      invariant distance == if farthest == start then limit else d(start, end, farthest)
    {
      var t := if length != 0.0 then Clamp(Dot(a, b, points[index]) / length) else 0.0;
      var squared := SquaredAt(a, b, points[index], t);
      assert squared == d(start, end, index);
      if squared > distance {
        farthest, distance := index, squared;
      }
      index := index + 1;
    }
  }

  lemma WholeRange(d: Chord, last: nat, limit: real)
    ensures Ranges([(0, last)], last + 1)
    ensures ToCome(d, [(0, last)], limit, last + 1) == Kept(d, 0, last, limit)
  {
    var pending: seq<Range> := [(0, last)];
    assert pending[..0] == [];
  }

  lemma LastApart<T>(s: seq<T>)
    requires s != []
    ensures s == s[..|s| - 1] + [s[|s| - 1]]
  {
  }

  /** Which indices survive; none if there is no first point to look at. */
  method KeepIndices(points: seq<Point>, tolerance: real) returns (r: Option<set<nat>>)
    ensures r.None? <==> points == []
    ensures r.Some? ==>
      r.value == {0, |points| - 1} + Kept(ChordOf(points), 0, |points| - 1, tolerance * tolerance)
  {
    if points == [] {
      return None;
    }
    var last: nat := |points| - 1;
    var keep := Drain(points, tolerance * tolerance, last);
    return Some(keep);
  }

  /** The work left leads to the goal. */
  ghost predicate Leads(d: Chord, pending: seq<Range>, limit: real, n: nat, keep: set<nat>, goal: set<nat>) {
    Ranges(pending, n) && keep + ToCome(d, pending, limit, n) == goal
  }

  /** One turn of the loop: the top range, and the two halves it may leave. */
  method Turn(points: seq<Point>, limit: real, stack: seq<Range>, kept: set<nat>, ghost goal: set<nat>)
    returns (pending: seq<Range>, keep: set<nat>)
    requires stack != [] && Leads(ChordOf(points), stack, limit, |points|, kept, goal)
    ensures Leads(ChordOf(points), pending, limit, |points|, keep, goal) && Work(pending) < Work(stack)
  {
    var (start, end) := stack[|stack| - 1];
    LastApart(stack);
    pending, keep := stack[..|stack| - 1], kept;
    SplitStep(ChordOf(points), pending, start, end, limit, |points|, keep, goal);
    var farthest := Scan(points, start, end, limit);
    if farthest != start {
      keep := keep + {farthest};
      pending := pending + [(start, farthest), (farthest, end)];
    }
  }

  /** The stack, worked off. */
  method Drain(points: seq<Point>, limit: real, last: nat) returns (keep: set<nat>)
    requires |points| == last + 1
    ensures keep == {0, last} + Kept(ChordOf(points), 0, last, limit)
  {
    ghost var d := ChordOf(points);
    ghost var goal := {0, last} + Kept(d, 0, last, limit);
    keep := {0, last};
    var pending: seq<Range> := [(0, last)];
    WholeRange(d, last, limit);
    while pending != []
      invariant Leads(d, pending, limit, last + 1, keep, goal)
      decreases Work(pending)
    {
      pending, keep := Turn(points, limit, pending, keep, goal);
    }
  }

  /** Ascending order. */
  function Ascending(keep: set<nat>, n: nat): (r: seq<nat>)
    ensures forall i :: 0 <= i < |r| ==> r[i] in keep && r[i] < n
    ensures forall i, j :: 0 <= i < j < |r| ==> r[i] < r[j]
    ensures forall k :: k in keep && k < n ==> k in r
  {
    if n == 0 then [] else Ascending(keep, n - 1) + (if n - 1 in keep then [n - 1] else [])
  }

  /** `simplify` without its rounding: the kept points in order. */
  method SimplifyLine(points: seq<Point>, tolerance: real) returns (r: Option<seq<Point>>)
    ensures r.None? <==> points == []
    ensures r.Some? ==>
      var order := Indices(points, tolerance * tolerance);
      |r.value| == |order| && forall i :: 0 <= i < |order| ==> r.value[i] == points[order[i]]
  {
    var keep := KeepIndices(points, tolerance);
    if keep.None? {
      return None;
    }
    var order := Ascending(keep.value, |points|);
    r := Some(seq(|order|, i requires 0 <= i < |order| => points[order[i]]));
  }

  /** The kept indices, in order. */
  function Indices(points: seq<Point>, limit: real): seq<nat>
    requires points != []
  {
    KeptOrder(ChordOf(points), |points|, limit)
  }

  function KeptOrder(d: Chord, n: nat, limit: real): seq<nat>
    requires n > 0
  {
    Ascending({0, n - 1} + Kept(d, 0, n - 1, limit), n)
  }

  // ---- The guarantee ----

  /** A dropped index lies between two kept ones with nothing kept between
      them, and within the limit of their chord. */
  predicate Covered(d: Chord, keep: set<nat>, limit: real, i: nat, a: nat, b: nat) {
    a in keep && b in keep && a < i < b && (forall k :: k in keep ==> k <= a || b <= k) && d(a, b, i) <= limit
  }

  /** Whatever covers an index in one half covers it in the whole. */
  lemma CoveredWidens(d: Chord, half: set<nat>, whole: set<nat>, lo: nat, hi: nat, limit: real, i: nat, a: nat, b: nat)
    requires Covered(d, half, limit, i, a, b) && half <= whole
    requires forall k :: k in half ==> lo <= k <= hi
    requires forall k :: k in whole && lo < k < hi ==> k in half
    ensures Covered(d, whole, limit, i, a, b)
  {
  }

  ghost predicate SomeCover(d: Chord, s: nat, e: nat, limit: real, i: nat)
    requires s <= e
  {
    exists a: nat, b: nat :: b <= e && Covered(d, {s, e} + Kept(d, s, e, limit), limit, i, a, b)
  }

  lemma HalfCovers(d: Chord, s: nat, e: nat, limit: real, lo: nat, hi: nat, i: nat)
    requires s <= e && Split(d, s, e, limit) != s && lo <= hi
    requires (lo, hi) == (s, Split(d, s, e, limit)) || (lo, hi) == (Split(d, s, e, limit), e)
    requires SomeCover(d, lo, hi, limit, i)
    ensures SomeCover(d, s, e, limit, i)
  {
    var f := Split(d, s, e, limit);
    KeptInside(d, s, f, limit);
    KeptInside(d, f, e, limit);
    var half, whole := {lo, hi} + Kept(d, lo, hi, limit), {s, e} + Kept(d, s, e, limit);
    assert Kept(d, s, e, limit) == Kept(d, s, f, limit) + {f} + Kept(d, f, e, limit);
    var a: nat, b: nat :| b <= hi && Covered(d, half, limit, i, a, b);
    CoveredWidens(d, half, whole, lo, hi, limit, i, a, b);
  }

  lemma {:induction false} RangeCovered(d: Chord, s: nat, e: nat, limit: real, i: nat)
    requires s < i < e && i !in Kept(d, s, e, limit)
    ensures SomeCover(d, s, e, limit, i)
    decreases e - s
  {
    var f := Split(d, s, e, limit);
    if f == s {
      SplitIs(d, s, e, limit);
      assert Covered(d, {s, e} + Kept(d, s, e, limit), limit, i, s, e);
    } else if i < f {
      RangeCovered(d, s, f, limit, i);
      HalfCovers(d, s, e, limit, s, f, i);
    } else {
      RangeCovered(d, f, e, limit, i);
      HalfCovers(d, s, e, limit, f, e, i);
    }
  }

  /** The simplified line starts and ends where the line does. */
  lemma EndpointsKept(points: seq<Point>, limit: real)
    requires points != []
    ensures var order := Indices(points, limit);
      |order| > 0 && order[0] == 0 && order[|order| - 1] == |points| - 1
  {
    var order := Indices(points, limit);
    assert 0 in order && |points| - 1 in order;
  }

  /** Neighbours in a set are neighbours in its ascending order. */
  lemma NeighboursAdjacent(keep: set<nat>, n: nat, a: nat, b: nat) returns (j: nat)
    requires a in keep && b in keep && a < b < n && forall k :: k in keep ==> k <= a || b <= k
    ensures j + 1 < |Ascending(keep, n)| && Ascending(keep, n)[j] == a && Ascending(keep, n)[j + 1] == b
  {
    var order := Ascending(keep, n);
    j :| j < |order| && order[j] == a;
    var k: nat :| k < |order| && order[k] == b;
    assert order[j + 1] in keep;
    assert k == j + 1;
  }

  /** The piece of the simplified line that passes an index is near it. */
  predicate Passes(d: Chord, order: seq<nat>, limit: real, i: nat, j: nat) {
    j + 1 < |order| && order[j] < i < order[j + 1] && d(order[j], order[j + 1], i) <= limit
  }

  lemma CoverPasses(d: Chord, keep: set<nat>, n: nat, limit: real, i: nat, a: nat, b: nat) returns (j: nat)
    requires Covered(d, keep, limit, i, a, b) && b < n
    ensures Passes(d, Ascending(keep, n), limit, i, j)
  {
    j := NeighboursAdjacent(keep, n, a, b);
  }

  lemma NotKept(keep: set<nat>, n: nat, i: nat)
    requires i < n && i !in Ascending(keep, n)
    ensures i !in keep
  {
  }

  lemma OrderCovers(d: Chord, n: nat, limit: real, i: nat)
    requires i < n && i !in KeptOrder(d, n, limit)
    ensures exists j: nat :: Passes(d, KeptOrder(d, n, limit), limit, i, j)
  {
    var keep: set<nat> := {0, n - 1} + Kept(d, 0, n - 1, limit);
    NotKept(keep, n, i);
    assert 0 in keep && n - 1 in keep;
    RangeCovered(d, 0, n - 1, limit, i);
    var a: nat, b: nat :| b <= n - 1 && Covered(d, keep, limit, i, a, b);
    var j := CoverPasses(d, keep, n, limit, i, a, b);
  }

  predicate Near(points: seq<Point>, a: nat, b: nat, limit: real, i: nat) {
    a < i < b < |points| && Squared(points[a], points[b], points[i]) <= limit
  }

  /** Every point that is dropped lies within the tolerance of the piece of the
      simplified line that passes it. */
  lemma DroppedWithinTolerance(points: seq<Point>, limit: real, i: nat)
    requires i < |points| && i !in Indices(points, limit)
    ensures var order := Indices(points, limit);
      exists j: nat :: j + 1 < |order| && Near(points, order[j], order[j + 1], limit, i)
  {
    var order := Indices(points, limit);
    OrderCovers(ChordOf(points), |points|, limit, i);
    var j: nat :| Passes(ChordOf(points), order, limit, i, j);
    ChordIsDistance(points, order[j], order[j + 1], limit, i);
    assert Near(points, order[j], order[j + 1], limit, i);
  }

  lemma ChordIsDistance(points: seq<Point>, a: nat, b: nat, limit: real, i: nat)
    requires a < i < b < |points| && ChordOf(points)(a, b, i) <= limit
    ensures Near(points, a, b, limit, i)
  {
  }

  /** Nothing is kept without need: only the endpoints stay if and only if the
      whole line is within the tolerance of its chord. */
  lemma StraightKeepsEndpoints(d: Chord, e: nat, limit: real)
    ensures (forall i :: 0 < i < e ==> d(0, e, i) <= limit) <==> Kept(d, 0, e, limit) == {}
  {
    SplitIs(d, 0, e, limit);
    var f := Split(d, 0, e, limit);
    if f != 0 {
      assert f in Kept(d, 0, e, limit);
    }
  }
}
