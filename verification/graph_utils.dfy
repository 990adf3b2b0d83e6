/** The edge router the graph view uses: which side of each node an edge
    leaves and enters by, the orthogonal waypoints between the stand-off points,
    and the path with rounded corners. */
module GraphUtils {
  import opened Geometry
  import Seqs

  /** `sector`: the side whose 90-degree cone contains the direction (dx, dy).
      The `atan2` angle tests are restated as comparisons: right for angles in
      [-45, 45], bottom for (45, 135), top for [-135, -45) and left for the
      rest, (135, 180] and (-180, -135). */
  function Sector(dx: real, dy: real): (s: Side)
    ensures s == Right <==> dx >= 0.0 && Abs(dy) <= dx
    ensures s == Bottom <==> dy > 0.0 && Abs(dx) < dy
    ensures s == Top <==> dy < 0.0 && dy <= dx < -dy
    ensures s == Left <==> dx < 0.0 && dx < dy <= -dx
  {
    if dx >= 0.0 && Abs(dy) <= dx then Right
    else if dy > 0.0 && Abs(dx) < dy then Bottom
    else if dy < 0.0 && Abs(dx) <= -dy then Top
    else Left
  }

  /** The sector depends only on the direction, not on the distance. */
  lemma SectorScaleInvariant(dx: real, dy: real, k: real)
    requires k > 0.0
    ensures Sector(k * dx, k * dy) == Sector(dx, dy)
  {
    var x, y := k * dx, k * dy;
    ScaleAbs(k, dx);
    ScaleAbs(k, dy);
    ScaleOrder(k, 0.0, dx);
    ScaleOrder(k, dx, 0.0);
    ScaleOrder(k, 0.0, dy);
    ScaleOrder(k, dy, 0.0);
    ScaleOrder(k, Abs(dy), dx);
    ScaleOrder(k, Abs(dx), dy);
    ScaleOrder(k, dy, dx);
    ScaleOrder(k, dx, -dy);
    ScaleOrder(k, dx, dy);
    ScaleOrder(k, dy, -dx);
    assert k * -dy == -y && k * -dx == -x;
  }

  /** Multiplying by a positive factor keeps both orders between two numbers. */
  lemma ScaleOrder(k: real, a: real, b: real)
    requires k > 0.0
    ensures a <= b <==> k * a <= k * b
    ensures a < b <==> k * a < k * b
  {
    assert k * b - k * a == k * (b - a);
  }

  lemma ScaleAbs(k: real, a: real)
    requires k > 0.0
    ensures Abs(k * a) == k * Abs(a)
  {
    ScaleOrder(k, 0.0, a);
    assert k * -a == -(k * a);
  }

  /** The chosen side faces the direction: its outward normal has a positive
      component along (dx, dy), at least as large as the cross component. */
  lemma SectorFacesDirection(dx: real, dy: real)
    requires dx != 0.0 || dy != 0.0
    ensures var v := SideVec(Sector(dx, dy));
      Dot(v, Point(dx, dy)) > 0.0
      && Dot(v, Point(dx, dy)) >= Abs(if IsHorizontal(Sector(dx, dy)) then dy else dx)
  {
  }

  datatype Ports = Ports(parent: Side, child: Side)

  /** `pickPorts(p, c, tol)`: the sides an edge leaves the parent and enters
      the child by, from the offset between the rectangles' centres. */
  function PickPorts(p: Rect, c: Rect, tol: real): (r: Ports)
    ensures r.child == Opposite(r.parent)
    ensures var d := Sub(Center(c), Center(p));
      (Abs(d.x) <= tol ==> r.parent == Bottom)
      && (Abs(d.x) > tol && Abs(d.y) <= tol ==> IsHorizontal(r.parent) && (r.parent == Right <==> d.x > 0.0))
      && (Abs(d.x) > tol && Abs(d.y) > tol ==> r.parent == Sector(d.x, d.y))
  {
    var dx := Center(c).x - Center(p).x;
    var dy := Center(c).y - Center(p).y;
    if Abs(dx) <= tol then Ports(Bottom, Top)
    else if Abs(dy) <= tol then Ports(if dx > 0.0 then Right else Left, if dx > 0.0 then Left else Right)
    else
      var ps := Sector(dx, dy);
      Ports(ps, Opposite(ps))
  }

  /** Outside the vertical band, the parent port faces the child: the edge
      leaves towards it. Inside the band it always leaves by the bottom, even
      when the child is above. */
  lemma PickPortsFacesChild(p: Rect, c: Rect, tol: real)
    requires tol >= 0.0
    requires Abs(Center(c).x - Center(p).x) > tol
    ensures Dot(SideVec(PickPorts(p, c, tol).parent), Sub(Center(c), Center(p))) > 0.0
    ensures Dot(SideVec(PickPorts(p, c, tol).child), Sub(Center(p), Center(c))) > 0.0
  {
    var d := Sub(Center(c), Center(p));
    if Abs(d.y) > tol {
      SectorFacesDirection(d.x, d.y);
    }
  }

  predicate BothHorizontal(ps: Side, cs: Side) { IsHorizontal(ps) && IsHorizontal(cs) }
  predicate BothVertical(ps: Side, cs: Side) { !IsHorizontal(ps) && !IsHorizontal(cs) }

  /** `orthogonalWaypoints`: the bend points between the two stand-off points. */
  function OrthogonalWaypoints(out: Point, inn: Point, ps: Side, cs: Side): (pts: seq<Point>)
    ensures |pts| == if BothHorizontal(ps, cs) || BothVertical(ps, cs) then 2 else 1
    ensures AxisAligned([out] + pts + [inn])
    ensures BothHorizontal(ps, cs) ==>
      pts[0].x == pts[1].x && pts[0].x - out.x == inn.x - pts[0].x && pts[0].y == out.y && pts[1].y == inn.y
    ensures BothVertical(ps, cs) ==>
      pts[0].y == pts[1].y && pts[0].y - out.y == inn.y - pts[0].y && pts[0].x == out.x && pts[1].x == inn.x
    ensures !BothHorizontal(ps, cs) && !BothVertical(ps, cs) ==> pts == [Point(out.x, inn.y)]
  {
    if BothHorizontal(ps, cs) then
      var midX := (out.x + inn.x) / 2.0;
      [Point(midX, out.y), Point(midX, inn.y)]
    else if BothVertical(ps, cs) then
      var midY := (out.y + inn.y) / 2.0;
      [Point(out.x, midY), Point(inn.x, midY)]
    else
      [Point(out.x, inn.y)]
  }

  // ---------------------------------------------------------------- rounded path

  /** The corner radius at `p1`: `min(r, max(|v1|, 1)/2, max(|v2|, 1)/2)` with
      Manhattan lengths. */
  function CornerRadius(p0: Point, p1: Point, p2: Point, r: real): (rr: real)
    ensures rr <= r
    ensures rr <= Max(Manhattan(p0, p1), 1.0) / 2.0 && rr <= Max(Manhattan(p1, p2), 1.0) / 2.0
    ensures rr == r || rr == Max(Manhattan(p0, p1), 1.0) / 2.0 || rr == Max(Manhattan(p1, p2), 1.0) / 2.0
  {
    Min(r, Min(Max(Manhattan(p0, p1), 1.0) / 2.0, Max(Manhattan(p1, p2), 1.0) / 2.0))
  }

  function CornerStart(p0: Point, p1: Point, p2: Point, r: real): Point {
    var rr := CornerRadius(p0, p1, p2, r);
    Point(p1.x - Sign(p1.x - p0.x) * rr, p1.y - Sign(p1.y - p0.y) * rr)
  }

  function CornerEnd(p0: Point, p1: Point, p2: Point, r: real): Point {
    var rr := CornerRadius(p0, p1, p2, r);
    Point(p1.x + Sign(p2.x - p1.x) * rr, p1.y + Sign(p2.y - p1.y) * rr)
  }

  /** The two commands emitted for an interior point: a line to the point
      before the corner, then a quadratic curve with the corner as control. */
  function Corner(p0: Point, p1: Point, p2: Point, r: real): seq<PathCmd> {
    [LineTo(CornerStart(p0, p1, p2, r)), QuadTo(p1, CornerEnd(p0, p1, p2, r))]
  }

  /** The commands emitted from point `i` on. */
  function RoundedFrom(pts: seq<Point>, r: real, i: nat): seq<PathCmd>
    requires 1 <= i <= |pts|
    decreases |pts| - i
  {
    if i == |pts| then []
    else if i + 1 == |pts| then [LineTo(pts[i])]
    else Corner(pts[i - 1], pts[i], pts[i + 1], r) + RoundedFrom(pts, r, i + 1)
  }

  /** The specification of `toRoundedSvgPath`. */
  function RoundedPath(pts: seq<Point>, r: real): seq<PathCmd> {
    if pts == [] then [] else [MoveTo(pts[0])] + RoundedFrom(pts, r, 1)
  }

  /** `toRoundedSvgPath(pts, r)`: the loop with its early `break` at the last point. */
  method ToRoundedSvgPath(pts: seq<Point>, r: real) returns (d: seq<PathCmd>)
    ensures d == RoundedPath(pts, r)
  {
    if |pts| == 0 {
      return [];
    }
    d := [MoveTo(pts[0])];
    var i := 1;
    while i < |pts|
      invariant 1 <= i <= |pts|
      invariant d + RoundedFrom(pts, r, i) == RoundedPath(pts, r)
    {
      if i + 1 >= |pts| {
        d := d + [LineTo(pts[i])];
        break;
      }
      Seqs.AppendAssoc(d, Corner(pts[i - 1], pts[i], pts[i + 1], r), RoundedFrom(pts, r, i + 1));
      d := d + Corner(pts[i - 1], pts[i], pts[i + 1], r);
      i := i + 1;
    }
  }

  lemma {:induction false} RoundedFromLength(pts: seq<Point>, r: real, i: nat)
    requires 1 <= i < |pts|
    ensures |RoundedFrom(pts, r, i)| == 2 * (|pts| - i) - 1
    ensures RoundedFrom(pts, r, i)[|RoundedFrom(pts, r, i)| - 1] == LineTo(pts[|pts| - 1])
    decreases |pts| - i
  {
    if i + 1 < |pts| {
      RoundedFromLength(pts, r, i + 1);
    }
  }

  /** The path starts with `M` at the first point and, from two points on,
      ends with `L` at the last point, after two commands per interior point. */
  lemma RoundedPathShape(pts: seq<Point>, r: real)
    ensures pts == [] <==> RoundedPath(pts, r) == []
    ensures pts != [] ==> RoundedPath(pts, r)[0] == MoveTo(pts[0])
    ensures |pts| == 1 ==> |RoundedPath(pts, r)| == 1
    ensures |pts| >= 2 ==> (|RoundedPath(pts, r)| == 2 * |pts| - 2
                            && RoundedPath(pts, r)[2 * |pts| - 3] == LineTo(pts[|pts| - 1]))
  {
    if |pts| >= 2 {
      RoundedFromLength(pts, r, 1);
    }
  }

  lemma {:induction false} RoundedFromCorner(pts: seq<Point>, r: real, i: nat, j: nat)
    requires 1 <= i <= j && j + 1 < |pts|
    ensures 2 * (j - i) + 1 < |RoundedFrom(pts, r, i)|
    ensures RoundedFrom(pts, r, i)[2 * (j - i)] == LineTo(CornerStart(pts[j - 1], pts[j], pts[j + 1], r))
    ensures RoundedFrom(pts, r, i)[2 * (j - i) + 1] == QuadTo(pts[j], CornerEnd(pts[j - 1], pts[j], pts[j + 1], r))
    decreases j - i
  {
    RoundedFromLength(pts, r, i);
    var c := Corner(pts[i - 1], pts[i], pts[i + 1], r);
    var rest := RoundedFrom(pts, r, i + 1);
    assert RoundedFrom(pts, r, i) == c + rest && |c| == 2;
    if i < j {
      RoundedFromCorner(pts, r, i + 1, j);
      assert RoundedFrom(pts, r, i)[2 * (j - i)] == rest[2 * (j - i - 1)];
      assert RoundedFrom(pts, r, i)[2 * (j - i) + 1] == rest[2 * (j - i - 1) + 1];
    }
  }

  /** Interior point `j` emits `L` to its corner start at position 2j-1 and `Q`
      with itself as control at position 2j. */
  lemma RoundedPathCorner(pts: seq<Point>, r: real, j: nat)
    requires 1 <= j && j + 1 < |pts|
    ensures 2 * j < |RoundedPath(pts, r)|
    ensures RoundedPath(pts, r)[2 * j - 1] == LineTo(CornerStart(pts[j - 1], pts[j], pts[j + 1], r))
    ensures RoundedPath(pts, r)[2 * j] == QuadTo(pts[j], CornerEnd(pts[j - 1], pts[j], pts[j + 1], r))
  {
    RoundedFromCorner(pts, r, 1, j);
  }

  /** On a horizontal or vertical incoming segment at least one unit long, the
      rounded corner starts on that segment, `rr` before the corner. */
  lemma CornerStartOnSegment(p0: Point, p1: Point, p2: Point, r: real)
    requires r >= 0.0 && AxisStep(p0, p1) && Manhattan(p0, p1) >= 1.0
    ensures Between(CornerStart(p0, p1, p2, r), p0, p1)
    ensures Manhattan(CornerStart(p0, p1, p2, r), p1) == CornerRadius(p0, p1, p2, r)
  {
    var rr := CornerRadius(p0, p1, p2, r);
    assert 0.0 <= rr <= Manhattan(p0, p1) / 2.0;
    var q := CornerStart(p0, p1, p2, r);
    if p0.y == p1.y {
      assert q.y == p1.y;
      if p1.x > p0.x { assert q.x == p1.x - rr; } else { assert q.x == p1.x + rr; }
    } else {
      assert q.x == p1.x;
      if p1.y > p0.y { assert q.y == p1.y - rr; } else { assert q.y == p1.y + rr; }
    }
  }
}
