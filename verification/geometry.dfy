/** Plane geometry shared by both edge routers: points, node rectangles, the
    four port sides, their outward unit vectors and their midpoints (anchors).
    Coordinates are exact reals. */
module Geometry {

  datatype Point = Point(x: real, y: real)

  /** A node rectangle: top-left corner and size (`RectLike` / `NodeRect`). */
  datatype Rect = Rect(x: real, y: real, w: real, h: real)

  datatype Side = Left | Right | Top | Bottom

  function Abs(v: real): (r: real)
    ensures r >= 0.0 && (r == v || r == -v)
  {
    if v < 0.0 then -v else v
  }

  function Min(a: real, b: real): (r: real)
    ensures r <= a && r <= b && (r == a || r == b)
  {
    if a <= b then a else b
  }

  function Max(a: real, b: real): (r: real)
    ensures r >= a && r >= b && (r == a || r == b)
  {
    if a >= b then a else b
  }

  /** `Math.sign`: -1, 0 or 1, with the sign of its argument. */
  function Sign(v: real): (r: real)
    ensures r * v == Abs(v)
    ensures r == 0.0 <==> v == 0.0
    ensures r == -1.0 || r == 0.0 || r == 1.0
  {
    if v > 0.0 then 1.0 else if v < 0.0 then -1.0 else 0.0
  }

  /** `Math.round`: the integer nearest to `x`, halves rounding up. */
  function Round(x: real): (n: int)
    ensures n as real <= x + 0.5 < n as real + 1.0
  {
    (x + 0.5).Floor
  }

  function Add(p: Point, q: Point): Point { Point(p.x + q.x, p.y + q.y) }
  function Sub(p: Point, q: Point): Point { Point(p.x - q.x, p.y - q.y) }
  function Scale(p: Point, k: real): Point { Point(p.x * k, p.y * k) }
  function Dot(p: Point, q: Point): real { p.x * q.x + p.y * q.y }
  function Midpoint(p: Point, q: Point): Point { Point((p.x + q.x) / 2.0, (p.y + q.y) / 2.0) }

  function Center(r: Rect): Point { Point(r.x + r.w / 2.0, r.y + r.h / 2.0) }

  predicate IsHorizontal(s: Side) { s == Left || s == Right }

  /** The side facing `s`. */
  function Opposite(s: Side): (o: Side)
    ensures o != s
    ensures IsHorizontal(o) == IsHorizontal(s)
  {
    match s
    case Left => Right
    case Right => Left
    case Top => Bottom
    case Bottom => Top
  }

  lemma OppositeInvolutive(s: Side)
    ensures Opposite(Opposite(s)) == s
  {
  }

  /** `sideVec` / `sideVector`: the outward unit normal of a side, in screen
      coordinates (y grows downwards). */
  function SideVec(s: Side): (v: Point)
    ensures Abs(v.x) + Abs(v.y) == 1.0 && v.x * v.y == 0.0
    ensures IsHorizontal(s) <==> v.y == 0.0
    ensures (s == Right || s == Bottom) <==> v.x + v.y == 1.0
  {
    match s
    case Left => Point(-1.0, 0.0)
    case Right => Point(1.0, 0.0)
    case Top => Point(0.0, -1.0)
    case Bottom => Point(0.0, 1.0)
  }

  /** Opposite sides have opposite normals. */
  lemma SideVecOpposite(s: Side)
    ensures SideVec(Opposite(s)) == Scale(SideVec(s), -1.0)
  {
  }

  /** The two corners that bound side `s` of `r`. */
  function SideStart(r: Rect, s: Side): Point {
    match s
    case Left => Point(r.x, r.y)
    case Right => Point(r.x + r.w, r.y)
    case Top => Point(r.x, r.y)
    case Bottom => Point(r.x, r.y + r.h)
  }

  function SideEnd(r: Rect, s: Side): Point {
    match s
    case Left => Point(r.x, r.y + r.h)
    case Right => Point(r.x + r.w, r.y + r.h)
    case Top => Point(r.x + r.w, r.y)
    case Bottom => Point(r.x + r.w, r.y + r.h)
  }

  /** Half the rectangle's extent along the normal of side `s`. */
  function HalfExtent(r: Rect, s: Side): real {
    if IsHorizontal(s) then r.w / 2.0 else r.h / 2.0
  }

  /** `anchorFromSide` / `getPortPosition`: the midpoint of side `s`. */
  function AnchorFromSide(r: Rect, s: Side): (a: Point)
    ensures a == Midpoint(SideStart(r, s), SideEnd(r, s))
  {
    var c := Center(r);
    match s
    case Left => Point(r.x, c.y)
    case Right => Point(r.x + r.w, c.y)
    case Top => Point(c.x, r.y)
    case Bottom => Point(c.x, r.y + r.h)
  }

  /** The anchor is reached from the centre by going half the rectangle's
      extent along the side's outward normal. */
  lemma AnchorIsCenterPlusNormal(r: Rect, s: Side)
    ensures AnchorFromSide(r, s) == Add(Center(r), Scale(SideVec(s), HalfExtent(r, s)))
  {
  }

  /** The point `pad` units outside the anchor of side `s`. */
  function StandOff(r: Rect, s: Side, pad: real): (p: Point)
    ensures IsHorizontal(s) ==> p.y == AnchorFromSide(r, s).y
    ensures !IsHorizontal(s) ==> p.x == AnchorFromSide(r, s).x
  {
    Add(AnchorFromSide(r, s), Scale(SideVec(s), pad))
  }

  /** The stand-off lies `pad` beyond the anchor along the outward normal,
      so `HalfExtent + pad` from the centre. */
  lemma StandOffDistance(r: Rect, s: Side, pad: real)
    ensures Dot(Sub(StandOff(r, s, pad), AnchorFromSide(r, s)), SideVec(s)) == pad
    ensures Dot(Sub(StandOff(r, s, pad), Center(r)), SideVec(s)) == HalfExtent(r, s) + pad
  {
    var a, c := AnchorFromSide(r, s), Center(r);
    var p := StandOff(r, s, pad);
    match s
    case Left =>
      assert p == Point(a.x - pad, a.y) && a == Point(r.x, c.y);
    case Right =>
      assert p == Point(a.x + pad, a.y) && a == Point(r.x + r.w, c.y);
    case Top =>
      assert p == Point(a.x, a.y - pad) && a == Point(c.x, r.y);
    case Bottom =>
      assert p == Point(a.x, a.y + pad) && a == Point(c.x, r.y + r.h);
  }

  /** Two consecutive points are joined by a horizontal or vertical segment. */
  predicate AxisStep(p: Point, q: Point) { p.x == q.x || p.y == q.y }

  predicate AxisAligned(pts: seq<Point>) {
    forall i :: 0 < i < |pts| ==> AxisStep(pts[i - 1], pts[i])
  }

  /** The segment from an anchor to its stand-off is horizontal or vertical. */
  lemma StandOffStep(r: Rect, s: Side, pad: real)
    ensures AxisStep(AnchorFromSide(r, s), StandOff(r, s, pad))
    ensures AxisStep(StandOff(r, s, pad), AnchorFromSide(r, s))
  {
  }

  /** Adding an axis step at either end keeps a path axis-aligned. */
  lemma AxisAlignedExtend(a: Point, inner: seq<Point>, b: Point)
    requires inner != [] && AxisAligned(inner)
    requires AxisStep(a, inner[0]) && AxisStep(inner[|inner| - 1], b)
    ensures AxisAligned([a] + inner + [b])
  {
    var pts := [a] + inner + [b];
    forall i | 0 < i < |pts| ensures AxisStep(pts[i - 1], pts[i]) {
      if 1 < i < |pts| - 1 {
        assert pts[i - 1] == inner[i - 2] && pts[i] == inner[i - 1];
      }
    }
  }

  /** The Manhattan length of a segment; it is the Euclidean length when the
      segment is horizontal or vertical. */
  function Manhattan(p: Point, q: Point): (d: real)
    ensures d >= 0.0
    ensures d == 0.0 <==> p == q
  {
    Abs(q.x - p.x) + Abs(q.y - p.y)
  }

  /** On a horizontal or vertical segment the Manhattan length squares to the
      Euclidean one. */
  lemma ManhattanIsEuclidean(p: Point, q: Point)
    requires AxisStep(p, q)
    ensures Manhattan(p, q) * Manhattan(p, q) == (q.x - p.x) * (q.x - p.x) + (q.y - p.y) * (q.y - p.y)
  {
    if p.x == q.x {
      assert Manhattan(p, q) == Abs(q.y - p.y);
    } else {
      assert Manhattan(p, q) == Abs(q.x - p.x);
    }
  }

  /** `q` lies in the bounding box of `a` and `b`; for a horizontal or vertical
      segment, on the segment itself. */
  predicate Between(q: Point, a: Point, b: Point) {
    Min(a.x, b.x) <= q.x <= Max(a.x, b.x) && Min(a.y, b.y) <= q.y <= Max(a.y, b.y)
  }

  /** `q` lies in the closed rectangle `r`. */
  predicate Inside(q: Point, r: Rect) {
    r.x <= q.x <= r.x + r.w && r.y <= q.y <= r.y + r.h
  }

  /** `r` grown by `pad` on every side. */
  function Expand(r: Rect, pad: real): Rect {
    Rect(r.x - pad, r.y - pad, r.w + 2.0 * pad, r.h + 2.0 * pad)
  }

  /** One command of an SVG path string: `M x y`, `L x y` or `Q cx cy x y`. */
  datatype PathCmd = MoveTo(to: Point) | LineTo(to: Point) | QuadTo(control: Point, to: Point)

  /** The path through `pts`: a move to the first point, a line to each of the others. */
  function Polyline(pts: seq<Point>): (cmds: seq<PathCmd>)
    ensures |cmds| == |pts|
    ensures pts != [] ==> cmds[0] == MoveTo(pts[0])
    ensures forall i :: 0 < i < |pts| ==> cmds[i] == LineTo(pts[i])
  {
    seq(|pts|, i requires 0 <= i < |pts| => if i == 0 then MoveTo(pts[0]) else LineTo(pts[i]))
  }

  /** Drawing on to one more point adds one line to the path. */
  lemma PolylineExtend(pts: seq<Point>, p: Point)
    requires pts != []
    ensures Polyline(pts + [p]) == Polyline(pts) + [LineTo(p)]
  {
  }
}
