/** The obstacle-aware edge router: port choice with a widened angle band when
    a previous choice exists, orthogonal routing that moves its middle segment
    off obstacles, and a rounded path whose corner radius fits the segments.

    `Math.atan2` (in degrees) is a parameter. Segment lengths are Manhattan
    lengths, which equal the Euclidean ones on the horizontal and vertical
    segments this router produces (`OrthogonalPathAxisAligned`). */
module EdgeRouting {
  import opened Wrappers
  import opened Geometry
  import Seqs
  import GraphUtils

  type Ports = GraphUtils.Ports

  /** `selectSideFromAngle(dx, dy, previousSide)` given `deg = atan2(dy, dx)`
      in degrees: the bands are widened by 10 degrees when any previous side is
      given, and the first match wins in the order right, bottom, top, left. */
  function SelectSideFromAngle(deg: real, previous: Option<Side>): (s: Side)
    ensures previous.None? ==>
      (s == Right <==> -45.0 <= deg <= 45.0)
      && (s == Bottom <==> 45.0 < deg < 135.0)
      && (s == Top <==> -135.0 <= deg < -45.0)
      && (s == Left <==> deg >= 135.0 || deg < -135.0)
    ensures previous.Some? ==>
      (s == Right <==> -55.0 <= deg <= 55.0)
      && (s == Bottom <==> 55.0 < deg < 145.0)
      && (s == Top <==> -145.0 <= deg < -55.0)
      && (s == Left <==> deg >= 145.0 || deg < -145.0)
  {
    var buffer := if previous.Some? then 10.0 else 0.0;
    if deg >= -45.0 - buffer && deg <= 45.0 + buffer then Right
    else if deg > 45.0 - buffer && deg < 135.0 + buffer then Bottom
    else if deg <= -45.0 + buffer && deg >= -135.0 - buffer then Top
    else Left
  }

  /** Which previous side was chosen makes no difference, and between 45 and
      55 degrees a previous side turns a bottom port into a right port, even
      when that previous side was the bottom. */
  lemma PreviousSideOnlyWidensRight(deg: real, a: Side, b: Side)
    ensures SelectSideFromAngle(deg, Some(a)) == SelectSideFromAngle(deg, Some(b))
    ensures 45.0 < deg <= 55.0 ==>
      SelectSideFromAngle(deg, None) == Bottom && SelectSideFromAngle(deg, Some(Bottom)) == Right
  {
  }

  /** `pickPorts(parentRect, childRect, {xAlign, yAlign}, previousPorts)`. */
  function PickPorts(p: Rect, c: Rect, xAlign: real, yAlign: real, previous: Option<Ports>,
                     atan2Deg: (real, real) -> real): (r: Ports)
    ensures r.child == Opposite(r.parent)
    ensures var d := Sub(Center(c), Center(p));
      (Abs(d.x) <= xAlign ==> (r.parent == Bottom <==> d.y >= 0.0) && (r.parent == Top <==> d.y < 0.0))
      && (Abs(d.x) > xAlign && Abs(d.y) <= yAlign ==>
            (r.parent == Right <==> d.x >= 0.0) && (r.parent == Left <==> d.x < 0.0))
      && (Abs(d.x) > xAlign && Abs(d.y) > yAlign ==>
            r.parent == SelectSideFromAngle(atan2Deg(d.y, d.x), if previous.Some? then Some(previous.value.parent) else None))
  {
    var dx := Center(c).x - Center(p).x;
    var dy := Center(c).y - Center(p).y;
    if Abs(dx) <= xAlign then
      if dy >= 0.0 then GraphUtils.Ports(Bottom, Top) else GraphUtils.Ports(Top, Bottom)
    else if Abs(dy) <= yAlign then
      if dx >= 0.0 then GraphUtils.Ports(Right, Left) else GraphUtils.Ports(Left, Right)
    else
      var side := SelectSideFromAngle(atan2Deg(dy, dx), if previous.Some? then Some(previous.value.parent) else None);
      GraphUtils.Ports(side, Opposite(side))
  }

  /** In the aligned cases the parent port never faces away from the child,
      and the child port never faces away from the parent. */
  lemma AlignedPortsFaceEachOther(p: Rect, c: Rect, xAlign: real, yAlign: real, previous: Option<Ports>,
                                  atan2Deg: (real, real) -> real)
    requires var d := Sub(Center(c), Center(p)); Abs(d.x) <= xAlign || Abs(d.y) <= yAlign
    ensures var r := PickPorts(p, c, xAlign, yAlign, previous, atan2Deg);
      Dot(SideVec(r.parent), Sub(Center(c), Center(p))) >= 0.0
      && Dot(SideVec(r.child), Sub(Center(p), Center(c))) >= 0.0
  {
  }

  /** `lineIntersectsRect(start, end, rect, padding)`: the segment's bounding
      box is not disjoint from the rectangle grown by `padding`. */
  function LineIntersectsRect(start: Point, end: Point, rect: Rect, padding: real): bool {
    var e := Expand(rect, padding);
    !(Max(start.x, end.x) < e.x || Min(start.x, end.x) > e.x + e.w
      || Max(start.y, end.y) < e.y || Min(start.y, end.y) > e.y + e.h)
  }

  /** For a rectangle of non-negative size, the test is true exactly when some
      point of the segment's bounding box lies in the grown rectangle; so a
      horizontal or vertical segment it rejects keeps out of that rectangle. */
  lemma LineIntersectsRectIff(start: Point, end: Point, rect: Rect, padding: real)
    requires rect.w >= 0.0 && rect.h >= 0.0 && padding >= 0.0
    ensures LineIntersectsRect(start, end, rect, padding)
            <==> exists q :: Between(q, start, end) && Inside(q, Expand(rect, padding))
  {
    var e := Expand(rect, padding);
    if LineIntersectsRect(start, end, rect, padding) {
      var q := Point(Max(Min(start.x, end.x), e.x), Max(Min(start.y, end.y), e.y));
      assert Between(q, start, end) && Inside(q, e);
    }
  }

  // ---------------------------------------------------------------- orthogonal routing

  /** A rectangle object: `ref` stands for its identity, so `ref == ref'` is `===`. */
  datatype Boxed = Boxed(ref: nat, rect: Rect)

  const ChannelWidth: real := 32.0

  /** `obstacle === parentRect || obstacle === childRect`. */
  predicate Skipped(o: Boxed, pr: Boxed, cr: Boxed) { o.ref == pr.ref || o.ref == cr.ref }

  /** One step of the horizontal case: the fixed test segment at the first
      `midX`, the channel chosen against the current `midX`. */
  function HStep(mid: real, o: Boxed, pr: Boxed, cr: Boxed, s: Point, e: Point): real {
    if Skipped(o, pr, cr) then mid
    else if LineIntersectsRect(s, e, o.rect, 8.0) then
      (if o.rect.x + o.rect.w / 2.0 > mid then o.rect.x - ChannelWidth else o.rect.x + o.rect.w + ChannelWidth)
    else mid
  }

  function HFold(obs: seq<Boxed>, mid: real, pr: Boxed, cr: Boxed, s: Point, e: Point): real {
    if obs == [] then mid
    else HStep(HFold(obs[..|obs| - 1], mid, pr, cr, s, e), obs[|obs| - 1], pr, cr, s, e)
  }

  /** One step of the vertical case: the test segment is re-made at the current `midY`. */
  function VStep(mid: real, o: Boxed, pr: Boxed, cr: Boxed, outP: Point, inP: Point): real {
    if Skipped(o, pr, cr) then mid
    else if LineIntersectsRect(Point(outP.x, mid), Point(inP.x, mid), o.rect, 8.0) then
      (if o.rect.y + o.rect.h / 2.0 > mid then o.rect.y - ChannelWidth else o.rect.y + o.rect.h + ChannelWidth)
    else mid
  }

  function VFold(obs: seq<Boxed>, mid: real, pr: Boxed, cr: Boxed, outP: Point, inP: Point): real {
    if obs == [] then mid
    else VStep(VFold(obs[..|obs| - 1], mid, pr, cr, outP, inP), obs[|obs| - 1], pr, cr, outP, inP)
  }

  /** Some obstacle other than the two end rectangles meets a leg of the L
      through `corner`. */
  function Hits(obs: seq<Boxed>, pr: Boxed, cr: Boxed, outP: Point, corner: Point, inP: Point): bool {
    if obs == [] then false
    else
      var o := obs[|obs| - 1];
      Hits(obs[..|obs| - 1], pr, cr, outP, corner, inP)
      || (!Skipped(o, pr, cr)
          && (LineIntersectsRect(outP, corner, o.rect, 8.0) || LineIntersectsRect(corner, inP, o.rect, 8.0)))
  }


  /** The bend points between the stand-offs. */
  function Middle(pr: Boxed, cr: Boxed, ps: Side, cs: Side, obs: seq<Boxed>, padding: real): seq<Point> {
    var outP := StandOff(pr.rect, ps, padding);
    var inP := StandOff(cr.rect, cs, padding);
    if GraphUtils.BothHorizontal(ps, cs) then HorizontalMiddle(pr, cr, obs, outP, inP)
    else if GraphUtils.BothVertical(ps, cs) then VerticalMiddle(pr, cr, obs, outP, inP)
    else [Corner(pr, cr, obs, outP, inP)]
  }

  /** Both sides horizontal: a vertical run at `midX`, moved beside obstacles. */
  function HorizontalMiddle(pr: Boxed, cr: Boxed, obs: seq<Boxed>, outP: Point, inP: Point): seq<Point> {
    var mid0 := (outP.x + inP.x) / 2.0;
    var midX := HFold(obs, mid0, pr, cr, Point(mid0, outP.y), Point(mid0, inP.y));
    [Point(midX, outP.y), Point(midX, inP.y)]
  }

  /** Both sides vertical: a horizontal run at `midY`, moved beside obstacles. */
  function VerticalMiddle(pr: Boxed, cr: Boxed, obs: seq<Boxed>, outP: Point, inP: Point): seq<Point> {
    var midY := VFold(obs, (outP.y + inP.y) / 2.0, pr, cr, outP, inP);
    [Point(outP.x, midY), Point(inP.x, midY)]
  }

  /** Mixed sides: the first L-corner unless only it is blocked. */
  function Corner(pr: Boxed, cr: Boxed, obs: seq<Boxed>, outP: Point, inP: Point): Point {
    var a := Point(outP.x, inP.y);
    var b := Point(inP.x, outP.y);
    if Hits(obs, pr, cr, outP, a, inP) && !Hits(obs, pr, cr, outP, b, inP) then b else a
  }

  /** The specification of `createOrthogonalPath`. */
  function OrthogonalPath(pr: Boxed, cr: Boxed, ps: Side, cs: Side, obs: seq<Boxed>, padding: real): seq<Point> {
    [AnchorFromSide(pr.rect, ps), StandOff(pr.rect, ps, padding)]
    + Middle(pr, cr, ps, cs, obs, padding)
    + [StandOff(cr.rect, cs, padding), AnchorFromSide(cr.rect, cs)]
  }

  /** The horizontal case's loop: moves `midX` into a channel beside each
      obstacle met by the vertical segment at the first `midX`. */
  method AvoidHorizontal(pr: Boxed, cr: Boxed, obs: seq<Boxed>, outP: Point, inP: Point) returns (midX: real)
    ensures var mid0 := (outP.x + inP.x) / 2.0;
      midX == HFold(obs, mid0, pr, cr, Point(mid0, outP.y), Point(mid0, inP.y))
  {
    midX := (outP.x + inP.x) / 2.0;
    var s, e := Point(midX, outP.y), Point(midX, inP.y);
    var i := 0;
    while i < |obs|
      invariant i <= |obs|
      invariant midX == HFold(obs[..i], (outP.x + inP.x) / 2.0, pr, cr, s, e)
    {
      assert obs[..i + 1][..i] == obs[..i];
      var o := obs[i];
      if !Skipped(o, pr, cr) && LineIntersectsRect(s, e, o.rect, 8.0) {
        midX := if o.rect.x + o.rect.w / 2.0 > midX then o.rect.x - ChannelWidth
                else o.rect.x + o.rect.w + ChannelWidth;
      }
      i := i + 1;
    }
    assert obs[..i] == obs;
  }

  /** The vertical case's loop: the horizontal segment is re-tested at the
      current `midY` for every obstacle. */
  method AvoidVertical(pr: Boxed, cr: Boxed, obs: seq<Boxed>, outP: Point, inP: Point) returns (midY: real)
    ensures midY == VFold(obs, (outP.y + inP.y) / 2.0, pr, cr, outP, inP)
  {
    midY := (outP.y + inP.y) / 2.0;
    var i := 0;
    while i < |obs|
      invariant i <= |obs|
      invariant midY == VFold(obs[..i], (outP.y + inP.y) / 2.0, pr, cr, outP, inP)
    {
      assert obs[..i + 1][..i] == obs[..i];
      var o := obs[i];
      if !Skipped(o, pr, cr) && LineIntersectsRect(Point(outP.x, midY), Point(inP.x, midY), o.rect, 8.0) {
        midY := if o.rect.y + o.rect.h / 2.0 > midY then o.rect.y - ChannelWidth
                else o.rect.y + o.rect.h + ChannelWidth;
      }
      i := i + 1;
    }
    assert obs[..i] == obs;
  }

  /** The mixed case's loop: tests both L-shapes against every obstacle and
      keeps the first corner unless only it is blocked. */
  method ChooseCorner(pr: Boxed, cr: Boxed, obs: seq<Boxed>, outP: Point, inP: Point) returns (best: Point)
    ensures best == Corner(pr, cr, obs, outP, inP)
  {
    var a := Point(outP.x, inP.y);
    var b := Point(inP.x, outP.y);
    best := a;
    var aHits, bHits := false, false;
    var i := 0;
    while i < |obs|
      invariant i <= |obs|
      invariant aHits == Hits(obs[..i], pr, cr, outP, a, inP)
      invariant bHits == Hits(obs[..i], pr, cr, outP, b, inP)
    {
      assert obs[..i + 1][..i] == obs[..i];
      var o := obs[i];
      if !Skipped(o, pr, cr) {
        if LineIntersectsRect(outP, a, o.rect, 8.0) || LineIntersectsRect(a, inP, o.rect, 8.0) {
          aHits := true;
        }
        if LineIntersectsRect(outP, b, o.rect, 8.0) || LineIntersectsRect(b, inP, o.rect, 8.0) {
          bHits := true;
        }
      }
      i := i + 1;
    }
    assert obs[..i] == obs;
    if bHits && !aHits {
      best := a;
    } else if aHits && !bHits {
      best := b;
    }
  }

  /** `createOrthogonalPath(parentRect, childRect, parentSide, childSide, obstacles, padding)`. */
  method CreateOrthogonalPath(pr: Boxed, cr: Boxed, ps: Side, cs: Side, obs: seq<Boxed>, padding: real)
    returns (points: seq<Point>)
    ensures points == OrthogonalPath(pr, cr, ps, cs, obs, padding)
  {
    var parentAnchor := AnchorFromSide(pr.rect, ps);
    var childAnchor := AnchorFromSide(cr.rect, cs);
    // anchor + sideVector * padding
    var outP := StandOff(pr.rect, ps, padding);
    var inP := StandOff(cr.rect, cs, padding);
    points := [parentAnchor, outP];
    if GraphUtils.BothHorizontal(ps, cs) {
      var midX := AvoidHorizontal(pr, cr, obs, outP, inP);
      points := points + [Point(midX, outP.y), Point(midX, inP.y)];
    } else if GraphUtils.BothVertical(ps, cs) {
      var midY := AvoidVertical(pr, cr, obs, outP, inP);
      points := points + [Point(outP.x, midY), Point(inP.x, midY)];
    } else {
      var best := ChooseCorner(pr, cr, obs, outP, inP);
      points := points + [best];
    }
    points := points + [inP, childAnchor];
  }

  /** The path starts at the parent anchor and its stand-off, ends at the
      child's stand-off and anchor, and has six points when both sides are
      horizontal or both vertical, five otherwise. */
  lemma OrthogonalPathShape(pr: Boxed, cr: Boxed, ps: Side, cs: Side, obs: seq<Boxed>, padding: real)
    ensures var pts := OrthogonalPath(pr, cr, ps, cs, obs, padding);
      |pts| == (if GraphUtils.BothHorizontal(ps, cs) || GraphUtils.BothVertical(ps, cs) then 6 else 5)
      && pts[0] == AnchorFromSide(pr.rect, ps) && pts[1] == StandOff(pr.rect, ps, padding)
      && pts[|pts| - 2] == StandOff(cr.rect, cs, padding) && pts[|pts| - 1] == AnchorFromSide(cr.rect, cs)
  {
  }

  /** Whatever the obstacles, every segment of the path is horizontal or vertical. */
  lemma OrthogonalPathAxisAligned(pr: Boxed, cr: Boxed, ps: Side, cs: Side, obs: seq<Boxed>, padding: real)
    ensures AxisAligned(OrthogonalPath(pr, cr, ps, cs, obs, padding))
  {
    var pts := OrthogonalPath(pr, cr, ps, cs, obs, padding);
    var m := Middle(pr, cr, ps, cs, obs, padding);
    assert pts == [pts[0], pts[1]] + m + [pts[|pts| - 2], pts[|pts| - 1]];
    forall i | 0 < i < |pts| ensures AxisStep(pts[i - 1], pts[i]) {
      if |m| == 2 {
        assert pts[2] == m[0] && pts[3] == m[1];
      } else {
        assert pts[2] == m[0];
      }
    }
  }

  /** The mixed case takes the corner (in.x, out.y) only when the corner
      (out.x, in.y) meets an obstacle and the other does not. */
  lemma MixedCornerChoice(pr: Boxed, cr: Boxed, ps: Side, cs: Side, obs: seq<Boxed>, padding: real)
    requires !GraphUtils.BothHorizontal(ps, cs) && !GraphUtils.BothVertical(ps, cs)
    ensures var outP := StandOff(pr.rect, ps, padding);
      var inP := StandOff(cr.rect, cs, padding);
      var corner := OrthogonalPath(pr, cr, ps, cs, obs, padding)[2];
      (corner == Point(outP.x, inP.y) || corner == Point(inP.x, outP.y))
      && (corner != Point(outP.x, inP.y) ==>
            Hits(obs, pr, cr, outP, Point(outP.x, inP.y), inP) && !Hits(obs, pr, cr, outP, Point(inP.x, outP.y), inP))
  {
  }

  /** The obstacles other than the two end rectangles, in order. */
  function Others(obs: seq<Boxed>, pr: Boxed, cr: Boxed): seq<Boxed> {
    if obs == [] then []
    else Others(obs[..|obs| - 1], pr, cr) + (if Skipped(obs[|obs| - 1], pr, cr) then [] else [obs[|obs| - 1]])
  }

  lemma {:induction false} HFoldOthers(obs: seq<Boxed>, mid: real, pr: Boxed, cr: Boxed, s: Point, e: Point)
    ensures HFold(obs, mid, pr, cr, s, e) == HFold(Others(obs, pr, cr), mid, pr, cr, s, e)
  {
    if obs != [] {
      var n := |obs| - 1;
      HFoldOthers(obs[..n], mid, pr, cr, s, e);
      var o := Others(obs[..n], pr, cr);
      if Skipped(obs[n], pr, cr) {
        assert Others(obs, pr, cr) == o + [];
        assert o + [] == o;
      } else {
        assert Others(obs, pr, cr) == o + [obs[n]];
        assert (o + [obs[n]])[..|o|] == o;
        assert (o + [obs[n]])[|o|] == obs[n];
      }
    }
  }

  lemma {:induction false} VFoldOthers(obs: seq<Boxed>, mid: real, pr: Boxed, cr: Boxed, outP: Point, inP: Point)
    ensures VFold(obs, mid, pr, cr, outP, inP) == VFold(Others(obs, pr, cr), mid, pr, cr, outP, inP)
  {
    if obs != [] {
      var n := |obs| - 1;
      VFoldOthers(obs[..n], mid, pr, cr, outP, inP);
      var o := Others(obs[..n], pr, cr);
      if Skipped(obs[n], pr, cr) {
        assert Others(obs, pr, cr) == o + [];
        assert o + [] == o;
      } else {
        assert Others(obs, pr, cr) == o + [obs[n]];
        assert (o + [obs[n]])[..|o|] == o;
        assert (o + [obs[n]])[|o|] == obs[n];
      }
    }
  }

  lemma {:induction false} HitsOthers(obs: seq<Boxed>, pr: Boxed, cr: Boxed, outP: Point, corner: Point, inP: Point)
    ensures Hits(obs, pr, cr, outP, corner, inP) == Hits(Others(obs, pr, cr), pr, cr, outP, corner, inP)
  {
    if obs != [] {
      var n := |obs| - 1;
      HitsOthers(obs[..n], pr, cr, outP, corner, inP);
      var o := Others(obs[..n], pr, cr);
      if Skipped(obs[n], pr, cr) {
        assert Others(obs, pr, cr) == o + [];
        assert o + [] == o;
      } else {
        assert Others(obs, pr, cr) == o + [obs[n]];
        assert (o + [obs[n]])[..|o|] == o;
        assert (o + [obs[n]])[|o|] == obs[n];
      }
    }
  }

  /** The end rectangles themselves, wherever they sit in the obstacle list,
      never change the route. */
  lemma EndRectanglesIgnored(pr: Boxed, cr: Boxed, ps: Side, cs: Side, obs: seq<Boxed>, padding: real)
    ensures OrthogonalPath(pr, cr, ps, cs, obs, padding) == OrthogonalPath(pr, cr, ps, cs, Others(obs, pr, cr), padding)
  {
    MiddleIgnoresEnds(pr, cr, ps, cs, obs, padding);
  }

  lemma MiddleIgnoresEnds(pr: Boxed, cr: Boxed, ps: Side, cs: Side, obs: seq<Boxed>, padding: real)
    ensures Middle(pr, cr, ps, cs, obs, padding) == Middle(pr, cr, ps, cs, Others(obs, pr, cr), padding)
  {
    var outP := StandOff(pr.rect, ps, padding);
    var inP := StandOff(cr.rect, cs, padding);
    var others := Others(obs, pr, cr);
    if GraphUtils.BothHorizontal(ps, cs) {
      var mid0 := (outP.x + inP.x) / 2.0;
      HFoldOthers(obs, mid0, pr, cr, Point(mid0, outP.y), Point(mid0, inP.y));
      assert HorizontalMiddle(pr, cr, obs, outP, inP) == HorizontalMiddle(pr, cr, others, outP, inP);
    } else if GraphUtils.BothVertical(ps, cs) {
      VFoldOthers(obs, (outP.y + inP.y) / 2.0, pr, cr, outP, inP);
      assert VerticalMiddle(pr, cr, obs, outP, inP) == VerticalMiddle(pr, cr, others, outP, inP);
    } else {
      HitsOthers(obs, pr, cr, outP, Point(outP.x, inP.y), inP);
      HitsOthers(obs, pr, cr, outP, Point(inP.x, outP.y), inP);
      assert Corner(pr, cr, obs, outP, inP) == Corner(pr, cr, others, outP, inP);
    }
  }

  // ---------------------------------------------------------------- rounded path

  /** The commands for interior point `p1`: a plain line when a neighbouring
      segment has zero length or the radius does not fit, otherwise a line to
      the corner start and a curve with `p1` as control. */
  function CornerCmds(p0: Point, p1: Point, p2: Point, radius: real): (cmds: seq<PathCmd>)
    ensures Manhattan(p0, p1) == 0.0 || Manhattan(p1, p2) == 0.0 ==> cmds == [LineTo(p1)]
    ensures |cmds| == 1 ==> cmds == [LineTo(p1)]
    ensures |cmds| == 2 ==> cmds[1].QuadTo? && cmds[1].control == p1 && cmds[0].LineTo?
  {
    var len1 := Manhattan(p0, p1);
    var len2 := Manhattan(p1, p2);
    if len1 == 0.0 || len2 == 0.0 then [LineTo(p1)]
    else
      var maxRadius := Min(radius, Min(len1 / 2.0, len2 / 2.0));
      if maxRadius <= 0.0 then [LineTo(p1)]
      else [LineTo(CornerStart(p0, p1, len1, maxRadius)), QuadTo(p1, CornerEnd(p1, p2, len2, maxRadius))]
  }

  /** `p1 - n1 * maxRadius`, with `n1` the unit vector from `p0` to `p1`. */
  function CornerStart(p0: Point, p1: Point, len1: real, maxRadius: real): Point
    requires len1 != 0.0
  {
    var n1 := Point((p1.x - p0.x) / len1, (p1.y - p0.y) / len1);
    Point(p1.x - n1.x * maxRadius, p1.y - n1.y * maxRadius)
  }

  /** `p1 + n2 * maxRadius`, with `n2` the unit vector from `p1` to `p2`. */
  function CornerEnd(p1: Point, p2: Point, len2: real, maxRadius: real): Point
    requires len2 != 0.0
  {
    var n2 := Point((p2.x - p1.x) / len2, (p2.y - p1.y) / len2);
    Point(p1.x + n2.x * maxRadius, p1.y + n2.y * maxRadius)
  }

  function InteriorFrom(pts: seq<Point>, radius: real, i: nat): seq<PathCmd>
    requires 1 <= i <= |pts|
    decreases |pts| - i
  {
    if i + 1 >= |pts| then []
    else CornerCmds(pts[i - 1], pts[i], pts[i + 1], radius) + InteriorFrom(pts, radius, i + 1)
  }

  /** The specification of `pointsToRoundedSvgPath`. */
  function RoundedSvgPath(pts: seq<Point>, radius: real): seq<PathCmd> {
    if |pts| < 2 then []
    else [MoveTo(pts[0])] + InteriorFrom(pts, radius, 1) + [LineTo(pts[|pts| - 1])]
  }

  /** `pointsToRoundedSvgPath(points, radius)`. */
  method PointsToRoundedSvgPath(pts: seq<Point>, radius: real) returns (path: seq<PathCmd>)
    ensures path == RoundedSvgPath(pts, radius)
  {
    if |pts| < 2 {
      return [];
    }
    path := [MoveTo(pts[0])];
    var i := 1;
    while i < |pts| - 1
      invariant 1 <= i <= |pts| - 1
      invariant path + InteriorFrom(pts, radius, i) == [MoveTo(pts[0])] + InteriorFrom(pts, radius, 1)
    {
      var p0, p1, p2 := pts[i - 1], pts[i], pts[i + 1];
      var len1 := Manhattan(p0, p1);
      var len2 := Manhattan(p1, p2);
      assert InteriorFrom(pts, radius, i) == CornerCmds(p0, p1, p2, radius) + InteriorFrom(pts, radius, i + 1);
      Seqs.AppendAssoc(path, CornerCmds(p0, p1, p2, radius), InteriorFrom(pts, radius, i + 1));
      if len1 == 0.0 || len2 == 0.0 {
        path := path + [LineTo(p1)];
        i := i + 1;
        continue;
      }
      var maxRadius := Min(radius, Min(len1 / 2.0, len2 / 2.0));
      if maxRadius <= 0.0 {
        path := path + [LineTo(p1)];
        i := i + 1;
        continue;
      }
      var cornerStart := CornerStart(p0, p1, len1, maxRadius);
      var cornerEnd := CornerEnd(p1, p2, len2, maxRadius);
      assert CornerCmds(p0, p1, p2, radius) == [LineTo(cornerStart), QuadTo(p1, cornerEnd)];
      path := path + [LineTo(cornerStart), QuadTo(p1, cornerEnd)];
      i := i + 1;
    }
    path := path + [LineTo(pts[|pts| - 1])];
  }

  /** From two points on, the path starts with `M` at the first point and
      ends with `L` at the last. */
  lemma RoundedSvgPathEnds(pts: seq<Point>, radius: real)
    ensures |pts| < 2 <==> RoundedSvgPath(pts, radius) == []
    ensures |pts| >= 2 ==>
      var path := RoundedSvgPath(pts, radius);
      path[0] == MoveTo(pts[0]) && path[|path| - 1] == LineTo(pts[|pts| - 1])
  {
  }

  /** On a horizontal or vertical segment the unit vector is a signed axis
      vector, so the corner start is `maxRadius` back along that axis. */
  lemma CornerStartAxis(p0: Point, p1: Point, m: real)
    requires AxisStep(p0, p1) && p0 != p1
    ensures var q := CornerStart(p0, p1, Manhattan(p0, p1), m);
      (p0.y == p1.y ==> q.y == p1.y && q.x == (if p1.x > p0.x then p1.x - m else p1.x + m))
      && (p0.y != p1.y ==> q.x == p1.x && q.y == (if p1.y > p0.y then p1.y - m else p1.y + m))
  {
    var len := Manhattan(p0, p1);
    var dx, dy := p1.x - p0.x, p1.y - p0.y;
    if p0.y == p1.y {
      assert dy == 0.0 && (dx == len || dx == -len);
      UnitRatio(dx, len);
      UnitRatio(dy, len);
    } else {
      assert dx == 0.0 && (dy == len || dy == -len);
      UnitRatio(dx, len);
      UnitRatio(dy, len);
    }
  }

  /** A difference divided by a length it equals, its negation or zero. */
  lemma UnitRatio(d: real, len: real)
    requires len > 0.0
    ensures d == len ==> d / len == 1.0
    ensures d == -len ==> d / len == -1.0
    ensures d == 0.0 ==> d / len == 0.0
  {
  }

  /** On a horizontal or vertical incoming segment, the curve starts on that
      segment, min(radius, len1/2, len2/2) before the corner. */
  lemma CornerStartOnSegment(p0: Point, p1: Point, p2: Point, radius: real)
    requires AxisStep(p0, p1) && p0 != p1 && p1 != p2
    requires Min(radius, Min(Manhattan(p0, p1) / 2.0, Manhattan(p1, p2) / 2.0)) > 0.0
    ensures var cmds := CornerCmds(p0, p1, p2, radius);
      |cmds| == 2
      && Between(cmds[0].to, p0, p1)
      && Manhattan(cmds[0].to, p1) == Min(radius, Min(Manhattan(p0, p1) / 2.0, Manhattan(p1, p2) / 2.0))
  {
    var m := Min(radius, Min(Manhattan(p0, p1) / 2.0, Manhattan(p1, p2) / 2.0));
    CornerStartAxis(p0, p1, m);
    assert CornerCmds(p0, p1, p2, radius)[0].to == CornerStart(p0, p1, Manhattan(p0, p1), m);
  }

  // ---------------------------------------------------------------- composition

  /** `createEdgePath(parentRect, childRect, obstacles, previousPorts)`. */
  method CreateEdgePath(pr: Boxed, cr: Boxed, obs: seq<Boxed>, previous: Option<Ports>,
                        atan2Deg: (real, real) -> real)
    returns (path: seq<PathCmd>, ports: Ports)
    ensures ports == PickPorts(pr.rect, cr.rect, 24.0, 24.0, previous, atan2Deg)
    ensures path == RoundedSvgPath(OrthogonalPath(pr, cr, ports.parent, ports.child, obs, 16.0), 12.0)
    ensures path[0] == MoveTo(AnchorFromSide(pr.rect, ports.parent))
    ensures path[|path| - 1] == LineTo(AnchorFromSide(cr.rect, ports.child))
  {
    ports := PickPorts(pr.rect, cr.rect, 24.0, 24.0, previous, atan2Deg);
    var points := CreateOrthogonalPath(pr, cr, ports.parent, ports.child, obs, 16.0);
    EdgePathEnds(pr, cr, ports.parent, ports.child, obs);
    path := PointsToRoundedSvgPath(points, 12.0);
  }

  /** The rounded path of a route starts at the parent anchor and ends at the
      child anchor. */
  lemma EdgePathEnds(pr: Boxed, cr: Boxed, ps: Side, cs: Side, obs: seq<Boxed>)
    ensures var path := RoundedSvgPath(OrthogonalPath(pr, cr, ps, cs, obs, 16.0), 12.0);
      path != [] && path[0] == MoveTo(AnchorFromSide(pr.rect, ps))
      && path[|path| - 1] == LineTo(AnchorFromSide(cr.rect, cs))
  {
    var points := OrthogonalPath(pr, cr, ps, cs, obs, 16.0);
    OrthogonalPathShape(pr, cr, ps, cs, obs, 16.0);
    RoundedSvgPathEnds(points, 12.0);
  }
}
