/** The path one edge draws: both endpoint rectangles are read from the
    registry's live cells at the moment the path is computed, then ports,
    anchors, 16-unit stand-offs, waypoints and a radius-12 rounded path. */
module GraphEdge {
  import opened Wrappers
  import opened Geometry
  import opened GraphRegistry
  import GraphUtils

  const StandOffPadding: real := 16.0
  const PortTolerance: real := 24.0
  const CornerRadius: real := 12.0

  /** The rectangle a node's cells describe right now. */
  function RectOf(c: Cells): (r: Rect)
    reads c
    ensures r.x == c.x && r.y == c.y && r.w == c.w && r.h == c.h
  {
    Rect(c.x, c.y, c.w, c.h)
  }

  /** `[pAnchor, pOut, ...waypoints, cIn, cAnchor]` for the given ports. */
  function Route(p: Rect, c: Rect, ports: GraphUtils.Ports): (pts: seq<Point>)
    ensures |pts| >= 5
    ensures pts[0] == AnchorFromSide(p, ports.parent)
    ensures pts[1] == StandOff(p, ports.parent, StandOffPadding)
    ensures pts[|pts| - 2] == StandOff(c, ports.child, StandOffPadding)
    ensures pts[|pts| - 1] == AnchorFromSide(c, ports.child)
  {
    var pAnchor := AnchorFromSide(p, ports.parent);
    var cAnchor := AnchorFromSide(c, ports.child);
    var pOut := StandOff(p, ports.parent, StandOffPadding);
    var cIn := StandOff(c, ports.child, StandOffPadding);
    [pAnchor, pOut] + GraphUtils.OrthogonalWaypoints(pOut, cIn, ports.parent, ports.child) + [cIn, cAnchor]
  }

  /** The edge's points between two rectangles, with the ports `pickPorts` chooses. */
  function EdgePoints(p: Rect, c: Rect): seq<Point> {
    Route(p, c, GraphUtils.PickPorts(p, c, PortTolerance))
  }

  /** Every segment of a route is horizontal or vertical, so the rounded
      path's Manhattan lengths are the true lengths. */
  lemma RouteAxisAligned(p: Rect, c: Rect, ports: GraphUtils.Ports)
    ensures AxisAligned(Route(p, c, ports))
  {
    var pAnchor := AnchorFromSide(p, ports.parent);
    var cAnchor := AnchorFromSide(c, ports.child);
    var pOut := StandOff(p, ports.parent, StandOffPadding);
    var cIn := StandOff(c, ports.child, StandOffPadding);
    var mid := GraphUtils.OrthogonalWaypoints(pOut, cIn, ports.parent, ports.child);
    StandOffStep(p, ports.parent, StandOffPadding);
    StandOffStep(c, ports.child, StandOffPadding);
    var inner := [pOut] + mid + [cIn];
    AxisAlignedExtend(pAnchor, inner, cAnchor);
    Regroup(pAnchor, pOut, mid, cIn, cAnchor);
  }

  lemma Regroup<X>(a: X, x: X, m: seq<X>, y: X, b: X)
    ensures [a, x] + m + [y, b] == [a] + ([x] + m + [y]) + [b]
  {
  }

  /** The `d` attribute of `animatedProps`. */
  function EdgePath(reg: Registry, from: string, to: string): (d: seq<PathCmd>)
    reads reg, reg.entries.Values
    ensures d == [] <==> from !in reg.entries || to !in reg.entries
    ensures d != [] ==>
      var p := RectOf(reg.entries[from]);
      var c := RectOf(reg.entries[to]);
      d == GraphUtils.RoundedPath(EdgePoints(p, c), CornerRadius)
      && d[0] == MoveTo(AnchorFromSide(p, GraphUtils.PickPorts(p, c, PortTolerance).parent))
      && d[|d| - 1] == LineTo(AnchorFromSide(c, GraphUtils.PickPorts(p, c, PortTolerance).child))
  {
    match (reg.Get(from), reg.Get(to))
    case (Some(parent), Some(child)) =>
      var pts := EdgePoints(RectOf(parent), RectOf(child));
      GraphUtils.RoundedPathShape(pts, CornerRadius);
      GraphUtils.RoundedPath(pts, CornerRadius)
    case _ => []
  }

  /** The stand-offs lie exactly 16 units along each side's outward normal. */
  lemma StandOffsAlongNormals(p: Rect, c: Rect)
    ensures var ports := GraphUtils.PickPorts(p, c, PortTolerance);
      var pts := Route(p, c, ports);
      Dot(Sub(pts[1], pts[0]), SideVec(ports.parent)) == StandOffPadding
      && Dot(Sub(pts[|pts| - 2], pts[|pts| - 1]), SideVec(ports.child)) == StandOffPadding
  {
    var ports := GraphUtils.PickPorts(p, c, PortTolerance);
    StandOffDistance(p, ports.parent, StandOffPadding);
    StandOffDistance(c, ports.child, StandOffPadding);
  }
}
