/** The graph canvas: which edges it draws and in what colour, its size, and
    the pan, pinch, two-finger-tap and zoom-button handlers that move the
    canvas transform. Spring animations are modelled by their target values;
    the two-finger-tap callback is recorded as the list of positions it was
    called with. */
module GraphCanvas {
  import opened Wrappers
  import opened Geometry
  import opened Strings
  import opened Entities
  import opened GraphSelectors
  import opened GraphRegistry

  const MinZoom: real := 0.5
  const MaxZoom: real := 2.0
  const ZoomStep: real := 1.2

  /** `clampScale`. */
  function ClampScale(v: real): (r: real)
    ensures MinZoom <= r <= MaxZoom
    ensures MinZoom <= v <= MaxZoom ==> r == v
    ensures v < MinZoom ==> r == MinZoom
    ensures v > MaxZoom ==> r == MaxZoom
  {
    Max(MinZoom, Min(MaxZoom, v))
  }

  /** Clamping is monotone: a larger raw scale never gives a smaller zoom. */
  lemma ClampMonotone(a: real, b: real)
    requires a <= b
    ensures ClampScale(a) <= ClampScale(b)
  {
  }

  /** `canvasSize`: twice the window in each direction, never smaller than it. */
  function CanvasSize(width: real, height: real): (size: (real, real))
    ensures size.0 >= width && size.0 >= 2.0 * width
    ensures size.1 >= height && size.1 >= 2.0 * height
    ensures width >= 0.0 ==> size.0 == 2.0 * width
    ensures height >= 0.0 ==> size.1 == 2.0 * height
  {
    (Max(width * 2.0, width), Max(height * 2.0, height))
  }

  /** The screen point a canvas point is drawn at, under translate then scale. */
  function CanvasToScreen(q: Point, tx: real, ty: real, s: real): Point {
    Point(q.x * s + tx, q.y * s + ty)
  }

  /** The canvas point under a screen point: `((x - tx) / s, (y - ty) / s)`. */
  function ScreenToCanvas(p: Point, tx: real, ty: real, s: real): Point
    requires s != 0.0
  {
    Point((p.x - tx) / s, (p.y - ty) / s)
  }

  /** The tap formula `(p - t) / s` and the transform "scale about the origin,
      then translate" `q * s + t` undo each other, both ways round. */
  lemma ScreenCanvasInverse(p: Point, q: Point, tx: real, ty: real, s: real)
    requires s != 0.0
    ensures CanvasToScreen(ScreenToCanvas(p, tx, ty, s), tx, ty, s) == p
    ensures ScreenToCanvas(CanvasToScreen(q, tx, ty, s), tx, ty, s) == q
  {
    var c := ScreenToCanvas(p, tx, ty, s);
    assert c.x * s == p.x - tx;
    assert c.y * s == p.y - ty;
    var d := CanvasToScreen(q, tx, ty, s);
    assert (d.x - tx) / s == q.x;
    assert (d.y - ty) / s == q.y;
  }

  // ------------------------------------------------------------ edges to render

  /** The fields of a canvas node that edge colouring reads. */
  datatype CanvasNode = CanvasNode(source: EdgeSource, color: Option<string>)

  /** `GraphCanvasEdge`: a derived edge with an optional colour. */
  datatype CanvasEdge = CanvasEdge(edge: DerivedEdge, color: Option<string>)

  /** The `colorMap` the `forEach` builds: each id with a truthy colour, the
      last such node winning. */
  function ColorMap(nodes: seq<CanvasNode>): map<string, string> {
    if nodes == [] then map[]
    else
      var last := nodes[|nodes| - 1];
      var m := ColorMap(nodes[..|nodes| - 1]);
      if TruthyText(last.color) then m[last.source.id := last.color.value] else m
  }

  /** An id is in the colour map exactly when some node with that id has a
      truthy colour, and its colour is that of the last such node. */
  lemma {:induction false} ColorMapFacts(nodes: seq<CanvasNode>, id: string)
    ensures id in ColorMap(nodes) <==>
      exists i :: 0 <= i < |nodes| && nodes[i].source.id == id && TruthyText(nodes[i].color)
    ensures id in ColorMap(nodes) ==>
      exists i :: 0 <= i < |nodes| && nodes[i].source.id == id && nodes[i].color == Some(ColorMap(nodes)[id])
        && forall j :: i < j < |nodes| && nodes[j].source.id == id ==> !TruthyText(nodes[j].color)
  {
    if nodes != [] {
      var init := nodes[..|nodes| - 1];
      var n := |nodes| - 1;
      ColorMapFacts(init, id);
      assert forall i :: 0 <= i < |init| ==> init[i] == nodes[i];
      if nodes[n].source.id == id && TruthyText(nodes[n].color) {
        assert ColorMap(nodes)[id] == nodes[n].color.value;
      } else if id in ColorMap(init) {
        var i :| 0 <= i < |init| && init[i].source.id == id && init[i].color == Some(ColorMap(init)[id])
          && forall j :: i < j < |init| && init[j].source.id == id ==> !TruthyText(init[j].color);
        assert nodes[i] == init[i];
      }
    }
  }

  /** `edgesToRender`: explicit edges as given; otherwise the derived edges,
      each coloured like its target node, or `primary` when that node has no colour. */
  function EdgesToRender(nodes: seq<CanvasNode>, edges: Option<seq<CanvasEdge>>, primary: string,
                         parse: string -> Option<int>): (r: seq<CanvasEdge>)
    ensures edges.Some? ==> r == edges.value
    ensures edges.None? ==>
      var derived := DerivedEdges(Sources(nodes), parse);
      |r| == |derived|
      && forall i :: 0 <= i < |r| ==>
           r[i].edge == derived[i]
           && r[i].color == Some(if derived[i].to in ColorMap(nodes) then ColorMap(nodes)[derived[i].to] else primary)
  {
    match edges
    case Some(given) => given
    case None =>
      var derived := DerivedEdges(Sources(nodes), parse);
      var colors := ColorMap(nodes);
      seq(|derived|, i requires 0 <= i < |derived| =>
        CanvasEdge(derived[i], Some(if derived[i].to in colors then colors[derived[i].to] else primary)))
  }

  function Sources(nodes: seq<CanvasNode>): (r: seq<EdgeSource>)
    ensures |r| == |nodes| && forall i :: 0 <= i < |nodes| ==> r[i] == nodes[i].source
  {
    seq(|nodes|, i requires 0 <= i < |nodes| => nodes[i].source)
  }

  /** A derived edge is drawn in a node's colour only when the node it
      points to has that colour; every derived edge has a colour. */
  lemma DerivedEdgeColour(nodes: seq<CanvasNode>, primary: string, parse: string -> Option<int>, i: nat)
    requires i < |EdgesToRender(nodes, None, primary, parse)|
    ensures var e := EdgesToRender(nodes, None, primary, parse)[i];
      e.color.Some?
      && (e.color.value != primary ==>
            exists j :: 0 <= j < |nodes| && nodes[j].source.id == e.edge.to && nodes[j].color == e.color)
  {
    var e := EdgesToRender(nodes, None, primary, parse)[i];
    ColorMapFacts(nodes, e.edge.to);
  }

  // ------------------------------------------------------------ pan handlers to wait for

  function PanRefsOf(entries: seq<(string, Cells)>): (refs: seq<nat>)
    ensures |refs| <= |entries|
    ensures forall r :: r in refs <==> exists i :: 0 <= i < |entries| && entries[i].1.panRef == Some(r)
  {
    if entries == [] then []
    else
      var init := entries[..|entries| - 1];
      var last := entries[|entries| - 1];
      var rest := PanRefsOf(init);
      assert forall i :: 0 <= i < |init| ==> init[i] == entries[i];
      rest + (if last.1.panRef.Some? then [last.1.panRef.value] else [])
  }

  /** `nodePanRefs`: the pan handler of every registered node that has one,
      in registration order. */
  function NodePanRefs(reg: Registry): (refs: seq<nat>)
    reads reg
    requires reg.Valid()
    ensures forall r :: r in refs <==>
      exists id :: id in reg.entries && reg.entries[id].panRef == Some(r)
  {
    var all := reg.GetAll();
    var refs := PanRefsOf(all);
    assert forall id :: id in reg.entries ==> exists i :: 0 <= i < |all| && all[i].0 == id;
    refs
  }

  /** The canvas pan's `waitFor`: the node pan handlers, or none when there are none. */
  function WaitFor(reg: Registry): (w: Option<seq<nat>>)
    reads reg
    requires reg.Valid()
    ensures w.Some? <==> exists id :: id in reg.entries && reg.entries[id].panRef.Some?
    ensures w.Some? ==> w.value == NodePanRefs(reg)
  {
    var refs := NodePanRefs(reg);
    if |refs| > 0 then
      assert refs[0] in refs;
      var id :| id in reg.entries && reg.entries[id].panRef == Some(refs[0]);
      Some(refs)
    else
      None
  }

  // ------------------------------------------------------------ the transform

  class CanvasView {
    var tx: real
    var ty: real
    var scale: real
    /** The pan gesture context. */
    var startX: real
    var startY: real
    /** The pinch gesture context. */
    var startScale: real
    /** Whether an `onCanvasPress` callback was passed. */
    const hasCallback: bool
    /** The positions `onCanvasPress` was called with, in order. */
    var taps: seq<Point>

    /** The zoom always lies in [0.5, 2]. */
    ghost predicate Valid()
      reads this
    {
      MinZoom <= scale <= MaxZoom && MinZoom <= startScale <= MaxZoom
    }

    constructor (withCallback: bool)
      ensures Valid()
      ensures tx == 0.0 && ty == 0.0 && scale == 1.0 && taps == [] && hasCallback == withCallback
    {
      tx, ty, scale := 0.0, 0.0, 1.0;
      startX, startY, startScale := 0.0, 0.0, 1.0;
      hasCallback := withCallback;
      taps := [];
    }

    /** Pan `onStart`: remember the translation. */
    method PanStart()
      modifies this
      requires Valid()
      ensures Valid()
      ensures startX == tx == old(tx) && startY == ty == old(ty)
      ensures scale == old(scale) && startScale == old(startScale) && taps == old(taps)
    {
      startX, startY := tx, ty;
    }

    /** Pan `onActive`: start translation plus the gesture's. */
    method PanActive(translationX: real, translationY: real)
      modifies this
      requires Valid()
      ensures Valid()
      ensures tx == startX + translationX && ty == startY + translationY
      ensures startX == old(startX) && startY == old(startY)
      ensures scale == old(scale) && startScale == old(startScale) && taps == old(taps)
    {
      tx := startX + translationX;
      ty := startY + translationY;
    }

    /** Pinch `onStart`: remember the scale. */
    method PinchStart()
      modifies this
      requires Valid()
      ensures Valid()
      ensures startScale == scale == old(scale)
      ensures tx == old(tx) && ty == old(ty) && taps == old(taps)
      ensures startX == old(startX) && startY == old(startY)
    {
      startScale := scale;
    }

    /** Pinch `onActive`: the start scale times the gesture's, clamped. */
    method PinchActive(eventScale: real)
      modifies this
      requires Valid()
      ensures Valid()
      ensures scale == ClampScale(startScale * eventScale)
      ensures startScale == old(startScale) && tx == old(tx) && ty == old(ty) && taps == old(taps)
      ensures startX == old(startX) && startY == old(startY)
    {
      scale := ClampScale(startScale * eventScale);
    }

    /** Two-finger tap `onEnd`: report the tapped canvas point, only for a
        successful tap with at least two fingers and a callback. */
    method TwoFingerTap(successful: bool, pointers: nat, x: real, y: real)
      modifies this
      requires Valid()
      ensures Valid()
      ensures successful && pointers >= 2 && hasCallback ==>
        taps == old(taps) + [ScreenToCanvas(Point(x, y), tx, ty, scale)]
      ensures !(successful && pointers >= 2 && hasCallback) ==> taps == old(taps)
      ensures tx == old(tx) && ty == old(ty) && scale == old(scale)
      ensures startX == old(startX) && startY == old(startY) && startScale == old(startScale)
    {
      if !successful || pointers < 2 || !hasCallback {
        return;
      }
      var canvasX := (x - tx) / scale;
      var canvasY := (y - ty) / scale;
      taps := taps + [Point(canvasX, canvasY)];
    }

    /** `resetView`. */
    method ResetView()
      modifies this
      requires Valid()
      ensures Valid()
      ensures tx == 0.0 && ty == 0.0 && scale == 1.0 && taps == old(taps)
      ensures startX == old(startX) && startY == old(startY) && startScale == old(startScale)
    {
      tx, ty, scale := 0.0, 0.0, 1.0;
    }

    /** `zoomIn`: 1.2 times larger, at most 2; it never zooms out. */
    method ZoomIn()
      modifies this
      requires Valid()
      ensures Valid()
      ensures scale == Min(MaxZoom, old(scale) * ZoomStep)
      ensures scale >= old(scale)
      ensures tx == old(tx) && ty == old(ty) && taps == old(taps)
      ensures startX == old(startX) && startY == old(startY) && startScale == old(startScale)
    {
      scale := Min(MaxZoom, scale * ZoomStep);
    }

    /** `zoomOut`: 1.2 times smaller, at least 0.5; it never zooms in. */
    method ZoomOut()
      modifies this
      requires Valid()
      ensures Valid()
      ensures scale == Max(MinZoom, old(scale) / ZoomStep)
      ensures scale <= old(scale)
      ensures tx == old(tx) && ty == old(ty) && taps == old(taps)
      ensures startX == old(startX) && startY == old(startY) && startScale == old(startScale)
    {
      scale := Max(MinZoom, scale / ZoomStep);
    }
  }
}
