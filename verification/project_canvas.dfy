/** The project screen's canvas: the task nodes turned into canvas nodes and
    parent edges, and the canvas callbacks forwarded to the screen. The
    screen's callbacks are modelled by the call each event produces. */
module ProjectCanvas {
  import opened Wrappers
  import opened Geometry
  import opened Entities
  import opened GraphSelectors
  import opened GraphStore
  import opened GraphCanvas

  /** The `UINode` a task node becomes: its id, title and position. */
  function UiNode(n: Node): (u: UINode)
    ensures u.id == n.id && u.title == n.title
    ensures u.x == Some(n.position.x) && u.y == Some(n.position.y)
  {
    UINode(n.id, n.title, Some(n.position.x), Some(n.position.y))
  }

  /** `uiNodes`: one canvas node per task node, in the same order. */
  function UiNodes(nodes: seq<Node>): (r: seq<UINode>)
    ensures |r| == |nodes|
    ensures forall i :: 0 <= i < |nodes| ==> r[i] == UiNode(nodes[i])
  {
    seq(|nodes|, i requires 0 <= i < |nodes| => UiNode(nodes[i]))
  }

  /** `uiEdges`: for every node with a truthy `parentId`, in order, the edge
      `edge-<parentId>-<id>` from the parent to the node. */
  function UiEdges(nodes: seq<Node>): (r: seq<UIEdge>)
    ensures |r| <= |nodes|
    ensures forall e | e in r ::
      exists i :: 0 <= i < |nodes| && TruthyText(nodes[i].parentId)
                  && e == UIEdge("edge-" + nodes[i].parentId.value + "-" + nodes[i].id, nodes[i].parentId.value, nodes[i].id)
  {
    if nodes == [] then []
    else
      var n := |nodes| - 1;
      var last := nodes[n];
      var init := UiEdges(nodes[..n]);
      assert forall i :: 0 <= i < n ==> nodes[..n][i] == nodes[i];
      init + (if TruthyText(last.parentId)
              then [UIEdge("edge-" + last.parentId.value + "-" + last.id, last.parentId.value, last.id)]
              else [])
  }

  /** The fields of a task node that edge derivation reads. */
  function SourceOf(n: Node): EdgeSource {
    EdgeSource(n.id, n.parentId, Some(n.projectId), Some(n.createdAt), n.meta)
  }

  function SourcesOf(nodes: seq<Node>): (r: seq<EdgeSource>)
    ensures |r| == |nodes| && forall i :: 0 <= i < |nodes| ==> r[i] == SourceOf(nodes[i])
  {
    seq(|nodes|, i requires 0 <= i < |nodes| => SourceOf(nodes[i]))
  }

  /** The view's own edges are exactly the parent edges `deriveGraphEdges`
      would emit for the same nodes: same ids, same ends, same order. */
  lemma {:induction false} UiEdgesAreParentEdges(nodes: seq<Node>)
    ensures |UiEdges(nodes)| == |ParentEdges(SourcesOf(nodes))|
    ensures forall i :: 0 <= i < |UiEdges(nodes)| ==>
      var u := UiEdges(nodes)[i];
      var d := ParentEdges(SourcesOf(nodes))[i];
      u.id == d.id && u.from == d.from && u.to == d.to
  {
    if nodes != [] {
      var n := |nodes| - 1;
      UiEdgesAreParentEdges(nodes[..n]);
      assert SourcesOf(nodes)[..n] == SourcesOf(nodes[..n]);
    }
  }

  /** An explicit edge as the canvas receives it: a parent edge with no colour. */
  function AsCanvasEdge(e: UIEdge): CanvasEdge {
    CanvasEdge(DerivedEdge(e.id, e.from, e.to, ParentKind), None)
  }

  /** The canvas nodes: the `UINode`s carry no parent, project, date or meta. */
  function CanvasNodes(nodes: seq<UINode>): (r: seq<CanvasNode>)
    ensures |r| == |nodes| && forall i :: 0 <= i < |nodes| ==> r[i].source.id == nodes[i].id
  {
    seq(|nodes|, i requires 0 <= i < |nodes| => CanvasNode(EdgeSource(nodes[i].id, None, None, None, None), None))
  }

  /** The edges the canvas draws for this view. */
  function RenderedEdges(nodes: seq<Node>, primary: string, parse: string -> Option<int>): seq<CanvasEdge> {
    var given := UiEdges(nodes);
    EdgesToRender(CanvasNodes(UiNodes(nodes)),
                  Some(seq(|given|, i requires 0 <= i < |given| => AsCanvasEdge(given[i]))), primary, parse)
  }

  /** The view always passes its edges, so the canvas draws exactly the parent
      edges, one per node with a parent, and never a sequential edge. */
  lemma RenderedAreParentEdges(nodes: seq<Node>, primary: string, parse: string -> Option<int>)
    ensures var r := RenderedEdges(nodes, primary, parse);
      |r| == |UiEdges(nodes)| == CountParents(SourcesOf(nodes))
      && forall i :: 0 <= i < |r| ==>
           r[i].edge.kind == ParentKind && r[i].edge.id == UiEdges(nodes)[i].id
           && r[i].edge.from == UiEdges(nodes)[i].from && r[i].edge.to == UiEdges(nodes)[i].to
  {
    UiEdgesAreParentEdges(nodes);
  }

  /** The events the canvas reports to the view. */
  datatype CanvasEvent = Commit(id: string, x: real, y: real) | Press(id: string) | LongPress(id: string) | Tap(p: Point)

  /** The screen callback an event turns into. */
  datatype ScreenCall =
    | NodeMove(nodeId: string, position: Point)
    | NodePress(node: Node)
    | CreateNode(parentId: Option<string>)
    | CanvasPress(position: Point)

  /** The graph view's handlers: a commit and a tap are forwarded unchanged,
      a press resolves the first task node with the id (nothing when it is gone) and a
      long press asks for a child of the pressed node. */
  function Forward(nodes: seq<Node>, ev: CanvasEvent): (call: Option<ScreenCall>)
    ensures ev.Commit? ==> call == Some(NodeMove(ev.id, Point(ev.x, ev.y)))
    ensures ev.Tap? ==> call == Some(CanvasPress(ev.p))
    ensures ev.LongPress? ==> call == Some(CreateNode(Some(ev.id)))
    ensures ev.Press? ==> (call.None? <==> forall i :: 0 <= i < |nodes| ==> nodes[i].id != ev.id)
    ensures ev.Press? && call.Some? ==>
      call.value.NodePress? && call.value.node.id == ev.id && call.value.node in nodes
    ensures ev.Press? && call.Some? ==>
      exists i :: 0 <= i < |nodes| && nodes[i] == call.value.node &&
        forall j :: 0 <= j < i ==> nodes[j].id != ev.id
  {
    match ev
    case Commit(id, x, y) => Some(NodeMove(id, Point(x, y)))
    case Press(id) =>
      (match FindNode(nodes, id)
       case Some(n) => Some(NodePress(n))
       case None => None)
    case LongPress(id) => Some(CreateNode(Some(id)))
    case Tap(p) => Some(CanvasPress(p))
  }
}
