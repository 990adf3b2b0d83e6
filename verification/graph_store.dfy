/** The in-memory graph store: a node list, an edge list and the view mode,
    each action replacing the lists it touches. `Date.now()` and
    `Math.random()` are parameters; the dagre layout is the function
    `place`, giving each laid-out node's top-left corner. */
module GraphStore {
  import opened Wrappers
  import opened Geometry
  import opened Strings
  import opened Seqs

  datatype UINode = UINode(id: string, title: string, x: Option<real>, y: Option<real>)
  datatype UIEdge = UIEdge(id: string, from: string, to: string)
  datatype ViewMode = Cards | Graph

  /** `Partial<UINode>`: the keys an update carries. */
  datatype NodePatch = NodePatch(id: Option<string>, title: Option<string>, x: Option<real>, y: Option<real>)

  /** `{ ...node, ...updates }`. */
  function Merge(n: UINode, u: NodePatch): (r: UINode)
    ensures u.id.None? ==> r.id == n.id
    ensures u.id.Some? ==> r.id == u.id.value
    ensures r.title == u.title.GetOr(n.title)
    ensures r.x == (if u.x.Some? then u.x else n.x) && r.y == (if u.y.Some? then u.y else n.y)
  {
    UINode(u.id.GetOr(n.id), u.title.GetOr(n.title),
           if u.x.Some? then u.x else n.x, if u.y.Some? then u.y else n.y)
  }

  /** `nodes.find(n => n.id === id)`: the first node with the id. The same
      lookup as `Entities.FindNode`, over the store's own node shape. */
  function Find(nodes: seq<UINode>, id: string): (r: Option<UINode>)
    ensures r.None? <==> forall i :: 0 <= i < |nodes| ==> nodes[i].id != id
    ensures r.Some? ==>
      exists i :: 0 <= i < |nodes| && nodes[i] == r.value && r.value.id == id
        && forall j :: 0 <= j < i ==> nodes[j].id != id
  {
    if nodes == [] then None
    else if nodes[0].id == id then Some(nodes[0])
    else
      var r := Find(nodes[1..], id);
      assert forall i :: 1 <= i < |nodes| ==> nodes[i] == nodes[1..][i - 1];
      r
  }

  /** `nodes.reduce((max, n) => Math.max(max, n.y ?? 0), 0)`. */
  function MaxY(nodes: seq<UINode>): (m: real)
    ensures m >= 0.0
    ensures forall i :: 0 <= i < |nodes| ==> m >= nodes[i].y.GetOr(0.0)
    ensures m == 0.0 || exists i :: 0 <= i < |nodes| && m == nodes[i].y.GetOr(0.0)
  {
    if nodes == [] then 0.0
    else
      var init := nodes[..|nodes| - 1];
      var m := MaxY(init);
      assert forall i :: 0 <= i < |init| ==> init[i] == nodes[i];
      Max(m, nodes[|nodes| - 1].y.GetOr(0.0))
  }

  /** Where `addNode` puts a new node, given `Math.random()` as `rand`. */
  function Placement(nodes: seq<UINode>, parentId: Option<string>, rand: real): (p: Point)
    ensures TruthyId(parentId) && Find(nodes, parentId.value).Some? ==>
      var parent := Find(nodes, parentId.value).value;
      p.y == parent.y.GetOr(0.0) + 180.0
      && (0.0 <= rand < 1.0 ==> parent.x.GetOr(0.0) - 50.0 <= p.x < parent.x.GetOr(0.0) + 50.0)
    ensures TruthyId(parentId) && Find(nodes, parentId.value).None? ==> p == Point(100.0, 100.0)
    ensures !TruthyId(parentId) ==>
      p.y == MaxY(nodes) + 200.0 && p.y >= 200.0 && (0.0 <= rand < 1.0 ==> 50.0 <= p.x < 250.0)
  {
    if TruthyId(parentId) then
      match Find(nodes, parentId.value)
      case Some(parent) => Point(parent.x.GetOr(0.0) + rand * 100.0 - 50.0, parent.y.GetOr(0.0) + 180.0)
      case None => Point(100.0, 100.0)
    else
      Point(rand * 200.0 + 50.0, MaxY(nodes) + 200.0)
  }

  /** A parent id given and non-empty: JavaScript truthiness of `parentId`. */
  predicate TruthyId(parentId: Option<string>) { parentId.Some? && parentId.value != "" }

  /** `layoutGraph(...)` followed by the projection to `{id, title, x, y}`:
      a placed node moves to its placed corner, an unplaced one keeps its
      position with a missing coordinate read as 0. */
  function LaidOut(n: UINode, place: string -> Option<Point>): (r: UINode)
    ensures r.id == n.id && r.title == n.title && r.x.Some? && r.y.Some?
    ensures place(n.id).Some? ==> r.x == Some(place(n.id).value.x) && r.y == Some(place(n.id).value.y)
    ensures place(n.id).None? ==> r.x == Some(n.x.GetOr(0.0)) && r.y == Some(n.y.GetOr(0.0))
  {
    match place(n.id)
    case Some(p) => UINode(n.id, n.title, Some(p.x), Some(p.y))
    case None => UINode(n.id, n.title, Some(n.x.GetOr(0.0)), Some(n.y.GetOr(0.0)))
  }

  class Store {
    var nodes: seq<UINode>
    var edges: seq<UIEdge>
    var viewMode: ViewMode

    /** The store's initial state: three sample nodes and two edges. */
    constructor ()
      ensures |nodes| == 3 && |edges| == 2 && viewMode == Graph
      ensures forall e :: e in edges ==> Find(nodes, e.from).Some? && Find(nodes, e.to).Some?
    {
      nodes := [UINode("node-1", "Welcome to Graph View", Some(100.0), Some(100.0)),
                UINode("node-2", "Child Node 1", Some(50.0), Some(250.0)),
                UINode("node-3", "Child Node 2", Some(200.0), Some(250.0))];
      edges := [UIEdge("edge-1", "node-1", "node-2"), UIEdge("edge-2", "node-1", "node-3")];
      viewMode := Graph;
    }

    /** `addNode(nodeData, parentId)`: `now1` and `now2` are the two
        `Date.now()` readings, for the node id and the edge id. */
    method AddNode(title: string, parentId: Option<string>, now1: nat, now2: nat, rand: real)
      modifies this
      ensures var id := "node-" + NatToString(now1);
        var p := Placement(old(nodes), parentId, rand);
        nodes == old(nodes) + [UINode(id, title, Some(p.x), Some(p.y))]
        && edges == old(edges) + (if TruthyId(parentId) then [UIEdge("edge-" + NatToString(now2), parentId.value, id)] else [])
      ensures viewMode == old(viewMode)
    {
      var id := "node-" + NatToString(now1);
      var x, y := 100.0, 100.0;
      if TruthyId(parentId) {
        var parent := Find(nodes, parentId.value);
        if parent.Some? {
          x := parent.value.x.GetOr(0.0) + rand * 100.0 - 50.0;
          y := parent.value.y.GetOr(0.0) + 180.0;
        }
      } else {
        var maxY := MaxY(nodes);
        y := maxY + 200.0;
        x := rand * 200.0 + 50.0;
      }
      var newNodes := nodes + [UINode(id, title, Some(x), Some(y))];
      var newEdges := if TruthyId(parentId) then edges + [UIEdge("edge-" + NatToString(now2), parentId.value, id)] else edges;
      nodes, edges := newNodes, newEdges;
    }

    /** `updateNode(id, updates)`: merge into every node with that id. */
    method UpdateNode(id: string, updates: NodePatch)
      modifies this
      ensures |nodes| == |old(nodes)|
      ensures forall i :: 0 <= i < |nodes| ==>
        nodes[i] == if old(nodes)[i].id == id then Merge(old(nodes)[i], updates) else old(nodes)[i]
      ensures edges == old(edges) && viewMode == old(viewMode)
    {
      var ns := nodes;
      nodes := seq(|ns|, i requires 0 <= i < |ns| => if ns[i].id == id then Merge(ns[i], updates) else ns[i]);
    }

    /** `deleteNode(id)`: drop the node and every edge touching it. */
    method DeleteNode(id: string)
      modifies this
      ensures nodes == Filter(old(nodes), (n: UINode) => n.id != id)
      ensures edges == Filter(old(edges), (e: UIEdge) => e.from != id && e.to != id)
      ensures viewMode == old(viewMode)
    {
      nodes := Filter(nodes, (n: UINode) => n.id != id);
      edges := Filter(edges, (e: UIEdge) => e.from != id && e.to != id);
    }

    /** `addEdge(edgeData)`, with `now` the `Date.now()` reading. */
    method AddEdge(from: string, to: string, now: nat)
      modifies this
      ensures edges == old(edges) + [UIEdge("edge-" + NatToString(now), from, to)]
      ensures nodes == old(nodes) && viewMode == old(viewMode)
    {
      edges := edges + [UIEdge("edge-" + NatToString(now), from, to)];
    }

    /** `deleteEdge(id)`. */
    method DeleteEdge(id: string)
      modifies this
      ensures edges == Filter(old(edges), (e: UIEdge) => e.id != id)
      ensures nodes == old(nodes) && viewMode == old(viewMode)
    {
      edges := Filter(edges, (e: UIEdge) => e.id != id);
    }

    method SetViewMode(mode: ViewMode)
      modifies this
      ensures viewMode == mode && nodes == old(nodes) && edges == old(edges)
    {
      viewMode := mode;
    }

    /** `commitNodePosition(id, x, y)`: move every node with that id. */
    method CommitNodePosition(id: string, x: real, y: real)
      modifies this
      ensures |nodes| == |old(nodes)|
      ensures forall i :: 0 <= i < |nodes| ==>
        nodes[i] == if old(nodes)[i].id == id then old(nodes)[i].(x := Some(x), y := Some(y)) else old(nodes)[i]
      ensures edges == old(edges) && viewMode == old(viewMode)
    {
      var ns := nodes;
      nodes := seq(|ns|, i requires 0 <= i < |ns| => if ns[i].id == id then ns[i].(x := Some(x), y := Some(y)) else ns[i]);
    }

    /** `autoLayout()`. */
    method AutoLayout(place: string -> Option<Point>)
      modifies this
      ensures |nodes| == |old(nodes)|
      ensures forall i :: 0 <= i < |nodes| ==> nodes[i] == LaidOut(old(nodes)[i], place)
      ensures edges == old(edges) && viewMode == old(viewMode)
    {
      var ns := nodes;
      nodes := seq(|ns|, i requires 0 <= i < |ns| => LaidOut(ns[i], place));
    }
  }

  /** After `deleteNode(id)` no node has that id, no edge touches it, and
      every other node and edge is still there. */
  lemma DeleteNodeRemovesAll(nodes: seq<UINode>, edges: seq<UIEdge>, id: string)
    ensures var ns := Filter(nodes, (n: UINode) => n.id != id);
      var es := Filter(edges, (e: UIEdge) => e.from != id && e.to != id);
      (forall i :: 0 <= i < |ns| ==> ns[i].id != id)
      && (forall i :: 0 <= i < |es| ==> es[i].from != id && es[i].to != id)
      && (forall i :: 0 <= i < |nodes| && nodes[i].id != id ==> nodes[i] in ns)
      && (forall i :: 0 <= i < |edges| && edges[i].from != id && edges[i].to != id ==> edges[i] in es)
  {
  }

  /** `deleteEdge` of an id no edge has leaves the list as it was. */
  lemma DeleteAbsentEdge(edges: seq<UIEdge>, id: string)
    requires forall i :: 0 <= i < |edges| ==> edges[i].id != id
    ensures Filter(edges, (e: UIEdge) => e.id != id) == edges
  {
    FilterAll(edges, (e: UIEdge) => e.id != id);
  }
}
