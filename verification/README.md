# Task graph app, modelled in Dafny

This project models the core of a React Native task-planning app. Workspaces
hold projects, and projects hold task nodes. Nodes carry dates, tags and
attachments, and reminders can be attached to them. A project can be viewed
as cards or as a graph. This model covers:

- **Graph edges.** Edges are derived from the nodes. Each node with a parent
  gets a parent edge. Within each project, the root nodes are chained in
  creation order.
- **Edge routing.** Two routers: the one the graph view uses and an
  obstacle-aware variant. Both pick port sides, place anchors and 16-unit
  stand-off points, lay orthogonal waypoints and round the corners.
- **Graph registry.** Nodes publish their live position and size cells
  under their id. Edges read those cells when they compute their paths. A
  version counter and listeners signal changes.
- **Graph view.** The node, edge and canvas components. This covers
  measuring, dragging, committing positions, pan, pinch, zoom, which edges
  are drawn, and the animated-position cache.
- **Graph store.** Its node and edge actions.
- **Storage service.** Its four tables and the recent-search list.
- **Screens and cards.** The screens for creating projects, workspaces and
  reminders; search; analytics and its bar chart; the two task cards; and
  the node editor.
- **Drawing surfaces.** The ink pad, the pan-responder canvas and the
  drawing modal with pen and eraser.

There is one Dafny module per source file, plus five shared modules:

- `Wrappers`: Option and Result.
- `Seqs`: the JavaScript `filter` and `findIndex`.
- `Strings`: `trim`, `toLowerCase` and number rendering.
- `Geometry`: points, rectangles and sides.
- `Entities`: the stored records.

Pure helpers become functions, each proved against the property the code
promises. Components and services that change state step by step become
classes. Their methods state the whole new state. Loops become `while`
loops with invariants, proved equal to a specification function. Lemmas
then prove that function's properties.

Values the code reads from outside are parameters. These are the clock,
`Math.random`, `Date.parse`, locale date rendering, `Math.atan2`, the dagre
layout, file pickers and `JSON.parse`. Callbacks are recorded as the
sequence of calls they receive. Spring animations are modelled by their
target values.

## Model

| member | source | states |
|---|---|---|
| Geometry.Opposite | utils/graphUtils.ts:22 | the opposite side is a different side on the same axis |
| Geometry.OppositeInvolutive | utils/edgeRouting.ts:73-78 | taking the opposite side twice gives back the side |
| Geometry.SideVec | utils/graphUtils.ts:26-29 | a side's vector is a unit axis vector, horizontal exactly for left/right, positive exactly for right/bottom |
| Geometry.SideVecOpposite | utils/edgeRouting.ts:17-25 | opposite sides have opposite outward normals |
| Geometry.AnchorFromSide | utils/graphUtils.ts:31-38 | the anchor is the midpoint of the chosen side of the rectangle |
| Geometry.AnchorIsCenterPlusNormal | utils/edgeRouting.ts:84-95 | the anchor is the centre moved half the rectangle's extent along the side's outward normal |
| Geometry.StandOff | components/graph/GraphEdge.tsx:46-53 | the stand-off point stays on the anchor's horizontal line for a left/right side and on its vertical line for a top/bottom side |
| Geometry.StandOffDistance | utils/edgeRouting.ts:140-148 | the stand-off lies `pad` beyond the anchor along the outward normal, so half the extent plus `pad` from the centre |
| Geometry.Manhattan | utils/graphUtils.ts:83 | the length used for corner radii is non-negative and zero exactly for a zero-length segment |
| Geometry.ManhattanIsEuclidean | utils/edgeRouting.ts:264-265 | on a horizontal or vertical segment the Manhattan length is the square-root length the source computes |
| Geometry.PolylineExtend | components/ui/SafeDrawingCanvas.tsx:44-50 | drawing on to one more point adds exactly one line command |
| GraphUtils.Sector | utils/graphUtils.ts:3-10 | the four `atan2` bands as exact cones: right for [-45, 45] degrees, bottom for (45, 135), top for [-135, -45), left for the rest |
| GraphUtils.SectorScaleInvariant | utils/graphUtils.ts:3-10 | the side depends only on the direction of (dx, dy), not on its length |
| GraphUtils.SectorFacesDirection | utils/graphUtils.ts:3-10 | the chosen side's outward normal points along (dx, dy) and dominates the cross component |
| GraphUtils.PickPorts | utils/graphUtils.ts:12-24 | the child port is always opposite the parent port; inside the vertical band the parent leaves by the bottom, inside the horizontal band towards the child's side, otherwise by the sector |
| GraphUtils.PickPortsFacesChild | utils/graphUtils.ts:18-23 | outside the vertical band the parent port faces the child and the child port faces the parent (inside it the bottom port may face away) |
| GraphUtils.OrthogonalWaypoints | utils/graphUtils.ts:41-64 | two bend points at the midline when both sides share an axis, one L-corner otherwise; the path out → bends → in is axis-aligned |
| GraphUtils.CornerRadius | utils/graphUtils.ts:83 | the radius is at most `r` and at most half of each neighbouring segment (at least 1), and equals one of the three |
| GraphUtils.ToRoundedSvgPath | utils/graphUtils.ts:66-89 | the loop with its early `break` computes the rounded-path specification |
| GraphUtils.RoundedFromLength | utils/graphUtils.ts:71-87 | from point i on, the loop emits two commands per interior point and ends with a line to the last point |
| GraphUtils.RoundedPathShape | utils/graphUtils.ts:66-89 | empty path exactly for no points; starts with a move to the first point; 2n-2 commands ending in a line to the last point |
| GraphUtils.RoundedFromCorner | utils/graphUtils.ts:81-86 | interior point j contributes a line to its corner start followed by a curve through it, at the expected offset |
| GraphUtils.RoundedPathCorner | utils/graphUtils.ts:81-86 | in the whole path interior point j sits at positions 2j-1 (line) and 2j (curve with j as control) |
| GraphUtils.CornerStartOnSegment | utils/graphUtils.ts:83-84 | on an axis-aligned incoming segment at least one unit long, the curve starts on that segment, exactly the corner radius before the corner |
| GraphEdge.RectOf | components/graph/GraphEdge.tsx:27-38 | the rectangle read from a node's cells has the cells' position and size |
| GraphEdge.Route | components/graph/GraphEdge.tsx:40-56 | the point list starts at the parent anchor and its stand-off and ends at the child's stand-off and anchor |
| GraphEdge.RouteAxisAligned | components/graph/GraphEdge.tsx:40-56 | every segment of the route is horizontal or vertical |
| GraphEdge.EdgePath | components/graph/GraphEdge.tsx:17-59 | the path is empty exactly when either end is not registered; otherwise it is the rounded route, starting at the parent's port anchor and ending at the child's |
| GraphEdge.StandOffsAlongNormals | components/graph/GraphEdge.tsx:45-53 | the stand-offs lie exactly 16 units out along each port's normal |
| EdgeRouting.SelectSideFromAngle | utils/edgeRouting.ts:27-37 | the side for an angle in degrees: right within 45 degrees of the x axis, bottom and top in the quarter-turns below and above, left otherwise; every band is 10 degrees wider when a previous side is given |
| EdgeRouting.PreviousSideOnlyWidensRight | utils/edgeRouting.ts:31-36 | which previous side is given never matters, and between 45 and 55 degrees any previous side, even bottom, turns a bottom port into a right port |
| EdgeRouting.PickPorts | utils/edgeRouting.ts:40-81 | the child port is always opposite the parent port; within the x tolerance the ports are vertical (bottom when the child is not above), else within the y tolerance horizontal (right when the child is not to the left), else chosen by angle with hysteresis |
| EdgeRouting.AlignedPortsFaceEachOther | utils/edgeRouting.ts:59-69 | in the aligned cases the parent port never faces away from the child and the child port never faces away from the parent |
| EdgeRouting.LineIntersectsRectIff | utils/edgeRouting.ts:97-122 | the padded bounding-box test is true exactly when some point of the segment's bounding box lies in the grown rectangle |
| EdgeRouting.AvoidHorizontal | utils/edgeRouting.ts:160-178 | the loop moves `midX` into a 32 px channel beside each obstacle that meets the vertical test segment at the first `midX`, skipping the two end rectangles, as the fold over the obstacle list |
| EdgeRouting.AvoidVertical | utils/edgeRouting.ts:186-204 | the loop moves `midY` beside each obstacle met by the horizontal segment re-made at the current `midY`, as the fold over the obstacle list |
| EdgeRouting.ChooseCorner | utils/edgeRouting.ts:212-239 | the L-shape corner is (out.x, in.y) unless that L meets an obstacle and the other does not |
| EdgeRouting.CreateOrthogonalPath | utils/edgeRouting.ts:125-246 | the point list is the parent anchor, its stand-off, the bend points of the case, the child stand-off and the child anchor |
| EdgeRouting.OrthogonalPathShape | utils/edgeRouting.ts:150-245 | the path starts at the parent anchor and its 16 px stand-off, ends at the child's stand-off and anchor, and has six points for two horizontal or two vertical sides, five otherwise |
| EdgeRouting.OrthogonalPathAxisAligned | utils/edgeRouting.ts:140-245 | whatever the obstacles, every segment of the path is horizontal or vertical |
| EdgeRouting.MixedCornerChoice | utils/edgeRouting.ts:210-241 | in the mixed case the corner is one of the two L-corners, and the second only when the first is blocked and the second is not |
| EdgeRouting.HFoldOthers | utils/edgeRouting.ts:167-168 | dropping the end rectangles from the obstacle list leaves the horizontal channel unchanged |
| EdgeRouting.VFoldOthers | utils/edgeRouting.ts:189-190 | dropping the end rectangles from the obstacle list leaves the vertical channel unchanged |
| EdgeRouting.HitsOthers | utils/edgeRouting.ts:220-221 | dropping the end rectangles from the obstacle list leaves the blocked test of an L-shape unchanged |
| EdgeRouting.EndRectanglesIgnored | utils/edgeRouting.ts:167-232 | the two end rectangles, wherever they sit in the obstacle list, never change the route |
| EdgeRouting.MiddleIgnoresEnds | utils/edgeRouting.ts:158-242 | the bend points are the same with or without the end rectangles among the obstacles |
| EdgeRouting.CornerCmds | utils/edgeRouting.ts:255-295 | an interior point gives a plain line when a neighbouring segment has zero length or the radius does not fit, otherwise a line to the corner start and a curve with the point as control (lengths measured as Manhattan lengths) |
| EdgeRouting.PointsToRoundedSvgPath | utils/edgeRouting.ts:249-303 | the loop builds the same command list as the specification: a move to the first point, the corner commands of each interior point, a line to the last |
| EdgeRouting.RoundedSvgPathEnds | utils/edgeRouting.ts:250-300 | fewer than two points give the empty path; otherwise it starts with a move to the first point and ends with a line to the last |
| EdgeRouting.CornerStartAxis | utils/edgeRouting.ts:281-287 | on a horizontal or vertical segment the corner start lies the adjusted radius back from the corner along that axis |
| EdgeRouting.CornerStartOnSegment | utils/edgeRouting.ts:273-294 | on an axis-aligned incoming segment with a positive adjusted radius the curve starts on that segment, min(radius, len1/2, len2/2) before the corner |
| EdgeRouting.CreateEdgePath | utils/edgeRouting.ts:306-323 | the ports are picked with the 24 px tolerances, the points routed with 16 px padding and rounded with radius 12; the path runs from the parent port to the child port |
| EdgeRouting.EdgePathEnds | utils/edgeRouting.ts:312-320 | every routed edge path is non-empty, starts at the parent anchor and ends at the child anchor |
| InkPad.Pad.constructor | components/graph/InkPad.tsx:16-21 | the pad starts with the initial strokes, no active stroke and no `onChange` call |
| InkPad.Pad.Began | components/graph/InkPad.tsx:31-34 | a touch starts a one-point active stroke and leaves the saved strokes alone |
| InkPad.Pad.Move | components/graph/InkPad.tsx:23-29 | a move appends the point to the active stroke, and does nothing when no stroke is active |
| InkPad.Pad.Ended | components/graph/InkPad.tsx:36-43 | a stroke of more than one point is saved and reported once through `onChange`; a shorter one is dropped silently; the active stroke is cleared either way |
| InkPad.Pad.ClearAll | components/graph/InkPad.tsx:45-49 | all strokes go, and the empty list is reported |
| InkPad.Pad.Undo | components/graph/InkPad.tsx:51-57 | the last stroke is removed and the rest reported; an empty pad stays empty and reports nothing |
| InkPad.Pad.Stroke | components/graph/InkPad.tsx:23-43 | one whole gesture saves the stroke [start, moves...] exactly when it moved at least once, and then reports the new strokes to `onChange` once (when it is set); a tap saves and reports nothing |
| InkPad.StrokeToPath | components/graph/InkPad.tsx:59-62 | fewer than two points draw nothing; otherwise a move to the first point and a line to each of the others |
| InkPad.Pad.UndoAfterKeep | components/graph/InkPad.tsx:36-57 | ending a stroke and pressing undo at once leaves the strokes as they were before the stroke, with no stroke in progress, and `onChange` hears the list with the stroke and then the list without it |
| GraphRegistry.Cells.constructor | components/graph/GraphRegistry.tsx:6-13 | a node's live values start at the given position, size and pan-handler reference |
| GraphRegistry.Without | components/graph/GraphRegistry.tsx:35 | deleting an id from the map's key order leaves exactly the order-keeping filter of the other keys, and keeps the order free of repeats |
| GraphRegistry.Notified | components/graph/GraphRegistry.tsx:31 | one notification calls each current listener exactly once more and nobody else |
| GraphRegistry.Registry.constructor | components/graph/GraphRegistry.tsx:27-29 | the provider starts with an empty map, no listeners and version 0 |
| GraphRegistry.Registry.Get | components/graph/GraphRegistry.tsx:36 | `get` finds an entry exactly for a registered id, and it is that id's values |
| GraphRegistry.Registry.GetAll | components/graph/GraphRegistry.tsx:37 | `getAll` lists every registered id once, with its values, in first-insertion order |
| GraphRegistry.Registry.GetSnapshot | components/graph/GraphRegistry.tsx:39 | the snapshot is the version counter |
| GraphRegistry.Registry.Notify | components/graph/GraphRegistry.tsx:31 | the version goes up by one and every listener is called once; the map is unchanged |
| GraphRegistry.Registry.Register | components/graph/GraphRegistry.tsx:34 | the id now maps to the new values and every other id is unchanged; an overwritten id keeps its place in the key order; listeners are notified once |
| GraphRegistry.Registry.Unregister | components/graph/GraphRegistry.tsx:35 | the id is gone, every other id is unchanged, and listeners are notified even when the id was absent |
| GraphRegistry.Registry.Subscribe | components/graph/GraphRegistry.tsx:38 | the callback joins the listener set; the map and version are unchanged |
| GraphRegistry.Registry.Unsubscribe | components/graph/GraphRegistry.tsx:38 | the returned clean-up removes the callback from the set and changes nothing else |
| GraphRegistry.UnsubscribedNotCalled | components/graph/GraphRegistry.tsx:31-38 | after unsubscribing, a notification no longer calls that listener, while a subscribed one is called once |
| GraphRegistry.UseGraphRegistry | components/graph/GraphRegistry.tsx:45-49 | outside a provider the hook fails with its error message; inside it returns the provider's registry |
| NodePositions.LatestFacts | hooks/useNodeAnimatedPositions.ts:17-37 | the position a node id's pair heads to exists exactly for the ids present, and is the position of one of the nodes with that id |
| NodePositions.LatestOfUnique | hooks/useNodeAnimatedPositions.ts:17-37 | when no later node repeats its id, a node's pair heads to that node's own position |
| NodePositions.IdsSnoc | hooks/useNodeAnimatedPositions.ts:43 | the id set of one more node gains its id |
| NodePositions.CellsSnoc | hooks/useNodeAnimatedPositions.ts:33-36 | the handle set of one more placed node gains its handle |
| NodePositions.UntouchedExtend | hooks/useNodeAnimatedPositions.ts:28-31 | re-targeting the pair just used keeps every pair not handed out untouched |
| NodePositions.GrownExtend | hooks/useNodeAnimatedPositions.ts:18-27 | mapping one more node adds its id to the cache and keeps every earlier pair |
| NodePositions.PairedExtend | hooks/useNodeAnimatedPositions.ts:33-36 | the node just mapped is placed with its id's pair at 220 × 140, and earlier nodes keep theirs |
| NodePositions.HeadingExtend | hooks/useNodeAnimatedPositions.ts:18-31 | the node just mapped moves its id's pair to its position; every other id's pair still heads to that id's last position |
| NodePositions.FreshSinceExtend | hooks/useNodeAnimatedPositions.ts:20-26 | one mapping step keeps the pairs of newly added ids distinct from all older pairs |
| NodePositions.PositionCache.constructor | hooks/useNodeAnimatedPositions.ts:14 | the first render starts with an empty map of pairs |
| NodePositions.PositionCache.Touch | hooks/useNodeAnimatedPositions.ts:18-31 | a known id keeps its pair and the pair's targets move to the node's position; a new id gets a new pair there |
| NodePositions.PositionCache.Attach | hooks/useNodeAnimatedPositions.ts:17-37 | every node is placed with its id's pair at 220 × 140; known ids keep their pairs, new ids get fresh ones; pairs of other ids keep their targets |
| NodePositions.PositionCache.Prune | hooks/useNodeAnimatedPositions.ts:43-48 | the cache keeps exactly the current ids, with their pairs unchanged |
| NodePositions.PositionCache.Sync | hooks/useNodeAnimatedPositions.ts:12-51 | after a render the cache holds exactly the current ids; each node's pair heads to the last position given for its id; known ids keep their pairs and new ids get new ones |
| GraphSelectors.ParentEdges | utils/graphSelectors.ts:22-31 | one edge per node with a (truthy) parent, all of kind parent |
| GraphSelectors.ParentEdgeAt | utils/graphSelectors.ts:22-31 | node i's parent edge sits at the position counted by the nodes with a parent before it, and runs from the parent to the node |
| GraphSelectors.Keys | utils/graphSelectors.ts:33-46 | the map's keys are exactly the project keys present (a missing project id reads as `__default__`), each once, in first-appearance order |
| GraphSelectors.BucketFacts | utils/graphSelectors.ts:35-46 | a project's bucket holds exactly the entries of the nodes with that key, with their list index and timestamp, in increasing list order |
| GraphSelectors.RootsOfFacts | utils/graphSelectors.ts:50 | the filter keeps exactly the entries of nodes with no parent that are not standalone roots, in their order |
| GraphSelectors.RootsOfMembers | utils/graphSelectors.ts:50 | an entry survives the filter exactly when it is a root entry |
| GraphSelectors.RootsOfIncreasing | utils/graphSelectors.ts:50 | filtering keeps entries in increasing index order |
| GraphSelectors.Insert | utils/graphSelectors.ts:51-56 | inserting one entry into the sort keeps the same entries plus the new one |
| GraphSelectors.InsertSorted | utils/graphSelectors.ts:51-56 | insertion into a list ordered by the comparator keeps it ordered |
| GraphSelectors.InsertStrict | utils/graphSelectors.ts:51-56 | with distinct indices, insertion keeps the order strict |
| GraphSelectors.SortEntries | utils/graphSelectors.ts:51-56 | the sort is a permutation of its input |
| GraphSelectors.SortEntriesSorted | utils/graphSelectors.ts:51-56 | the sorted roots follow the comparator (timestamp, then index), strictly when indices are distinct |
| GraphSelectors.Chain | utils/graphSelectors.ts:58-67 | n roots give n - 1 sequential edges (none for no roots) |
| GraphSelectors.ChainAt | utils/graphSelectors.ts:58-67 | chain edge i runs from root i to root i + 1 |
| GraphSelectors.ChainSequential | utils/graphSelectors.ts:61-66 | every chain edge is of kind sequential |
| GraphSelectors.DeriveGraphEdges | utils/graphSelectors.ts:19-71 | the three phases compute the derived-edge specification |
| GraphSelectors.CollectParentEdges | utils/graphSelectors.ts:22-31 | the first loop collects exactly the parent edges |
| GraphSelectors.GroupByProject | utils/graphSelectors.ts:33-46 | the second loop builds one bucket per project key, in key order of first appearance |
| GraphSelectors.AppendChains | utils/graphSelectors.ts:48-68 | the per-project loop appends each project's chain in key order |
| GraphSelectors.AppendChain | utils/graphSelectors.ts:58-67 | the inner `for` appends one project's chain |
| GraphSelectors.BucketOfAbsentKey | utils/graphSelectors.ts:39-45 | a key no node has gets no bucket entries |
| GraphSelectors.BucketRootsFacts | utils/graphSelectors.ts:48-56 | a project's sorted roots are exactly the entries of its root nodes, strictly in comparator order |
| GraphSelectors.BucketRootsNeighbours | utils/graphSelectors.ts:48-67 | neighbours in a project's sorted roots are consecutive roots of that project: no root of it sorts between them |
| GraphSelectors.NoneBetween | utils/graphSelectors.ts:51-56 | nothing in a strictly sorted list sorts strictly between two neighbours |
| GraphSelectors.ChainKeysLocate | utils/graphSelectors.ts:48-68 | every chained edge joins two neighbours of some project's sorted roots |
| GraphSelectors.ChainsLocate | utils/graphSelectors.ts:48-68 | edge j of the concatenated chains is the edge between neighbours of one key's roots |
| GraphSelectors.ChainKeysSequential | utils/graphSelectors.ts:48-68 | all chained edges are sequential |
| GraphSelectors.EdgeKinds | utils/graphSelectors.ts:19-71 | parent edges come first: an edge is a parent edge exactly when its position is below the number of nodes with a parent |
| GraphSelectors.SequentialEdgeJoinsConsecutiveRoots | utils/graphSelectors.ts:19-71 | every sequential edge joins two consecutive roots of one project, earlier to later; children and standalone roots never appear in one and projects are never joined |
| GraphSelectors.RootsOfSnoc | utils/graphSelectors.ts:50 | filtering one more entry adds it exactly when it is a root |
| GraphSelectors.RootsCount | utils/graphSelectors.ts:48-50 | a project's root count is the number of its root nodes |
| GraphSelectors.EdgeCount | utils/graphSelectors.ts:19-71 | edge count = nodes with a parent + (roots - 1) per project that has roots |
| GraphSelectors.ChainKeysCount | utils/graphSelectors.ts:48-68 | the chained part has (roots - 1) edges per project that has roots |
| GraphStore.Merge | store/graphStore.ts:61-63 | a spread merge takes each key the update carries, `id` included, and keeps the node's value for the others |
| GraphStore.Find | store/graphStore.ts:40 | `find` returns the first node with the id, and nothing exactly when no node has it |
| GraphStore.MaxY | store/graphStore.ts:47 | the reduce gives at least 0, at least every node's `y ?? 0`, and is 0 or one of them |
| GraphStore.Placement | store/graphStore.ts:36-51 | under an existing parent: 180 below it and within 50 of its x; under a missing parent: (100, 100); with no parent: 200 below the lowest node and x in [50, 250) |
| GraphStore.LaidOut | store/graphStore.ts:99-120 | a laid-out node keeps its id and title and gets the layout's position, or its own (missing read as 0) when the layout leaves it out |
| GraphStore.Store.constructor | store/graphStore.ts:21-31 | the store starts with three nodes, two edges between them and the graph view |
| GraphStore.Store.AddNode | store/graphStore.ts:33-57 | the new node `node-<now>` is appended at its placement; a truthy parent id also appends one edge from it; nothing else changes |
| GraphStore.Store.UpdateNode | store/graphStore.ts:59-65 | every node with the id is merged with the update; other nodes, the edges and the view mode are unchanged |
| GraphStore.Store.DeleteNode | store/graphStore.ts:67-72 | the node list loses the id's nodes and the edge list every edge touching the id, both keeping order |
| GraphStore.Store.AddEdge | store/graphStore.ts:74-79 | one edge `edge-<now>` is appended; the nodes are unchanged |
| GraphStore.Store.DeleteEdge | store/graphStore.ts:81-85 | the edges with that id are removed, order kept |
| GraphStore.Store.SetViewMode | store/graphStore.ts:87-89 | only the view mode changes |
| GraphStore.Store.CommitNodePosition | store/graphStore.ts:91-97 | every node with the id moves to (x, y); nothing else changes |
| GraphStore.Store.AutoLayout | store/graphStore.ts:99-120 | every node is replaced by its laid-out version, in order; the edges are unchanged |
| GraphStore.DeleteNodeRemovesAll | store/graphStore.ts:67-72 | after deletion no node has the id and no edge touches it, while every other node and edge remains |
| GraphStore.DeleteAbsentEdge | store/graphStore.ts:81-85 | deleting an edge id no edge has changes nothing |
| GraphNode.NodeTypeLabel | components/graph/GraphNode.tsx:53 | the label is "Task" exactly when the meta's node type is `task`, otherwise "Process" |
| GraphNode.Settle | components/graph/GraphNode.tsx:138-144 | a size is replaced only when the measurement differs by more than 0.5, so the kept size is always within 0.5 of the measurement |
| GraphNode.SettleStable | components/graph/GraphNode.tsx:135-147 | settling again on the same measurement changes nothing |
| GraphNode.NodeView.constructor | components/graph/GraphNode.tsx:55-59 | the live values start at the initial position with size 200 × 120 and scale 1; nothing committed |
| GraphNode.NodeView.Mount | components/graph/GraphNode.tsx:67-70 | registering puts this node's values under its id, appends the id to the key order only when it is new, leaves every other id alone and notifies each listener once |
| GraphNode.NodeView.Unmount | components/graph/GraphNode.tsx:69 | the clean-up removes this node's id from the map and the key order, keeps the other keys in order and notifies each listener once |
| GraphNode.NodeView.ResetPosition | components/graph/GraphNode.tsx:72-75 | a new initial position moves the node there and keeps its size |
| GraphNode.NodeView.OnLayout | components/graph/GraphNode.tsx:135-147 | each dimension settles on the laid-out size; the position is unchanged |
| GraphNode.NodeView.OnWindowMeasure | components/graph/GraphNode.tsx:100-112 | a zero width or height is ignored; otherwise both dimensions settle on the measurement |
| GraphNode.NodeView.OnStart | components/graph/GraphNode.tsx:153-157 | the drag remembers the current position and grows to 1.05 |
| GraphNode.NodeView.OnActive | components/graph/GraphNode.tsx:158-161 | the node follows the finger from the remembered start; size unchanged |
| GraphNode.NodeView.OnEnd | components/graph/GraphNode.tsx:162-168 | the node shrinks back and commits its position once, when a callback exists |
| GraphNode.NodeView.OnFinish | components/graph/GraphNode.tsx:169-171 | the node shrinks back without committing |
| GraphNode.NodeView.Drag | components/graph/GraphNode.tsx:150-172 | a whole drag ends at the start plus the last translation, at scale 1, with exactly one commit of that position when a callback exists; the size is unchanged |
| GraphCanvas.ClampScale | components/graph/GraphCanvas.tsx:96 | the zoom is always within [0.5, 2], equals the raw scale inside that range and the nearer bound outside it |
| GraphCanvas.ClampMonotone | components/graph/GraphCanvas.tsx:96 | a larger raw scale never gives a smaller zoom |
| GraphCanvas.CanvasSize | components/graph/GraphCanvas.tsx:59-62 | the canvas is never smaller than the window or twice the window, and is exactly twice it for non-negative sizes |
| GraphCanvas.ScreenCanvasInverse | components/graph/GraphCanvas.tsx:136-148 | the tap formula `(p - t) / s` inverts the transform that scales about the origin and then translates (`q * s + t`), both ways round |
| GraphCanvas.ColorMapFacts | components/graph/GraphCanvas.tsx:70-75 | an id has a colour exactly when some node with it has a truthy colour, and the colour is that of the last such node |
| GraphCanvas.EdgesToRender | components/graph/GraphCanvas.tsx:64-81 | given edges are drawn as given; otherwise each derived edge, in order, coloured like its target node or `primary` when that node has no colour |
| GraphCanvas.Sources | components/graph/GraphCanvas.tsx:69 | the nodes handed to `deriveGraphEdges` are the canvas nodes' own fields, in order |
| GraphCanvas.DerivedEdgeColour | components/graph/GraphCanvas.tsx:77-80 | every derived edge has a colour, and a colour other than `primary` comes from the node it points to |
| GraphCanvas.PanRefsOf | components/graph/GraphCanvas.tsx:92-94 | the pan handlers kept are exactly those present in the entries |
| GraphCanvas.NodePanRefs | components/graph/GraphCanvas.tsx:91-94 | the node pan handlers are exactly those of registered nodes that have one |
| GraphCanvas.WaitFor | components/graph/GraphCanvas.tsx:172 | the canvas pan waits for the node pan handlers, and for nothing when no registered node has one |
| GraphCanvas.CanvasView.constructor | components/graph/GraphCanvas.tsx:83-85 | the view starts untranslated at zoom 1 with no taps reported |
| GraphCanvas.CanvasView.PanStart | components/graph/GraphCanvas.tsx:106-109 | a pan remembers the current translation and changes nothing else |
| GraphCanvas.CanvasView.PanActive | components/graph/GraphCanvas.tsx:110-113 | the translation is the remembered start plus the gesture's translation; the zoom is unchanged |
| GraphCanvas.CanvasView.PinchStart | components/graph/GraphCanvas.tsx:120-122 | a pinch remembers the current zoom |
| GraphCanvas.CanvasView.PinchActive | components/graph/GraphCanvas.tsx:123-125 | the zoom is the remembered zoom times the pinch scale, clamped; the translation is unchanged |
| GraphCanvas.CanvasView.TwoFingerTap | components/graph/GraphCanvas.tsx:131-139 | a successful tap with two or more fingers and a callback reports `((x - tx) / s, (y - ty) / s)` of its position; any other tap reports nothing |
| GraphCanvas.CanvasView.ResetView | components/graph/GraphCanvas.tsx:151-155 | the view goes back to no translation and zoom 1 |
| GraphCanvas.CanvasView.ZoomIn | components/graph/GraphCanvas.tsx:157-160 | the zoom grows by 1.2, at most to 2, and never shrinks |
| GraphCanvas.CanvasView.ZoomOut | components/graph/GraphCanvas.tsx:162-165 | the zoom shrinks by 1.2, at least to 0.5, and never grows |
| ProjectCanvas.UiNode | components/project/ProjectCanvas.tsx:49-56 | a task node becomes a canvas node with its id, title and position |
| ProjectCanvas.UiNodes | components/project/ProjectCanvas.tsx:49-56 | one canvas node per task node, in order |
| ProjectCanvas.UiEdges | components/project/ProjectCanvas.tsx:59-65 | every edge is `edge-<parentId>-<id>` from some node's truthy parent to that node |
| ProjectCanvas.SourcesOf | components/project/ProjectCanvas.tsx:59-65 | each task node is read with its parent, project, creation date and meta |
| ProjectCanvas.UiEdgesAreParentEdges | components/project/ProjectCanvas.tsx:59-65 | the view's own edges are exactly the parent edges `deriveGraphEdges` emits for the same nodes: same ids, ends and order |
| ProjectCanvas.CanvasNodes | components/project/ProjectCanvas.tsx:135-137 | the canvas receives one node per view node with the same id |
| ProjectCanvas.RenderedAreParentEdges | components/project/ProjectCanvas.tsx:134-143 | since the view always passes its edges, the canvas draws exactly one parent edge per node with a parent and never a sequential edge |
| ProjectCanvas.Forward | components/project/ProjectCanvas.tsx:67-132 | a commit and a canvas tap are forwarded unchanged; a press resolves the first task node with the id (nothing exactly when none has it); a long press asks for a child of the pressed node |
| NodeCard.DaysUntil | components/project/NodeCard.tsx:116-117 | the day count is the ceiling of the time difference in days |
| NodeCard.FormatDueDate | components/project/NodeCard.tsx:113-124 | an unparsable date shows the locale text; otherwise a day or more past is "Overdue", the rest of the past day "Today", the next day "Tomorrow", up to a week "<n>d", later the locale date |
| NodeCard.RecentlyPassedIsToday | components/project/NodeCard.tsx:113-127 | a due time just passed reads "Today" while the card already flags it overdue |
| NodeCard.DueFlags | components/project/NodeCard.tsx:126-127 | overdue exactly for a present, parsable due date before now; due soon exactly for one no later than a day from now |
| NodeCard.OverdueIsDueSoon | components/project/NodeCard.tsx:126-127 | an overdue node is always also due soon |
| NodeCard.TagChips | components/project/NodeCard.tsx:175-192 | at most three chips, the first tags in order, and a `+n` chip exactly when there are more; shown plus `n` is all the tags |
| NodeCard.CardView.constructor | components/project/NodeCard.tsx:60-62 | the card starts at the node's position, at scale 1, not pressed |
| NodeCard.CardView.Begin | components/project/NodeCard.tsx:66-69 | a pan marks the card pressed and grows it to 1.05 |
| NodeCard.CardView.Update | components/project/NodeCard.tsx:70-73 | the card sits at the node's position plus the gesture's translation |
| NodeCard.CardView.End | components/project/NodeCard.tsx:74-81 | the card is released, shrinks back and reports its current position through `onMove` once |
| NodeCard.CardView.Drag | components/project/NodeCard.tsx:65-81 | a whole pan leaves the card at the node position plus the last translation (where it was when there was none), and reports exactly one move, to that position |
| NodeEditor.AttachmentTypeOf | components/project/NodeEditor.tsx:195-203 | the lower-cased url's extension decides, in the order image, video, audio, document; an http prefix then makes a link; anything else is a document |
| NodeEditor.AttachmentTypeIgnoresCase | components/project/NodeEditor.tsx:196 | the type does not depend on letter case |
| NodeEditor.TrailingSpaceHidesExtension | components/project/NodeEditor.tsx:195-209 | the type is taken from the untrimmed url, so a trailing space hides any extension and gives a link or document |
| NodeEditor.NoExtAfterWhite | components/project/NodeEditor.tsx:197-200 | no extension pattern matches a string ending in white space |
| NodeEditor.OpenTarget | components/project/NodeEditor.tsx:235-248 | an attachment is offered to the system opener exactly when its url is non-empty, and then with that url |
| NodeEditor.StandaloneOf | components/project/NodeEditor.tsx:75 | the switch starts at the stored `standaloneRoot` unless that is missing or null, then at false |
| NodeEditor.Loaded | components/project/NodeEditor.tsx:78-111 | an edited node fills the form from its fields, with the defaults for falsy values; no node gives the defaults |
| NodeEditor.LoadThenSave | components/project/NodeEditor.tsx:78-138 | loading a node with a title and saving at once gives back its trimmed title, tags and attachments, its status and priority, its colour and icon (or the defaults when they are empty), and keeps every meta key |
| NodeEditor.Save | components/project/NodeEditor.tsx:115-138 | a blank title is refused with its message; otherwise the payload carries the trimmed title and notes, the form's status, priority, colour and icon, the drawing when there is one, and a due date exactly when the due-date switch is on |
| NodeEditor.SaveKeepsMeta | components/project/NodeEditor.tsx:133 | the saved meta keeps every other key of the node's meta and sets `standaloneRoot` |
| NodeEditor.EditorForm.constructor | components/project/NodeEditor.tsx:57-75 | the form opens with the node's loaded fields and empty tag and attachment inputs |
| NodeEditor.EditorForm.Reset | components/project/NodeEditor.tsx:78-111 | a new node reloads the fields and clears the tag input, leaving the attachment inputs alone |
| NodeEditor.EditorForm.AddTag | components/project/NodeEditor.tsx:151-156 | a non-empty trimmed tag not yet present is appended and the input cleared; otherwise nothing changes; tags stay free of repeats |
| NodeEditor.EditorForm.RemoveTag | components/project/NodeEditor.tsx:158-160 | the tag is removed and every other tag kept, in order |
| NodeEditor.EditorForm.AddAttachment | components/project/NodeEditor.tsx:189-218 | a blank name or url is refused with its message and the form unchanged; otherwise the new attachment is appended and the dialog cleared and closed |
| NodeEditor.EditorForm.RemoveAttachment | components/project/NodeEditor.tsx:220-233 | after confirmation the attachments with that id are removed; without it nothing changes |
| NodeEditor.Attach | components/project/NodeEditor.tsx:189-214 | refused exactly when the name or url is blank; otherwise exactly one attachment is appended |
| NodeEditor.NewAttachment | components/project/NodeEditor.tsx:205-212 | the attachment has the time as id, the trimmed name and url, the classified type, the upload time and the current user |
| NodeEditor.DialogAttachmentOpens | components/project/NodeEditor.tsx:205-248 | an attachment added through the dialog can always be opened, at its trimmed url |
| NodeEditor.RemoveAttachmentFacts | components/project/NodeEditor.tsx:229 | removal leaves no attachment with the id and keeps every other one |
| NodeEditor.RemoveKeepsNoDuplicates | components/project/NodeEditor.tsx:158-160 | removing a tag keeps the tags free of repeats |
| EnhancedNodeCard.Snap | components/project/EnhancedNodeCard.tsx:117-121 | the committed coordinate lies on the 8-unit grid, within 4 of the raw value (halves rounding up) |
| EnhancedNodeCard.SnapNearest | components/project/EnhancedNodeCard.tsx:118-119 | no grid point is nearer to the raw value than the snapped one |
| EnhancedNodeCard.SnapOnGrid | components/project/EnhancedNodeCard.tsx:118-119 | a value already on the grid is committed unchanged |
| EnhancedNodeCard.SnapIdempotent | components/project/EnhancedNodeCard.tsx:118-119 | snapping twice is snapping once |
| EnhancedNodeCard.Clamp | components/project/EnhancedNodeCard.tsx:138-139 | a dragged coordinate is kept within [-50, 1500] and unchanged inside it |
| EnhancedNodeCard.CommittedBounds | components/project/EnhancedNodeCard.tsx:138-146 | a committed coordinate is on the grid and within [-48, 1504], slightly outside the drag bounds at the top |
| EnhancedNodeCard.SnapUpperEdge | components/project/EnhancedNodeCard.tsx:118-139 | a card dragged to the right or bottom edge (1500) is committed at 1504 |
| EnhancedNodeCard.EnhancedCardView.constructor | components/project/EnhancedNodeCard.tsx:112-114 | the card starts at the node's position, at scale 1, not pressed |
| EnhancedNodeCard.EnhancedCardView.Begin | components/project/EnhancedNodeCard.tsx:127-132 | a pan marks the card pressed, grows it and remembers the start position |
| EnhancedNodeCard.EnhancedCardView.Update | components/project/EnhancedNodeCard.tsx:133-140 | the card follows the finger from the start, clamped to the canvas bounds |
| EnhancedNodeCard.EnhancedCardView.End | components/project/EnhancedNodeCard.tsx:141-147 | the card is released, shrinks back and commits its snapped position once |
| EnhancedNodeCard.EnhancedCardView.Drag | components/project/EnhancedNodeCard.tsx:124-147 | outside graph mode a drag changes nothing, not even the pressed state or the scale; in graph mode a tap keeps the position and a moving drag ends clamped at the start plus the last translation and commits that position snapped, exactly once |
| EnhancedNodeCard.ImageAttachment | components/project/EnhancedNodeCard.tsx:215-223 | corrected: a picked image is an image attachment whose url is the asset's uri, with the time as id, `Image_<time>.jpg` as name and the file size |
| EnhancedNodeCard.DocumentAttachment | components/project/EnhancedNodeCard.tsx:241-250 | corrected: a picked document keeps the asset's uri as url, with its name, size and MIME type |
| EnhancedNodeCard.ImageAttachmentAsWritten | components/project/EnhancedNodeCard.tsx:215-223 | as written: the uri is stored under a key the attachment type does not have, so the attachment has no url |
| EnhancedNodeCard.DocumentAttachmentAsWritten | components/project/EnhancedNodeCard.tsx:241-250 | as written: the picked document has no url either |
| EnhancedNodeCard.PickedFileNotOpenable | components/project/EnhancedNodeCard.tsx:215-253 | as written, a picked image or document can never be opened from the attachment list |
| EnhancedNodeCard.PickedFileOpens | components/project/EnhancedNodeCard.tsx:215-253 | corrected, a picked file with a non-empty uri opens at that uri |
| EnhancedNodeCard.Appended | components/project/EnhancedNodeCard.tsx:225 | the update is the node's attachments (none read as empty) with the new one at the end |
| EnhancedNodeCard.AddImage | components/project/EnhancedNodeCard.tsx:198-232 | without permission the user is told so; a cancelled or empty pick changes nothing; otherwise the image attachment is appended |
| EnhancedNodeCard.AddDocument | components/project/EnhancedNodeCard.tsx:234-259 | a cancelled pick changes nothing; a pick with no asset fails with "Failed to pick document"; otherwise the document attachment is appended |
| EnhancedNodeCard.AddKeepsExisting | components/project/EnhancedNodeCard.tsx:225-253 | adding an image or document keeps every existing attachment in place and adds exactly one |
| Storage.Read | utils/storage.ts:9-17 | a missing or unreadable table reads as the empty list, a stored one as itself |
| Storage.Appended | utils/storage.ts:28-36 | `push` then save: the stored table is the old one with the item at the end |
| Storage.Patched | utils/storage.ts:38-49 | only the first item with the id is merged with the update; with no such item nothing is written |
| Storage.Kept | utils/storage.ts:51-59 | the saved table is the old one filtered, order kept |
| Storage.NodesOf | utils/storage.ts:144-152 | exactly the stored nodes of that project |
| Storage.ProjectsOf | utils/storage.ts:72-80 | exactly the stored projects of that workspace |
| Storage.OverdueUpcomingDisjoint | utils/storage.ts:272-300 | no reminder is both overdue and upcoming |
| Storage.StorageService.constructor | utils/storage.ts:4-7 | a fresh store has no table under any key |
| Storage.StorageService.GetWorkspaces | utils/storage.ts:9-17 | no stored workspaces read as the empty list |
| Storage.StorageService.AddWorkspace | utils/storage.ts:28-36 | the workspace is appended and no other table changes |
| Storage.StorageService.UpdateWorkspace | utils/storage.ts:38-49 | the first workspace with the id is merged; no other table changes |
| Storage.StorageService.DeleteWorkspace | utils/storage.ts:51-59 | the workspaces with the id are removed; their projects stay |
| Storage.StorageService.GetProjects | utils/storage.ts:62-70 | no stored projects read as the empty list |
| Storage.StorageService.GetProjectsByWorkspace | utils/storage.ts:72-80 | exactly the stored projects of the workspace |
| Storage.StorageService.AddProject | utils/storage.ts:90-98 | the project is appended; the workspace's project count is not touched |
| Storage.StorageService.UpdateProject | utils/storage.ts:100-111 | the first project with the id is merged; no other table changes |
| Storage.StorageService.DeleteProject | utils/storage.ts:113-131 | the project goes, and with it every node and reminder of that project; no remaining node or reminder refers to it |
| Storage.StorageService.GetNodes | utils/storage.ts:134-142 | no stored nodes read as the empty list |
| Storage.StorageService.GetNodesByProject | utils/storage.ts:144-152 | exactly the stored nodes of the project |
| Storage.StorageService.UpdateProjectNodeCount | utils/storage.ts:302-309 | the project's node count is set to the number of its stored nodes |
| Storage.StorageService.UpdateWorkspaceProjectCount | utils/storage.ts:311-318 | the workspace's project count is set to the number of its stored projects |
| Storage.StorageService.AddNode | utils/storage.ts:162-173 | the node is appended and its project's node count recomputed from the new table |
| Storage.StorageService.UpdateNode | utils/storage.ts:175-186 | the first node with the id is merged; the counts are not touched |
| Storage.StorageService.DeleteNode | utils/storage.ts:188-202 | an unknown id changes nothing; otherwise the node is removed and its project's node count recomputed |
| Storage.StorageService.GetReminders | utils/storage.ts:205-213 | no stored reminders read as the empty list |
| Storage.StorageService.AddReminder | utils/storage.ts:223-231 | the reminder is appended and no other table changes |
| Storage.StorageService.UpdateReminder | utils/storage.ts:233-245 | the first reminder with the id is merged |
| Storage.StorageService.DeleteReminder | utils/storage.ts:247-255 | the reminders with the id are removed |
| Storage.StorageService.GetRemindersByDate | utils/storage.ts:258-270 | exactly the stored reminders due on the same calendar day as the date |
| Storage.StorageService.GetOverdueReminders | utils/storage.ts:272-283 | exactly the open reminders due strictly before now |
| Storage.StorageService.GetUpcomingReminders | utils/storage.ts:285-300 | exactly the open reminders due between now and the horizon, both included |
| Storage.StorageService.GetRecentSearches | utils/storage.ts:321-329 | no stored searches read as the empty list |
| Storage.StorageService.SaveRecentSearches | utils/storage.ts:331-337 | the search list is stored as given and nothing else changes |
| Storage.RecountMatchesNodes | utils/storage.ts:302-309 | after a recount, the project's node count equals the number of nodes stored for it |
| Storage.PatchUnknownIsNoop | utils/storage.ts:38-49 | updating an id no item has leaves the table as it was |
| Storage.DeleteUnknownKeeps | utils/storage.ts:51-59 | deleting an id no item has keeps every item |
| RemindersCreate.FindProject | app/reminders/create.tsx:89 | finds the first project with the node's project id, and nothing exactly when there is none |
| RemindersCreate.TargetProject | app/reminders/create.tsx:66 | the reminder's project is the selected project's id when truthy, else the selected node's project id when truthy, else empty |
| RemindersCreate.NewReminder | app/reminders/create.tsx:57-72 | a blank title is refused with its message; otherwise the reminder has the time as id, the trimmed title, the selected node's id (or empty), the target project, its assignees (or none), open status and the creation time |
| RemindersCreate.WithTime | app/reminders/create.tsx:132-140 | the picked time replaces the hours and minutes and keeps the day, seconds and milliseconds |
| RemindersCreate.WithTimeIdempotent | app/reminders/create.tsx:132-140 | picking the same time twice is picking it once |
| RemindersCreate.ReminderForm.constructor | app/reminders/create.tsx:28-36 | the form starts empty, due now, with nothing selected and both pickers closed |
| RemindersCreate.ReminderForm.Load | app/reminders/create.tsx:38-55 | loading fills the node and project lists from storage and leaves the form alone |
| RemindersCreate.ReminderForm.SetTitle | app/reminders/create.tsx:28 | typing changes only the title |
| RemindersCreate.ReminderForm.SelectNode | app/reminders/create.tsx:87-91 | selecting a node also selects its project when it is loaded, and clears the project otherwise |
| RemindersCreate.ReminderForm.SelectProject | app/reminders/create.tsx:93-96 | selecting a project clears the node selection |
| RemindersCreate.ReminderForm.PressDate | app/reminders/create.tsx:115-118 | the date picker opens and the time picker closes: never both open |
| RemindersCreate.ReminderForm.PressTime | app/reminders/create.tsx:120-123 | the time picker opens and the date picker closes |
| RemindersCreate.ReminderForm.ChangeDate | app/reminders/create.tsx:125-130 | the date picker closes; a picked date replaces the due date, a dismissal keeps it |
| RemindersCreate.ReminderForm.ChangeTime | app/reminders/create.tsx:132-140 | the time picker closes; a picked time sets the due date's hours and minutes |
| RemindersCreate.ReminderForm.Save | app/reminders/create.tsx:57-81 | a refused reminder stores nothing; an accepted one is appended to the reminders table and nothing else is written |
| RemindersCreate.NodeSelectionSetsProject | app/reminders/create.tsx:65-91 | a reminder for a selected node files under that node's project and carries the node's id |
| RemindersCreate.ProjectSelectionClearsNode | app/reminders/create.tsx:65-96 | a reminder for a selected project has no node and no assignees |
| ProjectsCreate.NewProject | app/projects/create.tsx:58-82 | a blank name is refused first, then a missing workspace; otherwise the project has the time as id, the trimmed name and description, the route's workspace when given (else the picked one), backlog status and zero nodes |
| ProjectsCreate.ProjectForm.constructor | app/projects/create.tsx:28-37 | the form starts empty with the first workspace colour and remembers the route's workspace id |
| ProjectsCreate.ProjectForm.Load | app/projects/create.tsx:39-56 | loading fills the workspace list and, inside a workspace, selects that workspace |
| ProjectsCreate.ProjectForm.Edit | app/projects/create.tsx:28-31 | the inputs change only the name, description, colour and picked workspace |
| ProjectsCreate.ProjectForm.Save | app/projects/create.tsx:58-98 | a refused project writes nothing; an accepted one is appended and its workspace's project count recomputed from the new table |
| ProjectsCreate.RouteWins | app/projects/create.tsx:64-69 | inside a workspace, whatever workspace is picked makes no difference |
| ProjectsCreate.SavedProjectCounted | app/projects/create.tsx:87-90 | the recount after saving includes the new project, so it is at least 1 |
| WorkspacesCreate.Glyph | app/workspaces/create.tsx:22-38 | a known icon name draws its own glyph, any other name the briefcase |
| WorkspacesCreate.NewWorkspace | app/workspaces/create.tsx:50-67 | refused exactly for a blank name, with its message; otherwise the workspace has the time as id, the trimmed name and description, the chosen colour and icon, and zero counts |
| WorkspacesCreate.WorkspaceForm.constructor | app/workspaces/create.tsx:45-48 | the form starts empty with the first colour and the briefcase icon |
| WorkspacesCreate.WorkspaceForm.Edit | app/workspaces/create.tsx:45-48 | the inputs change only the name, description, colour and icon |
| WorkspacesCreate.WorkspaceForm.Save | app/workspaces/create.tsx:50-79 | a refused workspace writes nothing; an accepted one is appended and no other table changes |
| WorkspacesCreate.DefaultsSaved | app/workspaces/create.tsx:45-67 | saving with the defaults gives colour `#007AFF`, the briefcase icon (which has a glyph) and an empty description |
| Search.Hits | app/search.tsx:75-136 | one loop over a table gives at most one result per item |
| Search.HitsFacts | app/search.tsx:75-136 | a table contributes exactly one result per matching item, every matching item appears, and every result comes from a matching item |
| Search.HitsOfKind | app/search.tsx:80-134 | every result of one table's loop has that table's kind |
| Search.RunsOrdered | app/search.tsx:71-138 | workspace results, then project, node and reminder results, concatenated, are ordered by kind |
| Search.ResultsGrouped | app/search.tsx:71-138 | the results list all workspaces first, then projects, then nodes, then reminders |
| Search.TagMatchFindsNode | app/search.tsx:108-113 | a node one of whose tags contains the query is found even when its title and notes do not |
| Search.QueryCaseIrrelevant | app/search.tsx:72 | lower-casing the query first gives the same results |
| Search.Collect | app/search.tsx:75-88 | each `forEach` pushes exactly that table's hits, in order |
| Search.PerformSearch | app/search.tsx:61-144 | the search computes the results specification over the four tables |
| Search.Remember | app/search.tsx:168-171 | the query goes first, any earlier copy of it is dropped, the other searches follow in order, and the list is cut to 10 |
| Search.RememberHeadIsNoop | app/search.tsx:168-171 | opening a result again for the most recent query changes nothing |
| Search.RememberKeepsDistinct | app/search.tsx:168-171 | a recent list without repeats stays without repeats |
| Search.SearchScreen.constructor | app/search.tsx:33-36 | the screen starts with no query, no results and no recent searches |
| Search.SearchScreen.LoadRecent | app/search.tsx:39-59 | the recent list is loaded from storage (empty when absent) |
| Search.SearchScreen.SetQuery | app/search.tsx:44-50 | a blank query clears the results; any other is searched trimmed over the stored tables |
| Search.SearchScreen.OpenResult | app/search.tsx:146-176 | opening a result remembers the current query and stores the new list; no table changes |
| Search.SearchScreen.ClearRecent | app/search.tsx:182-189 | the recent list is emptied on screen and in storage |
| Analytics.CompletionRate | app/analytics.tsx:51 | no nodes give a rate of 0 |
| Analytics.RateIsPercentage | app/analytics.tsx:51 | the rate is a whole percentage in [0, 100], the nearest one to the exact share (halves up), 100 exactly when all nodes are done and 0 when none are |
| Analytics.ProductivityScore | app/analytics.tsx:61 | the score never exceeds 100 and is not negative for a non-negative rate |
| Analytics.Summarize | app/analytics.tsx:46-62 | the totals are the list lengths; done, overdue and in-progress counts are the counts of those nodes and projects; rate and score are computed from those counts and lie within [0, 100]; done plus overdue never exceed all nodes |
| Analytics.DoneAndOverdueDisjoint | app/analytics.tsx:46-49 | no node is counted both as done and as overdue |
| Analytics.BucketsPartition | app/analytics.tsx:65-69 | the backlog, in-progress and done counts add up to all projects |
| Analytics.ChartData | app/analytics.tsx:71-90 | three bars, Backlog, In Progress and Completed, each with its status count as value and the project count as total |
| Analytics.ChartShowsShares | app/analytics.tsx:71-90 | with projects, each bar's background is full width and its fill is that status's share of all projects; with none, every fill is empty |
| Analytics.AnalyticsScreen.constructor | app/analytics.tsx:25-35 | the screen starts with all counts zero and no chart |
| Analytics.AnalyticsScreen.Load | app/analytics.tsx:37-94 | loading sets the summary and chart from the stored tables |
| ProgressChart.Extent | components/analytics/ProgressChart.tsx:24 | an item's extent is its total when that is truthy, otherwise its value |
| ProgressChart.MaxValue | components/analytics/ProgressChart.tsx:24 | the largest extent: at least every item's and equal to one; no items give no maximum (the source's `-Infinity`) |
| ProgressChart.ShareBounds | components/analytics/ProgressChart.tsx:36 | a part of a positive whole is a share within [0, 100], exactly 100 for the whole |
| ProgressChart.Percentage | components/analytics/ProgressChart.tsx:36 | the fill is empty when the maximum is not positive |
| ProgressChart.TotalPercentage | components/analytics/ProgressChart.tsx:37 | the background is full width unless the item has a total and the maximum is positive |
| ProgressChart.TotalBarFits | components/analytics/ProgressChart.tsx:24-37 | no background bar is wider than 100% |
| ProgressChart.FillBarFits | components/analytics/ProgressChart.tsx:24-36 | an item whose value lies within its extent has a fill between 0% and 100% |
| ProgressChart.UniformMax | components/analytics/ProgressChart.tsx:24 | items sharing one extent have that extent as maximum |
| ProgressChart.ValueText | components/analytics/ProgressChart.tsx:46 | the label starts with the value and shows `/total` exactly when the item has a total |
| ProgressChart.NoSlash | components/analytics/ProgressChart.tsx:46 | a number's text has no slash, so the slash in the label always belongs to a total |
| DrawingCanvas.PathId | components/ui/DrawingCanvas.tsx:99 | the id `path-n` reads back as the number n, so distinct counters give distinct ids |
| DrawingCanvas.PathIdInjective | components/ui/DrawingCanvas.tsx:99 | two counter values that give the same path id are equal |
| DrawingCanvas.Ids | components/ui/DrawingCanvas.tsx:42-43 | the id list has one entry per stored path, in order |
| DrawingCanvas.Erased | components/ui/DrawingCanvas.tsx:50-59 | an eraser touch keeps exactly the paths with no point within 20 px of it, and nothing else |
| DrawingCanvas.NextAfter | components/ui/DrawingCanvas.tsx:47 | a counter above the number of every `path-n` id among the given paths |
| DrawingCanvas.KeptIdIsFresh | components/ui/DrawingCanvas.tsx:96-107 | when the counter is above every stored id, the new stroke's id is not yet used, the counter stays above after the increment, and the id list stays free of repeats |
| DrawingCanvas.LoadAsWritten | components/ui/DrawingCanvas.tsx:62-71 | loading a saved drawing replaces the paths and leaves the id counter where it was |
| DrawingCanvas.ReloadRepeatsId | components/ui/DrawingCanvas.tsx:62-71 | reopening a drawing holding `path-0` with the counter at 0 and drawing one stroke gives two paths with the same id |
| DrawingCanvas.Load | components/ui/DrawingCanvas.tsx:62-71 | loading replaces the paths and moves the counter (never backwards) above every loaded id |
| DrawingCanvas.IdsBelowMonotone | components/ui/DrawingCanvas.tsx:47 | a counter above every id stays above after it grows |
| DrawingCanvas.Canvas.constructor | components/ui/DrawingCanvas.tsx:42-47 | an empty canvas, first palette colour, first stroke width, pen mode, counter 0 |
| DrawingCanvas.Canvas.LoadInitial | components/ui/DrawingCanvas.tsx:62-71 | (corrected load) a visible canvas with a non-empty drawing that parses loads it and moves the counter past its ids; otherwise paths and counter are unchanged |
| DrawingCanvas.Canvas.SetErasing | components/ui/DrawingCanvas.tsx:160-170 | the eraser and pen buttons switch the mode and change no path |
| DrawingCanvas.Canvas.SetColor | components/ui/DrawingCanvas.tsx:35 | picking a colour changes only the current colour |
| DrawingCanvas.Canvas.SetStrokeWidth | components/ui/DrawingCanvas.tsx:36 | picking a width changes only the current stroke width |
| DrawingCanvas.Canvas.Begin | components/ui/DrawingCanvas.tsx:74-90 | in eraser mode a touch removes the paths near it; in pen mode it starts a one-command path at the touch |
| DrawingCanvas.Canvas.Update | components/ui/DrawingCanvas.tsx:91-95 | in pen mode each update appends a line to the touch; in eraser mode nothing changes |
| DrawingCanvas.Canvas.End | components/ui/DrawingCanvas.tsx:96-107 | (after the corrected load) a non-empty pen stroke is stored with a fresh id, the current colour and width, and the counter advances; ids stay free of repeats |
| DrawingCanvas.Canvas.Clear | components/ui/DrawingCanvas.tsx:109-112 | clearing empties the paths and the current stroke and keeps the counter |
| DrawingCanvas.Canvas.Save | components/ui/DrawingCanvas.tsx:114-118 | saving hands the current paths to `onSave` once, then calls `onClose` once, leaving the canvas state as it was |
| DrawingCanvas.Canvas.Close | components/ui/DrawingCanvas.tsx:120-126 | closing clears the drawing, returns to pen mode and calls `onClose` once, without saving |
| DrawingCanvas.Canvas.Draw | components/ui/DrawingCanvas.tsx:74-107 | (after the corrected load) one pen gesture stores the polyline through its points under a fresh id with the current colour and width, advances the counter and leaves the pen down-state cleared |
| SafeDrawingCanvas.Canvas.constructor | components/ui/SafeDrawingCanvas.tsx:19-30 | the canvas starts with the initial paths, no current path and no change notification |
| SafeDrawingCanvas.Canvas.Grant | components/ui/SafeDrawingCanvas.tsx:36-40 | a touch starts a path with one move command at the touch |
| SafeDrawingCanvas.Canvas.Move | components/ui/SafeDrawingCanvas.tsx:42-53 | a move records the point and extends the current path by one line command |
| SafeDrawingCanvas.Canvas.Release | components/ui/SafeDrawingCanvas.tsx:55-63 | a path of more than one point is appended and the new list reported once to the callback; shorter touches are dropped; the current path is reset |
| SafeDrawingCanvas.Canvas.Gesture | components/ui/SafeDrawingCanvas.tsx:36-63 | a gesture with at least one move appends the polyline through its points and reports the new paths once (when a listener is set); a tap adds and reports nothing |

## Left out

- Rendering, styles, colours from the theme, icons and every `StyleSheet`: they decide how things look, not what state results. constants/Icons is not part of this model.
- Router navigation (`router.push`, `router.back`) after each screen action, alerts' text and console logging: they leave the modelled state as it is; an alert that stops a save is the `Err` result of that save.
- AsyncStorage reads and writes, their latency and their failures: each table is an in-memory value, `None` when the key is absent or the stored text does not parse.
- JSON text: `JSON.stringify`/`JSON.parse` of drawings, tables and meta are left out; parsed values come in as parameters.
- The dagre layout in `autoLayout`: an external library; the placement it computes is the parameter `place`.
- Spring and timing animations, the pulse animation of a graph node and `requestAnimationFrame` scheduling of its measurement: animated values are their targets, set at once.
- Gesture arbitration (`Gesture.Simultaneous`/`Exclusive`, `minDistance`, `onStartShouldSetPanResponder`) and `onPress` handlers that only navigate: the model takes the event sequence the framework delivers.
- Floating-point rounding: coordinates and percentages are exact reals, and `Math.round` is `floor(x + 1/2)`.
- `Math.sqrt` and `Math.atan2`: squared distances and Manhattan lengths replace square roots; `atan2` in the obstacle-aware router is a parameter giving degrees, and in the router in use it becomes exact comparisons on the offsets.
- EdgeRouting.PointsToRoundedSvgPath: segment lengths are Manhattan lengths, so for a diagonal segment the corner start differs from the Euclidean one the code computes; the router itself only produces horizontal and vertical segments (`OrthogonalPathAxisAligned`), where the two agree.
- The text form of paths and numbers: SVG paths are command lists, and the two-decimal and default number-to-text renderings of coordinates are not modelled.
- Strings.Lower: `toLowerCase` folds ASCII letters only; other Unicode case mappings are left out.
- EdgeRouting.CornerCmds: the fit test `min(radius, len1 / 2, len2 / 2)` and the corner points use Manhattan segment lengths where the code takes `Math.sqrt` of the squared lengths; on the horizontal and vertical segments the router produces the two agree (`Geometry.ManhattanIsEuclidean`), on a diagonal segment the radius and the corner points can differ.
- `Date` arithmetic: `new Date()`, `Date.now()`, `toISOString`, `toLocaleDateString`, `toDateString`, `setHours` and time zones are parameters or left out; the two `new Date()` readings of one save are the same parameter.
- EnhancedNodeCard.ImageAttachment: the id and the `Image_<n>.jpg` name come from one clock reading `now`; `handleAddImage` calls `Date.now()` twice, and a millisecond between the two calls would make the name's number differ from the id, which is not modelled.
- NodeEditor: the date and time picker handlers and `handleDelete` (a confirmation dialog and a callback) are left out; opening an attachment stops at the URL it would open (`OpenTarget`), without `canOpenURL`/`openURL`.
- EnhancedNodeCard: `handleDrawingChange` only stringifies the drawing and calls back; its `formatDueDate` is the one of the plain card and is modelled once, in `NodeCard`.
- Search: the result icons and colours and the navigation to a result; the race between overlapping asynchronous searches is left out (each search is atomic).
- RemindersCreate: the web-only date and time inputs and clearing a selection.
- NodePositions: each pair of shared values is a handle number with its targets in a map rather than a heap object, so aliasing between pairs is not modelled; pairs are never freed.
- NodePositions.PositionCache.Touch, NodePositions.PositionCache.Attach, NodePositions.PositionCache.Sync: the model keeps the intended cache of one pair per id; the hook creates a pair by calling `useSharedValue` inside `map` only for ids it has not seen, so the number of hook calls changes from render to render, which the rules of React hooks forbid; what React then does with the hook slots is not modelled.
- EnhancedNodeCard.EnhancedCardView.Begin, EnhancedNodeCard.EnhancedCardView.Update: the model assumes the pan gesture keeps `startX`/`startY` from `onBegin` to `onUpdate`; the `Gesture.Pan()` callbacks are written to take a `context` object, which that gesture API does not pass, so what the code does with the missing context is not modelled.
- EnhancedNodeCard.EnhancedCardView.constructor: the card always starts from its own pair at the node's position; the `sharedX || useSharedValue(...)` start, a conditional hook call, for a caller that passes shared values is not modelled: in this model the pairs of `NodePositions` and the card's own position are kept apart.
- DrawingCanvas.Canvas: loads through the corrected `Load`; the source's load is `LoadAsWritten` (see Findings).
- DrawingCanvas.Canvas.LoadInitial, DrawingCanvas.Canvas.End, DrawingCanvas.Canvas.Draw: state the corrected behaviour, where loading moves the path-id counter past the loaded ids; as written, `DrawingCanvas.ReloadRepeatsId` shows the next stroke can reuse an id.
- GraphCanvas.ScreenCanvasInverse: the model takes the canvas transform to be "scale about the origin, then translate" and the tap's `x`/`y` to be in the coordinates that transform maps to; React Native applies a `transform` list about the view's centre, and the tap handler sits inside the transformed view, so whether the reported point is the one drawn under the fingers is not modelled.
- `WorkspaceStack`, the widgets, the launcher and the tab screens are callers and context, not part of this model.

## Findings

| source | as written | input that shows it | evidently intended | confidence | as-written member | corrected member |
|---|---|---|---|---|---|---|
| components/project/EnhancedNodeCard.tsx:215-250 | picked images and documents are stored with the field `uri`, but attachments are opened through `url`, so a picked file has no URL and can never be opened | any picked image with a non-empty `uri` | store the picked file's address as the attachment's `url` | not executed | EnhancedNodeCard.PickedFileNotOpenable | EnhancedNodeCard.PickedFileOpens |
| components/ui/DrawingCanvas.tsx:62-71 | loading a saved drawing does not move the path-id counter past the loaded ids, so the next stroke can reuse an id | reopen a drawing holding `path-0` with the counter at 0 and draw one stroke: two paths have id `path-0` | advance the counter above every loaded `path-N` id | not executed | DrawingCanvas.ReloadRepeatsId | DrawingCanvas.KeptIdIsFresh |
