/** The per-node animated position cache: each node id keeps one pair of
    shared values across renders. A new id gets a new pair at its position,
    a known id has its pair's targets moved to the new position, and ids no
    longer present are dropped from the cache. Springs are modelled by their
    targets, and each pair of shared values by a handle number: pairs are
    never freed, and `targets` holds the state of every pair made so far. */
module NodePositions {
  import opened Wrappers
  import opened Geometry
  import opened Entities

  const CardWidth: real := 220.0
  const CardHeight: real := 140.0

  /** A node with its `{x, y}` shared values (by handle) and the card size. */
  datatype Placed = Placed(node: Node, cells: nat, width: real, height: real)

  function Ids(nodes: seq<Node>): set<string> {
    set i | 0 <= i < |nodes| :: nodes[i].id
  }

  /** The position of the last node with id `k`: the target its cells end at. */
  function Latest(nodes: seq<Node>, k: string): Option<Point> {
    if nodes == [] then None
    else if nodes[|nodes| - 1].id == k then Some(nodes[|nodes| - 1].position)
    else Latest(nodes[..|nodes| - 1], k)
  }

  /** `Latest` finds a position exactly for the ids present, and it is the
      position of one of the nodes with that id. */
  lemma {:induction false} LatestFacts(nodes: seq<Node>, k: string)
    ensures Latest(nodes, k).Some? <==> k in Ids(nodes)
    ensures Latest(nodes, k).Some? ==>
      exists i :: 0 <= i < |nodes| && nodes[i].id == k && nodes[i].position == Latest(nodes, k).value
  {
    if nodes != [] {
      var init := nodes[..|nodes| - 1];
      LatestFacts(init, k);
      assert forall i :: 0 <= i < |init| ==> init[i] == nodes[i];
      assert Ids(nodes) == Ids(init) + {nodes[|nodes| - 1].id};
    }
  }

  /** When no later node repeats its id, a node's cells end at its own position. */
  lemma {:induction false} LatestOfUnique(nodes: seq<Node>, i: nat)
    requires i < |nodes|
    requires forall j :: i < j < |nodes| ==> nodes[j].id != nodes[i].id
    ensures Latest(nodes, nodes[i].id) == Some(nodes[i].position)
  {
    if i < |nodes| - 1 {
      var init := nodes[..|nodes| - 1];
      LatestOfUnique(init, i);
    }
  }

  /** Appending a node adds its id. */
  lemma IdsSnoc(prefix: seq<Node>, node: Node)
    ensures Ids(prefix + [node]) == Ids(prefix) + {node.id}
  {
    var s := prefix + [node];
    forall x | x in Ids(prefix)
      ensures x in Ids(s)
    {
      var i :| 0 <= i < |prefix| && prefix[i].id == x;
      assert s[i] == prefix[i];
    }
    assert s[|prefix|] == node;
  }

  /** Every cached pair exists, handles are below `next`, and different ids
      never share a pair. */
  ghost predicate Sound(cache: map<string, nat>, targets: map<nat, Point>, next: nat) {
    (forall k :: k in cache ==> cache[k] in targets)
    && (forall h :: h in targets ==> h < next)
    && (forall a, b :: a in cache && b in cache && a != b ==> cache[a] != cache[b])
  }

  /** The handles of the pairs handed out in `out`. */
  function Cells(out: seq<Placed>): set<nat> {
    set j | 0 <= j < |out| :: out[j].cells
  }

  /** Appending a placed node adds its handle. */
  lemma CellsSnoc(out: seq<Placed>, p: Placed)
    ensures Cells(out + [p]) == Cells(out) + {p.cells}
  {
    var s := out + [p];
    forall h | h in Cells(out)
      ensures h in Cells(s)
    {
      var j :| 0 <= j < |out| && out[j].cells == h;
      assert s[j] == out[j];
    }
    assert s[|out|] == p;
  }

  /** Every pair of `t0` not handed out in `out` still heads where it did. */
  ghost predicate Untouched(t0: map<nat, Point>, t: map<nat, Point>, out: seq<Placed>) {
    forall h :: h in t0 && h !in Cells(out) ==> h in t && t[h] == t0[h]
  }

  /** Re-targeting the pair just handed out keeps every other pair untouched. */
  lemma UntouchedExtend(t0: map<nat, Point>, t: map<nat, Point>, out: seq<Placed>, p: Placed, pos: Point)
    requires Untouched(t0, t, out)
    ensures Untouched(t0, t[p.cells := pos], out + [p])
  {
    CellsSnoc(out, p);
  }

  /** The ids of `done` were added to the cache `orig`, whose ids keep their pairs. */
  ghost predicate Grown(cache: map<string, nat>, orig: map<string, nat>, done: seq<Node>) {
    cache.Keys == orig.Keys + Ids(done)
    && forall k :: k in orig ==> k in cache && cache[k] == orig[k]
  }

  /** Each node of `done` is placed with its id's pair and the card size. */
  ghost predicate Paired(cache: map<string, nat>, done: seq<Node>, out: seq<Placed>) {
    |out| == |done|
    && forall j :: 0 <= j < |done| ==>
         done[j].id in cache && out[j] == Placed(done[j], cache[done[j].id], CardWidth, CardHeight)
  }

  /** Every id of `done` has a pair heading to the last position given for it. */
  ghost predicate Heading(cache: map<string, nat>, targets: map<nat, Point>, done: seq<Node>) {
    forall k :: k in Ids(done) ==> k in cache && cache[k] in targets && Latest(done, k) == Some(targets[cache[k]])
  }

  /** The nodes `done` mapped from the cache `orig`. */
  ghost predicate Mapped(cache: map<string, nat>, targets: map<nat, Point>,
                         orig: map<string, nat>, done: seq<Node>, out: seq<Placed>)
  {
    Grown(cache, orig, done) && Paired(cache, done, out) && Heading(cache, targets, done)
  }

  /** Mapping one more node adds its id and keeps earlier pairs. */
  lemma GrownExtend(cache: map<string, nat>, orig: map<string, nat>, done: seq<Node>, node: Node, cells: nat)
    requires Grown(cache, orig, done)
    requires node.id in cache ==> cells == cache[node.id]
    ensures Grown(cache[node.id := cells], orig, done + [node])
  {
    IdsSnoc(done, node);
  }

  /** The node just mapped is placed with the pair its id now has, and the
      earlier nodes' ids still have theirs. */
  lemma PairedExtend(cache: map<string, nat>, done: seq<Node>, out: seq<Placed>, node: Node, cells: nat)
    requires Paired(cache, done, out)
    requires node.id in cache ==> cells == cache[node.id]
    ensures Paired(cache[node.id := cells], done + [node], out + [Placed(node, cells, CardWidth, CardHeight)])
  {
    var c, all, out2 := cache[node.id := cells], done + [node], out + [Placed(node, cells, CardWidth, CardHeight)];
    forall j | 0 <= j < |all|
      ensures all[j].id in c && out2[j] == Placed(all[j], c[all[j].id], CardWidth, CardHeight)
    {
      if j < |done| {
        assert all[j] == done[j] && out2[j] == out[j];
      }
    }
  }

  /** The node just mapped moves its id's pair to its position, while every
      other id's pair, distinct from it, still heads to that id's last position. */
  lemma HeadingExtend(cache: map<string, nat>, targets: map<nat, Point>, next: nat,
                      done: seq<Node>, node: Node, cells: nat)
    requires Sound(cache, targets, next) && Heading(cache, targets, done)
    requires node.id in cache ==> cells == cache[node.id]
    requires node.id !in cache ==> cells == next
    ensures Heading(cache[node.id := cells], targets[cells := node.position], done + [node])
  {
    var c, t, all := cache[node.id := cells], targets[cells := node.position], done + [node];
    IdsSnoc(done, node);
    forall k | k in Ids(all)
      ensures k in c && c[k] in t && Latest(all, k) == Some(t[c[k]])
    {
      assert all[..|all| - 1] == done;
      if k != node.id {
        assert k in Ids(done);
        assert c[k] == cache[k] != cells;
      }
    }
  }

  /** Ids added to the cache `orig` have handles made since `start`. */
  ghost predicate FreshSince(cache: map<string, nat>, orig: map<string, nat>, start: nat, next: nat) {
    forall k :: k in cache && k !in orig ==> start <= cache[k] < next
  }

  /** One mapping step keeps the handles of added ids fresh. */
  lemma FreshSinceExtend(cache: map<string, nat>, orig: map<string, nat>, start: nat, next: nat,
                         id: string, cells: nat, next': nat)
    requires FreshSince(cache, orig, start, next) && start <= next
    requires id in cache ==> cells == cache[id] && next' == next
    requires id !in cache ==> cells == next && next' == next + 1
    ensures FreshSince(cache[id := cells], orig, start, next') && start <= next'
  {
  }

  class PositionCache {
    /** `sharedValuesRef.current`: node id to the handle of its pair. */
    var cache: map<string, nat>
    /** Where each pair of shared values made so far is heading. */
    var targets: map<nat, Point>
    /** The handle the next new pair gets. */
    var next: nat

    ghost predicate Valid()
      reads this
    {
      Sound(cache, targets, next)
    }

    /** The first render: an empty map. */
    constructor ()
      ensures Valid() && cache == map[] && targets == map[] && next == 0
    {
      cache := map[];
      targets := map[];
      next := 0;
    }

    /** The mapping callback for one node: a known id has its pair's targets
        moved to the node's position; a new id gets a new pair there. */
    method Touch(node: Node) returns (cells: nat)
      modifies this
      requires Valid()
      ensures Valid()
      ensures cache == old(cache)[node.id := cells]
      ensures node.id in old(cache) ==> cells == old(cache)[node.id] && next == old(next)
      ensures node.id !in old(cache) ==> cells == old(next) && next == old(next) + 1
      ensures targets == old(targets)[cells := node.position]
    {
      if node.id in cache {
        cells := cache[node.id];
      } else {
        cells := next;
        next := next + 1;
        cache := cache[node.id := cells];
      }
      targets := targets[cells := node.position];
    }

    /** `nodes.map(...)`: attach a pair to every node, making pairs for new
        ids and re-targeting those of known ids. Pairs of other ids keep
        their targets, and new pairs have new handles. */
    method Attach(nodes: seq<Node>) returns (out: seq<Placed>)
      modifies this
      requires Valid()
      ensures Valid() && Mapped(cache, targets, old(cache), nodes, out)
      ensures next >= old(next)
      ensures FreshSince(cache, old(cache), old(next), next)
      ensures Untouched(old(targets), targets, out)
    {
      out := [];
      var i := 0;
      while i < |nodes|
        invariant 0 <= i <= |nodes|
        invariant Valid() && Mapped(cache, targets, old(cache), nodes[..i], out)
        invariant next >= old(next)
        invariant FreshSince(cache, old(cache), old(next), next)
        invariant Untouched(old(targets), targets, out)
      {
        var node := nodes[i];
        assert nodes[..i + 1] == nodes[..i] + [node];
        ghost var cells0 := if node.id in cache then cache[node.id] else next;
        ghost var next0 := if node.id in cache then next else next + 1;
        GrownExtend(cache, old(cache), nodes[..i], node, cells0);
        PairedExtend(cache, nodes[..i], out, node, cells0);
        HeadingExtend(cache, targets, next, nodes[..i], node, cells0);
        UntouchedExtend(old(targets), targets, out, Placed(node, cells0, CardWidth, CardHeight), node.position);
        FreshSinceExtend(cache, old(cache), old(next), next, node.id, cells0, next0);
        var cells := Touch(node);
        assert cells == cells0 && next == next0;
        out := out + [Placed(node, cells, CardWidth, CardHeight)];
        i := i + 1;
      }
      assert nodes[..i] == nodes;
    }

    /** The clean-up loop: drop every cached id that is not current. Pairs
        themselves are untouched. */
    method Prune(current: set<string>)
      modifies this
      requires Valid()
      ensures Valid()
      ensures cache.Keys == old(cache).Keys * current
      ensures forall k :: k in cache ==> cache[k] == old(cache)[k]
      ensures targets == old(targets) && next == old(next)
    {
      while exists k :: k in cache && k !in current
        invariant Valid()
        invariant old(cache).Keys * current <= cache.Keys <= old(cache).Keys
        invariant forall k :: k in cache ==> cache[k] == old(cache)[k]
        invariant targets == old(targets) && next == old(next)
        decreases |cache|
      {
        var k :| k in cache && k !in current;
        cache := cache - {k};
      }
    }

    /** `useNodeAnimatedPositions(nodes)`: the placed nodes, then the clean-up.
        Known ids keep their pair, new ids get new ones, every pair of a node
        heads to the last position given for its id, the cache holds exactly
        the current ids, and no other pair changes. */
    method Sync(nodes: seq<Node>) returns (out: seq<Placed>)
      modifies this
      requires Valid()
      ensures Valid()
      ensures cache.Keys == Ids(nodes)
      ensures |out| == |nodes|
      ensures forall i :: 0 <= i < |out| ==>
        out[i].node == nodes[i] && out[i].width == CardWidth && out[i].height == CardHeight
        && out[i].cells == cache[nodes[i].id]
        && (nodes[i].id in old(cache) ==> out[i].cells == old(cache)[nodes[i].id])
        && (nodes[i].id !in old(cache) ==> old(next) <= out[i].cells < next)
        && out[i].cells in targets && Latest(nodes, nodes[i].id) == Some(targets[out[i].cells])
      ensures forall h :: h in old(targets) && (forall i :: 0 <= i < |out| ==> out[i].cells != h) ==>
        h in targets && targets[h] == old(targets)[h]
    {
      out := Attach(nodes);
      ghost var mapped := cache;
      Prune(Ids(nodes));
      forall i | 0 <= i < |out|
        ensures out[i].cells in targets && Latest(nodes, nodes[i].id) == Some(targets[out[i].cells])
      {
        assert nodes[i].id in Ids(nodes);
      }
    }
  }
}
