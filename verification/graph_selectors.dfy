/** `deriveGraphEdges`: the edges drawn between task nodes. Every node with a
    parent gets a parent edge; then, project by project, the "root" nodes
    (no parent, not marked as standalone) are put in creation order and chained
    one after another by sequential edges.

    `Date.parse` is a parameter: `None` stands for `NaN`. */
module GraphSelectors {
  import opened Wrappers
  import opened Entities
  import Seqs

  const DefaultProjectKey: string := "__default__"

  /** The fields of a node that edge derivation reads. */
  datatype EdgeSource = EdgeSource(
    id: string,
    parentId: Option<string>,
    projectId: Option<string>,
    createdAt: Option<string>,
    meta: Option<Meta>)

  datatype EdgeKind = ParentKind | Sequential

  datatype DerivedEdge = DerivedEdge(id: string, from: string, to: string, kind: EdgeKind)

  /** A node with its position in the input list and its sort key. */
  datatype Indexed = Indexed(node: EdgeSource, index: nat, timestamp: int)

  predicate HasParent(n: EdgeSource) { TruthyText(n.parentId) }

  predicate IsRoot(n: EdgeSource) { !HasParent(n) && !IsStandalone(n.meta) }

  /** `node.projectId ?? '__default__'`: only a missing id falls back. */
  function ProjectKey(n: EdgeSource): string { n.projectId.GetOr(DefaultProjectKey) }

  /** The parsed `createdAt` when it is a non-empty string that parses, else the list index. */
  function Timestamp(n: EdgeSource, index: nat, parse: string -> Option<int>): int {
    if TruthyText(n.createdAt) && parse(n.createdAt.value).Some? then parse(n.createdAt.value).value
    else index
  }

  function EntryAt(nodes: seq<EdgeSource>, i: nat, parse: string -> Option<int>): Indexed
    requires i < |nodes|
  {
    Indexed(nodes[i], i, Timestamp(nodes[i], i, parse))
  }

  function ParentEdge(n: EdgeSource): DerivedEdge
    requires HasParent(n)
  {
    DerivedEdge("edge-" + n.parentId.value + "-" + n.id, n.parentId.value, n.id, ParentKind)
  }

  function SeqEdge(a: EdgeSource, b: EdgeSource): DerivedEdge {
    DerivedEdge("edge-seq-" + a.id + "-" + b.id, a.id, b.id, Sequential)
  }

  // ---------------------------------------------------------------- parent edges

  function CountParents(nodes: seq<EdgeSource>): nat {
    if nodes == [] then 0
    else CountParents(nodes[..|nodes| - 1]) + (if HasParent(nodes[|nodes| - 1]) then 1 else 0)
  }

  /** The parent edges, one per node with a parent, in input order. */
  function ParentEdges(nodes: seq<EdgeSource>): (r: seq<DerivedEdge>)
    ensures |r| == CountParents(nodes)
    ensures forall e | e in r :: e.kind == ParentKind
  {
    if nodes == [] then []
    else
      var n := |nodes| - 1;
      ParentEdges(nodes[..n]) + (if HasParent(nodes[n]) then [ParentEdge(nodes[n])] else [])
  }

  /** Node `i`, when it has a parent, owns the parent edge at the position given
      by the number of nodes with a parent before it. */
  lemma {:induction false} ParentEdgeAt(nodes: seq<EdgeSource>, i: nat)
    requires i < |nodes| && HasParent(nodes[i])
    ensures CountParents(nodes[..i]) < |ParentEdges(nodes)|
    ensures ParentEdges(nodes)[CountParents(nodes[..i])] == ParentEdge(nodes[i])
  {
    var n := |nodes| - 1;
    if i < n {
      assert nodes[..n][..i] == nodes[..i];
      ParentEdgeAt(nodes[..n], i);
    } else {
      assert nodes[..i] == nodes[..n];
    }
  }

  // ---------------------------------------------------------------- buckets

  /** The project keys in order of first appearance (the `Map`'s key order). */
  function Keys(nodes: seq<EdgeSource>): (ks: seq<string>)
    ensures forall k :: k in ks <==> exists i :: 0 <= i < |nodes| && ProjectKey(nodes[i]) == k
    ensures forall p, q :: 0 <= p < q < |ks| ==> ks[p] != ks[q]
  {
    if nodes == [] then []
    else
      var n := |nodes| - 1;
      var ks := Keys(nodes[..n]);
      assert forall i :: 0 <= i < n ==> nodes[..n][i] == nodes[i];
      if ProjectKey(nodes[n]) in ks then ks else ks + [ProjectKey(nodes[n])]
  }

  /** The entries of one project, in input order. */
  function Bucket(nodes: seq<EdgeSource>, parse: string -> Option<int>, k: string): seq<Indexed> {
    if nodes == [] then []
    else
      var n := |nodes| - 1;
      Bucket(nodes[..n], parse, k) + (if ProjectKey(nodes[n]) == k then [EntryAt(nodes, n, parse)] else [])
  }

  /** A bucket holds exactly the entries of the nodes with that project key,
      in increasing list order. */
  lemma {:induction false} BucketFacts(nodes: seq<EdgeSource>, parse: string -> Option<int>, k: string)
    ensures forall j :: 0 <= j < |Bucket(nodes, parse, k)| ==>
      var b := Bucket(nodes, parse, k);
      b[j].index < |nodes| && b[j] == EntryAt(nodes, b[j].index, parse) && ProjectKey(b[j].node) == k
    ensures forall p, q :: 0 <= p < q < |Bucket(nodes, parse, k)| ==>
      Bucket(nodes, parse, k)[p].index < Bucket(nodes, parse, k)[q].index
    ensures forall i :: 0 <= i < |nodes| && ProjectKey(nodes[i]) == k ==> EntryAt(nodes, i, parse) in Bucket(nodes, parse, k)
  {
    if nodes != [] {
      var n := |nodes| - 1;
      BucketFacts(nodes[..n], parse, k);
      assert forall i :: 0 <= i < n ==> EntryAt(nodes[..n], i, parse) == EntryAt(nodes, i, parse);
    }
  }

  /** `entries.filter(e => !e.node.parentId && !(e.node.meta && e.node.meta.standaloneRoot))` */
  function RootsOf(entries: seq<Indexed>): seq<Indexed> {
    if entries == [] then []
    else
      var n := |entries| - 1;
      RootsOf(entries[..n]) + (if IsRoot(entries[n].node) then [entries[n]] else [])
  }

  /** The list indices of `entries` increase along the list. */
  predicate IncreasingIndices(entries: seq<Indexed>) {
    forall p, q :: 0 <= p < q < |entries| ==> entries[p].index < entries[q].index
  }

  /** The filter keeps exactly the root entries, in their order. */
  lemma RootsOfFacts(entries: seq<Indexed>)
    ensures forall e :: e in RootsOf(entries) <==> e in entries && IsRoot(e.node)
    ensures IncreasingIndices(entries) ==> IncreasingIndices(RootsOf(entries))
  {
    RootsOfMembers(entries);
    if IncreasingIndices(entries) {
      RootsOfIncreasing(entries);
    }
  }

  lemma {:induction false} RootsOfMembers(entries: seq<Indexed>)
    ensures forall e :: e in RootsOf(entries) <==> e in entries && IsRoot(e.node)
  {
    if entries != [] {
      var n := |entries| - 1;
      RootsOfMembers(entries[..n]);
      assert entries == entries[..n] + [entries[n]];
    }
  }

  lemma {:induction false} RootsOfIncreasing(entries: seq<Indexed>)
    requires IncreasingIndices(entries)
    ensures IncreasingIndices(RootsOf(entries))
  {
    if entries != [] {
      var n := |entries| - 1;
      var init := entries[..n];
      RootsOfIncreasing(init);
      RootsOfMembers(init);
      var r := RootsOf(init);
      if IsRoot(entries[n].node) {
        forall p, q | 0 <= p < q < |r| + 1
          ensures (r + [entries[n]])[p].index < (r + [entries[n]])[q].index
        {
          if q == |r| {
            assert r[p] in init;
          }
        }
      }
    }
  }

  // ---------------------------------------------------------------- sorting

  /** The comparator: earlier timestamp first, list index breaking ties. */
  predicate Precedes(a: Indexed, b: Indexed) {
    a.timestamp < b.timestamp || (a.timestamp == b.timestamp && a.index < b.index)
  }

  predicate Sorted(s: seq<Indexed>) {
    forall p, q :: 0 <= p < q < |s| ==> !Precedes(s[q], s[p])
  }

  predicate StrictlySorted(s: seq<Indexed>) {
    forall p, q :: 0 <= p < q < |s| ==> Precedes(s[p], s[q])
  }

  predicate DistinctIndices(s: seq<Indexed>) {
    forall p, q :: 0 <= p < q < |s| ==> s[p].index != s[q].index
  }

  function Insert(e: Indexed, s: seq<Indexed>): (r: seq<Indexed>)
    ensures multiset(r) == multiset(s) + multiset{e}
  {
    if s == [] then [e]
    else if Precedes(s[0], e) then
      assert s == [s[0]] + s[1..];
      [s[0]] + Insert(e, s[1..])
    else [e] + s
  }

  lemma {:induction false} InsertSorted(e: Indexed, s: seq<Indexed>)
    requires Sorted(s)
    ensures Sorted(Insert(e, s))
  {
    var r := Insert(e, s);
    if s != [] && Precedes(s[0], e) {
      var t := Insert(e, s[1..]);
      InsertSorted(e, s[1..]);
      assert r == [s[0]] + t;
      forall p, q | 0 <= p < q < |r| ensures !Precedes(r[q], r[p]) {
        assert r[q] == t[q - 1];
        if p == 0 {
          assert r[q] in multiset(s[1..]) + multiset{e};
          if r[q] != e {
            var i :| 0 <= i < |s[1..]| && s[1..][i] == r[q];
            assert s[i + 1] == r[q];
          }
        } else {
          assert r[p] == t[p - 1];
        }
      }
    } else if s != [] {
      assert r == [e] + s;
      forall p, q | 0 <= p < q < |r| ensures !Precedes(r[q], r[p]) {
        assert r[q] == s[q - 1];
        if p == 0 {
          assert !Precedes(s[q - 1], s[0]) || q == 1;
        } else {
          assert r[p] == s[p - 1];
        }
      }
    }
  }

  lemma {:induction false} InsertStrict(e: Indexed, s: seq<Indexed>)
    requires StrictlySorted(s)
    requires forall x :: x in s ==> x.index != e.index
    ensures StrictlySorted(Insert(e, s))
  {
    var r := Insert(e, s);
    if s != [] && Precedes(s[0], e) {
      var t := Insert(e, s[1..]);
      assert forall x :: x in s[1..] ==> x in s;
      InsertStrict(e, s[1..]);
      assert r == [s[0]] + t;
      forall p, q | 0 <= p < q < |r| ensures Precedes(r[p], r[q]) {
        assert r[q] == t[q - 1];
        if p == 0 {
          assert r[q] in multiset(s[1..]) + multiset{e};
          if r[q] != e {
            var i :| 0 <= i < |s[1..]| && s[1..][i] == r[q];
            assert s[i + 1] == r[q];
          }
        } else {
          assert r[p] == t[p - 1];
        }
      }
    } else if s != [] {
      assert r == [e] + s;
      assert s[0] in s;
      forall p, q | 0 <= p < q < |r| ensures Precedes(r[p], r[q]) {
        assert r[q] == s[q - 1];
        if p == 0 {
          assert Precedes(s[0], s[q - 1]) || q == 1;
        } else {
          assert r[p] == s[p - 1];
        }
      }
    }
  }

  /** `Array.prototype.sort` with the comparator above. */
  function SortEntries(s: seq<Indexed>): (r: seq<Indexed>)
    ensures multiset(r) == multiset(s) && |r| == |s|
  {
    if s == [] then []
    else
      assert s == [s[0]] + s[1..];
      var t := SortEntries(s[1..]);
      assert |multiset(t)| == |t|;
      Insert(s[0], t)
  }

  /** The sorted roots follow the comparator; with distinct list indices, strictly. */
  lemma {:induction false} SortEntriesSorted(s: seq<Indexed>)
    ensures Sorted(SortEntries(s))
    ensures DistinctIndices(s) ==> StrictlySorted(SortEntries(s))
  {
    if s != [] {
      SortEntriesSorted(s[1..]);
      var t := SortEntries(s[1..]);
      InsertSorted(s[0], t);
      if DistinctIndices(s) {
        assert DistinctIndices(s[1..]);
        forall x | x in t ensures x.index != s[0].index {
          assert x in multiset(s[1..]);
          var q :| 0 <= q < |s[1..]| && s[1..][q] == x;
          assert s[q + 1] == x;
        }
        InsertStrict(s[0], t);
      }
    }
  }

  // ---------------------------------------------------------------- chaining

  /** One sequential edge between each pair of neighbours in `roots`. */
  function Chain(roots: seq<Indexed>): (r: seq<DerivedEdge>)
    ensures |r| == if roots == [] then 0 else |roots| - 1
  {
    if |roots| <= 1 then []
    else
      var n := |roots| - 1;
      Chain(roots[..n]) + [SeqEdge(roots[n - 1].node, roots[n].node)]
  }

  /** Edge `i` of a chain joins neighbours `i` and `i + 1`: no skips, no reversals. */
  lemma {:induction false} ChainAt(roots: seq<Indexed>, i: nat)
    requires i + 1 < |roots|
    ensures Chain(roots)[i] == SeqEdge(roots[i].node, roots[i + 1].node)
  {
    var n := |roots| - 1;
    if i + 1 < n {
      ChainAt(roots[..n], i);
    }
  }

  lemma {:induction false} ChainSequential(roots: seq<Indexed>)
    ensures forall e :: e in Chain(roots) ==> e.kind == Sequential
  {
    if |roots| > 1 {
      ChainSequential(roots[..|roots| - 1]);
    }
  }

  /** The roots of project `k`, sorted. */
  function BucketRoots(nodes: seq<EdgeSource>, parse: string -> Option<int>, k: string): seq<Indexed> {
    SortEntries(RootsOf(Bucket(nodes, parse, k)))
  }

  /** `k => BucketRoots(nodes, parse, k)`. */
  function RootsFn(nodes: seq<EdgeSource>, parse: string -> Option<int>): string -> seq<Indexed> {
    (k: string) => BucketRoots(nodes, parse, k)
  }

  /** The chains of the keys `ks`, one after another, with `rootsOf` giving
      each key's sorted roots. */
  function Chains(ks: seq<string>, rootsOf: string -> seq<Indexed>): seq<DerivedEdge> {
    if ks == [] then []
    else Chains(ks[..|ks| - 1], rootsOf) + Chain(rootsOf(ks[|ks| - 1]))
  }

  /** The sequential edges of all projects, in the order of `ks`. */
  function ChainKeys(nodes: seq<EdgeSource>, parse: string -> Option<int>, ks: seq<string>): seq<DerivedEdge> {
    Chains(ks, RootsFn(nodes, parse))
  }

  /** The specification of `deriveGraphEdges`. */
  function DerivedEdges(nodes: seq<EdgeSource>, parse: string -> Option<int>): seq<DerivedEdge> {
    ParentEdges(nodes) + ChainKeys(nodes, parse, Keys(nodes))
  }

  // ---------------------------------------------------------------- the method

  /** `deriveGraphEdges`, phase by phase as the source runs them. */
  method DeriveGraphEdges(nodes: seq<EdgeSource>, parse: string -> Option<int>) returns (edges: seq<DerivedEdge>)
    ensures edges == DerivedEdges(nodes, parse)
  {
    edges := CollectParentEdges(nodes);
    var grouped, order := GroupByProject(nodes, parse);
    edges := AppendChains(nodes, parse, edges, grouped, order);
  }

  /** The first `forEach`: one parent edge per node with a parent. */
  method CollectParentEdges(nodes: seq<EdgeSource>) returns (edges: seq<DerivedEdge>)
    ensures edges == ParentEdges(nodes)
  {
    edges := [];
    var i := 0;
    while i < |nodes|
      invariant i <= |nodes|
      invariant edges == ParentEdges(nodes[..i])
    {
      assert nodes[..i + 1][..i] == nodes[..i];
      if HasParent(nodes[i]) {
        edges := edges + [ParentEdge(nodes[i])];
      }
      i := i + 1;
    }
    assert nodes[..i] == nodes;
  }

  /** The second `forEach`: the `grouped` map and its key insertion order. */
  method GroupByProject(nodes: seq<EdgeSource>, parse: string -> Option<int>)
    returns (grouped: map<string, seq<Indexed>>, order: seq<string>)
    ensures order == Keys(nodes)
    ensures forall k :: k in grouped <==> k in order
    ensures forall k :: k in grouped ==> grouped[k] == Bucket(nodes, parse, k)
  {
    grouped := map[];
    order := [];
    var i := 0;
    while i < |nodes|
      invariant i <= |nodes|
      invariant order == Keys(nodes[..i])
      invariant forall k :: k in grouped <==> k in order
      invariant forall k :: k in grouped ==> grouped[k] == Bucket(nodes[..i], parse, k)
    {
      var key := ProjectKey(nodes[i]);
      var entry := Indexed(nodes[i], i, Timestamp(nodes[i], i, parse));
      assert nodes[..i + 1][..i] == nodes[..i];
      if key in grouped {
        grouped := grouped[key := grouped[key] + [entry]];
      } else {
        BucketOfAbsentKey(nodes[..i], parse, key);
        grouped := grouped[key := [entry]];
        order := order + [key];
      }
      i := i + 1;
    }
    assert nodes[..i] == nodes;
  }

  /** `grouped.forEach`: per project, sort the roots and chain neighbours. */
  method AppendChains(nodes: seq<EdgeSource>, parse: string -> Option<int>, prefix: seq<DerivedEdge>,
                      grouped: map<string, seq<Indexed>>, order: seq<string>)
    returns (edges: seq<DerivedEdge>)
    requires forall k :: k in order ==> k in grouped && grouped[k] == Bucket(nodes, parse, k)
    ensures edges == prefix + ChainKeys(nodes, parse, order)
  {
    edges := prefix;
    var j := 0;
    while j < |order|
      invariant j <= |order|
      invariant edges == prefix + ChainKeys(nodes, parse, order[..j])
    {
      assert order[..j + 1][..j] == order[..j];
      assert order[j] in order;
      var roots := SortEntries(RootsOf(grouped[order[j]]));
      assert roots == BucketRoots(nodes, parse, order[j]);
      Seqs.AppendAssoc(prefix, ChainKeys(nodes, parse, order[..j]), Chain(roots));
      edges := AppendChain(edges, roots);
      j := j + 1;
    }
    assert order[..j] == order;
  }

  /** The `for` loop over one project's sorted roots. */
  method AppendChain(prefix: seq<DerivedEdge>, roots: seq<Indexed>) returns (edges: seq<DerivedEdge>)
    ensures edges == prefix + Chain(roots)
  {
    edges := prefix;
    var m := 1;
    while m < |roots|
      invariant roots != [] ==> m <= |roots| && edges == prefix + Chain(roots[..m])
      invariant roots == [] ==> edges == prefix
    {
      assert roots[..m + 1][..m] == roots[..m];
      edges := edges + [SeqEdge(roots[m - 1].node, roots[m].node)];
      m := m + 1;
    }
    assert roots != [] ==> roots[..m] == roots;
  }

  lemma BucketOfAbsentKey(nodes: seq<EdgeSource>, parse: string -> Option<int>, k: string)
    requires k !in Keys(nodes)
    ensures Bucket(nodes, parse, k) == []
  {
    BucketFacts(nodes, parse, k);
  }

  // ---------------------------------------------------------------- properties

  /** `a` and `b` are roots of the same project, `a` sorts before `b`, and no
      root of that project sorts strictly between them. */
  predicate ConsecutiveRoots(nodes: seq<EdgeSource>, parse: string -> Option<int>, a: int, b: int) {
    0 <= a < |nodes| && 0 <= b < |nodes| && a != b
    && IsRoot(nodes[a]) && IsRoot(nodes[b]) && ProjectKey(nodes[a]) == ProjectKey(nodes[b])
    && Precedes(EntryAt(nodes, a, parse), EntryAt(nodes, b, parse))
    && forall c :: 0 <= c < |nodes| && IsRoot(nodes[c]) && ProjectKey(nodes[c]) == ProjectKey(nodes[a]) ==>
         !(Precedes(EntryAt(nodes, a, parse), EntryAt(nodes, c, parse))
           && Precedes(EntryAt(nodes, c, parse), EntryAt(nodes, b, parse)))
  }

  /** A project's sorted root list holds exactly the entries of its root
      nodes, strictly in comparator order. */
  lemma BucketRootsFacts(nodes: seq<EdgeSource>, parse: string -> Option<int>, k: string)
    ensures StrictlySorted(BucketRoots(nodes, parse, k))
    ensures forall x :: x in BucketRoots(nodes, parse, k) ==>
      x.index < |nodes| && x == EntryAt(nodes, x.index, parse) && ProjectKey(x.node) == k && IsRoot(x.node)
    ensures forall c :: 0 <= c < |nodes| && IsRoot(nodes[c]) && ProjectKey(nodes[c]) == k ==>
      EntryAt(nodes, c, parse) in BucketRoots(nodes, parse, k)
  {
    var b := Bucket(nodes, parse, k);
    var r := RootsOf(b);
    var s := SortEntries(r);
    BucketFacts(nodes, parse, k);
    RootsOfFacts(b);
    SortEntriesSorted(r);
    forall x | x in s ensures x in r {
      assert x in multiset(r);
    }
    forall c | 0 <= c < |nodes| && IsRoot(nodes[c]) && ProjectKey(nodes[c]) == k
      ensures EntryAt(nodes, c, parse) in s
    {
      assert EntryAt(nodes, c, parse) in multiset(s);
    }
  }

  /** Neighbours in a project's sorted root list are consecutive roots of that
      project, in sort order. */
  lemma BucketRootsNeighbours(nodes: seq<EdgeSource>, parse: string -> Option<int>, k: string, i: nat)
    requires i + 1 < |BucketRoots(nodes, parse, k)|
    ensures var s := BucketRoots(nodes, parse, k);
      s[i].index < |nodes| && s[i + 1].index < |nodes|
      && s[i].node == nodes[s[i].index] && s[i + 1].node == nodes[s[i + 1].index]
      && ConsecutiveRoots(nodes, parse, s[i].index, s[i + 1].index)
  {
    var s := BucketRoots(nodes, parse, k);
    BucketRootsFacts(nodes, parse, k);
    assert s[i] in s && s[i + 1] in s;
    var a, a' := s[i].index, s[i + 1].index;
    forall c | 0 <= c < |nodes| && IsRoot(nodes[c]) && ProjectKey(nodes[c]) == ProjectKey(nodes[a])
      ensures !(Precedes(EntryAt(nodes, a, parse), EntryAt(nodes, c, parse))
                && Precedes(EntryAt(nodes, c, parse), EntryAt(nodes, a', parse)))
    {
      NoneBetween(s, i, EntryAt(nodes, c, parse));
    }
  }

  /** Nothing in a strictly sorted list sorts strictly between two neighbours. */
  lemma NoneBetween(s: seq<Indexed>, i: nat, x: Indexed)
    requires StrictlySorted(s) && i + 1 < |s| && x in s
    ensures !(Precedes(s[i], x) && Precedes(x, s[i + 1]))
  {
    var p :| 0 <= p < |s| && s[p] == x;
    if p < i {
      assert Precedes(s[p], s[i]);
    } else if p > i + 1 {
      assert Precedes(s[i + 1], s[p]);
    }
  }

  /** Every edge of the chained part is the edge between two neighbours of
      some project's sorted root list. */
  lemma ChainKeysLocate(nodes: seq<EdgeSource>, parse: string -> Option<int>, ks: seq<string>, j: nat)
    returns (p: nat, i: nat)
    requires j < |ChainKeys(nodes, parse, ks)|
    ensures p < |ks| && i + 1 < |BucketRoots(nodes, parse, ks[p])|
    ensures var roots := BucketRoots(nodes, parse, ks[p]);
      ChainKeys(nodes, parse, ks)[j] == SeqEdge(roots[i].node, roots[i + 1].node)
  {
    var f := RootsFn(nodes, parse);
    p, i := ChainsLocate(ks, f, j);
    assert f(ks[p]) == BucketRoots(nodes, parse, ks[p]);
  }

  /** Edge `j` of a run of chains is the edge between neighbours `i` and
      `i + 1` of key `ks[p]`'s roots. */
  lemma {:induction false} ChainsLocate(ks: seq<string>, rootsOf: string -> seq<Indexed>, j: nat)
    returns (p: nat, i: nat)
    requires j < |Chains(ks, rootsOf)|
    ensures p < |ks| && i + 1 < |rootsOf(ks[p])|
    ensures Chains(ks, rootsOf)[j] == SeqEdge(rootsOf(ks[p])[i].node, rootsOf(ks[p])[i + 1].node)
  {
    var n := |ks| - 1;
    var front := Chains(ks[..n], rootsOf);
    var last := Chain(rootsOf(ks[n]));
    assert Chains(ks, rootsOf) == front + last;
    if j < |front| {
      p, i := ChainsLocate(ks[..n], rootsOf, j);
      assert ks[..n][p] == ks[p];
    } else {
      p, i := n, j - |front|;
      ChainAt(rootsOf(ks[n]), i);
    }
  }

  /** Chained edges are all sequential. */
  lemma {:induction false} ChainKeysSequential(nodes: seq<EdgeSource>, parse: string -> Option<int>, ks: seq<string>)
    ensures forall e :: e in ChainKeys(nodes, parse, ks) ==> e.kind == Sequential
  {
    if ks != [] {
      ChainKeysSequential(nodes, parse, ks[..|ks| - 1]);
      ChainSequential(BucketRoots(nodes, parse, ks[|ks| - 1]));
    }
  }

  /** Parent edges come first: an edge is a parent edge exactly when it sits
      before all sequential edges. */
  lemma EdgeKinds(nodes: seq<EdgeSource>, parse: string -> Option<int>, j: nat)
    requires j < |DerivedEdges(nodes, parse)|
    ensures DerivedEdges(nodes, parse)[j].kind == ParentKind <==> j < CountParents(nodes)
  {
    var pe := ParentEdges(nodes);
    var ce := ChainKeys(nodes, parse, Keys(nodes));
    var d := DerivedEdges(nodes, parse);
    assert d == pe + ce;
    if j < |pe| {
      assert d[j] == pe[j] && pe[j] in pe;
    } else {
      ChainKeysSequential(nodes, parse, Keys(nodes));
      assert d[j] == ce[j - |pe|] && ce[j - |pe|] in ce;
    }
  }

  /** A sequential edge joins two consecutive roots of one project, earlier to
      later: a child or standalone node never appears in one, projects are never
      joined, no root is skipped and no edge runs backwards. */
  lemma SequentialEdgeJoinsConsecutiveRoots(nodes: seq<EdgeSource>, parse: string -> Option<int>, j: nat)
    requires j < |DerivedEdges(nodes, parse)| && DerivedEdges(nodes, parse)[j].kind == Sequential
    ensures exists a, b :: ConsecutiveRoots(nodes, parse, a, b)
                           && DerivedEdges(nodes, parse)[j] == SeqEdge(nodes[a], nodes[b])
  {
    var pe := ParentEdges(nodes);
    var ce := ChainKeys(nodes, parse, Keys(nodes));
    EdgeKinds(nodes, parse, j);
    assert DerivedEdges(nodes, parse)[j] == ce[j - |pe|];
    var p, i := ChainKeysLocate(nodes, parse, Keys(nodes), j - |pe|);
    var k := Keys(nodes)[p];
    BucketRootsNeighbours(nodes, parse, k, i);
    var s := BucketRoots(nodes, parse, k);
    assert ConsecutiveRoots(nodes, parse, s[i].index, s[i + 1].index);
  }

  /** The number of roots of project `k`, counted straight from the node list. */
  function CountRoots(nodes: seq<EdgeSource>, k: string): nat {
    if nodes == [] then 0
    else
      var n := |nodes| - 1;
      CountRoots(nodes[..n], k) + (if IsRoot(nodes[n]) && ProjectKey(nodes[n]) == k then 1 else 0)
  }

  /** The sum over projects of (roots - 1), or 0 for a project without roots. */
  function ChainCount(nodes: seq<EdgeSource>, ks: seq<string>): nat {
    if ks == [] then 0
    else
      var c := CountRoots(nodes, ks[|ks| - 1]);
      ChainCount(nodes, ks[..|ks| - 1]) + (if c == 0 then 0 else c - 1)
  }

  lemma {:induction false} RootsOfSnoc(b: seq<Indexed>, x: Indexed)
    ensures RootsOf(b + [x]) == RootsOf(b) + (if IsRoot(x.node) then [x] else [])
  {
    assert (b + [x])[..|b|] == b;
  }

  lemma {:induction false} RootsCount(nodes: seq<EdgeSource>, parse: string -> Option<int>, k: string)
    ensures |RootsOf(Bucket(nodes, parse, k))| == CountRoots(nodes, k)
  {
    if nodes != [] {
      var n := |nodes| - 1;
      RootsCount(nodes[..n], parse, k);
      var b := Bucket(nodes[..n], parse, k);
      if ProjectKey(nodes[n]) == k {
        assert Bucket(nodes, parse, k) == b + [EntryAt(nodes, n, parse)];
        RootsOfSnoc(b, EntryAt(nodes, n, parse));
      } else {
        assert Bucket(nodes, parse, k) == b;
      }
    }
  }

  /** Edge count: one per node with a parent, plus (roots - 1) per project. */
  lemma {:induction false} EdgeCount(nodes: seq<EdgeSource>, parse: string -> Option<int>)
    ensures |DerivedEdges(nodes, parse)| == CountParents(nodes) + ChainCount(nodes, Keys(nodes))
  {
    ChainKeysCount(nodes, parse, Keys(nodes));
  }

  lemma {:induction false} ChainKeysCount(nodes: seq<EdgeSource>, parse: string -> Option<int>, ks: seq<string>)
    ensures |ChainKeys(nodes, parse, ks)| == ChainCount(nodes, ks)
  {
    if ks != [] {
      ChainKeysCount(nodes, parse, ks[..|ks| - 1]);
      RootsCount(nodes, parse, ks[|ks| - 1]);
    }
  }
}
