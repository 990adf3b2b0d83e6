/** Small facts about sequences that several modules lean on, and the
    order-keeping `filter` of JavaScript arrays. */
module Seqs {
  lemma AppendAssoc<X>(a: seq<X>, b: seq<X>, c: seq<X>)
    ensures (a + b) + c == a + (b + c)
  {
  }

  /** `s.filter(keep)`: the elements that pass, in their original order. */
  function Filter<X(==)>(s: seq<X>, keep: X -> bool): (r: seq<X>)
    ensures |r| <= |s|
    ensures forall i :: 0 <= i < |r| ==> r[i] in s && keep(r[i])
    ensures forall i :: 0 <= i < |s| && keep(s[i]) ==> s[i] in r
  {
    if s == [] then []
    else
      var last := s[|s| - 1];
      var init := s[..|s| - 1];
      assert forall i :: 0 <= i < |s| - 1 ==> s[i] == init[i];
      Filter(init, keep) + (if keep(last) then [last] else [])
  }

  /** Filtering distributes over concatenation: the kept elements of the two
      halves stay in their halves, in order. */
  lemma {:induction false} FilterAppend<X>(a: seq<X>, b: seq<X>, keep: X -> bool)
    ensures Filter(a + b, keep) == Filter(a, keep) + Filter(b, keep)
  {
    if b != [] {
      var n := |b| - 1;
      assert (a + b)[..|a + b| - 1] == a + b[..n];
      assert (a + b)[|a + b| - 1] == b[n];
      FilterAppend(a, b[..n], keep);
    } else {
      assert a + b == a;
    }
  }

  /** A filter that every element passes keeps the whole sequence. */
  lemma {:induction false} FilterAll<X>(s: seq<X>, keep: X -> bool)
    requires forall i :: 0 <= i < |s| ==> keep(s[i])
    ensures Filter(s, keep) == s
  {
    if s != [] {
      FilterAll(s[..|s| - 1], keep);
      assert s[..|s| - 1] + [s[|s| - 1]] == s;
    }
  }

  /** The number of elements that pass. */
  function Count<X>(s: seq<X>, keep: X -> bool): (n: nat)
    ensures n <= |s|
  {
    if s == [] then 0
    else Count(s[..|s| - 1], keep) + (if keep(s[|s| - 1]) then 1 else 0)
  }

  lemma {:induction false} FilterCount<X>(s: seq<X>, keep: X -> bool)
    ensures |Filter(s, keep)| == Count(s, keep)
  {
    if s != [] {
      FilterCount(s[..|s| - 1], keep);
    }
  }

  /** `s.findIndex(p)`: the first index whose element matches, or -1. */
  function FindIndex<X>(s: seq<X>, p: X -> bool): (r: int)
    ensures -1 <= r < |s|
    ensures r == -1 <==> forall i :: 0 <= i < |s| ==> !p(s[i])
    ensures r >= 0 ==> p(s[r]) && forall j :: 0 <= j < r ==> !p(s[j])
  {
    if s == [] then -1
    else if p(s[0]) then 0
    else
      var r := FindIndex(s[1..], p);
      assert forall i :: 1 <= i < |s| ==> s[i] == s[1..][i - 1];
      if r == -1 then -1 else r + 1
  }

  /** `s[i] = f(s[i])` at the first matching index, when there is one. */
  function UpdateFirst<X>(s: seq<X>, p: X -> bool, f: X -> X): (r: seq<X>)
    ensures |r| == |s|
    ensures forall i :: 0 <= i < |s| ==> r[i] == if i == FindIndex(s, p) then f(s[i]) else s[i]
  {
    var k := FindIndex(s, p);
    if k == -1 then s else s[k := f(s[k])]
  }

  /** No element occurs twice. */
  predicate NoDuplicates<X(==)>(s: seq<X>) {
    forall i, j :: 0 <= i < j < |s| ==> s[i] != s[j]
  }

  /** Filtering a list without repeats leaves it without repeats. */
  lemma {:induction false} FilterNoDuplicates<X>(s: seq<X>, keep: X -> bool)
    requires NoDuplicates(s)
    ensures NoDuplicates(Filter(s, keep))
  {
    if s != [] {
      var n := |s| - 1;
      assert NoDuplicates(s[..n]);
      FilterNoDuplicates(s[..n], keep);
      var f := Filter(s[..n], keep);
      if keep(s[n]) {
        assert forall i :: 0 <= i < |f| ==> f[i] in s[..n];
        assert s[n] !in s[..n];
      }
    }
  }
}
