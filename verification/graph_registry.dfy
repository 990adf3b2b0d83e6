/** The graph registry shared by the nodes and edges of one canvas: a map
    from node id to the node's live cells, a version counter bumped on every
    change, and the set of subscribed listeners. Listeners are identified by
    number; `calls` counts how often each one has been notified. */
module GraphRegistry {
  import opened Wrappers
  import opened Seqs

  /** The live cells of one node (`SVs`): position and size, written by the
      node and read by the edges, and the node's pan handler reference. */
  class Cells {
    var x: real
    var y: real
    var w: real
    var h: real
    const panRef: Option<nat>

    constructor (x0: real, y0: real, w0: real, h0: real, pan: Option<nat>)
      ensures x == x0 && y == y0 && w == w0 && h == h0 && panRef == pan
    {
      x, y, w, h := x0, y0, w0, h0;
      panRef := pan;
    }
  }

  /** `order` with `id` taken out, the rest in order: `Map.delete` keeps the
      insertion order of the other keys, so this is the order-keeping filter. */
  function Without(order: seq<string>, id: string): (r: seq<string>)
    ensures r == Filter(order, (k: string) => k != id)
    ensures forall k :: k in r <==> k in order && k != id
    ensures id !in order ==> r == order
    ensures NoDuplicates(order) ==> NoDuplicates(r)
  {
    if order == [] then []
    else
      var rest := Without(order[..|order| - 1], id);
      var last := order[|order| - 1];
      assert forall k :: k in order <==> k in order[..|order| - 1] || k == last;
      assert NoDuplicates(order) ==> NoDuplicates(order[..|order| - 1]) && last !in order[..|order| - 1];
      if last == id then rest else rest + [last]
  }

  /** The notification counts after one `notify`: every current listener
      once more, nobody else. */
  function Notified(calls: map<nat, nat>, listeners: set<nat>): (r: map<nat, nat>)
    ensures r.Keys == calls.Keys
    ensures forall l :: l in calls && l in listeners ==> r[l] == calls[l] + 1
    ensures forall l :: l in calls && l !in listeners ==> r[l] == calls[l]
  {
    map l | l in calls :: if l in listeners then calls[l] + 1 else calls[l]
  }

  /** The registry context value of one `GraphProvider`. */
  class Registry {
    var entries: map<string, Cells>
    /** The ids in first-insertion order: the iteration order of a JavaScript `Map`. */
    var order: seq<string>
    var version: nat
    var listeners: set<nat>
    var calls: map<nat, nat>

    ghost predicate Valid()
      reads this
    {
      (forall k :: k in order <==> k in entries)
      && NoDuplicates(order)
      && listeners <= calls.Keys
    }

    constructor ()
      ensures Valid()
      ensures entries == map[] && order == [] && version == 0
      ensures listeners == {} && calls == map[]
    {
      entries, order, version := map[], [], 0;
      listeners, calls := {}, map[];
    }

    /** `get(id)`. */
    function Get(id: string): (r: Option<Cells>)
      reads this
      ensures r.Some? <==> id in entries
      ensures r.Some? ==> r.value == entries[id]
    {
      if id in entries then Some(entries[id]) else None
    }

    /** `getAll()`: the entries in first-insertion order. */
    function GetAll(): (r: seq<(string, Cells)>)
      reads this
      requires Valid()
      ensures |r| == |order|
      ensures forall i :: 0 <= i < |r| ==> r[i].0 == order[i] && r[i].0 in entries && r[i].1 == entries[r[i].0]
      ensures forall k :: k in entries <==> exists i :: 0 <= i < |r| && r[i].0 == k
    {
      var o, e := order, entries;
      seq(|o|, i requires 0 <= i < |o| && o[i] in e => (o[i], e[o[i]]))
    }

    /** `getSnapshot()`. */
    function GetSnapshot(): (v: nat)
      reads this
      ensures v == version
    {
      version
    }

    /** `notify()`: bump the version and call every listener once. */
    method Notify()
      modifies this
      requires Valid()
      ensures Valid()
      ensures version == old(version) + 1
      ensures calls == Notified(old(calls), listeners)
      ensures entries == old(entries) && order == old(order) && listeners == old(listeners)
    {
      version := version + 1;
      calls := Notified(calls, listeners);
    }

    /** `register(id, svs)`: add or overwrite, then notify. An overwritten id
        keeps its place in the iteration order. */
    method Register(id: string, svs: Cells)
      modifies this
      requires Valid()
      ensures Valid()
      ensures Get(id) == Some(svs)
      ensures forall k :: k != id ==> Get(k) == old(Get(k))
      ensures entries == old(entries)[id := svs]
      ensures order == if id in old(entries) then old(order) else old(order) + [id]
      ensures version == old(version) + 1
      ensures listeners == old(listeners) && calls == Notified(old(calls), old(listeners))
    {
      if id !in entries {
        order := order + [id];
      }
      entries := entries[id := svs];
      Notify();
    }

    /** `unregister(id)`: remove (if present), then notify regardless. */
    method Unregister(id: string)
      modifies this
      requires Valid()
      ensures Valid()
      ensures Get(id) == None
      ensures forall k :: k != id ==> Get(k) == old(Get(k))
      ensures entries == old(entries) - {id}
      ensures order == Without(old(order), id)
      ensures version == old(version) + 1
      ensures listeners == old(listeners) && calls == Notified(old(calls), old(listeners))
    {
      entries := entries - {id};
      order := Without(order, id);
      Notify();
    }

    /** `subscribe(cb)`: add the listener to the set. */
    method Subscribe(cb: nat)
      modifies this
      requires Valid()
      ensures Valid()
      ensures listeners == old(listeners) + {cb}
      ensures calls == if cb in old(calls) then old(calls) else old(calls)[cb := 0]
      ensures entries == old(entries) && order == old(order) && version == old(version)
    {
      listeners := listeners + {cb};
      if cb !in calls {
        calls := calls[cb := 0];
      }
    }

    /** The function `subscribe` returns: take the listener out of the set,
        so later notifications skip it. */
    method Unsubscribe(cb: nat)
      modifies this
      requires Valid()
      ensures Valid()
      ensures listeners == old(listeners) - {cb}
      ensures calls == old(calls)
      ensures entries == old(entries) && order == old(order) && version == old(version)
    {
      listeners := listeners - {cb};
    }
  }

  /** After an unsubscribe, a notification leaves that listener's count alone. */
  lemma UnsubscribedNotCalled(calls: map<nat, nat>, listeners: set<nat>, cb: nat)
    requires cb in calls
    ensures Notified(calls, listeners - {cb})[cb] == calls[cb]
    ensures cb in listeners ==> Notified(calls, listeners)[cb] == calls[cb] + 1
  {
  }

  /** `useGraphRegistry()`: the provider's registry, or the error thrown
      outside a provider. */
  function UseGraphRegistry(ctx: Option<Registry>): (r: Result<Registry, string>)
    ensures r.Err? <==> ctx.None?
    ensures r.Ok? ==> r.value == ctx.value
    ensures r.Err? ==> r.error == "useGraphRegistry must be used within <GraphProvider>"
  {
    match ctx
    case None => Err("useGraphRegistry must be used within <GraphProvider>")
    case Some(reg) => Ok(reg)
  }
}
