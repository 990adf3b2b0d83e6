/** One node on the graph canvas: it owns the live cells it registers under
    its id, settles its size from layout measurements, and moves with the pan
    gesture, committing the final position once when the drag ends.
    Spring animations are modelled by their target values. */
module GraphNode {
  import opened Wrappers
  import opened Entities
  import opened Geometry
  import opened GraphRegistry

  const InitialWidth: real := 200.0
  const InitialHeight: real := 120.0
  const SizeThreshold: real := 0.5
  const DragScale: real := 1.05

  /** `meta?.nodeType === 'task' ? 'Task' : 'Process'`. */
  function NodeTypeLabel(meta: Option<Meta>): (name: string)
    ensures name == "Task" <==> meta.Some? && "nodeType" in meta.value && meta.value["nodeType"] == MetaText("task")
    ensures name == "Task" || name == "Process"
  {
    if meta.Some? && "nodeType" in meta.value && meta.value["nodeType"] == MetaText("task") then "Task" else "Process"
  }

  /** The size kept after a measurement: the measured value only when it
      differs from the current one by more than 0.5. */
  function Settle(current: real, measured: real): (r: real)
    ensures Abs(current - measured) > SizeThreshold ==> r == measured
    ensures Abs(current - measured) <= SizeThreshold ==> r == current
    ensures Abs(r - measured) <= SizeThreshold
  {
    if Abs(current - measured) > SizeThreshold then measured else current
  }

  /** Settling twice on the same measurement changes nothing more. */
  lemma SettleStable(current: real, measured: real)
    ensures Settle(Settle(current, measured), measured) == Settle(current, measured)
  {
  }

  class NodeView {
    const id: string
    const cells: Cells
    /** Whether an `onCommit` callback was passed. */
    const hasCommit: bool
    /** The target of the `scale` spring. */
    var scale: real
    /** The gesture context: the position when the drag started. */
    var startX: real
    var startY: real
    /** The `onCommit(id, x, y)` calls made so far, in order. */
    var commits: seq<(string, real, real)>

    /** The component's first render: cells at the initial position with the default size. */
    constructor (nodeId: string, initialX: real, initialY: real, panRef: Option<nat>, withCommit: bool)
      ensures id == nodeId && hasCommit == withCommit && fresh(cells)
      ensures cells.x == initialX && cells.y == initialY
      ensures cells.w == InitialWidth && cells.h == InitialHeight && cells.panRef == panRef
      ensures scale == 1.0 && commits == []
    {
      id := nodeId;
      hasCommit := withCommit;
      cells := new Cells(initialX, initialY, InitialWidth, InitialHeight, panRef);
      scale := 1.0;
      startX, startY := initialX, initialY;
      commits := [];
    }

    /** The registration effect: `register(id, {x, y, w, h, panRef})`. */
    method Mount(reg: Registry)
      modifies reg
      requires reg.Valid()
      ensures reg.Valid()
      ensures reg.Get(id) == Some(cells)
      ensures forall k :: k != id ==> reg.Get(k) == old(reg.Get(k))
      ensures reg.order == if id in old(reg.entries) then old(reg.order) else old(reg.order) + [id]
      ensures reg.version == old(reg.version) + 1
      ensures reg.listeners == old(reg.listeners) && reg.calls == Notified(old(reg.calls), old(reg.listeners))
    {
      reg.Register(id, cells);
    }

    /** The effect's cleanup, on unmount or before re-registering under a new id. */
    method Unmount(reg: Registry)
      modifies reg
      requires reg.Valid()
      ensures reg.Valid()
      ensures reg.Get(id) == None
      ensures forall k :: k != id ==> reg.Get(k) == old(reg.Get(k))
      ensures reg.order == Without(old(reg.order), id)
      ensures reg.version == old(reg.version) + 1
      ensures reg.listeners == old(reg.listeners) && reg.calls == Notified(old(reg.calls), old(reg.listeners))
    {
      reg.Unregister(id);
    }

    /** The effect on `initialX`/`initialY`: move the cells there. */
    method ResetPosition(initialX: real, initialY: real)
      modifies cells
      ensures cells.x == initialX && cells.y == initialY
      ensures cells.w == old(cells.w) && cells.h == old(cells.h)
    {
      cells.x := initialX;
      cells.y := initialY;
    }

    /** `onLayout`: settle both dimensions on the laid-out size. */
    method OnLayout(width: real, height: real)
      modifies cells
      ensures cells.w == Settle(old(cells.w), width) && cells.h == Settle(old(cells.h), height)
      ensures cells.x == old(cells.x) && cells.y == old(cells.y)
    {
      if Abs(cells.w - width) > SizeThreshold {
        cells.w := width;
      }
      if Abs(cells.h - height) > SizeThreshold {
        cells.h := height;
      }
    }

    /** The `measureInWindow` callback: a zero width or height is ignored. */
    method OnWindowMeasure(width: real, height: real)
      modifies cells
      ensures width == 0.0 || height == 0.0 ==> cells.w == old(cells.w) && cells.h == old(cells.h)
      ensures width != 0.0 && height != 0.0 ==>
        cells.w == Settle(old(cells.w), width) && cells.h == Settle(old(cells.h), height)
      ensures cells.x == old(cells.x) && cells.y == old(cells.y)
    {
      if width == 0.0 || height == 0.0 {
        return;
      }
      OnLayout(width, height);
    }

    /** `onStart`: remember where the drag started and grow. */
    method OnStart()
      modifies this
      ensures startX == cells.x && startY == cells.y
      ensures scale == DragScale && commits == old(commits)
    {
      startX := cells.x;
      startY := cells.y;
      scale := DragScale;
    }

    /** `onActive`: follow the finger from the start position; never commits. */
    method OnActive(translationX: real, translationY: real)
      modifies cells
      ensures cells.x == startX + translationX && cells.y == startY + translationY
      ensures cells.w == old(cells.w) && cells.h == old(cells.h)
    {
      cells.x := startX + translationX;
      cells.y := startY + translationY;
    }

    /** `onEnd`: shrink back and commit the current position once, when a
        callback exists. */
    method OnEnd()
      modifies this
      ensures scale == 1.0
      ensures commits == old(commits) + (if hasCommit then [(id, cells.x, cells.y)] else [])
      ensures startX == old(startX) && startY == old(startY)
    {
      scale := 1.0;
      if hasCommit {
        commits := commits + [(id, cells.x, cells.y)];
      }
    }

    /** `onFinish`: shrink back. */
    method OnFinish()
      modifies this
      ensures scale == 1.0 && commits == old(commits)
    {
      scale := 1.0;
    }

    /** One drag as the gesture framework delivers it: start, the active
        events in order, end and finish. It commits exactly once (when a
        callback exists), at the start position plus the last translation. */
    method Drag(moves: seq<(real, real)>)
      modifies this, cells
      ensures scale == 1.0
      ensures moves != [] ==>
        cells.x == old(cells.x) + moves[|moves| - 1].0 && cells.y == old(cells.y) + moves[|moves| - 1].1
      ensures moves == [] ==> cells.x == old(cells.x) && cells.y == old(cells.y)
      ensures cells.w == old(cells.w) && cells.h == old(cells.h)
      ensures commits == old(commits) + (if hasCommit then [(id, cells.x, cells.y)] else [])
    {
      OnStart();
      var i := 0;
      while i < |moves|
        invariant 0 <= i <= |moves|
        invariant startX == old(cells.x) && startY == old(cells.y)
        invariant commits == old(commits)
        invariant cells.w == old(cells.w) && cells.h == old(cells.h)
        invariant i == 0 ==> cells.x == old(cells.x) && cells.y == old(cells.y)
        invariant i > 0 ==> cells.x == startX + moves[i - 1].0 && cells.y == startY + moves[i - 1].1
      {
        OnActive(moves[i].0, moves[i].1);
        i := i + 1;
      }
      OnEnd();
      OnFinish();
    }
  }
}
