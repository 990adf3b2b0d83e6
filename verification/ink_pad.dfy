/** The ink pad: a finger stroke is collected point by point and kept when
    it has more than one point; strokes can be undone one at a time or
    cleared. Each kept, undone or cleared stroke list is handed to the
    optional `onChange` callback, recorded here in `changes`. */
module InkPad {
  import opened Wrappers
  import opened Geometry

  class Pad {
    /** Whether an `onChange` callback was passed. */
    const hasOnChange: bool
    var strokes: seq<seq<Point>>
    var activeStroke: Option<seq<Point>>
    /** The stroke lists passed to `onChange`, in order. */
    var changes: seq<seq<seq<Point>>>

    /** The first render, with the initial strokes and no active stroke. */
    constructor (initialStrokes: seq<seq<Point>>, withOnChange: bool)
      ensures strokes == initialStrokes && activeStroke == None && changes == []
      ensures hasOnChange == withOnChange
    {
      hasOnChange := withOnChange;
      strokes := initialStrokes;
      activeStroke := None;
      changes := [];
    }

    /** `handleGestureBegan`: a new stroke of the single touch point. */
    method Began(p: Point)
      modifies this
      ensures activeStroke == Some([p])
      ensures strokes == old(strokes) && changes == old(changes)
    {
      activeStroke := Some([p]);
    }

    /** `handleGestureEvent`: extend the active stroke, if any. */
    method Move(p: Point)
      modifies this
      ensures old(activeStroke).Some? ==> activeStroke == Some(old(activeStroke).value + [p])
      ensures old(activeStroke).None? ==> activeStroke == None
      ensures strokes == old(strokes) && changes == old(changes)
    {
      if activeStroke.Some? {
        activeStroke := Some(activeStroke.value + [p]);
      }
    }

    /** `handleGestureEnded`: keep a stroke of two or more points; the active
      stroke is dropped either way. */
    method Ended()
      modifies this
      ensures activeStroke == None
      ensures old(activeStroke).Some? && |old(activeStroke).value| > 1 ==>
        strokes == old(strokes) + [old(activeStroke).value] && changes == old(changes) + (if hasOnChange then [strokes] else [])
      ensures !(old(activeStroke).Some? && |old(activeStroke).value| > 1) ==>
        strokes == old(strokes) && changes == old(changes)
    {
      if activeStroke.Some? && |activeStroke.value| > 1 {
        var newStrokes := strokes + [activeStroke.value];
        strokes := newStrokes;
        changes := if hasOnChange then changes + [newStrokes] else changes;
      }
      activeStroke := None;
    }

    /** `clearAll`: no strokes, no active stroke, and `onChange([])`. */
    method ClearAll()
      modifies this
      ensures strokes == [] && activeStroke == None
      ensures changes == old(changes) + (if hasOnChange then [[]] else [])
    {
      strokes := [];
      activeStroke := None;
      changes := if hasOnChange then changes + [[]] else changes;
    }

    /** `undo`: drop the last stroke; nothing happens without strokes. */
    method Undo()
      modifies this
      ensures old(strokes) == [] ==> strokes == [] && changes == old(changes)
      ensures old(strokes) != [] ==>
        old(strokes) == strokes + [old(strokes)[|old(strokes)| - 1]]
        && changes == old(changes) + (if hasOnChange then [strokes] else [])
      ensures activeStroke == old(activeStroke)
    {
      if |strokes| > 0 {
        var newStrokes := strokes[..|strokes| - 1];
        strokes := newStrokes;
        changes := if hasOnChange then changes + [newStrokes] else changes;
      }
    }

    /** A whole stroke: began, the moves in order, ended. The pad keeps it
      exactly when it has a move, as the touch point followed by the moves. */
    method Stroke(start: Point, moves: seq<Point>)
      modifies this
      ensures activeStroke == None
      ensures moves != [] ==> strokes == old(strokes) + [[start] + moves]
      ensures moves != [] ==> changes == old(changes) + (if hasOnChange then [strokes] else [])
      ensures moves == [] ==> strokes == old(strokes) && changes == old(changes)
    {
      Began(start);
      assert [start] + moves[..0] == [start];
      var i := 0;
      while i < |moves|
        invariant 0 <= i <= |moves|
        invariant activeStroke == Some([start] + moves[..i])
        invariant strokes == old(strokes) && changes == old(changes)
      {
        Move(moves[i]);
        assert [start] + moves[..i + 1] == [start] + moves[..i] + [moves[i]];
        i := i + 1;
      }
      assert moves[..|moves|] == moves;
      Ended();
    }

    /** Keeping the active stroke and then undoing gives back the strokes
      from before it; `onChange` sees the longer list, then the old one. */
    method UndoAfterKeep()
      modifies this
      requires activeStroke.Some? && |activeStroke.value| > 1
      ensures strokes == old(strokes) && activeStroke == None
      ensures changes == old(changes) + (if hasOnChange then [old(strokes) + [old(activeStroke).value], old(strokes)] else [])
    {
      Ended();
      ghost var kept := strokes;
      Undo();
      assert strokes == kept[..|kept| - 1];
      assert kept[..|kept| - 1] == old(strokes);
    }
  }

  /** `strokeToPath`: nothing for fewer than two points, otherwise the
      polyline through them. */
  function StrokeToPath(points: seq<Point>): (cmds: seq<PathCmd>)
    ensures |points| < 2 <==> cmds == []
    ensures |points| >= 2 ==> cmds == Polyline(points)
  {
    if |points| < 2 then [] else Polyline(points)
  }
}
