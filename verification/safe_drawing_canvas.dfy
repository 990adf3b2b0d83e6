/** The pan-responder drawing canvas: the touch points of the current
    gesture, the path through them, and the kept paths, handed to the
    optional `onDrawingChange` callback (recorded in `changes`) on each
    append. Paths are command lists; the two-decimal text rendering of the
    coordinates is not modelled. */
module SafeDrawingCanvas {
  import opened Geometry

  class Canvas {
    const hasOnDrawingChange: bool
    var paths: seq<seq<PathCmd>>
    var currentPath: seq<PathCmd>
    /** `pathRef.current`. */
    var points: seq<Point>
    var changes: seq<seq<seq<PathCmd>>>

    /** The current path is the polyline through the gesture's points. */
    predicate Valid()
      reads this
    {
      currentPath == Polyline(points)
    }

    constructor (initialPaths: seq<seq<PathCmd>>, withCallback: bool)
      ensures Valid()
      ensures paths == initialPaths && currentPath == [] && points == [] && changes == []
      ensures hasOnDrawingChange == withCallback
    {
      hasOnDrawingChange := withCallback;
      paths := initialPaths;
      currentPath := [];
      points := [];
      changes := [];
    }

    /** `onPanResponderGrant`: start over from the touch point. */
    method Grant(p: Point)
      modifies this
      ensures Valid() && points == [p] && currentPath == [MoveTo(p)]
      ensures paths == old(paths) && changes == old(changes)
    {
      points := [p];
      currentPath := [MoveTo(p)];
    }

    /** `onPanResponderMove`: push the point and rebuild the path. */
    method Move(p: Point)
      modifies this
      requires Valid()
      ensures Valid() && points == old(points) + [p]
      ensures old(points) != [] ==> currentPath == old(currentPath) + [LineTo(p)]
      ensures paths == old(paths) && changes == old(changes)
    {
      if points != [] {
        PolylineExtend(points, p);
      }
      points := points + [p];
      currentPath := Polyline(points);
    }

    /** `onPanResponderRelease`: keep a non-empty path of two or more
      points, then reset the gesture. */
    method Release()
      modifies this
      requires Valid()
      ensures Valid() && points == [] && currentPath == []
      ensures |old(points)| > 1 ==>
        paths == old(paths) + [old(currentPath)]
        && changes == old(changes) + (if hasOnDrawingChange then [paths] else [])
      ensures |old(points)| <= 1 ==> paths == old(paths) && changes == old(changes)
    {
      if currentPath != [] && |points| > 1 {
        var newPaths := paths + [currentPath];
        paths := newPaths;
        if hasOnDrawingChange {
          changes := changes + [newPaths];
        }
      }
      currentPath := [];
      points := [];
    }

    /** One gesture: grant, the moves, release. The kept paths only grow,
      by the polyline through the gesture when it moved at all. */
    method Gesture(start: Point, moves: seq<Point>)
      modifies this
      ensures Valid() && points == [] && currentPath == []
      ensures moves != [] ==> paths == old(paths) + [Polyline([start] + moves)]
      ensures moves != [] ==> changes == old(changes) + (if hasOnDrawingChange then [paths] else [])
      ensures moves == [] ==> paths == old(paths) && changes == old(changes)
    {
      Grant(start);
      assert [start] + moves[..0] == [start];
      var i := 0;
      while i < |moves|
        invariant 0 <= i <= |moves|
        invariant Valid() && points == [start] + moves[..i]
        invariant paths == old(paths) && changes == old(changes)
      {
        Move(moves[i]);
        assert [start] + moves[..i + 1] == [start] + moves[..i] + [moves[i]];
        i := i + 1;
      }
      assert moves[..|moves|] == moves;
      Release();
    }
  }
}
