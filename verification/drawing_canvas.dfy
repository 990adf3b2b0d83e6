/** The drawing modal: in pen mode a gesture draws a path that is kept with
    the current colour and stroke width under the id `path-N`; in eraser
    mode a touch removes every path passing within 20 px. Paths are command
    lists; the text form of the coordinates, and reading it back, are not
    modelled. `onSave` and `onClose` are recorded in `saved` and
    `closeCalls`. */
module DrawingCanvas {
  import opened Wrappers
  import opened Seqs
  import opened Strings
  import opened Geometry
  import opened Entities

  const Palette: seq<string> := ["#000000", "#FF3B30", "#007AFF", "#34C759", "#FF9500", "#AF52DE", "#8E8E93"]
  const StrokeWidths: seq<int> := [2, 4, 6, 8]
  /** The eraser's reach, in pixels. */
  const Tolerance: real := 20.0

  datatype PathData = PathData(id: string, path: seq<PathCmd>, color: string, strokeWidth: int)

  /** `path-N`. */
  function PathId(n: nat): (id: string)
    ensures IdNumber(id) == Some(n)
  {
    var id := "path-" + NatToString(n);
    NatToStringParses(n);
    assert id[..5] == "path-" && id[5..] == NatToString(n);
    id
  }

  /** The `N` of an id of the form `path-N`. */
  function IdNumber(id: string): Option<nat> {
    if |id| > 5 && id[..5] == "path-" && AllDigits(id[5..]) then Some(DigitsValue(id[5..])) else None
  }

  /** Two counter values never give the same id. */
  lemma PathIdInjective(a: nat, b: nat)
    ensures PathId(a) == PathId(b) ==> a == b
  {
  }

  function Ids(paths: seq<PathData>): (ids: seq<string>)
    ensures |ids| == |paths| && forall i :: 0 <= i < |paths| ==> ids[i] == paths[i].id
  {
    seq(|paths|, i requires 0 <= i < |paths| => paths[i].id)
  }

  function SqDist(p: Point, q: Point): real {
    (p.x - q.x) * (p.x - q.x) + (p.y - q.y) * (p.y - q.y)
  }

  /** `isPointNearPath`: some point of the path lies closer than 20 px
      (compared on squared distances). */
  predicate NearPath(touch: Point, path: seq<PathCmd>) {
    exists i | 0 <= i < |path| :: SqDist(touch, path[i].to) < Tolerance * Tolerance
  }

  /** The eraser's filter. */
  function Erased(paths: seq<PathData>, touch: Point): (r: seq<PathData>)
    ensures forall i :: 0 <= i < |r| ==> r[i] in paths && !NearPath(touch, r[i].path)
    ensures forall i :: 0 <= i < |paths| && !NearPath(touch, paths[i].path) ==> paths[i] in r
  {
    Filter(paths, (pd: PathData) => !NearPath(touch, pd.path))
  }

  /** Every `path-N` id on the canvas has `N` below `n`. */
  predicate IdsBelow(paths: seq<PathData>, n: nat) {
    forall i :: 0 <= i < |paths| && IdNumber(paths[i].id).Some? ==> IdNumber(paths[i].id).value < n
  }

  /** The counter value just past every `path-N` id of the paths. */
  function NextAfter(paths: seq<PathData>): (n: nat)
    ensures IdsBelow(paths, n)
  {
    if paths == [] then 0
    else
      var n := NextAfter(paths[..|paths| - 1]);
      var last := IdNumber(paths[|paths| - 1].id);
      assert forall i :: 0 <= i < |paths| - 1 ==> paths[i] == paths[..|paths| - 1][i];
      if last.Some? && last.value >= n then last.value + 1 else n
  }

  /** The pen stroke's end: the path kept under the counter's id. */
  function Kept(paths: seq<PathData>, counter: nat, path: seq<PathCmd>, color: string, width: int): seq<PathData> {
    paths + [PathData(PathId(counter), path, color, width)]
  }

  /** With every id below the counter, a kept stroke's id is new, and the
      ids stay below the advanced counter and free of repeats. */
  lemma KeptIdIsFresh(paths: seq<PathData>, counter: nat, path: seq<PathCmd>, color: string, width: int)
    requires IdsBelow(paths, counter)
    ensures PathId(counter) !in Ids(paths)
    ensures IdsBelow(Kept(paths, counter, path, color, width), counter + 1)
    ensures NoDuplicates(Ids(paths)) ==> NoDuplicates(Ids(Kept(paths, counter, path, color, width)))
  {
    var ids := Ids(paths);
    var after := Ids(Kept(paths, counter, path, color, width));
    assert after == ids + [PathId(counter)];
  }

  /** The load effect as written: the parsed paths replace the canvas and
      the counter is left where it was. */
  function LoadAsWritten(counter: nat, loaded: seq<PathData>): (r: (seq<PathData>, nat))
    ensures r.0 == loaded && r.1 == counter
  {
    (loaded, counter)
  }

  /** A drawing saved by an earlier canvas holds `path-0`; a fresh canvas
      (counter 0) that loads it and keeps one stroke holds `path-0` twice. */
  lemma ReloadRepeatsId()
    ensures var loaded := [PathData(PathId(0), [MoveTo(Point(0.0, 0.0))], "#000000", 2)];
      var (paths, counter) := LoadAsWritten(0, loaded);
      var after := Kept(paths, counter, [MoveTo(Point(5.0, 5.0))], "#000000", 2);
      !NoDuplicates(Ids(after)) && after[0].id == after[1].id
  {
    var loaded := [PathData(PathId(0), [MoveTo(Point(0.0, 0.0))], "#000000", 2)];
    var after := Kept(loaded, 0, [MoveTo(Point(5.0, 5.0))], "#000000", 2);
    assert Ids(after)[0] == Ids(after)[1];
  }

  /** The corrected load: the counter also moves past every loaded id. */
  function Load(counter: nat, loaded: seq<PathData>): (r: (seq<PathData>, nat))
    ensures r.0 == loaded && r.1 >= counter
    ensures IdsBelow(r.0, r.1)
  {
    var n := NextAfter(loaded);
    (loaded, if n > counter then n else counter)
  }

  lemma IdsBelowMonotone(paths: seq<PathData>, n: nat, m: nat)
    requires IdsBelow(paths, n) && n <= m
    ensures IdsBelow(paths, m)
  {
  }

  class Canvas {
    var paths: seq<PathData>
    var currentPath: seq<PathCmd>
    var currentColor: string
    var currentStrokeWidth: int
    var isErasing: bool
    /** `pathIdRef.current`. */
    var nextId: nat
    var saved: seq<seq<PathData>>
    var closeCalls: nat

    /** Every `path-N` on the canvas was numbered before the counter. */
    predicate Valid()
      reads this
    {
      IdsBelow(paths, nextId)
    }

    constructor ()
      ensures Valid()
      ensures paths == [] && currentPath == [] && currentColor == Palette[0] && currentStrokeWidth == StrokeWidths[0]
      ensures !isErasing && nextId == 0 && saved == [] && closeCalls == 0
    {
      paths, currentPath := [], [];
      currentColor, currentStrokeWidth := Palette[0], StrokeWidths[0];
      isErasing, nextId := false, 0;
      saved, closeCalls := [], 0;
    }

    /** The load effect, with `parse` for `JSON.parse` (`None` when it
      throws). It runs only for a non-empty drawing while visible; a failed
      parse changes nothing. */
    method LoadInitial(initialDrawing: Option<string>, visible: bool, parse: string -> Option<seq<PathData>>)
      modifies this
      requires Valid()
      ensures Valid()
      ensures TruthyText(initialDrawing) && visible && parse(initialDrawing.value).Some? ==>
        (paths, nextId) == Load(old(nextId), parse(initialDrawing.value).value)
      ensures !(TruthyText(initialDrawing) && visible && parse(initialDrawing.value).Some?) ==>
        paths == old(paths) && nextId == old(nextId)
      ensures currentPath == old(currentPath) && isErasing == old(isErasing)
      ensures currentColor == old(currentColor) && currentStrokeWidth == old(currentStrokeWidth)
      ensures saved == old(saved) && closeCalls == old(closeCalls)
    {
      if TruthyText(initialDrawing) && visible {
        var loaded := parse(initialDrawing.value);
        if loaded.Some? {
          var r := Load(nextId, loaded.value);
          paths, nextId := r.0, r.1;
        }
      }
    }

    method SetErasing(on: bool)
      modifies this
      ensures isErasing == on && paths == old(paths) && currentPath == old(currentPath) && nextId == old(nextId)
      ensures currentColor == old(currentColor) && currentStrokeWidth == old(currentStrokeWidth)
      ensures saved == old(saved) && closeCalls == old(closeCalls)
    {
      isErasing := on;
    }

    method SetColor(color: string)
      modifies this
      ensures currentColor == color && paths == old(paths) && currentPath == old(currentPath)
      ensures isErasing == old(isErasing) && nextId == old(nextId) && currentStrokeWidth == old(currentStrokeWidth)
      ensures saved == old(saved) && closeCalls == old(closeCalls)
    {
      currentColor := color;
    }

    method SetStrokeWidth(width: int)
      modifies this
      ensures currentStrokeWidth == width && paths == old(paths) && currentPath == old(currentPath)
      ensures isErasing == old(isErasing) && nextId == old(nextId) && currentColor == old(currentColor)
      ensures saved == old(saved) && closeCalls == old(closeCalls)
    {
      currentStrokeWidth := width;
    }

    /** `onBegin`: the eraser removes the paths near the touch and adds none;
      the pen starts a new path at the touch. */
    method Begin(touch: Point)
      modifies this
      requires Valid()
      ensures Valid()
      ensures isErasing ==> paths == Erased(old(paths), touch) && currentPath == old(currentPath)
      ensures !isErasing ==> currentPath == [MoveTo(touch)] && paths == old(paths)
      ensures |paths| <= |old(paths)| && nextId == old(nextId) && isErasing == old(isErasing)
      ensures currentColor == old(currentColor) && currentStrokeWidth == old(currentStrokeWidth)
      ensures saved == old(saved) && closeCalls == old(closeCalls)
    {
      if isErasing {
        paths := Erased(paths, touch);
      } else {
        currentPath := [MoveTo(touch)];
      }
    }

    /** `onUpdate`: the pen draws a line to the touch. */
    method Update(touch: Point)
      modifies this
      ensures !isErasing ==> currentPath == old(currentPath) + [LineTo(touch)]
      ensures isErasing ==> currentPath == old(currentPath)
      ensures paths == old(paths) && nextId == old(nextId) && isErasing == old(isErasing)
      ensures currentColor == old(currentColor) && currentStrokeWidth == old(currentStrokeWidth)
      ensures saved == old(saved) && closeCalls == old(closeCalls)
    {
      if !isErasing {
        currentPath := currentPath + [LineTo(touch)];
      }
    }

    /** `onEnd`: the pen keeps a non-empty path under a new id and advances
      the counter. */
    method End()
      modifies this
      requires Valid()
      ensures Valid()
      ensures !isErasing && old(currentPath) != [] ==>
        paths == Kept(old(paths), old(nextId), old(currentPath), old(currentColor), old(currentStrokeWidth))
        && PathId(old(nextId)) !in Ids(old(paths))
        && nextId == old(nextId) + 1 && currentPath == []
      ensures !(!isErasing && old(currentPath) != []) ==>
        paths == old(paths) && nextId == old(nextId) && currentPath == old(currentPath)
      ensures NoDuplicates(Ids(old(paths))) ==> NoDuplicates(Ids(paths))
      ensures isErasing == old(isErasing)
      ensures currentColor == old(currentColor) && currentStrokeWidth == old(currentStrokeWidth)
      ensures saved == old(saved) && closeCalls == old(closeCalls)
    {
      if !isErasing && currentPath != [] {
        KeptIdIsFresh(paths, nextId, currentPath, currentColor, currentStrokeWidth);
        paths := Kept(paths, nextId, currentPath, currentColor, currentStrokeWidth);
        nextId := nextId + 1;
        currentPath := [];
      }
    }

    /** `clearCanvas`. */
    method Clear()
      modifies this
      ensures Valid()
      ensures paths == [] && currentPath == [] && nextId == old(nextId) && isErasing == old(isErasing)
      ensures currentColor == old(currentColor) && currentStrokeWidth == old(currentStrokeWidth)
      ensures saved == old(saved) && closeCalls == old(closeCalls)
    {
      paths, currentPath := [], [];
    }

    /** `handleSave`: hand over the paths, then close. */
    method Save()
      modifies this
      ensures saved == old(saved) + [paths] && closeCalls == old(closeCalls) + 1
      ensures paths == old(paths) && currentPath == old(currentPath) && nextId == old(nextId)
      ensures isErasing == old(isErasing)
      ensures currentColor == old(currentColor) && currentStrokeWidth == old(currentStrokeWidth)
    {
      saved := saved + [paths];
      closeCalls := closeCalls + 1;
    }

    /** `handleClose`: clear, back to the pen, then close. */
    method Close()
      modifies this
      ensures Valid()
      ensures paths == [] && currentPath == [] && !isErasing && nextId == old(nextId)
      ensures closeCalls == old(closeCalls) + 1 && saved == old(saved)
      ensures currentColor == old(currentColor) && currentStrokeWidth == old(currentStrokeWidth)
    {
      paths, currentPath := [], [];
      isErasing := false;
      closeCalls := closeCalls + 1;
    }

    /** One pen gesture: begin, the updates, end. A single kept path, the
      polyline through the touches, under a new id. */
    method Draw(start: Point, moves: seq<Point>)
      modifies this
      requires Valid() && !isErasing
      ensures Valid()
      ensures paths == Kept(old(paths), old(nextId), Polyline([start] + moves), old(currentColor), old(currentStrokeWidth))
      ensures PathId(old(nextId)) !in Ids(old(paths)) && nextId == old(nextId) + 1
      ensures currentPath == [] && !isErasing
      ensures currentColor == old(currentColor) && currentStrokeWidth == old(currentStrokeWidth)
      ensures saved == old(saved) && closeCalls == old(closeCalls)
    {
      Begin(start);
      assert [start] + moves[..0] == [start];
      var i := 0;
      while i < |moves|
        invariant 0 <= i <= |moves|
        invariant Valid() && !isErasing
        invariant currentPath == Polyline([start] + moves[..i])
        invariant paths == old(paths) && nextId == old(nextId)
        invariant currentColor == old(currentColor) && currentStrokeWidth == old(currentStrokeWidth)
        invariant saved == old(saved) && closeCalls == old(closeCalls)
      {
        PolylineExtend([start] + moves[..i], moves[i]);
        Update(moves[i]);
        assert [start] + moves[..i + 1] == [start] + moves[..i] + [moves[i]];
        i := i + 1;
      }
      assert moves[..|moves|] == moves;
      End();
    }
  }
}
