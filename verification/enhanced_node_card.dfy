/** The task card of the graph view: dragging is clamped to the canvas
    bounds, the released position is snapped to an 8-unit grid before it is
    reported, and images and documents picked from the device are appended
    to the node's attachments. The due-date label, flags and tag chips are
    the ones of the plain card. Spring animations are modelled by their
    target values; a picker's answer is a parameter. */
module EnhancedNodeCard {
  import opened Wrappers
  import opened Geometry
  import opened Strings
  import opened Entities
  import opened NodeEditor

  const Grid: real := 8.0
  const MinCoord: real := -50.0
  const MaxCoord: real := 1500.0
  const PressedScale: real := 1.05

  predicate OnGrid(v: real) {
    (v / Grid).Floor as real * Grid == v
  }

  /** `Math.round(v / 8) * 8`: the grid line nearest to `v`. */
  function Snap(v: real): (r: real)
    ensures OnGrid(r)
    ensures v - 4.0 < r <= v + 4.0
  {
    var n := Round(v / Grid);
    assert (n as real * Grid) / Grid == n as real;
    n as real * Grid
  }

  /** No grid line is nearer to `v` than the snapped value. */
  lemma SnapNearest(v: real, k: int)
    ensures Abs(v - Snap(v)) <= Abs(v - k as real * Grid)
  {
    var n := Round(v / Grid);
    assert Snap(v) == n as real * Grid;
    if k > n {
      assert k as real >= n as real + 1.0;
      assert k as real * Grid >= n as real * Grid + Grid;
    } else if k < n {
      assert k as real <= n as real - 1.0;
      assert k as real * Grid <= n as real * Grid - Grid;
    }
  }

  /** A value already on the grid stays where it is. */
  lemma SnapOnGrid(v: real)
    requires OnGrid(v)
    ensures Snap(v) == v
  {
    var k := (v / Grid).Floor;
    SnapNearest(v, k);
  }

  /** Snapping twice is snapping once. */
  lemma SnapIdempotent(v: real)
    ensures Snap(Snap(v)) == Snap(v)
  {
    SnapOnGrid(Snap(v));
  }

  /** `Math.max(-50, Math.min(1500, v))`. */
  function Clamp(v: real): (r: real)
    ensures MinCoord <= r <= MaxCoord
    ensures MinCoord <= v <= MaxCoord ==> r == v
  {
    Max(MinCoord, Min(MaxCoord, v))
  }

  /** A reported position lies on the grid and within four units of the
      clamped range: snapping can carry an edge value just past the bound
      (1500 becomes 1504, -50 becomes -48). */
  lemma CommittedBounds(v: real)
    requires MinCoord <= v <= MaxCoord
    ensures OnGrid(Snap(v)) && -48.0 <= Snap(v) <= 1504.0
  {
    var n := Round(v / Grid);
    assert Snap(v) == n as real * Grid;
    assert -6.25 <= v / Grid <= 187.5;
    assert -6 <= n <= 188;
  }

  lemma SnapUpperEdge()
    ensures Snap(MaxCoord) == 1504.0
  {
    assert MaxCoord / Grid == 187.5;
    assert Round(187.5) == 188;
  }

  /** The graph card's live state: translation, scale target, pressed flag,
      the drag's start, and the `onMove` calls made so far. */
  class EnhancedCardView {
    const graphMode: bool
    var tx: real
    var ty: real
    var scale: real
    var pressed: bool
    var startX: real
    var startY: real
    var moves: seq<Point>

    constructor (position: Point, isGraphMode: bool)
      ensures graphMode == isGraphMode && tx == position.x && ty == position.y
      ensures scale == 1.0 && !pressed && moves == []
    {
      graphMode := isGraphMode;
      tx, ty := position.x, position.y;
      scale := 1.0;
      pressed := false;
      startX, startY := position.x, position.y;
      moves := [];
    }

    /** `onBegin`: pressed, grow, and remember where the drag starts. */
    method Begin()
      modifies this
      ensures pressed && scale == PressedScale && startX == tx && startY == ty
      ensures tx == old(tx) && ty == old(ty) && moves == old(moves)
    {
      pressed := true;
      scale := PressedScale;
      startX, startY := tx, ty;
    }

    /** `onUpdate`: follow the finger from the start, kept within [-50, 1500]. */
    method Update(translationX: real, translationY: real)
      modifies this
      ensures tx == Clamp(startX + translationX) && ty == Clamp(startY + translationY)
      ensures MinCoord <= tx <= MaxCoord && MinCoord <= ty <= MaxCoord
      ensures startX == old(startX) && startY == old(startY) && moves == old(moves)
      ensures pressed == old(pressed) && scale == old(scale)
    {
      tx := Clamp(startX + translationX);
      ty := Clamp(startY + translationY);
    }

    /** `onEnd`: released, shrink back, and report the snapped position once. */
    method End()
      modifies this
      ensures !pressed && scale == 1.0
      ensures moves == old(moves) + [Point(Snap(tx), Snap(ty))]
      ensures tx == old(tx) && ty == old(ty)
    {
      pressed := false;
      scale := 1.0;
      moves := moves + [Point(Snap(tx), Snap(ty))];
    }

    /** One drag as the gesture delivers it. Outside the graph view the
      gesture is disabled and nothing happens; in it, `onMove` is called once,
      with the snapped, clamped position of the last update. */
    method Drag(updates: seq<(real, real)>)
      modifies this
      ensures !graphMode ==> tx == old(tx) && ty == old(ty) && moves == old(moves)
      ensures !graphMode ==> pressed == old(pressed) && scale == old(scale)
      ensures graphMode && updates != [] ==>
        var last := updates[|updates| - 1];
        tx == Clamp(old(tx) + last.0) && ty == Clamp(old(ty) + last.1)
        && MinCoord <= tx <= MaxCoord && MinCoord <= ty <= MaxCoord
        && moves == old(moves) + [Point(Snap(tx), Snap(ty))]
      ensures graphMode && updates == [] ==> moves == old(moves) + [Point(Snap(old(tx)), Snap(old(ty)))]
      ensures graphMode && updates == [] ==> tx == old(tx) && ty == old(ty)
      ensures graphMode ==> !pressed && scale == 1.0
    {
      if !graphMode {
        return;
      }
      Begin();
      var i := 0;
      while i < |updates|
        invariant 0 <= i <= |updates|
        invariant startX == old(tx) && startY == old(ty) && moves == old(moves)
        invariant i == 0 ==> tx == old(tx) && ty == old(ty)
        invariant i > 0 ==> tx == Clamp(startX + updates[i - 1].0) && ty == Clamp(startY + updates[i - 1].1)
      {
        Update(updates[i].0, updates[i].1);
        i := i + 1;
      }
      End();
    }
  }

  // ------------------------------------------------------------ attachments

  /** What a picker hands back: cancelled, or a list of picked files. */
  datatype PickerResult = Canceled | Picked(assets: seq<Asset>)

  datatype Asset = Asset(uri: string, name: string, fileSize: Option<int>, mimeType: Option<string>)

  /** The image attachment `handleAddImage` means to build: the picked
      file's address is its URL. */
  function ImageAttachment(asset: Asset, now: nat, nowIso: string): (a: Attachment)
    ensures a.kind == Image && a.url == Some(asset.uri) && a.size == asset.fileSize
    ensures a.id == NatToString(now) && a.name == "Image_" + NatToString(now) + ".jpg"
    ensures a.uploadedAt == nowIso && a.uploadedBy == CurrentUser
  {
    Attachment(NatToString(now), "Image_" + NatToString(now) + ".jpg", Image, Some(asset.uri),
               asset.fileSize, None, nowIso, CurrentUser)
  }

  /** The document attachment `handleAddDocument` means to build. */
  function DocumentAttachment(asset: Asset, now: nat, nowIso: string): (a: Attachment)
    ensures a.kind == Document && a.url == Some(asset.uri) && a.name == asset.name
    ensures a.size == asset.fileSize && a.mimeType == asset.mimeType
    ensures a.id == NatToString(now) && a.uploadedAt == nowIso && a.uploadedBy == CurrentUser
  {
    Attachment(NatToString(now), asset.name, Document, Some(asset.uri), asset.fileSize, asset.mimeType,
               nowIso, CurrentUser)
  }

  /** The records as the card writes them: the address goes under a `uri`
      key that an attachment does not have, so the stored `url` is missing. */
  function ImageAttachmentAsWritten(asset: Asset, now: nat, nowIso: string): (a: Attachment)
    ensures a == ImageAttachment(asset, now, nowIso).(url := None)
  {
    Attachment(NatToString(now), "Image_" + NatToString(now) + ".jpg", Image, None,
               asset.fileSize, None, nowIso, CurrentUser)
  }

  function DocumentAttachmentAsWritten(asset: Asset, now: nat, nowIso: string): (a: Attachment)
    ensures a == DocumentAttachment(asset, now, nowIso).(url := None)
  {
    Attachment(NatToString(now), asset.name, Document, None, asset.fileSize, asset.mimeType,
               nowIso, CurrentUser)
  }

  /** As written, a picked file can never be opened from the editor:
      opening finds no URL, whatever was picked. */
  lemma PickedFileNotOpenable(asset: Asset, now: nat, nowIso: string)
    ensures OpenTarget(ImageAttachmentAsWritten(asset, now, nowIso)).None?
    ensures OpenTarget(DocumentAttachmentAsWritten(asset, now, nowIso)).None?
  {
  }

  /** With the address stored as the URL, the editor opens exactly the picked file. */
  lemma PickedFileOpens(asset: Asset, now: nat, nowIso: string)
    requires asset.uri != []
    ensures OpenTarget(ImageAttachment(asset, now, nowIso)) == Some(asset.uri)
    ensures OpenTarget(DocumentAttachment(asset, now, nowIso)) == Some(asset.uri)
  {
  }

  /** `[...(node.attachments || []), a]`. */
  function Appended(existing: Option<seq<Attachment>>, a: Attachment): (r: seq<Attachment>)
    ensures |r| == |existing.GetOr([])| + 1
    ensures r[..|r| - 1] == existing.GetOr([]) && r[|r| - 1] == a
  {
    existing.GetOr([]) + [a]
  }

  /** `handleAddImage`: without permission an alert and no update; a
      cancelled or empty pick, no update; otherwise the `onUpdate` call with
      the attachments plus the new image. */
  function AddImage(granted: bool, picked: PickerResult, existing: Option<seq<Attachment>>,
                    now: nat, nowIso: string): (r: Result<Option<seq<Attachment>>, string>)
    ensures !granted ==> r == Err("Permission to access camera roll is required!")
    ensures granted && (picked.Canceled? || picked.assets == []) ==> r == Ok(None)
    ensures granted && picked.Picked? && picked.assets != [] ==>
      r == Ok(Some(Appended(existing, ImageAttachment(picked.assets[0], now, nowIso))))
  {
    if !granted then Err("Permission to access camera roll is required!")
    else match picked
      case Canceled => Ok(None)
      case Picked(assets) =>
        if assets == [] then Ok(None)
        else Ok(Some(Appended(existing, ImageAttachment(assets[0], now, nowIso))))
  }

  /** `handleAddDocument`: a cancelled pick, no update; a pick with no file
      fails on `assets[0]` and ends in the error alert; otherwise the `onUpdate`
      call with the attachments plus the new document. */
  function AddDocument(picked: PickerResult, existing: Option<seq<Attachment>>, now: nat, nowIso: string)
    : (r: Result<Option<seq<Attachment>>, string>)
    ensures picked.Canceled? ==> r == Ok(None)
    ensures picked.Picked? && picked.assets == [] ==> r == Err("Failed to pick document")
    ensures picked.Picked? && picked.assets != [] ==>
      r == Ok(Some(Appended(existing, DocumentAttachment(picked.assets[0], now, nowIso))))
  {
    match picked
    case Canceled => Ok(None)
    case Picked(assets) =>
      if assets == [] then Err("Failed to pick document")
      else Ok(Some(Appended(existing, DocumentAttachment(assets[0], now, nowIso))))
  }

  /** Adding a file keeps every attachment the node had, in order, and
      adds exactly one. */
  lemma AddKeepsExisting(granted: bool, picked: PickerResult, existing: Option<seq<Attachment>>,
                         now: nat, nowIso: string)
    ensures var r := AddImage(granted, picked, existing, now, nowIso);
      r.Ok? && r.value.Some? ==>
        |r.value.value| == |existing.GetOr([])| + 1
        && forall i :: 0 <= i < |existing.GetOr([])| ==> r.value.value[i] == existing.GetOr([])[i]
    ensures var r := AddDocument(picked, existing, now, nowIso);
      r.Ok? && r.value.Some? ==>
        |r.value.value| == |existing.GetOr([])| + 1
        && forall i :: 0 <= i < |existing.GetOr([])| ==> r.value.value[i] == existing.GetOr([])[i]
  {
  }
}
