/** The task card of the cards view, and the card rules both task cards
    share: the due-date label, the overdue and due-soon flags and the tag
    chips. The card follows the finger from the node's position and reports
    the position once when the drag ends. `new Date()` is the parameter `now`
    (milliseconds), `new Date(s)` is `parse` (`None` for an invalid date) and
    `toLocaleDateString` is `localeDate`. */
module NodeCard {
  import opened Wrappers
  import opened Geometry
  import opened Strings
  import opened Entities

  /** Milliseconds in a day. */
  const Day: int := 1000 * 60 * 60 * 24
  const PressedScale: real := 1.05
  const MaxTagChips: nat := 3

  /** `Math.ceil(diff / day)` on a whole number of milliseconds. */
  function DaysUntil(diff: int): (d: int)
    ensures (d - 1) * Day < diff <= d * Day
  {
    -((-diff) / Day)
  }

  /** `formatDueDate`: the label for a due date, by whole days ahead of now
      rounded up. An invalid date fails every comparison and falls through
      to the locale text. */
  function FormatDueDate(dateString: string, now: int, parse: string -> Option<int>,
                         localeDate: Option<int> -> string): (text: string)
    ensures parse(dateString).None? ==> text == localeDate(None)
    ensures parse(dateString).Some? ==>
      var diff := parse(dateString).value - now;
      (diff <= -Day ==> text == "Overdue")
      && (-Day < diff <= 0 ==> text == "Today")
      && (0 < diff <= Day ==> text == "Tomorrow")
      && (Day < diff <= 7 * Day ==> text == NatToString(DaysUntil(diff) as nat) + "d" && 2 <= DaysUntil(diff) <= 7)
      && (7 * Day < diff ==> text == localeDate(parse(dateString)))
  {
    match parse(dateString)
    case None => localeDate(None)
    case Some(due) =>
      var d := DaysUntil(due - now);
      if d < 0 then "Overdue"
      else if d == 0 then "Today"
      else if d == 1 then "Tomorrow"
      else if d <= 7 then NatToString(d as nat) + "d"
      else localeDate(Some(due))
  }

  /** A due date that passed less than a day ago is still labelled "Today",
      though the card flags it as overdue. */
  lemma RecentlyPassedIsToday(dateString: string, now: int, parse: string -> Option<int>,
                              localeDate: Option<int> -> string)
    requires dateString != [] && parse(dateString) == Some(now - 1)
    ensures FormatDueDate(dateString, now, parse, localeDate) == "Today"
    ensures DueFlags(Some(dateString), now, parse).overdue
  {
  }

  datatype Flags = Flags(overdue: bool, dueSoon: bool)

  /** `isOverdue` and `isDueSoon`: a non-empty due date strictly before now,
      and one no later than a day from now. */
  function DueFlags(dueDate: Option<string>, now: int, parse: string -> Option<int>): (f: Flags)
    ensures f.overdue <==> TruthyText(dueDate) && parse(dueDate.value).Some? && parse(dueDate.value).value < now
    ensures f.dueSoon <==> TruthyText(dueDate) && parse(dueDate.value).Some? && parse(dueDate.value).value <= now + Day
  {
    if TruthyText(dueDate) then
      match parse(dueDate.value)
      case Some(due) => Flags(due < now, due <= now + Day)
      case None => Flags(false, false)
    else Flags(false, false)
  }

  /** Every overdue card is also due soon. */
  lemma OverdueIsDueSoon(dueDate: Option<string>, now: int, parse: string -> Option<int>)
    ensures DueFlags(dueDate, now, parse).overdue ==> DueFlags(dueDate, now, parse).dueSoon
  {
  }

  /** The tag chips: the first three tags, and the count of the rest when there are more. */
  datatype TagRow = TagRow(shown: seq<string>, more: Option<nat>)

  function TagChips(tags: seq<string>): (row: TagRow)
    ensures |row.shown| <= MaxTagChips && |row.shown| <= |tags| && row.shown == tags[..|row.shown|]
    ensures |tags| <= MaxTagChips ==> row.shown == tags
    ensures row.more.Some? <==> |tags| > MaxTagChips
    ensures |row.shown| + row.more.GetOr(0) == |tags|
  {
    if |tags| > MaxTagChips then TagRow(tags[..MaxTagChips], Some(|tags| - MaxTagChips))
    else TagRow(tags, None)
  }

  /** The card's live state: the translation, the scale target, the pressed
      flag and the `onMove` calls made so far. */
  class CardView {
    const origin: Point
    var tx: real
    var ty: real
    var scale: real
    var pressed: bool
    var moves: seq<Point>

    constructor (position: Point)
      ensures origin == position && tx == position.x && ty == position.y
      ensures scale == 1.0 && !pressed && moves == []
    {
      origin := position;
      tx, ty := position.x, position.y;
      scale := 1.0;
      pressed := false;
      moves := [];
    }

    /** `onBegin`: pressed, and grow. */
    method Begin()
      modifies this
      ensures pressed && scale == PressedScale
      ensures tx == old(tx) && ty == old(ty) && moves == old(moves)
    {
      pressed := true;
      scale := PressedScale;
    }

    /** `onUpdate`: the node's position plus the translation, with no clamp or snap. */
    method Update(translationX: real, translationY: real)
      modifies this
      ensures tx == origin.x + translationX && ty == origin.y + translationY
      ensures pressed == old(pressed) && scale == old(scale) && moves == old(moves)
    {
      tx := origin.x + translationX;
      ty := origin.y + translationY;
    }

    /** `onEnd`: released, shrink back, and report the current position once. */
    method End()
      modifies this
      ensures !pressed && scale == 1.0
      ensures moves == old(moves) + [Point(tx, ty)]
      ensures tx == old(tx) && ty == old(ty)
    {
      pressed := false;
      scale := 1.0;
      moves := moves + [Point(tx, ty)];
    }

    /** One drag: begin, the updates in order, end. `onMove` is called once,
      with the node's position plus the last translation. */
    method Drag(updates: seq<(real, real)>)
      modifies this
      ensures !pressed && scale == 1.0
      ensures updates != [] ==>
        moves == old(moves) + [Point(origin.x + updates[|updates| - 1].0, origin.y + updates[|updates| - 1].1)]
      ensures updates == [] ==> moves == old(moves) + [Point(old(tx), old(ty))]
      ensures updates != [] ==>
        tx == origin.x + updates[|updates| - 1].0 && ty == origin.y + updates[|updates| - 1].1
      ensures updates == [] ==> tx == old(tx) && ty == old(ty)
      ensures Point(tx, ty) == moves[|moves| - 1]
    {
      Begin();
      var i := 0;
      while i < |updates|
        invariant 0 <= i <= |updates|
        invariant moves == old(moves)
        invariant i == 0 ==> tx == old(tx) && ty == old(ty)
        invariant i > 0 ==> tx == origin.x + updates[i - 1].0 && ty == origin.y + updates[i - 1].1
      {
        Update(updates[i].0, updates[i].1);
        i := i + 1;
      }
      End();
    }
  }
}
