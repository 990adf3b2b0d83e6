/** The bar chart: each item draws a background bar as wide as its total
    and a fill as wide as its value, both relative to the largest extent in
    the chart. Numbers are integers here; the widths are percentages. */
module ProgressChart {
  import opened Wrappers
  import opened Strings

  datatype ChartItem = ChartItem(caption: string, value: int, color: string, total: Option<int>)

  /** `item.total` read as a condition: present and non-zero. */
  predicate HasTotal(item: ChartItem) {
    item.total.Some? && item.total.value != 0
  }

  /** `item.total || item.value`. */
  function Extent(item: ChartItem): (e: int)
    ensures HasTotal(item) ==> e == item.total.value
    ensures !HasTotal(item) ==> e == item.value
  {
    if HasTotal(item) then item.total.value else item.value
  }

  /** `Math.max(...data.map(extent))`; an empty chart has no maximum
      (JavaScript's `-Infinity`). */
  function MaxValue(data: seq<ChartItem>): (m: Option<int>)
    ensures m.None? <==> data == []
    ensures m.Some? ==> forall i :: 0 <= i < |data| ==> Extent(data[i]) <= m.value
    ensures m.Some? ==> exists i :: 0 <= i < |data| && Extent(data[i]) == m.value
  {
    if data == [] then None
    else
      var init := data[..|data| - 1];
      var e := Extent(data[|data| - 1]);
      var m := MaxValue(init);
      assert forall i :: 0 <= i < |init| ==> init[i] == data[i];
      if m.None? || m.value < e then Some(e) else m
  }

  /** `maxValue > 0`. */
  predicate Positive(m: Option<int>) {
    m.Some? && m.value > 0
  }

  /** `part / whole * 100`. */
  function Share(part: int, whole: int): real
    requires whole != 0
  {
    (part as real) / (whole as real) * 100.0
  }

  /** A share of a positive whole lies in [0, 100] for a part in [0, whole],
      and is exactly 100 for the whole itself. */
  lemma ShareBounds(part: int, whole: int)
    requires whole > 0
    ensures part <= whole ==> Share(part, whole) <= 100.0
    ensures part >= 0 ==> Share(part, whole) >= 0.0
    ensures part == whole ==> Share(part, whole) == 100.0
  {
    var q := (part as real) / (whole as real);
    assert q * (whole as real) == part as real;
    if part <= whole && q > 1.0 {
      assert q * (whole as real) > 1.0 * (whole as real);
    }
  }

  /** The fill width: the value's share of the largest extent, else 0. */
  function Percentage(item: ChartItem, m: Option<int>): (p: real)
    ensures !Positive(m) ==> p == 0.0
  {
    if Positive(m) then Share(item.value, m.value) else 0.0
  }

  /** The background width: the total's share of the largest extent when
      there is a total and the maximum is positive, else the full 100. */
  function TotalPercentage(item: ChartItem, m: Option<int>): (p: real)
    ensures !(HasTotal(item) && Positive(m)) ==> p == 100.0
  {
    if HasTotal(item) && Positive(m) then Share(item.total.value, m.value) else 100.0
  }

  /** No background bar is wider than the chart. */
  lemma TotalBarFits(data: seq<ChartItem>, i: nat)
    requires i < |data|
    ensures TotalPercentage(data[i], MaxValue(data)) <= 100.0
  {
    var m := MaxValue(data);
    if HasTotal(data[i]) && Positive(m) {
      assert Extent(data[i]) <= m.value;
      ShareBounds(data[i].total.value, m.value);
    }
  }

  /** A fill is between 0 and the full width when the value is non-negative
      and does not exceed the item's own extent. */
  lemma FillBarFits(data: seq<ChartItem>, i: nat)
    requires i < |data| && 0 <= data[i].value <= Extent(data[i])
    ensures 0.0 <= Percentage(data[i], MaxValue(data)) <= 100.0
  {
    var m := MaxValue(data);
    if Positive(m) {
      assert Extent(data[i]) <= m.value;
      ShareBounds(data[i].value, m.value);
    }
  }

  /** The largest extent of a chart whose items all share one extent is that extent. */
  lemma UniformMax(data: seq<ChartItem>, e: int)
    requires data != [] && forall i :: 0 <= i < |data| ==> Extent(data[i]) == e
    ensures MaxValue(data) == Some(e)
  {
  }

  /** The figures beside the label: the value, and `/total` only when the
      item has a total. */
  function ValueText(item: ChartItem): (text: string)
    ensures '/' in text <==> HasTotal(item)
    ensures |IntToString(item.value)| <= |text| && text[..|IntToString(item.value)|] == IntToString(item.value)
  {
    NoSlash(item.value);
    NoSlash(item.total.GetOr(0));
    IntToString(item.value) + (if HasTotal(item) then "/" + IntToString(item.total.value) else "")
  }

  /** The decimal text of an integer has no `/`. */
  lemma NoSlash(n: int)
    ensures '/' !in IntToString(n)
  {
    var t := if n >= 0 then NatToString(n) else NatToString(-n);
    assert forall i :: 0 <= i < |t| ==> t[i] != '/';
  }
}
