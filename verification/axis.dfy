/** The axis selectors of main.js: which X and Y values `populateSelects`
    asks for, the option lists it builds, and the browser rule deciding what
    a `<select>` then holds. */
module AxisSelects {
  import opened Common
  import opened Wire
  import opened ChartData

  datatype SelectOption = SelectOption(value: string, text: string)

  datatype Select = Select(options: seq<SelectOption>, value: string, disabled: bool)

  function OptionValues(options: seq<SelectOption>): (vs: seq<string>)
    ensures |vs| == |options|
    ensures forall k :: 0 <= k < |options| ==> vs[k] == options[k].value
  {
    seq(|options|, k requires 0 <= k < |options| => options[k].value)
  }

  /** `xSelectedValue`: the server's row-number axis becomes the row-index
      key; otherwise the chart's X, else the first non-numeric column, else
      the row-index key. */
  function ResolveX(chart: Option<ChartPreview>, nonNumeric: seq<string>): (x: string)
    ensures chart.Some? && chart.value.x == Some(RowNumberLabel) ==> x == RowIndexKey
    ensures chart.Some? && chart.value.x.Some? && chart.value.x.value != RowNumberLabel ==> x == chart.value.x.value
    ensures (chart.None? || chart.value.x.None?) && |nonNumeric| > 0 ==> x == nonNumeric[0]
    ensures (chart.None? || chart.value.x.None?) && |nonNumeric| == 0 ==> x == RowIndexKey
  {
    if chart.Some? && chart.value.x == Some(RowNumberLabel) then RowIndexKey
    else
      var fromChart := if chart.Some? then chart.value.x else None;
      var firstText := if |nonNumeric| > 0 then Some(nonNumeric[0]) else None;
      fromChart.GetOr(firstText.GetOr(RowIndexKey))
  }

  /** `ySelectedValue`: the chart's Y, else the first numeric column, else
      `undefined`. */
  function ResolveY(chart: Option<ChartPreview>, numeric: seq<string>): (y: Option<string>)
    ensures chart.Some? && chart.value.y.Some? ==> y == chart.value.y
    ensures (chart.None? || chart.value.y.None?) && |numeric| > 0 ==> y == Some(numeric[0])
    ensures (chart.None? || chart.value.y.None?) && |numeric| == 0 ==> y == None
  {
    var fromChart := if chart.Some? then chart.value.y else None;
    if fromChart.Some? then fromChart
    else if |numeric| > 0 then Some(numeric[0])
    else None
  }

  /** The X options: the row-index entry captioned "行号", then one entry
      per non-numeric column in column order. */
  function XOptions(nonNumeric: seq<string>): (opts: seq<SelectOption>)
    ensures OptionValues(opts) == [RowIndexKey] + nonNumeric
    ensures opts[0].text == RowNumberLabel
    ensures forall k :: 1 <= k < |opts| ==> opts[k].text == opts[k].value
  {
    var opts := [SelectOption(RowIndexKey, RowNumberLabel)]
      + seq(|nonNumeric|, k requires 0 <= k < |nonNumeric| => SelectOption(nonNumeric[k], nonNumeric[k]));
    assert OptionValues(opts) == [RowIndexKey] + nonNumeric;
    opts
  }

  /** The Y options: one entry per numeric column in column order. */
  function YOptions(numeric: seq<string>): (opts: seq<SelectOption>)
    ensures OptionValues(opts) == numeric
    ensures forall k :: 0 <= k < |opts| ==> opts[k].text == opts[k].value
  {
    seq(|numeric|, k requires 0 <= k < |numeric| => SelectOption(numeric[k], numeric[k]))
  }

  /** `select.value = v`: the option with that value becomes selected, and
      with no such option nothing is and the select reads "". */
  function Assigned(options: seq<SelectOption>, v: string): (r: string)
    ensures r == v || r == ""
    ensures r != "" ==> r in OptionValues(options)
    ensures v in OptionValues(options) ==> r == v
  {
    if v in OptionValues(options) then v else ""
  }

  /** The value of a freshly filled select whose options were marked
      `selected` when equal to `marked`: the marked option, else the first
      option, else "". */
  function Preselected(options: seq<SelectOption>, marked: Option<string>): (r: string)
    ensures |options| > 0 ==> r in OptionValues(options)
    ensures |options| == 0 ==> r == ""
    ensures marked.Some? && marked.value in OptionValues(options) ==> r == marked.value
    ensures |options| > 0 ==> r == options[0].value || marked == Some(r)
  {
    if marked.Some? && marked.value in OptionValues(options) then marked.value
    else if |options| > 0 then options[0].value
    else ""
  }

  // ---------------------------------------------------------------------
  // Properties

  /** Reading a select's value and assigning it back changes nothing. */
  lemma AssignedIdempotent(options: seq<SelectOption>, v: string)
    ensures Assigned(options, Assigned(options, v)) == Assigned(options, v)
  {
  }

  /** The resolved X is one of the X options whenever the chart preview's X
      is absent, is the row-number label, or names a non-numeric column. */
  lemma ResolvedXOffered(chart: Option<ChartPreview>, nonNumeric: seq<string>)
    requires chart.Some? && chart.value.x.Some? ==>
               chart.value.x.value == RowNumberLabel || chart.value.x.value in nonNumeric
    ensures ResolveX(chart, nonNumeric) in OptionValues(XOptions(nonNumeric))
    ensures Assigned(XOptions(nonNumeric), ResolveX(chart, nonNumeric)) == ResolveX(chart, nonNumeric)
  {
    var vs := OptionValues(XOptions(nonNumeric));
    assert vs[0] == RowIndexKey;
    assert forall k :: 0 <= k < |nonNumeric| ==> vs[k + 1] == nonNumeric[k];
  }

  /** The resolved Y is one of the Y options whenever the chart preview's Y
      is absent or names a numeric column, and there is one. */
  lemma ResolvedYOffered(chart: Option<ChartPreview>, numeric: seq<string>)
    requires |numeric| > 0
    requires chart.Some? && chart.value.y.Some? ==> chart.value.y.value in numeric
    ensures ResolveY(chart, numeric).Some?
    ensures ResolveY(chart, numeric).value in OptionValues(YOptions(numeric))
  {
  }
}
