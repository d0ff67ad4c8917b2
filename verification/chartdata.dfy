/** `buildChartData` of main.js: the bar chart's labels and values for a pair
    of axis keys, read from the browser's copy of the dataset. */
module ChartData {
  import opened Common
  import opened Wire

  /** The X-axis value meaning "plot against row position". */
  const RowIndexKey: string := "__row_index__"

  /** The label shown for a blank cell. */
  const EmptyLabel: string := "(空)"

  /** The label of the `i`-th row (0-based) on the row-index axis. */
  function RowLabel(i: nat): string {
    "行 " + NatToString(i + 1)
  }

  /** `undefined`, `null` or the empty string. */
  predicate IsBlank(v: Option<Scalar>) {
    v == None || v == Some(Null) || v == Some(Str(""))
  }

  datatype ChartData = ChartData(labels: seq<string>, values: seq<int>)

  /** `rawValues[index] ?? 0`: the series entry, or 0 past its end or at a hole. */
  function ValueAt(raw: Series, i: nat): int {
    if i < |raw| then raw[i].GetOr(0) else 0
  }

  /** The label of each row: its position on the row-index axis, else the
      cell's text with blanks shown as "(空)". */
  function Labels(rows: seq<Row>, xKey: string): (labels: seq<string>)
    ensures |labels| == |rows|
    ensures xKey == RowIndexKey ==> forall i :: 0 <= i < |rows| ==> labels[i] == RowLabel(i)
    ensures xKey != RowIndexKey ==> forall i :: 0 <= i < |rows| ==>
              (IsBlank(Lookup(rows[i], xKey)) ==> labels[i] == EmptyLabel) &&
              (!IsBlank(Lookup(rows[i], xKey)) ==> labels[i] == ToStr(rows[i][xKey]))
  {
    seq(|rows|, i requires 0 <= i < |rows| =>
      if xKey == RowIndexKey then RowLabel(i)
      else
        var v := Lookup(rows[i], xKey);
        if IsBlank(v) then EmptyLabel else ToStr(v.value))
  }

  /** One value per label, read from the raw series. */
  function Values(n: nat, raw: Series): (values: seq<int>)
    ensures |values| == n
    ensures forall i :: 0 <= i < n ==> values[i] == ValueAt(raw, i)
  {
    seq(n, i requires 0 <= i < n => ValueAt(raw, i))
  }

  function BuildChartData(rows: seq<Row>, numericData: map<string, Series>, xKey: string, yKey: string): (r: ChartData)
    ensures |r.labels| == |rows| && |r.values| == |rows|
    ensures xKey == RowIndexKey ==> forall i :: 0 <= i < |rows| ==> r.labels[i] == RowLabel(i)
    ensures xKey != RowIndexKey ==> forall i :: 0 <= i < |rows| ==>
              (IsBlank(Lookup(rows[i], xKey)) ==> r.labels[i] == EmptyLabel) &&
              (!IsBlank(Lookup(rows[i], xKey)) ==> r.labels[i] == ToStr(rows[i][xKey]))
    ensures yKey !in numericData ==> forall i :: 0 <= i < |rows| ==> r.values[i] == 0
    ensures yKey in numericData ==> forall i :: 0 <= i < |rows| ==>
              (i < |numericData[yKey]| && numericData[yKey][i].Some? ==> r.values[i] == numericData[yKey][i].value) &&
              (i >= |numericData[yKey]| || numericData[yKey][i].None? ==> r.values[i] == 0)
  {
    var raw := if yKey in numericData then numericData[yKey] else [];
    ChartData(Labels(rows, xKey), Values(|rows|, raw))
  }

  /** The unwrapped entries of a series without holes. */
  function Unwrap(s: Series): (r: seq<int>)
    requires forall i :: 0 <= i < |s| ==> s[i].Some?
    ensures |r| == |s|
    ensures forall i :: 0 <= i < |s| ==> s[i] == Some(r[i])
    decreases |s|
  {
    if |s| == 0 then [] else [s[0].value] + Unwrap(s[1..])
  }

  // ---------------------------------------------------------------------
  // Properties

  /** On the row-index axis the labels depend on the number of rows only,
      never on what the rows hold. */
  lemma RowIndexLabelsIgnoreContents(rows: seq<Row>, rows': seq<Row>, nd: map<string, Series>, nd': map<string, Series>, y: string, y': string)
    requires |rows| == |rows'|
    ensures BuildChartData(rows, nd, RowIndexKey, y).labels == BuildChartData(rows', nd', RowIndexKey, y').labels
  {
  }

  lemma RowLabelInjective(i: nat, j: nat)
    ensures RowLabel(i) == RowLabel(j) ==> i == j
  {
    var p := "行 ";
    if RowLabel(i) == RowLabel(j) {
      assert NatToString(i + 1) == RowLabel(i)[|p|..];
      assert NatToString(j + 1) == RowLabel(j)[|p|..];
      NatToStringInjective(i + 1, j + 1);
    }
  }

  /** On the row-index axis every bar has its own label. */
  lemma RowIndexLabelsDistinct(rows: seq<Row>, nd: map<string, Series>, y: string, i: nat, j: nat)
    requires i < j < |rows|
    ensures BuildChartData(rows, nd, RowIndexKey, y).labels[i] != BuildChartData(rows, nd, RowIndexKey, y).labels[j]
  {
    RowLabelInjective(i, j);
  }

  /** When the Y column's series has one entry per row and no holes, the
      chart's values are exactly that series. */
  lemma ValuesFollowCompleteSeries(rows: seq<Row>, nd: map<string, Series>, x: string, y: string)
    requires y in nd && |nd[y]| == |rows|
    requires forall i :: 0 <= i < |nd[y]| ==> nd[y][i].Some?
    ensures BuildChartData(rows, nd, x, y).values == Unwrap(nd[y])
  {
  }
}
