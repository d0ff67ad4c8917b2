/** `renderTable` of main.js, as the structure it writes into the page rather
    than as HTML text. */
module TablePreview {
  import opened Common
  import opened Wire

  /** At most this many rows are shown. */
  const MaxRows: nat := 20

  const NoDataText: string := "未检测到可展示的数据。"

  /** The caption "showing the first `shown` of `total` rows". */
  datatype Caption = Caption(shown: nat, total: nat)

  datatype Table =
    | Placeholder(text: string)
    | Grid(header: seq<string>, body: seq<seq<string>>, caption: Option<Caption>)

  /** `row[column] ?? ""` inside a template: missing and null cells print
      as nothing, anything else as its text. */
  function CellText(v: Option<Scalar>): string {
    match v
    case None => ""
    case Some(Null) => ""
    case Some(x) => ToStr(x)
  }

  /** One body row: a cell per column, the row's value printed, nothing for
      a value that is missing or null. */
  function RenderRow(columns: seq<string>, row: Row): (cells: seq<string>)
    ensures |cells| == |columns|
    ensures forall j :: 0 <= j < |columns| && columns[j] in row && row[columns[j]] != Null ==>
              cells[j] == ToStr(row[columns[j]])
    ensures forall j :: 0 <= j < |columns| && (columns[j] !in row || row[columns[j]] == Null) ==>
              cells[j] == ""
  {
    seq(|columns|, j requires 0 <= j < |columns| => CellText(Lookup(row, columns[j])))
  }

  function Min(a: nat, b: nat): nat {
    if a < b then a else b
  }

  function RenderTable(columns: seq<string>, rows: seq<Row>): (t: Table)
    ensures t.Placeholder? <==> |columns| == 0
    ensures t.Placeholder? ==> t.text == NoDataText
    ensures t.Grid? ==> t.header == columns
    ensures t.Grid? ==> |t.body| == Min(MaxRows, |rows|)
    ensures t.Grid? ==> forall i :: 0 <= i < |t.body| ==> t.body[i] == RenderRow(columns, rows[i])
    ensures t.Grid? ==> (t.caption.Some? <==> |rows| > MaxRows)
    ensures t.Grid? && t.caption.Some? ==> t.caption.value == Caption(MaxRows, |rows|)
  {
    if |columns| == 0 then Placeholder(NoDataText)
    else
      var visible := if |rows| <= MaxRows then rows else rows[..MaxRows];
      var body := seq(|visible|, i requires 0 <= i < |visible| => RenderRow(columns, visible[i]));
      var caption := if |rows| > MaxRows then Some(Caption(MaxRows, |rows|)) else None;
      Grid(columns, body, caption)
  }

  // ---------------------------------------------------------------------
  // Properties

  /** Rows past the twentieth never reach the body: two datasets that agree
      on their first twenty rows render the same body. */
  lemma BodyIgnoresHiddenRows(columns: seq<string>, rows: seq<Row>, rows': seq<Row>)
    requires |columns| > 0
    requires Min(MaxRows, |rows|) == Min(MaxRows, |rows'|)
    requires rows[..Min(MaxRows, |rows|)] == rows'[..Min(MaxRows, |rows'|)]
    ensures RenderTable(columns, rows).body == RenderTable(columns, rows').body
  {
    var n := Min(MaxRows, |rows|);
    forall i | 0 <= i < n
      ensures rows[i] == rows'[i]
    {
      assert rows[..n][i] == rows[i];
      assert rows'[..n][i] == rows'[i];
    }
  }

  /** A short dataset is shown in full, without a caption. */
  lemma ShortTableShownInFull(columns: seq<string>, rows: seq<Row>)
    requires |columns| > 0 && |rows| <= MaxRows
    ensures RenderTable(columns, rows) ==
              Grid(columns, seq(|rows|, i requires 0 <= i < |rows| => RenderRow(columns, rows[i])), None)
  {
  }

  /** A row is printed from its values under the shown columns only: two
      rows that agree there print alike, whatever else they hold. */
  lemma RenderRowReadsOnlyColumns(columns: seq<string>, row: Row, row': Row)
    requires forall j :: 0 <= j < |columns| ==> Lookup(row, columns[j]) == Lookup(row', columns[j])
    ensures RenderRow(columns, row) == RenderRow(columns, row')
  {
  }

  /** A column a row does not have is printed as the empty string. */
  lemma MissingCellIsEmpty(columns: seq<string>, rows: seq<Row>, i: nat, j: nat)
    requires |columns| > 0 && i < Min(MaxRows, |rows|) && j < |columns|
    requires columns[j] !in rows[i] || rows[i][columns[j]] == Null
    ensures RenderTable(columns, rows).body[i][j] == ""
  {
  }
}
