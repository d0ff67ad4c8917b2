/** The `upload` endpoint of app.py after the spreadsheet has been read: its
    early rejections and the shaping of the parsed table into the JSON
    dataset. Reading the workbook and the dtype test are pandas calls; the
    model receives their results as data (`ReadOutcome`, `Column.numericDtype`). */
module Server {
  import opened Common
  import opened Wire

  /** One column of the parsed sheet: its header, whether pandas gave it a
      numeric dtype, and its cells (`Null` for a missing cell, pandas' NaN). */
  datatype Column = Column(name: string, numericDtype: bool, cells: seq<Scalar>)

  datatype DataFrame = DataFrame(columns: seq<Column>, height: nat)

  predicate DistinctNames(cols: seq<Column>) {
    forall j, k :: 0 <= j < k < |cols| ==> cols[j].name != cols[k].name
  }

  /** A cell a column of numeric dtype can hold: a number, or NaN. */
  predicate NumericCell(v: Scalar) {
    v.Num? || v == Null
  }

  /** What `read_excel` produces for a sheet with text headers: every column
      has one cell per row, headers are non-empty and pairwise distinct
      (pandas renames blank and repeated headers), and a column of numeric
      dtype holds only numbers and missing cells. */
  predicate WellFormed(df: DataFrame) {
    && (forall c :: c in df.columns ==> |c.cells| == df.height && c.name != "")
    && (forall c, v :: c in df.columns && c.numericDtype && v in c.cells ==> NumericCell(v))
    && DistinctNames(df.columns)
  }

  /** pandas' `DataFrame.empty`: no columns or no rows. */
  predicate IsEmpty(df: DataFrame) {
    |df.columns| == 0 || df.height == 0
  }

  /** Column `k` is the sheet's first column of numeric dtype. */
  predicate FirstNumeric(df: DataFrame, k: nat) {
    && k < |df.columns| && df.columns[k].numericDtype
    && forall j :: 0 <= j < k ==> !df.columns[j].numericDtype
  }

  /** Column `t` is the sheet's first column of non-numeric dtype. */
  predicate FirstText(df: DataFrame, t: nat) {
    && t < |df.columns| && !df.columns[t].numericDtype
    && forall j :: 0 <= j < t ==> df.columns[j].numericDtype
  }

  predicate AllNumeric(df: DataFrame) {
    forall j :: 0 <= j < |df.columns| ==> df.columns[j].numericDtype
  }

  /** The result of `pd.read_excel` on the uploaded file. */
  datatype ReadOutcome =
    | Read(frame: DataFrame)
    | UnsupportedFormat          // read_excel raised ValueError
    | ReadFailed(reason: string) // any other exception, with its message

  datatype UploadedFile = UploadedFile(filename: string, contents: ReadOutcome)

  /** The multipart request; `file` is `None` when the form has no `file` part. */
  datatype Request = Request(file: Option<UploadedFile>)

  datatype Body = ErrorBody(error: string) | DataBody(dataset: Dataset)

  datatype Response = Response(status: nat, body: Body)

  const MissingFileError: string := "未找到上传的文件"
  const NoFileChosenError: string := "请选择要上传的 Excel 文件"
  const UnsupportedFormatError: string := "暂不支持该类型的 Excel 文件，请使用 .xlsx 格式"
  const ReadFailedPrefix: string := "解析 Excel 失败: "
  const EmptySheetError: string := "Excel 文件为空"

  function Names(cols: seq<Column>): (r: seq<string>)
    ensures |r| == |cols|
    ensures forall k :: 0 <= k < |cols| ==> r[k] == cols[k].name
  {
    seq(|cols|, k requires 0 <= k < |cols| => cols[k].name)
  }

  /** The list comprehension over `dataframe.columns` keeping numeric dtypes. */
  function NumericColumns(cols: seq<Column>): (r: seq<string>)
    ensures forall n :: n in r <==> exists k :: 0 <= k < |cols| && cols[k].numericDtype && cols[k].name == n
    decreases |cols|
  {
    if |cols| == 0 then []
    else
      var rest := NumericColumns(cols[1..]);
      assert forall k :: 0 <= k < |cols| - 1 ==> cols[1..][k] == cols[k + 1];
      if cols[0].numericDtype then [cols[0].name] + rest else rest
  }

  /** The list comprehension keeping the columns not in `numeric`. */
  function NonNumericColumns(names: seq<string>, numeric: seq<string>): (r: seq<string>)
    ensures forall n :: n in r <==> n in names && n !in numeric
    decreases |names|
  {
    if |names| == 0 then []
    else
      var rest := NonNumericColumns(names[1..], numeric);
      assert forall n :: n in names <==> n == names[0] || n in names[1..];
      if names[0] in numeric then rest else [names[0]] + rest
  }

  /** The numeric columns keep the sheet's column order. */
  lemma {:induction false} NumericColumnsInOrder(cols: seq<Column>)
    ensures IsSubsequence(NumericColumns(cols), Names(cols))
    decreases |cols|
  {
    if |cols| > 0 {
      var rest := NumericColumns(cols[1..]);
      NumericColumnsInOrder(cols[1..]);
      assert Names(cols)[1..] == Names(cols[1..]);
      if cols[0].numericDtype {
        assert ([cols[0].name] + rest)[1..] == rest;
      }
    }
  }

  /** The non-numeric columns keep the order of `names`. */
  lemma {:induction false} NonNumericColumnsInOrder(names: seq<string>, numeric: seq<string>)
    ensures IsSubsequence(NonNumericColumns(names, numeric), names)
    decreases |names|
  {
    if |names| > 0 {
      var rest := NonNumericColumns(names[1..], numeric);
      NonNumericColumnsInOrder(names[1..], numeric);
      if names[0] !in numeric {
        assert ([names[0]] + rest)[1..] == rest;
      }
    }
  }

  /** The numeric list starts with the first numeric-dtype column. */
  lemma {:induction false} NumericColumnsHead(cols: seq<Column>, k: nat)
    requires k < |cols| && cols[k].numericDtype
    requires forall j :: 0 <= j < k ==> !cols[j].numericDtype
    ensures |NumericColumns(cols)| > 0 && NumericColumns(cols)[0] == cols[k].name
    decreases k
  {
    if k > 0 {
      assert cols[1..][k - 1] == cols[k];
      assert forall j :: 0 <= j < k - 1 ==> cols[1..][j] == cols[j + 1];
      NumericColumnsHead(cols[1..], k - 1);
    }
  }

  /** The non-numeric list starts with the first name not in `numeric`. */
  lemma {:induction false} NonNumericColumnsHead(names: seq<string>, numeric: seq<string>, t: nat)
    requires t < |names| && names[t] !in numeric
    requires forall j :: 0 <= j < t ==> names[j] in numeric
    ensures |NonNumericColumns(names, numeric)| > 0 && NonNumericColumns(names, numeric)[0] == names[t]
    decreases t
  {
    if t > 0 {
      assert names[1..][t - 1] == names[t];
      assert forall j :: 0 <= j < t - 1 ==> names[1..][j] == names[j + 1];
      NonNumericColumnsHead(names[1..], numeric, t - 1);
    }
  }

  /** `fillna("")`: a missing cell becomes the empty string. */
  function Sanitize(v: Scalar): (r: Scalar)
    ensures r != Null
    ensures v != Null ==> r == v
  {
    if v == Null then Str("") else v
  }

  /** `pd.to_numeric(errors="coerce").fillna(0.0)` on one cell of a numeric
      column: a number is kept and a missing cell becomes 0. Any other cell
      also reads as 0 here; numeric columns hold none. */
  function Coerce(v: Scalar): (r: int)
    ensures v.Num? ==> r == v.n
    ensures r != 0 ==> v == Num(r)
  {
    match v
    case Num(n) => n
    case _ => 0
  }

  /** One record of `to_dict(orient="records")`: the sanitized cells of row
      `i`, keyed by column name, inserted in column order. */
  function RowAt(cols: seq<Column>, i: nat): (row: Row)
    requires forall c :: c in cols ==> i < |c.cells|
    ensures forall n :: n in row <==> n in Names(cols)
    decreases |cols|
  {
    if |cols| == 0 then map[]
    else
      var front := cols[..|cols| - 1];
      var last := cols[|cols| - 1];
      assert forall c :: c in front ==> c in cols;
      assert forall n :: n in Names(cols) <==> n in Names(front) || n == last.name by {
        assert Names(cols) == Names(front) + [last.name];
      }
      RowAt(front, i)[last.name := Sanitize(last.cells[i])]
  }

  /** `dataframe[name]`: the column with that header. */
  function Find(cols: seq<Column>, name: string): (r: Option<Column>)
    ensures r.Some? ==> r.value in cols && r.value.name == name
    ensures r.None? ==> name !in Names(cols)
    decreases |cols|
  {
    if |cols| == 0 then None
    else if cols[0].name == name then Some(cols[0])
    else
      assert Names(cols) == [cols[0].name] + Names(cols[1..]);
      Find(cols[1..], name)
  }

  /** The coerced values of one numeric column, as floats in JSON. */
  function SeriesOf(c: Column): (s: Series)
    ensures |s| == |c.cells|
    ensures forall i :: 0 <= i < |s| ==> s[i] == Some(Coerce(c.cells[i]))
  {
    seq(|c.cells|, i requires 0 <= i < |c.cells| => Some(Coerce(c.cells[i])))
  }

  /** The `numeric_data` dictionary: one series per numeric column. */
  function NumericData(cols: seq<Column>, numeric: seq<string>): (m: map<string, Series>)
    ensures forall n :: n in m <==> n in numeric
  {
    map n | n in numeric :: match Find(cols, n) case Some(c) => SeriesOf(c) case None => []
  }

  /** `sanitized_dataframe[x].astype(str)`. */
  function ColumnLabels(c: Option<Column>): (labels: seq<string>)
    ensures c.Some? ==> |labels| == |c.value.cells|
    ensures c.Some? ==> forall i :: 0 <= i < |labels| ==> labels[i] == ToStr(Sanitize(c.value.cells[i]))
  {
    match c
    case Some(col) => CellTexts(col.cells)
    case None => []
  }

  function CellTexts(cells: seq<Scalar>): (texts: seq<string>)
    ensures |texts| == |cells|
    ensures forall i :: 0 <= i < |cells| ==> texts[i] == ToStr(Sanitize(cells[i]))
  {
    seq(|cells|, i requires 0 <= i < |cells| => ToStr(Sanitize(cells[i])))
  }

  /** `[str(index + 1) for index in range(n)]`. */
  function RowNumbers(n: nat): (r: seq<string>)
    ensures |r| == n
    ensures forall i :: 0 <= i < n ==> r[i] == NatToString(i + 1)
  {
    seq(n, i requires 0 <= i < n => NatToString(i + 1))
  }

  /** The `chart_preview` dictionary, built when there is a numeric column. */
  function Preview(df: DataFrame, numeric: seq<string>, nonNumeric: seq<string>, numericData: map<string, Series>): ChartPreview
    requires |numeric| > 0 && numeric[0] in numericData
  {
    var y := numeric[0];
    if |nonNumeric| > 0 then
      ChartPreview(Some(nonNumeric[0]), Some(y), ColumnLabels(Find(df.columns, nonNumeric[0])), numericData[y])
    else
      ChartPreview(Some(RowNumberLabel), Some(y), RowNumbers(df.height), numericData[y])
  }

  /** The success body of `upload` for a parsed table. */
  function Shape(df: DataFrame): (d: Dataset)
    requires WellFormed(df)
    ensures d.columns == Names(df.columns)
    ensures |d.rows| == df.height
    ensures forall n :: n in d.columns <==> n in d.numericColumns || n in d.nonNumericColumns
    ensures forall n :: n in d.numericColumns ==> n !in d.nonNumericColumns
    ensures forall n :: n in d.numericData <==> n in d.numericColumns
    ensures d.chart.None? <==> |d.numericColumns| == 0
  {
    var names := Names(df.columns);
    var numeric := NumericColumns(df.columns);
    assert forall n :: n in numeric ==> n in names;
    var nonNumeric := NonNumericColumns(names, numeric);
    var records := seq(df.height, i requires 0 <= i < df.height => RowAt(df.columns, i));
    var numericData := NumericData(df.columns, numeric);
    var chart := if |numeric| == 0 then None else Some(Preview(df, numeric, nonNumeric, numericData));
    Dataset(names, records, numeric, nonNumeric, numericData, chart)
  }

  /** The whole endpoint: rejections first, then shaping. */
  function Upload(req: Request): (resp: Response)
    requires req.file.Some? && req.file.value.contents.Read? ==> WellFormed(req.file.value.contents.frame)
    ensures resp.status == 200 || resp.status == 400
    ensures resp.status == 200 <==> resp.body.DataBody?
    ensures resp.body.ErrorBody? ==> resp.body.error != ""
    ensures resp.status == 200 <==>
              && req.file.Some? && req.file.value.filename != ""
              && req.file.value.contents.Read? && !IsEmpty(req.file.value.contents.frame)
    ensures resp.status == 200 ==> resp.body.dataset == Shape(req.file.value.contents.frame)
  {
    match req.file
    case None => Response(400, ErrorBody(MissingFileError))
    case Some(f) =>
      if f.filename == "" then Response(400, ErrorBody(NoFileChosenError))
      else
        match f.contents
        case UnsupportedFormat => Response(400, ErrorBody(UnsupportedFormatError))
        case ReadFailed(reason) => Response(400, ErrorBody(ReadFailedPrefix + reason))
        case Read(df) =>
          if IsEmpty(df) then Response(400, ErrorBody(EmptySheetError))
          else Response(200, DataBody(Shape(df)))
  }

  // ---------------------------------------------------------------------
  // Properties of the shaping

  lemma {:induction false} FindDistinct(cols: seq<Column>, k: nat)
    requires DistinctNames(cols) && k < |cols|
    ensures Find(cols, cols[k].name) == Some(cols[k])
    decreases |cols|
  {
    if k > 0 {
      assert cols[0].name != cols[k].name;
      assert cols[1..][k - 1] == cols[k];
      FindDistinct(cols[1..], k - 1);
    }
  }

  lemma NumericColumnsByDtype(cols: seq<Column>, k: nat)
    requires DistinctNames(cols) && k < |cols|
    ensures cols[k].name in NumericColumns(cols) <==> cols[k].numericDtype
  {
    if cols[k].name in NumericColumns(cols) {
      var j :| 0 <= j < |cols| && cols[j].numericDtype && cols[j].name == cols[k].name;
      assert j == k;
    }
  }

  /** Both column lists keep the sheet's column order. */
  lemma ShapeKeepsColumnOrder(df: DataFrame)
    requires WellFormed(df)
    ensures IsSubsequence(Shape(df).numericColumns, Shape(df).columns)
    ensures IsSubsequence(Shape(df).nonNumericColumns, Shape(df).columns)
  {
    NumericColumnsInOrder(df.columns);
    NonNumericColumnsInOrder(Names(df.columns), NumericColumns(df.columns));
  }

  /** A column is listed as numeric exactly when its dtype is numeric, and
      as non-numeric exactly when it is not. */
  lemma ShapeClassifiesByDtype(df: DataFrame, k: nat)
    requires WellFormed(df) && k < |df.columns|
    ensures df.columns[k].name in Shape(df).numericColumns <==> df.columns[k].numericDtype
    ensures df.columns[k].name in Shape(df).nonNumericColumns <==> !df.columns[k].numericDtype
  {
    var d := Shape(df);
    NumericColumnsByDtype(df.columns, k);
    assert d.numericColumns == NumericColumns(df.columns);
    assert df.columns[k].name in d.columns;
  }

  lemma {:induction false} RowAtCells(cols: seq<Column>, i: nat, k: nat)
    requires forall c :: c in cols ==> i < |c.cells|
    requires DistinctNames(cols) && k < |cols|
    ensures RowAt(cols, i)[cols[k].name] == Sanitize(cols[k].cells[i])
    decreases |cols|
  {
    var front := cols[..|cols| - 1];
    if k < |cols| - 1 {
      assert front[k] == cols[k];
      assert forall c :: c in front ==> c in cols;
      assert cols[k].name != cols[|cols| - 1].name;
      RowAtCells(front, i, k);
    }
  }

  /** Each record has exactly the dataset's columns as keys, and holds the
      column's cell with missing cells replaced by "". */
  lemma ShapeRecords(df: DataFrame, i: nat, k: nat)
    requires WellFormed(df) && i < df.height && k < |df.columns|
    ensures forall n :: n in Shape(df).rows[i] <==> n in Shape(df).columns
    ensures Shape(df).rows[i][df.columns[k].name] == Sanitize(df.columns[k].cells[i])
  {
    RowAtCells(df.columns, i, k);
  }

  /** Every numeric column's series has one entry per row, none of them a
      hole, and holds the coerced cell: the number itself, else 0. */
  lemma ShapeNumericData(df: DataFrame, k: nat)
    requires WellFormed(df) && k < |df.columns| && df.columns[k].numericDtype
    ensures df.columns[k].name in Shape(df).numericData
    ensures |Shape(df).numericData[df.columns[k].name]| == df.height
    ensures forall i :: 0 <= i < df.height ==>
              Shape(df).numericData[df.columns[k].name][i] == Some(Coerce(df.columns[k].cells[i]))
  {
    ShapeClassifiesByDtype(df, k);
    FindDistinct(df.columns, k);
  }

  /** The dataset's first numeric column is the sheet's first column of
      numeric dtype. */
  lemma ShapeNumericHead(df: DataFrame, k: nat)
    requires WellFormed(df) && FirstNumeric(df, k)
    ensures |Shape(df).numericColumns| > 0 && Shape(df).numericColumns[0] == df.columns[k].name
  {
    NumericColumnsHead(df.columns, k);
  }

  /** The dataset's first non-numeric column is the sheet's first column of
      non-numeric dtype. */
  lemma ShapeTextHead(df: DataFrame, t: nat)
    requires WellFormed(df) && FirstText(df, t)
    ensures |Shape(df).nonNumericColumns| > 0 && Shape(df).nonNumericColumns[0] == df.columns[t].name
  {
    var names := Names(df.columns);
    var numeric := NumericColumns(df.columns);
    forall j | 0 <= j < t
      ensures names[j] in numeric
    {
      NumericColumnsByDtype(df.columns, j);
    }
    NumericColumnsByDtype(df.columns, t);
    NonNumericColumnsHead(names, numeric, t);
  }

  /** A sheet whose every column is numeric has no non-numeric column. */
  lemma ShapeAllNumeric(df: DataFrame)
    requires WellFormed(df) && AllNumeric(df)
    ensures |Shape(df).nonNumericColumns| == 0
  {
    var names := Names(df.columns);
    var numeric := NumericColumns(df.columns);
    forall n | n in names
      ensures n in numeric
    {
      var j :| 0 <= j < |df.columns| && names[j] == n;
      assert df.columns[j].numericDtype;
    }
    NonNumericColumnsNone(names, numeric);
  }

  /** Filtering out every name leaves nothing. */
  lemma {:induction false} NonNumericColumnsNone(names: seq<string>, numeric: seq<string>)
    requires forall n :: n in names ==> n in numeric
    ensures NonNumericColumns(names, numeric) == []
    decreases |names|
  {
    if |names| > 0 {
      assert names[0] in numeric;
      assert forall n :: n in names[1..] ==> n in names;
      NonNumericColumnsNone(names[1..], numeric);
    }
  }

  /** The series of the first numeric column `k`, the one the preview and
      the page plot, has one entry per record and holds its coerced cells. */
  lemma ShapeFirstSeries(df: DataFrame, k: nat)
    requires WellFormed(df) && FirstNumeric(df, k)
    ensures var d := Shape(df); var y := df.columns[k].name;
      && |d.numericColumns| > 0 && d.numericColumns[0] == y
      && y in d.numericData && |d.numericData[y]| == |d.rows|
      && forall i :: 0 <= i < |d.rows| ==> d.numericData[y][i] == Some(Coerce(df.columns[k].cells[i]))
  {
    ShapeNumericHead(df, k);
    ShapeNumericData(df, k);
  }

  /** With a numeric column the preview plots the first numeric column
      against the first non-numeric one, or against row numbers labelled
      "行号" when every column is numeric. */
  lemma ShapeChartAxes(df: DataFrame, k: nat)
    requires WellFormed(df) && FirstNumeric(df, k)
    ensures var d := Shape(df); var y := df.columns[k].name;
      && d.chart.Some?
      && d.chart.value.y == Some(y)
      && y in d.numericData && d.chart.value.values == d.numericData[y]
      && (|d.nonNumericColumns| > 0 ==> d.chart.value.x == Some(d.nonNumericColumns[0]))
      && (|d.nonNumericColumns| == 0 ==> d.chart.value.x == Some(RowNumberLabel))
  {
    ShapeNumericHead(df, k);
  }

  /** With a text column the preview plots against the first non-numeric
      column `t`, with one label per row: its cells as text, a missing cell
      as "". */
  lemma ShapeChartTextLabels(df: DataFrame, k: nat, t: nat)
    requires WellFormed(df) && FirstNumeric(df, k) && FirstText(df, t)
    ensures var d := Shape(df);
      && d.chart.Some? && d.chart.value.x == Some(df.columns[t].name)
      && |d.chart.value.labels| == df.height
      && forall i :: 0 <= i < df.height ==> d.chart.value.labels[i] == ToStr(Sanitize(df.columns[t].cells[i]))
  {
    var d := Shape(df);
    ShapeNumericHead(df, k);
    ShapeTextHead(df, t);
    assert d.chart.value.labels == ColumnLabels(Find(df.columns, df.columns[t].name));
    FindDistinct(df.columns, t);
    assert df.columns[t] in df.columns;
  }

  /** When every column is numeric the preview plots against "行号" and
      labels the rows "1".."n". */
  lemma ShapeChartRowLabels(df: DataFrame)
    requires WellFormed(df) && AllNumeric(df) && |df.columns| > 0
    ensures var d := Shape(df);
      && d.chart.Some? && d.chart.value.x == Some(RowNumberLabel)
      && |d.chart.value.labels| == df.height
      && forall i :: 0 <= i < df.height ==> d.chart.value.labels[i] == NatToString(i + 1)
  {
    ShapeNumericHead(df, 0);
    ShapeAllNumeric(df);
    assert Shape(df).chart.value.labels == RowNumbers(df.height);
  }

  /** The early returns: no file part, an empty file name, an unreadable
      workbook or an empty sheet give status 400 with an error message and
      no dataset. */
  lemma UploadRejects(req: Request)
    requires req.file.Some? && req.file.value.contents.Read? ==> WellFormed(req.file.value.contents.frame)
    ensures req.file.None? ==> Upload(req) == Response(400, ErrorBody(MissingFileError))
    ensures req.file.Some? && req.file.value.filename == "" ==>
              Upload(req) == Response(400, ErrorBody(NoFileChosenError))
    ensures req.file.Some? && req.file.value.filename != "" && req.file.value.contents.UnsupportedFormat? ==>
              Upload(req) == Response(400, ErrorBody(UnsupportedFormatError))
    ensures req.file.Some? && req.file.value.filename != "" && req.file.value.contents.Read?
            && IsEmpty(req.file.value.contents.frame) ==>
              Upload(req) == Response(400, ErrorBody(EmptySheetError))
    ensures req.file.Some? && req.file.value.filename != "" && req.file.value.contents.ReadFailed? ==>
              Upload(req) == Response(400, ErrorBody(ReadFailedPrefix + req.file.value.contents.reason))
  {
  }
}
