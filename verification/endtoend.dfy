/** How the browser reads the server's answer, and what the page shows for
    the answers `upload` can give: the contract between app.py and main.js. */
module EndToEnd {
  import opened Common
  import opened Wire
  import opened Server
  import opened ChartData
  import opened AxisSelects
  import opened ChartLifecycle
  import opened View

  /** `response.ok` and `payload.error` as the submit handler reads them. An
      error body under a 2xx status makes `renderTable` read `columns` of
      `undefined`, which throws into the handler's `catch`. */
  function OutcomeOf(resp: Response): (o: Outcome)
    ensures !o.NoFile?
    ensures o.Ok? <==> 200 <= resp.status <= 299 && resp.body.DataBody?
    ensures o.Ok? ==> o.payload == resp.body.dataset
    ensures o.ServerError? <==> !(200 <= resp.status <= 299)
    ensures o.ServerError? ==> (o.message.Some? <==> resp.body.ErrorBody?)
    ensures o.ServerError? && o.message.Some? ==> o.message.value == resp.body.error
  {
    if 200 <= resp.status <= 299 then
      match resp.body
      case DataBody(d) => Ok(d)
      case ErrorBody(_) => TransportError
    else
      match resp.body
      case ErrorBody(e) => ServerError(Some(e))
      case DataBody(_) => ServerError(None)
  }

  /** Whatever `upload` answers, the page reads it as the shaped dataset or
      as a server error with a message: never as a transport failure. */
  lemma UploadOutcome(req: Request)
    requires req.file.Some? && req.file.value.contents.Read? ==> WellFormed(req.file.value.contents.frame)
    ensures var o := OutcomeOf(Upload(req));
      && (o.Ok? <==> Upload(req).status == 200)
      && (o.Ok? ==> req.file.Some? && req.file.value.contents.Read? && o.payload == Shape(req.file.value.contents.frame))
      && (!o.Ok? ==> o.ServerError? && o.message.Some? && o.message.value != "")
  {
  }

  /** Every rejection of `upload` reaches the page verbatim, hides the
      dataset and chart sections, clears the status and applies nothing. */
  lemma RejectionShownVerbatim(v: View, req: Request)
    requires req.file.Some? && req.file.value.contents.Read? ==> WellFormed(req.file.value.contents.frame)
    requires Upload(req).status == 400
    ensures var r := Submit(v, OutcomeOf(Upload(req)));
      && r.error == Some(Upload(req).body.error)
      && r.datasetHidden && r.chartConfigHidden && r.status == ""
      && r.state == v.state && r.chart == v.chart
  {
  }

  /** The axes the page selects for a freshly shaped dataset. */
  function DefaultX(d: Dataset): string {
    if |d.nonNumericColumns| > 0 then d.nonNumericColumns[0] else RowIndexKey
  }

  /** What the page relies on in a successful answer with a numeric column:
      a preview whose Y is the first numeric column, named, and whose X is
      the first non-numeric column or the row-number label. */
  predicate PreviewDefaults(d: Dataset) {
    && |d.numericColumns| > 0 && d.numericColumns[0] != ""
    && (|d.nonNumericColumns| > 0 ==> d.nonNumericColumns[0] != "")
    && d.chart.Some?
    && d.chart.value.y == Some(d.numericColumns[0])
    && d.chart.value.x == Some(if |d.nonNumericColumns| > 0 then d.nonNumericColumns[0] else RowNumberLabel)
  }

  /** No column of the sheet is called like the server's row-number axis. */
  predicate NoRowNumberColumn(df: DataFrame) {
    forall j :: 0 <= j < |df.columns| ==> df.columns[j].name != RowNumberLabel
  }

  lemma ShapeHasPreviewDefaults(df: DataFrame, k: nat)
    requires WellFormed(df) && FirstNumeric(df, k)
    ensures PreviewDefaults(Shape(df))
  {
    ShapeChartAxes(df, k);
    assert df.columns[k] in df.columns;
    ShapeTextNamed(df);
  }

  /** Every non-numeric column of a shaped dataset is a named column of the
      sheet. */
  lemma ShapeTextNamed(df: DataFrame)
    requires WellFormed(df)
    ensures var nn := Shape(df).nonNumericColumns; |nn| > 0 ==>
      && (exists j :: 0 <= j < |df.columns| && df.columns[j].name == nn[0])
      && nn[0] != ""
      && (NoRowNumberColumn(df) ==> nn[0] != RowNumberLabel)
  {
    var nn := Shape(df).nonNumericColumns;
    if |nn| > 0 {
      assert nn[0] in Names(df.columns);
      var j :| 0 <= j < |df.columns| && df.columns[j].name == nn[0];
      assert df.columns[j] in df.columns;
    }
  }

  /** The server's preview axes survive into the selectors: X is the first
      non-numeric column (the row-index entry when there is none) and Y the
      first numeric column, both among the offered options. */
  lemma PreviewAxesResolve(d: Dataset)
    requires PreviewDefaults(d)
    requires |d.nonNumericColumns| > 0 ==> d.nonNumericColumns[0] != RowNumberLabel
    ensures ResolveX(d.chart, d.nonNumericColumns) == DefaultX(d)
    ensures Assigned(XOptions(d.nonNumericColumns), DefaultX(d)) == DefaultX(d)
    ensures ResolveY(d.chart, d.numericColumns) == Some(d.numericColumns[0])
    ensures Assigned(YOptions(d.numericColumns), d.numericColumns[0]) == d.numericColumns[0]
  {
    ResolvedXOffered(d.chart, d.nonNumericColumns);
    assert OptionValues(YOptions(d.numericColumns))[0] == d.numericColumns[0];
  }

  /** Populating the selectors from such a dataset selects the preview's
      axes and leaves exactly one live chart drawing them. */
  lemma PopulateDrawsPreviewAxes(w: View)
    requires Valid(w.chart) && PreviewDefaults(w.state)
    requires |w.state.nonNumericColumns| > 0 ==> w.state.nonNumericColumns[0] != RowNumberLabel
    ensures var d := w.state; var r := PopulateSelects(w);
      && r.xSelect.value == DefaultX(d)
      && r.ySelect.value == d.numericColumns[0]
      && r.chart.handle.Some? && |r.chart.live| == 1
      && r.chart.handle.value.seriesLabel == d.numericColumns[0]
      && r.chart.handle.value.labels == BuildChartData(d.rows, d.numericData, DefaultX(d), d.numericColumns[0]).labels
      && r.chart.handle.value.values == BuildChartData(d.rows, d.numericData, DefaultX(d), d.numericColumns[0]).values
  {
    PreviewAxesResolve(w.state);
    assert XKey(PopulateSelects(w)) == DefaultX(w.state);
  }

  /** The same, for the submit handler receiving the dataset. */
  lemma ReceiveDrawsPreviewAxes(v: View, d: Dataset)
    requires Valid(v.chart) && PreviewDefaults(d)
    requires |d.nonNumericColumns| > 0 ==> d.nonNumericColumns[0] != RowNumberLabel
    ensures var r := Submit(v, Ok(d));
      && r.xSelect.value == DefaultX(d)
      && r.ySelect.value == d.numericColumns[0]
      && r.chart.handle.Some? && |r.chart.live| == 1
      && r.chart.handle.value.seriesLabel == d.numericColumns[0]
      && r.chart.handle.value.labels == BuildChartData(d.rows, d.numericData, DefaultX(d), d.numericColumns[0]).labels
      && r.chart.handle.value.values == BuildChartData(d.rows, d.numericData, DefaultX(d), d.numericColumns[0]).values
  {
    var shown := Received(v, d);
    PopulateDrawsPreviewAxes(shown);
  }

  /** When the first numeric column's series holds one coerced cell per
      record, the page's bars are exactly those cells. */
  lemma ReceiveDrawsSeries(v: View, d: Dataset, cells: seq<Scalar>)
    requires Valid(v.chart) && PreviewDefaults(d)
    requires |d.nonNumericColumns| > 0 ==> d.nonNumericColumns[0] != RowNumberLabel
    requires d.numericColumns[0] in d.numericData
    requires |d.numericData[d.numericColumns[0]]| == |d.rows| == |cells|
    requires forall i :: 0 <= i < |cells| ==> d.numericData[d.numericColumns[0]][i] == Some(Coerce(cells[i]))
    ensures var c := Submit(v, Ok(d)).chart.handle;
      && c.Some? && |c.value.values| == |cells|
      && forall i :: 0 <= i < |cells| ==> c.value.values[i] == Coerce(cells[i])
  {
    ReceiveDrawsPreviewAxes(v, d);
  }

  /** A successful upload with a numeric column ends with exactly one live
      chart plotting the server's default axes, one bar per row, whose
      values are the coerced cells of the first numeric column `k`. */
  lemma UploadDrawsDefaultChart(v: View, df: DataFrame, k: nat)
    requires Valid(v.chart)
    requires WellFormed(df) && FirstNumeric(df, k)
    requires forall t: nat :: FirstText(df, t) ==> df.columns[t].name != RowNumberLabel
    ensures var d := Shape(df); var r := Submit(v, Ok(d)); var c := r.chart.handle;
      && |d.numericColumns| > 0
      && r.xSelect.value == DefaultX(d)
      && r.ySelect.value == df.columns[k].name
      && c.Some? && |r.chart.live| == 1
      && c.value.labels == BuildChartData(d.rows, d.numericData, DefaultX(d), d.numericColumns[0]).labels
      && |c.value.labels| == df.height
      && |c.value.values| == |df.columns[k].cells|
      && forall i :: 0 <= i < |c.value.values| ==> c.value.values[i] == Coerce(df.columns[k].cells[i])
  {
    var d := Shape(df);
    ShapeHasPreviewDefaults(df, k);
    if |d.nonNumericColumns| > 0 {
      assert d.nonNumericColumns[0] in d.columns;
      var j :| 0 <= j < |df.columns| && df.columns[j].name == d.nonNumericColumns[0];
      ShapeClassifiesByDtype(df, j);
      var t := FirstTextOf(df, j);
      ShapeTextHead(df, t);
    }
    ReceiveDrawsPreviewAxes(v, d);
    ShapeFirstSeries(df, k);
    assert df.columns[k] in df.columns;
    ReceiveDrawsSeries(v, d, df.columns[k].cells);
  }

  /** A sheet with a column of non-numeric dtype has a first one. */
  lemma {:induction false} FirstTextOf(df: DataFrame, j: nat) returns (t: nat)
    requires j < |df.columns| && !df.columns[j].numericDtype
    ensures FirstText(df, t) && t <= j
    decreases j
  {
    if i :| 0 <= i < j && !df.columns[i].numericDtype {
      t := FirstTextOf(df, i);
    } else {
      t := j;
    }
  }

  /** The label of a present, non-null cell is its text, or "(空)" when that
      text is empty. */
  lemma CellLabelOfPresentCell(rows: seq<Row>, nd: map<string, Series>, x: string, y: string, i: nat)
    requires i < |rows| && x != RowIndexKey && x in rows[i] && rows[i][x] != Null
    ensures BuildChartData(rows, nd, x, y).labels[i] ==
              (if ToStr(rows[i][x]) == "" then EmptyLabel else ToStr(rows[i][x]))
  {
  }

  /** Plotted against a text column, the page's default labels are the
      server preview's labels, except that a blank cell reads "(空)" rather
      than "". */
  lemma PageLabelsFollowPreviewText(df: DataFrame, k: nat, t: nat, i: nat)
    requires WellFormed(df) && FirstNumeric(df, k) && FirstText(df, t) && i < df.height
    requires df.columns[t].name != RowNumberLabel && df.columns[t].name != RowIndexKey
    ensures var d := Shape(df);
      && d.chart.Some? && |d.numericColumns| > 0 && |d.chart.value.labels| == df.height
      && var page := BuildChartData(d.rows, d.numericData, DefaultX(d), d.numericColumns[0]).labels;
         page[i] == (if d.chart.value.labels[i] == "" then EmptyLabel else d.chart.value.labels[i])
  {
    var d := Shape(df);
    var x := df.columns[t].name;
    ShapeNumericHead(df, k);
    ShapeTextHead(df, t);
    ShapeChartTextLabels(df, k, t);
    ShapeRecords(df, i, t);
    CellLabelOfPresentCell(d.rows, d.numericData, x, d.numericColumns[0], i);
  }

  /** Plotted against row positions, the page's labels are the preview's
      row numbers with the prefix "行 ". */
  lemma PageLabelsFollowPreviewRows(df: DataFrame, i: nat)
    requires WellFormed(df) && AllNumeric(df) && |df.columns| > 0 && i < df.height
    ensures var d := Shape(df);
      && d.chart.Some? && |d.numericColumns| > 0 && |d.chart.value.labels| == df.height
      && var page := BuildChartData(d.rows, d.numericData, DefaultX(d), d.numericColumns[0]).labels;
         page[i] == "行 " + d.chart.value.labels[i]
  {
    ShapeNumericHead(df, 0);
    ShapeAllNumeric(df);
    ShapeChartRowLabels(df);
  }

  /** A dataset whose first text column is called "行号" is read as the
      row-number preview: the page selects the row-index entry and plots row
      positions. */
  lemma ReceiveShadowedAxis(v: View, d: Dataset)
    requires Valid(v.chart) && PreviewDefaults(d)
    requires |d.nonNumericColumns| > 0 && d.nonNumericColumns[0] == RowNumberLabel
    ensures var r := Submit(v, Ok(d));
      && r.xSelect.value == RowIndexKey
      && r.chart.handle.Some?
      && r.chart.handle.value.labels == BuildChartData(d.rows, d.numericData, RowIndexKey, d.numericColumns[0]).labels
  {
    var shown := Received(v, d);
    ResolvedXOffered(d.chart, d.nonNumericColumns);
    assert OptionValues(YOptions(d.numericColumns))[0] == d.numericColumns[0];
    assert XKey(PopulateSelects(shown)) == RowIndexKey;
  }

  /** A text column that is literally called "行号" is indistinguishable from
      the server's row-number axis: when it is the first non-numeric column
      the page plots row positions instead of its contents. */
  lemma RowNumberColumnShadowed(v: View, df: DataFrame, k: nat, t: nat)
    requires Valid(v.chart)
    requires WellFormed(df) && FirstNumeric(df, k) && FirstText(df, t) && df.columns[t].name == RowNumberLabel
    ensures var r := Submit(v, Ok(Shape(df)));
      && r.xSelect.value == RowIndexKey
      && r.chart.handle.Some?
      && |r.chart.handle.value.labels| == df.height
      && forall i :: 0 <= i < |r.chart.handle.value.labels| ==> r.chart.handle.value.labels[i] == RowLabel(i)
  {
    ShapeHasPreviewDefaults(df, k);
    ShapeTextHead(df, t);
    ReceiveShadowedAxis(v, Shape(df));
  }

  /** The page after submitting a file called `filename` whose sheet reads
      as `df`: the server's answer fed to the submit handler. */
  function UploadFrame(v: View, filename: string, df: DataFrame): View
    requires WellFormed(df)
  {
    Submit(v, OutcomeOf(Upload(Request(Some(UploadedFile(filename, Read(df)))))))
  }

  /** A sheet with one text column `a` and one numeric column `b`. */
  function TwoColumnFrame(a: string, b: string, texts: seq<Scalar>, numbers: seq<Scalar>): DataFrame {
    DataFrame([Column(a, false, texts), Column(b, true, numbers)], |texts|)
  }

  lemma TwoColumnShape(a: string, b: string, texts: seq<Scalar>, numbers: seq<Scalar>)
    requires a != "" && b != "" && a != b && |texts| == |numbers|
    requires forall i :: 0 <= i < |numbers| ==> NumericCell(numbers[i])
    ensures WellFormed(TwoColumnFrame(a, b, texts, numbers))
    ensures var df := TwoColumnFrame(a, b, texts, numbers); var d := Shape(df);
      && d.numericColumns == [b] && d.nonNumericColumns == [a]
      && |d.rows| == |texts|
      && (forall i :: 0 <= i < |texts| ==> a in d.rows[i] && d.rows[i][a] == Sanitize(texts[i]))
      && b in d.numericData && |d.numericData[b]| == |numbers|
      && (forall i :: 0 <= i < |numbers| ==> d.numericData[b][i] == Some(Coerce(numbers[i])))
  {
    var df := TwoColumnFrame(a, b, texts, numbers);
    var ca := df.columns[0];
    var cb := df.columns[1];
    assert WellFormed(df);
    var d := Shape(df);
    assert [ca, cb][1..] == [cb];
    assert [cb][1..] == [];
    assert NumericColumns([cb]) == [b];
    assert d.numericColumns == [b];
    assert Names(df.columns) == [a, b];
    assert [a, b][1..] == [b];
    assert [b][1..] == [];
    assert NonNumericColumns([b], [b]) == [];
    assert NonNumericColumns([a, b], [b]) == [a];
    assert d.nonNumericColumns == NonNumericColumns(Names(df.columns), d.numericColumns);
    forall i | 0 <= i < |texts|
      ensures a in d.rows[i] && d.rows[i][a] == Sanitize(texts[i])
    {
      ShapeRecords(df, i, 0);
    }
    ShapeNumericData(df, 1);
  }

  /** A named, non-empty sheet reaches the page as a success. */
  lemma UploadFrameReceives(v: View, filename: string, df: DataFrame)
    requires WellFormed(df) && filename != "" && !IsEmpty(df)
    ensures UploadFrame(v, filename, df) == Submit(v, Ok(Shape(df)))
  {
  }

  /** What the page draws for a dataset shaped like a two-column sheet. */
  lemma ReceiveTwoColumn(v: View, d: Dataset, a: string, b: string, texts: seq<Scalar>, numbers: seq<Scalar>)
    requires Valid(v.chart) && PreviewDefaults(d)
    requires d.numericColumns == [b] && d.nonNumericColumns == [a] && a != RowNumberLabel && a != RowIndexKey
    requires |d.rows| == |texts| == |numbers|
    requires forall i :: 0 <= i < |texts| ==> a in d.rows[i] && d.rows[i][a] == Sanitize(texts[i])
    requires b in d.numericData && |d.numericData[b]| == |numbers|
    requires forall i :: 0 <= i < |numbers| ==> d.numericData[b][i] == Some(Coerce(numbers[i]))
    ensures var r := Submit(v, Ok(d));
      && r.xSelect.value == a && r.ySelect.value == b
      && r.chart.handle.Some?
      && |r.chart.handle.value.labels| == |texts|
      && (forall i :: 0 <= i < |texts| ==>
            r.chart.handle.value.labels[i] ==
              (if IsBlank(Some(Sanitize(texts[i]))) then EmptyLabel else ToStr(Sanitize(texts[i]))))
      && |r.chart.handle.value.values| == |numbers|
      && (forall i :: 0 <= i < |numbers| ==> r.chart.handle.value.values[i] == Coerce(numbers[i]))
  {
    ReceiveDrawsPreviewAxes(v, d);
  }

  /** Uploading a two-column sheet selects its text column as X and its
      numeric column as Y and charts them. */
  lemma TwoColumnUpload(v: View, a: string, b: string, texts: seq<Scalar>, numbers: seq<Scalar>, filename: string)
    requires Valid(v.chart)
    requires a != "" && b != "" && a != b && |texts| == |numbers| > 0
    requires forall i :: 0 <= i < |numbers| ==> NumericCell(numbers[i])
    requires a != RowNumberLabel && a != RowIndexKey && filename != ""
    ensures WellFormed(TwoColumnFrame(a, b, texts, numbers))
    ensures var r := UploadFrame(v, filename, TwoColumnFrame(a, b, texts, numbers));
      && r.xSelect.value == a && r.ySelect.value == b
      && r.chart.handle.Some?
      && |r.chart.handle.value.labels| == |texts|
      && (forall i :: 0 <= i < |texts| ==>
            r.chart.handle.value.labels[i] ==
              (if IsBlank(Some(Sanitize(texts[i]))) then EmptyLabel else ToStr(Sanitize(texts[i]))))
      && |r.chart.handle.value.values| == |numbers|
      && (forall i :: 0 <= i < |numbers| ==> r.chart.handle.value.values[i] == Coerce(numbers[i]))
  {
    var df := TwoColumnFrame(a, b, texts, numbers);
    TwoColumnShape(a, b, texts, numbers);
    var d := Shape(df);
    assert PreviewDefaults(d) by {
      assert FirstNumeric(df, 1);
      ShapeHasPreviewDefaults(df, 1);
    }
    ReceiveTwoColumn(v, d, a, b, texts, numbers);
    UploadFrameReceives(v, filename, df);
  }

  lemma NameScoreValues(labels: seq<string>, values: seq<int>, names: seq<Scalar>, scores: seq<Scalar>)
    requires names == [Str("A"), Str("B")] && scores == [Num(5), Null]
    requires |labels| == |names|
    requires forall i :: 0 <= i < |names| ==>
               labels[i] == (if IsBlank(Some(Sanitize(names[i]))) then EmptyLabel else ToStr(Sanitize(names[i])))
    requires |values| == |scores| && forall i :: 0 <= i < |scores| ==> values[i] == Coerce(scores[i])
    ensures labels == ["A", "B"] && values == [5, 0]
  {
    assert labels[0] == "A" && labels[1] == "B";
    assert values[0] == 5 && values[1] == 0;
  }

  /** A sheet with a text column "Name" holding A and B, and a numeric
      column "Score" holding 5 and a missing cell. Uploading it selects
      "Name" and "Score" and charts the labels A, B with the values 5 and 0. */
  lemma NameScoreScenario(v: View, a: string, b: string, names: seq<Scalar>, scores: seq<Scalar>, filename: string)
    requires Valid(v.chart)
    requires a == "Name" && b == "Score" && filename == "scores.xlsx"
    requires names == [Str("A"), Str("B")] && scores == [Num(5), Null]
    ensures WellFormed(TwoColumnFrame(a, b, names, scores))
    ensures var r := UploadFrame(v, filename, TwoColumnFrame(a, b, names, scores));
      && r.xSelect.value == a && r.ySelect.value == b
      && r.chart.handle.Some?
      && r.chart.handle.value.labels == ["A", "B"]
      && r.chart.handle.value.values == [5, 0]
  {
    assert a != RowNumberLabel && a != RowIndexKey;
    TwoColumnUpload(v, a, b, names, scores, filename);
    var r := UploadFrame(v, filename, TwoColumnFrame(a, b, names, scores));
    NameScoreValues(r.chart.handle.value.labels, r.chart.handle.value.values, names, scores);
  }
}
