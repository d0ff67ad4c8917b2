/** The page-level behaviour of main.js: the shared view state and the three
    event handlers (form submit, X change, Y change), together with
    `populateSelects` and `createOrUpdateChart` which they call. The page's
    elements are modelled by what they show: texts, visibility flags, the two
    selects, the table structure and the chart handle. */
module View {
  import opened Common
  import opened Wire
  import opened ChartData
  import opened TablePreview
  import opened AxisSelects
  import opened ChartLifecycle

  const UploadingStatus: string := "上传并分析中..."
  const SelectFileMessage: string := "请先选择需要导入的 Excel 文件。"
  const ServerFallbackMessage: string := "解析 Excel 文件失败。"
  const RetryMessage: string := "上传过程中出现问题，请稍后重试。"
  const NoNumericMessage: string := "Excel 文件中未检测到数值列，无法生成图表。"

  /** Everything the handlers read or write. `error` and `chartMessage` are
      `None` while their element is hidden. */
  datatype View = View(
    state: Dataset,
    chart: Lifecycle,
    xSelect: Select,
    ySelect: Select,
    table: Option<Table>,
    status: string,
    error: Option<string>,
    datasetHidden: bool,
    chartConfigHidden: bool,
    canvasHidden: bool,
    chartMessage: Option<string>)

  /** What a submission ends in, as far as the page can tell. */
  datatype Outcome =
    | NoFile                             // no file chosen in the input
    | ServerError(message: Option<string>) // non-2xx answer with `payload.error`
    | TransportError                     // fetch or JSON parsing threw
    | Ok(payload: Dataset)               // 2xx answer

  datatype Axis = XAxis | YAxis

  /** `xSelect.value || ROW_INDEX_KEY`. */
  function XKey(v: View): (k: string)
    ensures k != ""
  {
    if v.xSelect.value == "" then RowIndexKey else v.xSelect.value
  }

  /** The data the chart would show for the current selections. */
  function CurrentData(v: View): ChartData {
    BuildChartData(v.state.rows, v.state.numericData, XKey(v), v.ySelect.value)
  }

  /** `createOrUpdateChart`: nothing without a Y selection; otherwise build
      the data and create or refresh the one chart. */
  function CreateOrUpdateChart(v: View): (r: View)
    ensures v.ySelect.value == "" ==> r == v
    ensures r == v.(chart := r.chart)
    ensures v.ySelect.value != "" ==>
              && r.chart.handle.Some?
              && r.chart.handle.value.labels == CurrentData(v).labels
              && r.chart.handle.value.values == CurrentData(v).values
              && r.chart.handle.value.seriesLabel == v.ySelect.value
    ensures v.chart.handle.Some? ==> r.chart.created == v.chart.created && r.chart.handle.Some?
    ensures Valid(v.chart) ==> Valid(r.chart)
    ensures Valid(v.chart) && v.ySelect.value != "" ==> |r.chart.live| == 1
  {
    var yKey := v.ySelect.value;
    if yKey == "" then v
    else
      var data := CurrentData(v);
      v.(chart := Build(v.chart, data.labels, yKey, data.values))
  }

  /** `populateSelects`: rebuild both option lists from the state, select the
      resolved axes, and either chart them or, without numeric columns,
      disable the selectors and destroy the chart. */
  function PopulateSelects(v: View): (r: View)
    ensures r.state == v.state && r.table == v.table && r.status == v.status && r.error == v.error
    ensures r.datasetHidden == v.datasetHidden && !r.chartConfigHidden
    ensures OptionValues(r.xSelect.options) == [RowIndexKey] + v.state.nonNumericColumns
    ensures |v.state.numericColumns| == 0 ==>
              && r.xSelect.disabled && r.ySelect.disabled
              && r.ySelect.options == []
              && r.chart.handle.None? && r.chart.created == v.chart.created
              && r.canvasHidden && r.chartMessage == Some(NoNumericMessage)
    ensures |v.state.numericColumns| > 0 ==>
              && !r.xSelect.disabled && !r.ySelect.disabled
              && OptionValues(r.ySelect.options) == v.state.numericColumns
              && !r.canvasHidden && r.chartMessage == None
    ensures r.xSelect.value == Assigned(XOptions(v.state.nonNumericColumns), ResolveX(v.state.chart, v.state.nonNumericColumns))
    ensures |v.state.numericColumns| > 0 && ResolveY(v.state.chart, v.state.numericColumns).value in v.state.numericColumns ==>
              r.ySelect.value == ResolveY(v.state.chart, v.state.numericColumns).value
    ensures |v.state.numericColumns| > 0 && r.ySelect.value != "" ==>
              && r.chart.handle.Some?
              && r.chart.handle.value.labels == CurrentData(r).labels
              && r.chart.handle.value.values == CurrentData(r).values
    ensures Valid(v.chart) ==> Valid(r.chart)
    ensures Valid(v.chart) && |v.state.numericColumns| == 0 ==> r.chart.live == {}
  {
    var xWanted := ResolveX(v.state.chart, v.state.nonNumericColumns);
    var yWanted := ResolveY(v.state.chart, v.state.numericColumns);
    var xOpts := XOptions(v.state.nonNumericColumns);
    if |v.state.numericColumns| == 0 then
      v.(xSelect := Select(xOpts, Assigned(xOpts, xWanted), true),
         ySelect := Select([], "", true),
         chartConfigHidden := false,
         canvasHidden := true,
         chartMessage := Some(NoNumericMessage),
         chart := Release(v.chart))
    else
      var yOpts := YOptions(v.state.numericColumns);
      var yValue := if yWanted.Some? && yWanted.value != "" then Assigned(yOpts, yWanted.value)
                    else Preselected(yOpts, yWanted);
      CreateOrUpdateChart(
        v.(xSelect := Select(xOpts, Assigned(xOpts, xWanted), false),
           ySelect := Select(yOpts, yValue, false),
           chartConfigHidden := false,
           canvasHidden := false,
           chartMessage := None))
  }

  /** The `change` listener of either selector: the user's pick becomes the
      select's value, and the chart is rebuilt only when there are numeric
      columns. */
  function OnAxisChange(v: View, axis: Axis, picked: string): (r: View)
    ensures r.state == v.state
    ensures |v.state.numericColumns| == 0 ==> r.chart == v.chart
    ensures axis == XAxis ==> r.xSelect.value == Assigned(v.xSelect.options, picked) && r.ySelect == v.ySelect
    ensures axis == YAxis ==> r.ySelect.value == Assigned(v.ySelect.options, picked) && r.xSelect == v.xSelect
    ensures |v.state.numericColumns| > 0 && r.ySelect.value != "" ==>
              r.chart.handle.Some? && r.chart.handle.value.labels == CurrentData(r).labels
              && r.chart.handle.value.values == CurrentData(r).values
    ensures Valid(v.chart) ==> Valid(r.chart)
  {
    var chosen := match axis
      case XAxis => v.(xSelect := v.xSelect.(value := Assigned(v.xSelect.options, picked)))
      case YAxis => v.(ySelect := v.ySelect.(value := Assigned(v.ySelect.options, picked)));
    if |v.state.numericColumns| > 0 then CreateOrUpdateChart(chosen) else chosen
  }

  /** The page once a dataset has arrived and before the selectors are
      refilled: the error cleared, the payload copied into the state and the
      table rendered and shown. */
  function Received(v: View, p: Dataset): View {
    v.(error := None, status := UploadingStatus, state := p,
       table := Some(RenderTable(p.columns, p.rows)), datasetHidden := false)
  }

  /** The `submit` listener, from the moment the outcome is known. */
  function Submit(v: View, o: Outcome): (r: View)
    ensures o.NoFile? ==> r == v.(error := Some(SelectFileMessage))
    ensures !o.NoFile? ==> r.status == ""
    ensures o.ServerError? ==>
              && r.error == Some(if o.message.Some? && o.message.value != "" then o.message.value else ServerFallbackMessage)
              && r.datasetHidden && r.chartConfigHidden
              && r.state == v.state && r.chart == v.chart
    ensures o.TransportError? ==>
              && r.error == Some(RetryMessage)
              && r.datasetHidden && r.chartConfigHidden
              && r.state == v.state && r.chart == v.chart
    ensures o.Ok? ==>
              && r.state == o.payload
              && r.error == None
              && !r.datasetHidden && !r.chartConfigHidden
              && r.table == Some(RenderTable(o.payload.columns, o.payload.rows))
    ensures Valid(v.chart) ==> Valid(r.chart)
  {
    var cleared := v.(error := None);
    var pending := cleared.(status := UploadingStatus);
    match o
    case NoFile => cleared.(error := Some(SelectFileMessage))
    case ServerError(m) =>
      var text := if m.Some? && m.value != "" then m.value else ServerFallbackMessage;
      pending.(error := Some(text), datasetHidden := true, chartConfigHidden := true, status := "")
    case TransportError =>
      pending.(error := Some(RetryMessage), datasetHidden := true, chartConfigHidden := true, status := "")
    case Ok(p) =>
      PopulateSelects(Received(v, p)).(status := "")
  }

  /** What the user can do on the page: submit the form, or pick a value in
      one of the selectors. */
  datatype Event =
    | Submitted(outcome: Outcome)
    | Changed(axis: Axis, picked: string)

  function Step(v: View, e: Event): View {
    match e
    case Submitted(o) => Submit(v, o)
    case Changed(axis, picked) => OnAxisChange(v, axis, picked)
  }

  /** The page after a sequence of events, in order. */
  function Run(v: View, events: seq<Event>): View
    decreases |events|
  {
    if |events| == 0 then v else Run(Step(v, events[0]), events[1..])
  }

  // ---------------------------------------------------------------------
  // Properties

  /** Calling `createOrUpdateChart` again with nothing changed constructs no
      new chart and leaves labels and values as they were. */
  lemma CreateOrUpdateChartIdempotent(v: View)
    ensures CreateOrUpdateChart(CreateOrUpdateChart(v)) == CreateOrUpdateChart(v)
  {
    var r := CreateOrUpdateChart(v);
    if v.ySelect.value != "" {
      assert CurrentData(r) == CurrentData(v);
    }
  }

  /** Repopulating the selectors from an unchanged state changes nothing. */
  lemma PopulateSelectsIdempotent(v: View)
    ensures PopulateSelects(PopulateSelects(v)) == PopulateSelects(v)
  {
    var r := PopulateSelects(v);
    if |v.state.numericColumns| > 0 {
      var s := PopulateSelects(r);
      assert s == CreateOrUpdateChart(r.(chart := v.chart).(chart := r.chart)) by {
        assert r.(chart := v.chart).(chart := r.chart) == r;
      }
      CreateOrUpdateChartIdempotent(r.(chart := v.chart));
    }
  }

  /** A failed upload applies nothing: dataset, selectors, table and chart
      are left as they were. */
  lemma FailedUploadKeepsState(v: View, o: Outcome)
    requires o.ServerError? || o.TransportError?
    ensures var r := Submit(v, o);
      r.state == v.state && r.chart == v.chart && r.xSelect == v.xSelect && r.ySelect == v.ySelect && r.table == v.table
  {
  }

  /** A dataset without numeric columns leaves no chart alive, with both
      selectors disabled and no Y options. */
  lemma UploadWithoutNumericColumns(v: View, p: Dataset)
    requires Valid(v.chart) && |p.numericColumns| == 0
    ensures var r := Submit(v, Ok(p));
      && r.chart.handle.None? && r.chart.live == {}
      && r.xSelect.disabled && r.ySelect.disabled && r.ySelect.options == []
      && r.canvasHidden && r.chartMessage == Some(NoNumericMessage)
  {
  }

  /** Every event keeps the chart handle valid, so any run of events does. */
  lemma {:induction false} RunKeepsValid(v: View, events: seq<Event>)
    requires Valid(v.chart)
    ensures Valid(Run(v, events).chart)
    decreases |events|
  {
    if |events| > 0 {
      RunKeepsValid(Step(v, events[0]), events[1..]);
    }
  }

  /** Starting from a page without a chart, no sequence of uploads and
      selector changes ever leaves more than one chart alive. */
  lemma AtMostOneLive(v: View, events: seq<Event>)
    requires v.chart == NoChart
    ensures |Run(v, events).chart.live| <= 1
  {
    RunKeepsValid(v, events);
  }
}
