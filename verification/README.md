# AiTable view model in Dafny

AiTable is a small Flask application. A user uploads an Excel sheet. The
server (`app.py`) parses it with pandas and answers with a JSON dataset. The
browser (`static/js/main.js`) shows a preview table of the first 20 rows and
draws a bar chart of two user-selected columns.

This project models the deterministic logic between those I/O edges:

- `Server` (server.dfy): the `upload` endpoint after parsing. It covers the
  400 rejections, the order-preserving split into numeric and non-numeric
  columns, the `numeric_data` series (missing or non-numeric cells become
  0), the records with missing cells turned into `""`, and the default
  `chart_preview`. The preview uses the first numeric column as Y. Its X is
  the first non-numeric column, or `"行号"` with labels `"1".."n"`.
- `Wire` (wire.dfy): the JSON dataset. The browser copies it into its
  `state`.
- `ChartData` (chartdata.dfy): `buildChartData`. It covers the row-index
  sentinel `__row_index__`, the `"(空)"` label for blank cells and zero-fill
  for missing values.
- `TablePreview` (table.dfy): `renderTable` as a structure. It is either a
  placeholder, or a header, at most 20 body rows and a caption carrying the
  total.
- `AxisSelects` (axis.dfy): how `populateSelects` picks the requested X and
  Y, and the two option lists. It also holds the browser rule for the value
  a `<select>` ends up holding.
- `ChartLifecycle` (lifecycle.dfy): the single chart handle. Build creates
  the chart when the handle is empty and otherwise mutates it in place.
  Release destroys it and clears the handle. The model counts constructed
  instances and tracks which are live, so "at most one chart" can be stated.
- `View` (view.dfy): the page state and the event handlers: form submit over
  an abstract outcome, the two `change` listeners, `populateSelects` and
  `createOrUpdateChart`.
- `EndToEnd` (endtoend.dfy): how the browser reads the server's response,
  and lemmas that connect what `upload` produces to what the page then
  shows.

`Common` (common.dfy) holds the shared option type and JSON scalars. It also
holds decimal rendering of numbers, with a parse function proved to invert
it, and the subsequence relation used to state "order-preserving".

Modelling choices:

- Numbers are integers. Python's `str` and JavaScript's `String` are both
  `Common.ToStr`; the two agree on strings and integers.
- pandas' dtype test is data: each `Column` carries a `numericDtype` flag.
  A column of numeric dtype holds only numbers and missing cells (NaN). On
  such a column `to_numeric(errors="coerce")` changes nothing, and
  `fillna(0.0)` turns the missing cells into 0; that is `Server.Coerce`.
- `Server.WellFormed` requires that every column has one cell per row, that
  headers are non-empty and distinct, and that numeric-dtype columns hold
  only numbers and missing cells. `read_excel` produces such frames for a
  sheet whose headers are text: it renames blank and repeated headers.
- The value of a `<select>` follows the browser. Assigning a value that no
  option has leaves the select reading `""`. Without an assignment, the
  option marked `selected` is chosen, else the first option. This is why
  `createOrUpdateChart`'s `xSelect.value || ROW_INDEX_KEY` fallback matters.
- The server's row-number label `"行号"` is compared by name on the client.
  A real text column with that name is therefore read as the row-index axis
  (`EndToEnd.RowNumberColumnShadowed`). A column named `__row_index__`
  collides with the row-index option in the same way. No lemma covers that
  case.

## Model

| member | source | states |
|---|---|---|
| `Server.NumericColumns` | app.py:39-41 | the numeric list holds exactly the names of numeric-dtype columns |
| `Server.NumericColumnsInOrder` | app.py:39-41 | the numeric list is a subsequence of the column order |
| `Server.NonNumericColumns` | app.py:42 | the non-numeric list holds exactly the names that are not in the numeric list |
| `Server.NonNumericColumnsInOrder` | app.py:42 | the non-numeric list is a subsequence of the column order |
| `Server.NumericColumnsHead` | app.py:39-41 | the numeric list starts with the first column of numeric dtype |
| `Server.NonNumericColumnsHead` | app.py:42 | the non-numeric list starts with the first name that is not numeric |
| `Server.NonNumericColumnsNone` | app.py:42 | when every name is numeric, the non-numeric list is empty |
| `Server.Sanitize` | app.py:44 | `fillna("")` leaves no missing cell and changes nothing else |
| `Server.Coerce` | app.py:52 | a number is kept, and a non-zero result is always the cell's own number, so a missing cell reads as 0 |
| `Server.RowAt` | app.py:45 | a record's keys are exactly the column names |
| `Server.Shape` | app.py:38-84 | the columns are the sheet's headers; there is one record per row; numeric and non-numeric lists are disjoint and together cover the columns; `numericData` is keyed by exactly the numeric columns; the preview is absent iff there is no numeric column |
| `Server.ShapeKeepsColumnOrder` | app.py:39-42 | both column lists of the dataset keep the sheet's column order |
| `Server.ShapeClassifiesByDtype` | app.py:39-42 | a column is listed as numeric iff its dtype is numeric, and as non-numeric iff it is not |
| `Server.ShapeRecords` | app.py:44-45 | record i maps each column name to that column's cell i, with a missing cell as `""` |
| `Server.ShapeNumericData` | app.py:50-53 | each numeric series has one entry per row, no holes, and entry i is the coerced cell i |
| `Server.ShapeNumericHead` | app.py:39-41 | the dataset's first numeric column is the sheet's first column of numeric dtype |
| `Server.ShapeTextHead` | app.py:39-42 | the dataset's first non-numeric column is the sheet's first column of non-numeric dtype |
| `Server.ShapeAllNumeric` | app.py:42 | a sheet whose every column is numeric has no non-numeric column |
| `Server.ShapeChartAxes` | app.py:55-70 | given a column of numeric dtype, there is a preview; its Y is the sheet's first numeric column and its values are that column's series; its X is the first non-numeric column, else `"行号"` |
| `Server.ShapeFirstSeries` | app.py:50-55 | the series of the sheet's first numeric column heads the numeric list, has one entry per record and holds that column's coerced cells |
| `Server.ShapeChartTextLabels` | app.py:57-60 | with a numeric and a text column, the preview's X is the sheet's first text column, with one label per row: that column's cell as text, a missing cell as `""` |
| `Server.ShapeChartRowLabels` | app.py:61-63 | when every column is numeric, the preview's X is `"行号"` and its labels are `"1".."n"`, one per row |
| `Server.Upload` | app.py:19-84 | the status is 200 or 400; it is 200 exactly when a file part with a non-empty name was read into a non-empty sheet, and then the body is the dataset; every error body carries a non-empty message |
| `Server.UploadRejects` | app.py:20-36 | a missing file part, an empty file name, an unsupported format, a read failure or an empty sheet each give status 400 with the matching message |
| `Common.ParseNatToString` | app.py:62 | reading a rendered row number back gives the number |
| `Common.NatToStringInjective` | app.py:62 | distinct row numbers render to distinct texts |
| `ChartData.BuildChartData` | static/js/main.js:150-163 | one label and one value per row; on the row-index axis label i is `"行 "` followed by i+1; otherwise a blank cell (undefined, null or `""`) gives `"(空)"` and any other cell gives its text; value i is series entry i when present, else 0, and all 0 when the Y column has no series |
| `ChartData.RowIndexLabelsIgnoreContents` | static/js/main.js:151-154 | on the row-index axis the labels depend only on the number of rows |
| `ChartData.RowIndexLabelsDistinct` | static/js/main.js:152-153 | on the row-index axis no two bars share a label |
| `ChartData.ValuesFollowCompleteSeries` | static/js/main.js:159-160 | for a series with one entry per row and no holes, the values are exactly that series |
| `TablePreview.RenderRow` | static/js/main.js:66-70 | a body row has one cell per column, and each cell is the row's value for that column, or `""` when the value is missing or null |
| `TablePreview.RenderRowReadsOnlyColumns` | static/js/main.js:68 | two rows that agree on the shown columns print alike, whatever other keys they hold |
| `TablePreview.RenderTable` | static/js/main.js:45-88 | the placeholder appears iff there are no columns; otherwise the header is the columns, the body is the first min(20, n) rows in order, and there is a caption iff n > 20, carrying the true total |
| `TablePreview.BodyIgnoresHiddenRows` | static/js/main.js:51-52 | rows after the twentieth never affect the body |
| `TablePreview.ShortTableShownInFull` | static/js/main.js:51-79 | a dataset of at most 20 rows is shown whole and without a caption |
| `TablePreview.MissingCellIsEmpty` | static/js/main.js:68 | a missing or null cell prints as `""` |
| `AxisSelects.ResolveX` | static/js/main.js:104-107 | X is the row-index key when the preview's X is `"行号"`; otherwise the preview's X when present; otherwise the first non-numeric column; otherwise the row-index key |
| `AxisSelects.ResolveY` | static/js/main.js:108 | Y is the preview's Y when present, otherwise the first numeric column, otherwise nothing |
| `AxisSelects.XOptions` | static/js/main.js:110-113 | the X option values are the row-index key followed by the non-numeric columns in order; the first option is captioned `"行号"` and the others by their value |
| `AxisSelects.YOptions` | static/js/main.js:130-132 | the Y option values are exactly the numeric columns in order |
| `AxisSelects.Assigned` | static/js/main.js:137-140 | a select never reads a value it does not offer: after an assignment it reads the assigned value when some option has it, and `""` otherwise |
| `AxisSelects.AssignedIdempotent` | static/js/main.js:137-140 | assigning a select's own value back to it changes nothing |
| `AxisSelects.Preselected` | static/js/main.js:90-98 | a refilled select with options reads one of them: the option marked `selected` when there is one, else the first; without options it reads `""` |
| `AxisSelects.ResolvedXOffered` | static/js/main.js:104-113 | when the preview's X is absent, `"行号"` or a non-numeric column, the resolved X is an option and assigning it keeps it |
| `AxisSelects.ResolvedYOffered` | static/js/main.js:108-132 | when there is a numeric column and the preview's Y is absent or numeric, the resolved Y is an option |
| `ChartLifecycle.Build` | static/js/main.js:175-211 | afterwards a chart shows the given labels, series label and values; an existing chart keeps its identity and nothing is constructed; otherwise exactly one new chart is constructed; at most one chart stays live |
| `ChartLifecycle.Release` | static/js/main.js:123-126 | afterwards there is no handle and the destroyed chart is no longer live |
| `ChartLifecycle.BuildIdempotent` | static/js/main.js:206-211 | building again with the same data constructs nothing and changes nothing |
| `View.CreateOrUpdateChart` | static/js/main.js:165-212 | with no Y selection nothing changes; otherwise a chart exists showing the data for the current selections, labelled by Y; an existing chart is reused; only the chart changes; exactly one chart stays live |
| `View.PopulateSelects` | static/js/main.js:100-148 | the X options are the row-index key and the non-numeric columns; with no numeric column both selects end disabled, Y has no options, the chart is destroyed, the canvas is hidden and the fixed message is shown; otherwise both selects are enabled, the Y options are the numeric columns, the canvas is shown and the message hidden; in both cases X ends on the resolved X when it is offered, else `""`; with a numeric column, Y ends on the resolved Y when that is a numeric column; with a numeric column and a Y selection, the chart draws the data for the selected axes |
| `View.OnAxisChange` | static/js/main.js:214-224 | the pick becomes the select's value; without numeric columns the chart is untouched; otherwise the chart shows the data for the new selection |
| `View.Submit` | static/js/main.js:226-270 | no file: only the "select a file" error is shown; server error: `payload.error` or the fallback text is shown, both sections are hidden and state and chart are unchanged; transport failure: the fixed retry text is shown and both sections are hidden; success: state is the payload, the error is cleared, the table is rendered and both sections are shown; after every request the status is `""` |
| `View.CreateOrUpdateChartIdempotent` | static/js/main.js:165-212 | a second call with unchanged selections constructs nothing and leaves labels and values as they were |
| `View.PopulateSelectsIdempotent` | static/js/main.js:100-148 | repopulating from an unchanged state changes nothing |
| `View.FailedUploadKeepsState` | static/js/main.js:249-266 | a failed upload applies nothing to the dataset, selectors, table or chart |
| `View.UploadWithoutNumericColumns` | static/js/main.js:115-127 | a dataset without numeric columns leaves no chart alive, both selectors disabled and no Y options |
| `View.RunKeepsValid` | static/js/main.js:214-270 | every sequence of submits and selector changes keeps the handle holding the only live chart, if any |
| `View.AtMostOneLive` | static/js/main.js:123-211 | from a page without a chart, no sequence of submits and selector changes leaves more than one chart alive |
| `EndToEnd.OutcomeOf` | static/js/main.js:242-254 | never "no file"; a success exactly for a 2xx response with a dataset, carrying that dataset; a server error exactly for a non-2xx response, carrying `payload.error` exactly when the body has one |
| `EndToEnd.UploadOutcome` | static/js/main.js:247-253 | every answer of `upload` reads as a success carrying the shaped sheet, exactly when the status is 200, or else as a server error with a non-empty message; never as a transport failure |
| `EndToEnd.RejectionShownVerbatim` | static/js/main.js:249-253 | every 400 from `upload` shows its message verbatim, hides both sections, clears the status and changes neither state nor chart |
| `EndToEnd.ShapeHasPreviewDefaults` | app.py:55-63 | a sheet with a column of numeric dtype gives a preview whose Y is the first numeric column and whose X is the first non-numeric column or `"行号"`, all non-empty names |
| `EndToEnd.ShapeTextNamed` | app.py:42 | the first non-numeric column is a non-empty header of the sheet, and it is not `"行号"` when no header is |
| `EndToEnd.PreviewAxesResolve` | static/js/main.js:104-140 | for such a preview the selectors end on the first non-numeric column (else the row-index key) and the first numeric column |
| `EndToEnd.PopulateDrawsPreviewAxes` | static/js/main.js:100-148 | populating from such a dataset selects the preview's axes and leaves exactly one live chart drawing them |
| `EndToEnd.ReceiveDrawsPreviewAxes` | static/js/main.js:256-261 | a successful submit of such a dataset selects the preview's axes and leaves exactly one live chart drawing them |
| `EndToEnd.ReceiveDrawsSeries` | static/js/main.js:159-160 | when the first numeric column's series holds one coerced cell per record, the bars the page draws are exactly those cells |
| `EndToEnd.UploadDrawsDefaultChart` | app.py:50-70 | after a successful upload of a sheet with a numeric column whose first non-numeric column, if any, is not called `"行号"`, the page selects the first numeric column as Y, exactly one chart is live with one bar per row, and bar i is that column's coerced cell i |
| `EndToEnd.CellLabelOfPresentCell` | static/js/main.js:155-156 | a present non-null cell is labelled by its text, or `"(空)"` when the text is empty |
| `EndToEnd.PageLabelsFollowPreviewText` | static/js/main.js:155-156 | for a sheet with a numeric column and a text column not named like the row axis, the page's default labels are the server preview's labels with `""` shown as `"(空)"` |
| `EndToEnd.PageLabelsFollowPreviewRows` | static/js/main.js:152-153 | for an all-numeric sheet, the page's default labels are the preview's row numbers prefixed by `"行 "` |
| `EndToEnd.ReceiveShadowedAxis` | static/js/main.js:104-107 | for a dataset whose first text column is called `"行号"`, the page selects the row-index entry and plots row positions |
| `EndToEnd.RowNumberColumnShadowed` | static/js/main.js:104-107 | when the sheet's first text column is itself called `"行号"`, the page selects the row-index entry and plots row positions instead of the column's contents |
| `EndToEnd.UploadFrameReceives` | app.py:72-84 | a file with a name whose sheet is non-empty reaches the page as a success that carries the shaped dataset |
| `EndToEnd.ReceiveTwoColumn` | static/js/main.js:150-163 | for a dataset shaped like a text column and a numeric column, the page selects them and charts each text (blank as `"(空)"`) against its number |
| `EndToEnd.TwoColumnUpload` | app.py:39-70 | uploading a sheet with one text and one numeric column selects them as X and Y, and charts the text cells (blank as `"(空)"`) against the coerced numbers |
| `EndToEnd.NameScoreScenario` | static/js/main.js:150-163 | the sheet Name = A, B / Score = 5, missing charts labels A, B with values 5, 0 |

## Left out

- Reading the workbook (`pd.read_excel`) is not modelled. Its result enters as `Server.ReadOutcome`.
- The dtype test and numeric coercion are not modelled as pandas computes them: pandas is a foreign library.
- Boolean cells are not modelled. pandas gives a column of booleans a numeric dtype and coerces `True` to 1; `Common.Scalar` has no booleans.
- `Server.Upload`: headers are modelled as strings. pandas keeps a numeric or date header cell as a non-string label (a header row `Name | 2023`). The records and `numeric_data` then have keys of mixed types, which `jsonify` cannot sort, so the source answers 500 with an HTML page; the page's `response.json()` then throws and the retry text is shown (`static/js/main.js:262-266`). The model's claim that every named, non-empty sheet succeeds holds only for sheets with text headers. It also holds only for sheets without time-of-day or duration cells: openpyxl reads those as `datetime.time` and `timedelta` objects, which Flask's JSON encoder cannot serialize, so the source answers 500 there as well.
- Date, time and duration cells are not modelled: `Common.Scalar` has only null, text and numbers. An Excel date column has a non-numeric dtype, so it can be the first X column.
- `EndToEnd.UploadOutcome`: holds only for sheets with text headers and without time or duration cells. For those sheets the source answers 500 with an HTML page, `response.json()` throws, and the page shows the retry text (`static/js/main.js:247`, `static/js/main.js:262-266`), which is a transport failure.
- `EndToEnd.UploadFrameReceives`: holds only for sheets with text headers and without time or duration cells. A sheet holding such a cell reaches the page as the retry text, not as a dataset.
- `EndToEnd.PageLabelsFollowPreviewText`: holds only for text and number cells in the X column. For a date column the preview's labels come from `astype(str)` (ISO text such as `2024-01-01`), while the page's labels come from the records, which `jsonify` sends as HTTP dates (`Mon, 01 Jan 2024 00:00:00 GMT`). The two then differ.
- Flask routing, `render_template`, the `/` page and `app.run` are left out: they are framework glue.
- `fetch`, `FormData`, `response.json()` and `console.error` are left out. They are I/O and are abstracted as `View.Outcome`.
- The initial page markup is not part of this model. No initial view is assumed: lemmas take any view whose chart handle is valid, and `View.AtMostOneLive` any view without a chart.
- DOM text and markup are left out: `innerHTML` templates, CSS class toggling and element creation. The model keeps the structure and visibility flags instead.
- Chart.js construction options and styling are left out (`static/js/main.js:176-205`). A chart is an opaque instance with labels, a series label and values.
- Floating-point values are not modelled: nothing computes with them. The formatting differences between Python `str` and JavaScript `String` for floats and booleans are left out too.
- Overlapping submissions are not modelled: each `Submit` is one atomic step. The source does not guard against them.
- The transient `"上传并分析中..."` status exists only between the request and its answer. The model sets it and clears it within one step.
- `View.OnAxisChange`: does not model that a disabled select fires no `change` event. The handler's own guard is what the model states.
- `View.Submit`: a payload is a full `Dataset`, so `Object.assign` replaces every field. A partial JSON object, which would merge with the old state, is not modelled.
- `ChartData.BuildChartData`: does not model property lookup through JavaScript's object prototype. For example, a column named `constructor` would read an inherited function rather than `undefined`.
- `EndToEnd.OutcomeOf`: a 2xx response carrying an error body makes `renderTable` throw. This is modelled as the transport-failure message. The server never sends such a response.
