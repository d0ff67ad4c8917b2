/** The JSON document `POST /api/upload` answers with on success. The browser
    copies it wholesale into its `state` object, so the same type is both the
    server's output and the client's state. */
module Wire {
  import opened Common

  /** One spreadsheet row: column name to cell. A key that is absent reads as
      `undefined` in the browser. */
  type Row = map<string, Scalar>

  /** A numeric column's values by row index; `None` is a JSON `null` hole. */
  type Series = seq<Option<int>>

  /** The label the server uses for the synthetic row-number X axis, which is
      also the caption of the browser's row-index option. */
  const RowNumberLabel: string := "行号"

  /** The server's suggested chart: axis names, and the labels and values it
      would plot. */
  datatype ChartPreview = ChartPreview(
    x: Option<string>,
    y: Option<string>,
    labels: seq<string>,
    values: Series)

  datatype Dataset = Dataset(
    columns: seq<string>,
    rows: seq<Row>,
    numericColumns: seq<string>,
    nonNumericColumns: seq<string>,
    numericData: map<string, Series>,
    chart: Option<ChartPreview>)

  /** `row[key]`: the cell, or `None` for `undefined`. */
  function Lookup(row: Row, key: string): (v: Option<Scalar>)
    ensures v.Some? <==> key in row
    ensures v.Some? ==> v.value == row[key]
  {
    if key in row then Some(row[key]) else None
  }
}
