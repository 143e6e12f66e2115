/**
 * The job functions of the `jobs` module: `load_data`, `extract_fields` and
 * their composition `run_job`, with the drawing left to the renderer.  Its
 * filter is a second copy of the worker's cleaning loop; only the error texts
 * differ, and `RunJobAgreesWithWorker` proves that nothing else does.
 */
module Jobs {
  import opened Wrappers
  import opened PyValue
  import opened KeyValue
  import opened Cleaning
  import opened Plot
  import Worker

  const NoDatasetInRedis: string := "No dataset found in Redis."
  const NoValidXY: string := "No valid x/y data points found."

  /** `load_data`: the stored dataset, unchanged, or the error raised when there is none. */
  function LoadData(st: Store): (r: Result<seq<Row>>)
    reads st`rawData
    ensures r.Err? <==> st.rawData.None?
    ensures r.Err? ==> r.message == NoDatasetInRedis
    ensures r.Ok? ==> Some(r.value) == st.rawData
  {
    match st.rawData
    case None => Err(NoDatasetInRedis)
    case Some(rows) => Ok(rows)
  }

  /** The two lists `extract_fields` returns. */
  datatype Fields = Fields(xs: seq<Num>, ys: seq<Num>)

  /** What `extract_fields(data, x_field, y_field)` returns or raises. */
  function ExtractSpec(data: seq<Row>, xField: Value, yField: Value): Result<Fields> {
    var points := Kept(data, xField, yField);
    if points == [] then Err(NoValidXY) else Ok(Fields(Xs(points), Ys(points)))
  }

  /**
   * `extract_fields`: one x and one y per row whose two fields convert, in
   * row order; the error exactly when no row converts.
   */
  method ExtractFields(data: seq<Row>, xField: Value, yField: Value) returns (r: Result<Fields>)
    ensures r == ExtractSpec(data, xField, yField)
    ensures r.Err? <==> forall i :: 0 <= i < |data| ==> !Keeps(data[i], xField, yField)
    ensures r.Err? ==> r.message == NoValidXY
    ensures r.Ok? ==> 0 < |r.value.xs| == |r.value.ys| <= |data|
  {
    var xs, ys := CleanRows(data, xField, yField);
    KeptEmptyIff(data, xField, yField);
    if xs == [] || ys == [] {
      return Err(NoValidXY);
    }
    return Ok(Fields(xs, ys));
  }

  /** What `run_job(x_field, y_field)` returns or raises, given the stored dataset. */
  function RunJobSpec(data: Option<seq<Row>>, xField: Value, yField: Value, render: Renderer): Result<Png> {
    match data
    case None => Err(NoDatasetInRedis)
    case Some(rows) =>
      match ExtractSpec(rows, xField, yField)
      case Err(e) => Err(e)
      case Ok(f) => render(ScatterChart(f.xs, f.ys, xField, yField))
  }

  /** `run_job`: load, extract, draw; a failure of either of the first two propagates. */
  method RunJob(st: Store, xField: Value, yField: Value, render: Renderer) returns (r: Result<Png>)
    ensures r == RunJobSpec(st.rawData, xField, yField, render)
  {
    var data := LoadData(st);
    if data.Err? {
      return Err(data.message);
    }
    var fields := ExtractFields(data.value, xField, yField);
    if fields.Err? {
      return Err(fields.message);
    }
    r := render(ScatterChart(fields.value.xs, fields.value.ys, xField, yField));
  }

  /** When loading or extraction fails the renderer is never consulted. */
  lemma RunJobFailsBeforeRendering(data: Option<seq<Row>>, xField: Value, yField: Value, render: Renderer, other: Renderer)
    requires data.None? || Kept(data.value, xField, yField) == []
    ensures RunJobSpec(data, xField, yField, render) == RunJobSpec(data, xField, yField, other)
    ensures RunJobSpec(data, xField, yField, render).Err?
  {
  }

  /**
   * `run_job` and the worker's `generate_plot` keep the same rows and draw
   * the same chart: their outcomes differ only in the text of their two
   * errors.
   */
  lemma RunJobAgreesWithWorker(data: Option<seq<Row>>, xField: Value, yField: Value, render: Renderer)
    ensures data.None? ==>
              RunJobSpec(data, xField, yField, render) == Err(NoDatasetInRedis)
              && Worker.PlotOutcome(data, xField, yField, render) == Err(Worker.NoDataset)
    ensures data.Some? && (forall i :: 0 <= i < |data.value| ==> !Keeps(data.value[i], xField, yField)) ==>
              RunJobSpec(data, xField, yField, render) == Err(NoValidXY)
              && Worker.PlotOutcome(data, xField, yField, render) == Err(Worker.NoValidPoints)
    ensures data.Some? && (exists i :: 0 <= i < |data.value| && Keeps(data.value[i], xField, yField)) ==>
              RunJobSpec(data, xField, yField, render) == Worker.PlotOutcome(data, xField, yField, render)
  {
    if data.Some? {
      KeptEmptyIff(data.value, xField, yField);
    }
  }
}
