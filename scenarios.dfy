/**
 * Client-side runs of the model that replay the repository's tests and the
 * interactions documented for the service: upload and read back, look up a
 * patient, delete, process a job, extract fields, FIFO order of the queue and
 * the status code of `GET /job/<job_id>`.
 */
module Scenarios {
  import opened Wrappers
  import opened PyValue
  import opened FloatText
  import opened KeyValue
  import opened Cleaning
  import opened Plot
  import opened FlaskApi
  import Worker
  import Jobs

  /** The record uploaded by `test_post_and_get_data`. */
  function Patient1(): map<string, Value> {
    map["PatientID" := Int(1), "BMI" := Float("22.5"), "TumorSize" := Float("3.1")]
  }

  /** Upload one record and read the dataset back: the same list, so `[0]["PatientID"] == 1`. */
  method UploadThenGet() returns (upload: Response, get: Response)
    ensures upload == Response(200, Message("Uploaded 1 records."))
    ensures get == Response(200, Records([Record(Patient1())]))
    ensures get.body.rows[0].fields["PatientID"] == Int(1)
  {
    var st := new Store();
    upload := UploadData(st, ArrayBody([Record(Patient1())]));
    assert DigitChar(1) == '1' && NatToString(1) == "1";
    assert "Uploaded " + "1" + " records." == "Uploaded 1 records.";
    get := GetData(st);
  }

  /** `GET /data/1` after that upload returns the record, whose BMI is 22.5. */
  method GetSingleRecord() returns (r: Response)
    ensures r == Response(200, OneRecord(Patient1()))
    ensures r.body.fields["BMI"] == Float("22.5")
  {
    var st := new Store();
    var _ := UploadData(st, ArrayBody([Record(Patient1())]));
    assert ToStr(Int(1)) == "1";
    r := GetRecord(st, "1");
  }

  /** Uploading twice keeps only the second list: the dataset is replaced, not merged. */
  method UploadReplaces(first: seq<Row>, second: seq<Row>) returns (get: Response)
    ensures get == Response(200, Records(second))
  {
    var st := new Store();
    var _ := UploadData(st, ArrayBody(first));
    var _ := UploadData(st, ArrayBody(second));
    get := GetData(st);
  }

  /** A record body is refused and the stored dataset survives. */
  method UploadObjectRefused(rows: seq<Row>, fields: map<string, Value>) returns (r: Response, get: Response)
    ensures r == Response(400, Error(ExpectedList))
    ensures get == Response(200, Records(rows))
  {
    var st := new Store();
    var _ := UploadData(st, ArrayBody(rows));
    r := UploadData(st, ObjectBody(fields));
    get := GetData(st);
  }

  /** Deleting twice is harmless; afterwards the dataset reads as empty and lookups find no data. */
  method DeleteTwice(rows: seq<Row>) returns (first: Response, second: Response, get: Response, lookup: Response)
    ensures first == second == Response(200, Message(DatasetDeleted))
    ensures get == Response(200, Records([]))
    ensures lookup == Response(404, Error(NoDataFound))
  {
    var st := new Store();
    var _ := UploadData(st, ArrayBody(rows));
    first := DeleteData(st);
    second := DeleteData(st);
    get := GetData(st);
    lookup := GetRecord(st, "1");
  }

  /** A patient record with the three fields of the tests' datasets. */
  function PatientRow(id: int, bmi: string, size: string): Row {
    Record(map["PatientID" := Int(id), "BMI" := Str(bmi), "TumorSize" := Str(size)])
  }

  /** The dataset of `test_worker.py`. */
  function WorkerSample(): seq<Row> {
    [PatientRow(1, "24", "2.5"), PatientRow(2, "30", "4.2")]
  }

  /** The dataset of `test_jobs.py`. */
  function JobsSample(): seq<Row> {
    [PatientRow(1, "23.5", "2.1"), PatientRow(2, "25.0", "3.8"), PatientRow(3, "27.3", "4.5")]
  }

  /** A patient row is kept exactly when both its BMI and its tumour size are float text. */
  lemma PatientRowKeepsIff(id: int, bmi: string, size: string)
    ensures Keeps(PatientRow(id, bmi, size), Str("BMI"), Str("TumorSize")) <==> IsFloatText(bmi) && IsFloatText(size)
    ensures IsFloatText(bmi) && IsFloatText(size) ==>
              RowPoint(PatientRow(id, bmi, size), Str("BMI"), Str("TumorSize")) == Some(Point(FloatOf(Str(bmi)), FloatOf(Str(size))))
  {
    var row := PatientRow(id, bmi, size);
    assert RowGet(row, Str("BMI"), Str("nan")) == Some(Str(bmi));
    assert RowGet(row, Str("TumorSize"), Str("nan")) == Some(Str(size));
  }

  /** `d.d` with single digits is float text. */
  lemma ShortDecimal(t: string)
    requires |t| == 3 && IsDigit(t[0]) && t[1] == '.' && IsDigit(t[2])
    ensures IsFloatText(t)
  {
    DecimalIsFloatText(t[..1], t[2..]);
    assert t[..1] + "." + t[2..] == t;
  }

  /** `dd.d` is float text. */
  lemma LongDecimal(t: string)
    requires |t| == 4 && IsDigit(t[0]) && IsDigit(t[1]) && t[2] == '.' && IsDigit(t[3])
    ensures IsFloatText(t)
  {
    DecimalIsFloatText(t[..2], t[3..]);
    assert t[..2] + "." + t[3..] == t;
  }

  /** The points of a two-row dataset: the first row's, if any, then the second's. */
  lemma KeptTwo(r0: Row, r1: Row, xField: Value, yField: Value)
    ensures Kept([r0, r1], xField, yField)
         == FilterMaps.OptSeq(RowPoint(r0, xField, yField)) + FilterMaps.OptSeq(RowPoint(r1, xField, yField))
  {
    var rows := [r0, r1];
    KeptStep(rows, 0, xField, yField);
    KeptStep(rows, 1, xField, yField);
    assert rows[..0] == [] && rows[..2] == rows;
  }

  /** The points of a three-row dataset, in row order. */
  lemma KeptThree(r0: Row, r1: Row, r2: Row, xField: Value, yField: Value)
    ensures Kept([r0, r1, r2], xField, yField)
         == FilterMaps.OptSeq(RowPoint(r0, xField, yField)) + FilterMaps.OptSeq(RowPoint(r1, xField, yField))
            + FilterMaps.OptSeq(RowPoint(r2, xField, yField))
  {
    var rows := [r0, r1, r2];
    KeptTwo(r0, r1, xField, yField);
    KeptStep(rows, 2, xField, yField);
    assert rows[..2] == [r0, r1] && rows[..3] == rows;
  }

  /** Both rows of the worker's sample convert. */
  lemma WorkerSampleKept(rows: seq<Row>)
    requires rows == WorkerSample()
    ensures |Kept(rows, Str("BMI"), Str("TumorSize"))| == 2
  {
    DigitsAreFloatText("24");
    DigitsAreFloatText("30");
    ShortDecimal("2.5");
    ShortDecimal("4.2");
    PatientRowKeepsIff(1, "24", "2.5");
    PatientRowKeepsIff(2, "30", "4.2");
    KeptTwo(rows[0], rows[1], Str("BMI"), Str("TumorSize"));
  }

  lemma JobsRowsKeep()
    ensures Keeps(PatientRow(1, "23.5", "2.1"), Str("BMI"), Str("TumorSize"))
    ensures Keeps(PatientRow(2, "25.0", "3.8"), Str("BMI"), Str("TumorSize"))
    ensures Keeps(PatientRow(3, "27.3", "4.5"), Str("BMI"), Str("TumorSize"))
  {
    LongDecimal("23.5");
    LongDecimal("25.0");
    LongDecimal("27.3");
    ShortDecimal("2.1");
    ShortDecimal("3.8");
    ShortDecimal("4.5");
    PatientRowKeepsIff(1, "23.5", "2.1");
    PatientRowKeepsIff(2, "25.0", "3.8");
    PatientRowKeepsIff(3, "27.3", "4.5");
  }

  lemma JobsSampleKept(rows: seq<Row>)
    requires rows == JobsSample()
    ensures |Kept(rows, Str("BMI"), Str("TumorSize"))| == 3
  {
    JobsRowsKeep();
    KeptThree(rows[0], rows[1], rows[2], Str("BMI"), Str("TumorSize"));
  }

  /** `test_extract_fields_valid`: three numeric rows give three x and three y values. */
  lemma ExtractThreeSamples(rows: seq<Row>)
    requires rows == JobsSample()
    ensures var r := Jobs.ExtractSpec(rows, Str("BMI"), Str("TumorSize"));
            r.Ok? && |r.value.xs| == 3 && |r.value.ys| == 3
  {
    JobsSampleKept(rows);
  }

  /** A row whose BMI is "bad" is dropped and the other is kept. */
  lemma BadRowDropped(rows: seq<Row>)
    requires rows == [PatientRow(1, "bad", "2.5"), PatientRow(2, "30", "4.2")]
    ensures Kept(rows, Str("BMI"), Str("TumorSize")) == [Point(FloatOf(Str("30")), FloatOf(Str("4.2")))]
  {
    BadIsNotFloatText();
    DigitsAreFloatText("30");
    ShortDecimal("4.2");
    PatientRowKeepsIff(1, "bad", "2.5");
    PatientRowKeepsIff(2, "30", "4.2");
    KeptTwo(rows[0], rows[1], Str("BMI"), Str("TumorSize"));
  }

  /** The descriptor `{"job_id": k, "x_field": x, "y_field": y}`. */
  function JobOf(k: string, x: string, y: string): map<string, Value> {
    map["job_id" := Str(k), "x_field" := Str(x), "y_field" := Str(y)]
  }

  /** A descriptor with all three fields makes the writes of one attempt at plotting. */
  lemma CompleteJobWrites(k: string, x: string, y: string, data: Option<seq<Row>>, render: Renderer)
    requires k != "" && x != "" && y != ""
    ensures Worker.JobWrites(JobOf(k, x, y), data, render)
         == Worker.AttemptWrites(k, Worker.PlotOutcome(data, Str(x), Str(y), render))
  {
    var job := JobOf(k, x, y);
    assert Get(job, "job_id") == Str(k) && Get(job, "x_field") == Str(x) && Get(job, "y_field") == Str(y);
  }

  /** The renderer of the worker's tests, which draws nothing and returns a fixed image. */
  function MockRenderer(png: Png): Renderer {
    (c: Chart) => Ok(png)
  }

  /** With the worker's sample stored, a mock renderer's image is the plot. */
  lemma WorkerSamplePlots(rows: seq<Row>, png: Png)
    requires rows == WorkerSample()
    ensures Worker.PlotOutcome(Some(rows), Str("BMI"), Str("TumorSize"), MockRenderer(png)) == Ok(png)
  {
    WorkerSampleKept(rows);
  }

  /** The writes of a successful attempt, and what they leave in an empty ledger. */
  lemma SuccessWrites(k: string, png: Png)
    ensures Worker.AttemptWrites(k, Ok(png))
         == [HSetCmd(StatusHash, k, Processing), HSetCmd(ResultHash, k, png), HSetCmd(StatusHash, k, Completed)]
    ensures ApplyHSets(Worker.AttemptWrites(k, Ok(png)), StatusHash, map[]) == map[k := Completed]
    ensures ApplyHSets(Worker.AttemptWrites(k, Ok(png)), ResultHash, map[]) == map[k := png]
  {
    var w := Worker.AttemptWrites(k, Ok(png));
    Worker.ApplyAttempt(k, Ok(png), map[], map[]);
    assert w == [w[0], w[1], w[2]];
  }

  /** A job on the worker's sample with a mock renderer is one successful attempt. */
  lemma SampleJobWrites(rows: seq<Row>, k: string, png: Png)
    requires rows == WorkerSample() && k != ""
    ensures Worker.JobWrites(JobOf(k, "BMI", "TumorSize"), Some(rows), MockRenderer(png)) == Worker.AttemptWrites(k, Ok(png))
  {
    WorkerSamplePlots(rows, png);
    CompleteJobWrites(k, "BMI", "TumorSize", Some(rows), MockRenderer(png));
  }

  lemma SetThenThree(log: seq<Command>, c: Command, w: seq<Command>)
    requires |w| == 3 && log == [] + [c] + w
    ensures log == [c, w[0], w[1], w[2]]
  {
  }

  /**
   * `test_process_job_success`: with the worker's sample stored and a
   * renderer that returns a fixed image, the job is marked processing, its
   * result is stored, then it is marked completed, in that order.
   */
  method ProcessJobSuccess(rows: seq<Row>, k: string, png: Png)
    returns (status: map<string, string>, result: map<string, string>, ghost log: seq<Command>)
    requires rows == WorkerSample() && k != ""
    ensures log == [SetCmd(rows), HSetCmd(StatusHash, k, Processing), HSetCmd(ResultHash, k, png), HSetCmd(StatusHash, k, Completed)]
    ensures status == map[k := Completed]
    ensures result == map[k := png]
  {
    var st := new Store();
    st.Set(rows);
    SampleJobWrites(rows, k, png);
    SuccessWrites(k, png);
    var _ := Worker.ProcessJob(st, JobOf(k, "BMI", "TumorSize"), MockRenderer(png));
    SetThenThree(st.log, SetCmd(rows), [HSetCmd(StatusHash, k, Processing), HSetCmd(ResultHash, k, png), HSetCmd(StatusHash, k, Completed)]);
    status, result, log := st.status, st.result, st.log;
  }

  /** A descriptor without `y_field` fails at once: never processing, no result. */
  method ProcessJobMissingField(k: string, x: string, render: Renderer)
    returns (status: map<string, string>, result: map<string, string>, ghost log: seq<Command>)
    ensures log == [HSetCmd(StatusHash, k, Worker.MissingFields)]
    ensures status == map[k := Worker.MissingFields]
    ensures result == map[]
  {
    var st := new Store();
    var job := map["job_id" := Str(k), "x_field" := Str(x)];
    assert Get(job, "job_id") == Str(k) && Get(job, "y_field") == Null;
    var _ := Worker.ProcessJob(st, job, render);
    status, result, log := st.status, st.result, st.log;
  }

  /**
   * Two submissions are processed in the order they were submitted: after
   * one iteration of the worker the first is finished, the second is still
   * queued and now heads the queue.
   */
  method FifoOrder(id1: string, id2: string, body1: map<string, Value>, body2: map<string, Value>, render: Renderer)
    returns (queue: seq<Entry>, first: string, second: string)
    requires id1 != id2
    ensures queue == [Descriptor(body2, id2)]
    ensures first == Completed || IsFailed(first)
    ensures second == Queued
  {
    var st := new Store();
    var job1, job2 := Descriptor(body1, id1), Descriptor(body2, id2);
    var _ := SubmitJob(st, ObjectBody(body1), id1);
    SubmitKeepsLedger(map[], map[], [], job1, id1);
    ghost var status1 := st.status;
    var _ := SubmitJob(st, ObjectBody(body2), id2);
    SubmitKeepsLedger(status1, map[], [job1], job2, id2);
    assert st.queue == [job1, job2];
    ghost var status2 := st.status;
    Worker.MainLoopStep(st, render);
    Worker.JobWritesAtKey(job1.fields, st.rawData, render, id1, status2, map[]);
    ApplyHSetsOutside(Worker.EntryWrites(job1, st.rawData, render), StatusHash, status2, id2);
    queue := st.queue;
    first := st.status[id1];
    second := st.status[id2];
  }

  /**
   * The status-code finding: right after a successful submission the job is
   * known and queued, yet `GET /job/<job_id>` answers 404; the corrected
   * handler answers 200.
   */
  method SubmitThenStatus(body: map<string, Value>, id: string) returns (submitted: Response, asWritten: Response, intended: Response)
    ensures submitted == Response(202, JobSubmitted(id))
    ensures asWritten == Response(404, JobState(id, Queued))
    ensures intended == Response(200, JobState(id, Queued))
  {
    var st := new Store();
    submitted := SubmitJob(st, ObjectBody(body), id);
    asWritten := JobStatus(st, id);
    intended := JobStatusIntended(st, id);
  }
}
