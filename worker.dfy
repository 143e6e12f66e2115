/**
 * The background worker: `generate_plot` (read the dataset, clean it, draw),
 * `process_job` (drive one job's status and result through the ledger) and
 * one iteration of the `main` loop (pop the head of the queue, process it,
 * swallow every failure).
 */
module Worker {
  import opened Wrappers
  import opened PyValue
  import opened KeyValue
  import opened Cleaning
  import opened Plot

  const NoDataset: string := "No dataset found."
  const NoValidPoints: string := "No valid data points to plot."
  /** `"failed: missing job fields"`. */
  const MissingFields: string := Failed("missing job fields")

  /** What `generate_plot(x_field, y_field)` returns or raises, given the stored dataset. */
  function PlotOutcome(data: Option<seq<Row>>, xField: Value, yField: Value, render: Renderer): Result<Png> {
    match data
    case None => Err(NoDataset)
    case Some(rows) =>
      var points := Kept(rows, xField, yField);
      if points == [] then Err(NoValidPoints)
      else render(ScatterChart(Xs(points), Ys(points), xField, yField))
  }

  /**
   * `generate_plot` raises "No dataset found." without a dataset, raises "No
   * valid data points to plot." exactly when no row converts, and otherwise
   * draws the kept points labelled with the two field names.
   */
  lemma PlotOutcomeCases(data: Option<seq<Row>>, xField: Value, yField: Value, render: Renderer)
    ensures data.None? ==> PlotOutcome(data, xField, yField, render) == Err(NoDataset)
    ensures data.Some? ==>
              var rows := data.value;
              var points := Kept(rows, xField, yField);
              if forall i :: 0 <= i < |rows| ==> !Keeps(rows[i], xField, yField) then
                PlotOutcome(data, xField, yField, render) == Err(NoValidPoints)
              else
                && PlotOutcome(data, xField, yField, render)
                   == render(ScatterChart(Xs(points), Ys(points), xField, yField))
                && 0 < |Xs(points)| == |Ys(points)| <= |rows|
  {
    if data.Some? {
      KeptEmptyIff(data.value, xField, yField);
      KeptBound(data.value, xField, yField);
    }
  }

  /** `generate_plot`: reads the dataset key, and changes nothing. */
  method GeneratePlot(st: Store, xField: Value, yField: Value, render: Renderer) returns (r: Result<Png>)
    ensures r == PlotOutcome(st.rawData, xField, yField, render)
  {
    if st.rawData.None? {
      return Err(NoDataset);
    }
    var rows := st.rawData.value;
    var xs, ys := CleanRows(rows, xField, yField);
    KeptEmptyIff(rows, xField, yField);
    if xs == [] || ys == [] {
      return Err(NoValidPoints);
    }
    r := render(ScatterChart(xs, ys, xField, yField));
  }

  /**
   * The `HSET` commands of the `try` block of `process_job` and of its
   * handler, for job id `k`, given what `generate_plot` returned or raised.
   */
  function AttemptWrites(k: string, plot: Result<Png>): (w: seq<Command>)
    ensures 2 <= |w| <= 3 && w[0] == HSetCmd(StatusHash, k, Processing)
    ensures forall i :: 0 <= i < |w| ==> w[i].HSetCmd? && w[i].field == k
    ensures plot.Ok? ==> |w| == 3 && w[1] == HSetCmd(ResultHash, k, plot.value) && w[2] == HSetCmd(StatusHash, k, Completed)
    ensures plot.Err? ==> |w| == 2 && w[1] == HSetCmd(StatusHash, k, Failed(plot.message))
  {
    [HSetCmd(StatusHash, k, Processing)] +
    match plot
    case Ok(png) => [HSetCmd(ResultHash, k, png), HSetCmd(StatusHash, k, Completed)]
    case Err(msg) => [HSetCmd(StatusHash, k, Failed(msg))]
  }

  /**
   * The `HSET` commands `process_job(job)` sends, in order, given the stored
   * dataset.  When the job id cannot be encoded as a field name the first
   * `HSET` raises (and, inside the `try`, so does the one in the handler), so
   * nothing is written.
   */
  function JobWrites(job: map<string, Value>, data: Option<seq<Row>>, render: Renderer): seq<Command> {
    var jobId, xField, yField := Get(job, "job_id"), Get(job, "x_field"), Get(job, "y_field");
    match RedisField(jobId)
    case None => []
    case Some(k) =>
      if !(Truthy(jobId) && Truthy(xField) && Truthy(yField)) then [HSetCmd(StatusHash, k, MissingFields)]
      else AttemptWrites(k, PlotOutcome(data, xField, yField, render))
  }

  /** The writes one `main` iteration makes after popping `entry`. */
  function EntryWrites(entry: Entry, data: Option<seq<Row>>, render: Renderer): seq<Command> {
    match entry
    case Malformed(_) => []
    case Job(fields) => JobWrites(fields, data, render)
  }

  /** What the writes of the `try` block do to the two hashes. */
  lemma ApplyAttempt(k: string, plot: Result<Png>, status: map<string, string>, result: map<string, string>)
    ensures var w := AttemptWrites(k, plot);
            && ApplyHSets(w, StatusHash, status)
               == (if plot.Ok? then status[k := Processing][k := Completed]
                   else status[k := Processing][k := Failed(plot.message)])
            && ApplyHSets(w, ResultHash, result) == (if plot.Ok? then result[k := plot.value] else result)
  {
    var w := AttemptWrites(k, plot);
    ApplyHSetsSmall(w, StatusHash, status);
    ApplyHSetsSmall(w, ResultHash, result);
  }

  /**
   * The `try` block of `process_job` and its handler: mark the job
   * processing, plot, then store the result and mark it completed, or mark it
   * failed with the error's text.  `Err` is the `DataError` that escapes when
   * the job id cannot be a hash field name.
   */
  method Attempt(st: Store, jobId: Value, xField: Value, yField: Value, render: Renderer) returns (outcome: Result<()>)
    modifies st`status, st`result, st`log
    ensures RedisField(jobId).None? ==>
              outcome.Err? && st.log == old(st.log) && st.status == old(st.status) && st.result == old(st.result)
    ensures RedisField(jobId).Some? ==>
              var w := AttemptWrites(RedisField(jobId).value, PlotOutcome(st.rawData, xField, yField, render));
              && outcome == Ok(())
              && st.log == old(st.log) + w
              && st.status == ApplyHSets(w, StatusHash, old(st.status))
              && st.result == ApplyHSets(w, ResultHash, old(st.result))
    ensures st.rawData == old(st.rawData) && st.queue == old(st.queue)
  {
    var first := st.HSetValue(StatusHash, jobId, Processing);
    if first.Err? {
      // except Exception as e: the handler's own HSET raises the same error
      outcome := st.HSetValue(StatusHash, jobId, Failed(first.message));
      return;
    }
    var img := GeneratePlot(st, xField, yField, render);
    match img {
      case Ok(png) =>
        var _ := st.HSetValue(ResultHash, jobId, png);
        var _ := st.HSetValue(StatusHash, jobId, Completed);
      case Err(msg) =>
        var _ := st.HSetValue(StatusHash, jobId, Failed(msg));
    }
    ApplyAttempt(RedisField(jobId).value, img, old(st.status), old(st.result));
    LogSteps(old(st.log), AttemptWrites(RedisField(jobId).value, img));
    outcome := Ok(());
  }

  /** `process_job`: the missing-field check, then the `try` block. */
  method ProcessJob(st: Store, job: map<string, Value>, render: Renderer) returns (outcome: Result<()>)
    modifies st`status, st`result, st`log
    ensures var w := JobWrites(job, st.rawData, render);
            && st.log == old(st.log) + w
            && st.status == ApplyHSets(w, StatusHash, old(st.status))
            && st.result == ApplyHSets(w, ResultHash, old(st.result))
    ensures st.rawData == old(st.rawData) && st.queue == old(st.queue)
    ensures outcome.Err? <==> RedisField(Get(job, "job_id")).None?
  {
    var jobId := Get(job, "job_id");
    var xField := Get(job, "x_field");
    var yField := Get(job, "y_field");
    if !(Truthy(jobId) && Truthy(xField) && Truthy(yField)) {
      ghost var status0, result0 := st.status, st.result;
      outcome := st.HSetValue(StatusHash, jobId, MissingFields);
      if outcome.Ok? {
        ghost var w := JobWrites(job, st.rawData, render);
        ApplyHSetsSmall(w, StatusHash, status0);
        ApplyHSetsSmall(w, ResultHash, result0);
      }
      return;
    }
    outcome := Attempt(st, jobId, xField, yField, render);
  }

  /**
   * A descriptor with an empty or missing `job_id`, `x_field` or `y_field` is
   * marked `failed: missing job fields` in one write, never `processing`, and
   * gets no result; when its id cannot be a field name nothing is written.
   */
  lemma MissingFieldsWrites(job: map<string, Value>, data: Option<seq<Row>>, render: Renderer)
    requires !(Truthy(Get(job, "job_id")) && Truthy(Get(job, "x_field")) && Truthy(Get(job, "y_field")))
    ensures RedisField(Get(job, "job_id")).None? ==> JobWrites(job, data, render) == []
    ensures RedisField(Get(job, "job_id")).Some? ==>
              JobWrites(job, data, render) == [HSetCmd(StatusHash, RedisField(Get(job, "job_id")).value, MissingFields)]
    ensures forall i :: 0 <= i < |JobWrites(job, data, render)| ==>
              JobWrites(job, data, render)[i].HSetCmd? && JobWrites(job, data, render)[i].value != Processing
  {
  }

  /**
   * For a job the API queued (its id is the string `k`), every write is at
   * `k`, the final status is `completed` or a failure, and a result is written
   * exactly when the final status is `completed`.
   */
  lemma JobWritesAtKey(job: map<string, Value>, data: Option<seq<Row>>, render: Renderer, k: string,
                       status: map<string, string>, result: map<string, string>)
    requires Get(job, "job_id") == Str(k)
    ensures var w := JobWrites(job, data, render);
            var status', result' := ApplyHSets(w, StatusHash, status), ApplyHSets(w, ResultHash, result);
            && (forall i :: 0 <= i < |w| ==> w[i].HSetCmd? && w[i].field == k)
            && k in status' && (status'[k] == Completed || IsFailed(status'[k]))
            && (status'[k] == Completed ==> k in result' && result'[k] != "")
            && (status'[k] != Completed ==> result' == result)
  {
    var jobId, xField, yField := Get(job, "job_id"), Get(job, "x_field"), Get(job, "y_field");
    assert RedisField(jobId) == Some(k);
    var w := JobWrites(job, data, render);
    assert 1 <= |w| <= 3;
    ApplyHSetsSmall(w, StatusHash, status);
    ApplyHSetsSmall(w, ResultHash, result);
  }

  /**
   * The ledger after the head job `k` reached a final status: every other
   * entry is as before, and a result exists for `k` exactly when it completed.
   */
  lemma {:induction false} FinishKeepsLedger(status: map<string, string>, result: map<string, string>, queue: seq<Entry>,
                                             status': map<string, string>, result': map<string, string>, k: string)
    requires LedgerInvariant(status, result, queue) && queue != [] && QueuedKey(queue[0]) == Some(k)
    requires forall j :: j != k ==> (j in status' <==> j in status) && (j in status ==> status'[j] == status[j])
    requires forall j :: j != k ==> (j in result' <==> j in result) && (j in result ==> result'[j] == result[j])
    requires k in status' && (status'[k] == Completed || IsFailed(status'[k]))
    requires status'[k] == Completed ==> k in result' && result'[k] != ""
    requires status'[k] != Completed ==> k !in result'
    ensures LedgerInvariant(status', result', queue[1..])
  {
    var rest := queue[1..];
    forall i | 0 <= i < |rest|
      ensures QueuedKey(rest[i]).Some? && QueuedKey(rest[i]).value in status'
              && status'[QueuedKey(rest[i]).value] == Queued
    {
      assert rest[i] == queue[i + 1];
      assert QueuedKey(queue[i + 1]) != QueuedKey(queue[0]);
    }
    forall i, j | 0 <= i < j < |rest|
      ensures QueuedKey(rest[i]) != QueuedKey(rest[j])
    {
      assert rest[i] == queue[i + 1] && rest[j] == queue[j + 1];
    }
    forall j | j in status' && status'[j] == Queued
      ensures exists i :: 0 <= i < |rest| && QueuedKey(rest[i]) == Some(j)
    {
      assert j != k;
      var i :| 0 <= i < |queue| && QueuedKey(queue[i]) == Some(j);
      assert i != 0;
      assert rest[i - 1] == queue[i];
    }
    forall j | j in status'
      ensures status'[j] == Queued || status'[j] == Completed || IsFailed(status'[j])
    {
    }
    forall j
      ensures j in result' <==> j in status' && status'[j] == Completed
    {
    }
  }

  /** Processing the head of the queue keeps the ledger invariant and never rewrites a finished job. */
  lemma StepKeepsLedger(status: map<string, string>, result: map<string, string>, queue: seq<Entry>,
                        data: Option<seq<Row>>, render: Renderer)
    requires LedgerInvariant(status, result, queue) && queue != []
    ensures var w := EntryWrites(queue[0], data, render);
            var status', result' := ApplyHSets(w, StatusHash, status), ApplyHSets(w, ResultHash, result);
            var k := QueuedKey(queue[0]).value;
            && LedgerInvariant(status', result', queue[1..])
            && (forall j :: j in status && status[j] != Queued ==> j in status' && status'[j] == status[j])
            && k in status' && (status'[k] == Completed || IsFailed(status'[k]))
  {
    var k := QueuedKey(queue[0]).value;
    var job := queue[0].fields;
    var w := JobWrites(job, data, render);
    assert EntryWrites(queue[0], data, render) == w;
    var status', result' := ApplyHSets(w, StatusHash, status), ApplyHSets(w, ResultHash, result);
    JobWritesAtKey(job, data, render, k, status, result);
    assert k !in result;
    forall j | j != k
      ensures (j in status' <==> j in status) && (j in status ==> status'[j] == status[j])
      ensures (j in result' <==> j in result) && (j in result ==> result'[j] == result[j])
    {
      ApplyHSetsOutside(w, StatusHash, status, j);
      ApplyHSetsOutside(w, ResultHash, result, j);
    }
    FinishKeepsLedger(status, result, queue, status', result', k);
  }

  /**
   * One iteration of `main`: pop the head of the queue (FIFO: the API pushes
   * at the tail), process it, and swallow every failure so the loop goes on.
   */
  method MainLoopStep(st: Store, render: Renderer)
    requires st.queue != []
    modifies st`queue, st`status, st`result, st`log
    ensures var w := EntryWrites(old(st.queue[0]), st.rawData, render);
            && st.queue == old(st.queue[1..])
            && st.log == old(st.log) + [BLPopCmd] + w
            && st.status == ApplyHSets(w, StatusHash, old(st.status))
            && st.result == ApplyHSets(w, ResultHash, old(st.result))
    ensures st.rawData == old(st.rawData)
    ensures old(st.Valid()) ==> st.Valid()
    ensures old(st.Valid()) ==>
              forall k :: k in old(st.status) && old(st.status)[k] != Queued ==> k in st.status && st.status[k] == old(st.status)[k]
    ensures old(st.Valid()) ==>
              var k := QueuedKey(old(st.queue[0])).value;
              k in st.status && (st.status[k] == Completed || IsFailed(st.status[k]))
  {
    ghost var status0, result0, queue0 := st.status, st.result, st.queue;
    var entry := st.BLPop();
    match entry {
      case Malformed(_) =>
        // json.loads raised, or the descriptor has no `get`: logged and skipped
      case Job(fields) =>
        var _ := ProcessJob(st, fields, render);  // an escaping error is logged and skipped
    }
    if LedgerInvariant(status0, result0, queue0) {
      StepKeepsLedger(status0, result0, queue0, st.rawData, render);
    }
  }
}
