/**
 * The HTTP handlers of the API, each reduced to the store commands it sends
 * and the response it returns.  A response is its status code and its JSON
 * body (or the image it sends); routing and serialisation are not modelled.
 */
module FlaskApi {
  import opened Wrappers
  import opened PyValue
  import opened KeyValue

  /** What `request.get_json()` gives the handler. */
  datatype RequestBody =
    | ObjectBody(fields: map<string, Value>)  // a JSON object
    | ArrayBody(rows: seq<Row>)               // a JSON array
    | ScalarBody(v: Scalar)                   // null, a boolean, a number or a string
    | Unreadable(reason: string)              // `get_json` raised; `reason` is the error's text

  datatype Body =
    | Routes(routes: map<string, string>)
    | Message(text: string)
    | Error(text: string)
    | Records(rows: seq<Row>)
    | OneRecord(fields: map<string, Value>)
    | JobSubmitted(jobId: string)
    | JobState(jobId: string, state: string)
    | Image(encoded: string, downloadName: string)  // the PNG whose base64 text is `encoded`
    | InternalServerError                          // Flask's page for an exception the handler lets escape

  datatype Response = Response(code: int, body: Body)

  const ExpectedList: string := "Expected a list of records"
  const NoDataFound: string := "No data found."
  const RecordNotFound: string := "Record not found."
  const DatasetDeleted: string := "Dataset deleted."
  const JobNotFound: string := "Job not found"
  const ResultNotFound: string := "Result not found or job not completed"

  /** `GET /help`: the route listing. */
  function Help(): (r: Response)
    ensures r.code == 200 && r.body.Routes?
    ensures forall path :: path in r.body.routes <==>
              path in {"/help", "/data", "/data/<PatientID>", "/job", "/job/<job_id>", "/result/<job_id>"}
  {
    Response(200, Routes(map[
      "/help" := "GET - Show available routes",
      "/data" := "POST/GET/DELETE - Manage dataset",
      "/data/<PatientID>" := "GET - Get single record",
      "/job" := "POST - Submit analysis job",
      "/job/<job_id>" := "GET - Get job status",
      "/result/<job_id>" := "GET - Get image result"]))
  }

  /**
   * `POST /data`: a JSON array replaces the whole dataset; anything else is
   * refused with 400 and leaves the dataset as it was.
   */
  method UploadData(st: Store, body: RequestBody) returns (r: Response)
    modifies st`rawData, st`log
    ensures body.ArrayBody? ==>
              && r == Response(200, Message("Uploaded " + NatToString(|body.rows|) + " records."))
              && st.rawData == Some(body.rows)
              && st.log == old(st.log) + [SetCmd(body.rows)]
    ensures (body.ObjectBody? || body.ScalarBody?) ==> r == Response(400, Error(ExpectedList))
    ensures body.Unreadable? ==> r == Response(500, Error(body.reason))
    ensures !body.ArrayBody? ==> st.rawData == old(st.rawData) && st.log == old(st.log)
    ensures old(st.Valid()) ==> st.Valid()
  {
    match body {
      case Unreadable(reason) =>
        return Response(500, Error(reason));
      case ArrayBody(rows) =>
        st.Set(rows);
        return Response(200, Message("Uploaded " + NatToString(|rows|) + " records."));
      case _ =>
        return Response(400, Error(ExpectedList));
    }
  }

  /** `GET /data`: the stored dataset, or an empty list when there is none. */
  function GetData(st: Store): (r: Response)
    reads st`rawData
    ensures r.code == 200 && r.body.Records?
    ensures st.rawData.Some? ==> r.body.rows == st.rawData.value
    ensures st.rawData.None? ==> r.body.rows == []
  {
    Response(200, Records(if st.rawData.Some? then st.rawData.value else []))
  }

  /** `str(record.get("PatientID")) == patient_id` for a record. */
  predicate Matches(row: Row, patientId: string) {
    row.Record? && ToStr(Get(row.fields, "PatientID")) == patientId
  }

  /** A row where the lookup loop stops: a match, or a row without `get`, which raises. */
  predicate Halts(row: Row, patientId: string) {
    row.NonRecord? || Matches(row, patientId)
  }

  datatype Lookup = Found(index: nat) | NoMatch | Crash(index: nat)

  /** Where the loop of `get_record` stops, scanning the records in stored order. */
  function Scan(rows: seq<Row>, patientId: string): (r: Lookup)
    ensures r.Found? ==> r.index < |rows| && Matches(rows[r.index], patientId)
    ensures r.Crash? ==> r.index < |rows| && rows[r.index].NonRecord?
    ensures r.Found? || r.Crash? ==> forall j :: 0 <= j < r.index ==> !Halts(rows[j], patientId)
    ensures r.NoMatch? <==> forall j :: 0 <= j < |rows| ==> !Halts(rows[j], patientId)
    decreases |rows|
  {
    if rows == [] then NoMatch
    else if rows[0].NonRecord? then Crash(0)
    else if Matches(rows[0], patientId) then Found(0)
    else
      match Scan(rows[1..], patientId)
      case Found(i) => assert forall j :: 1 <= j <= i ==> rows[j] == rows[1..][j - 1]; Found(i + 1)
      case Crash(i) => assert forall j :: 1 <= j <= i ==> rows[j] == rows[1..][j - 1]; Crash(i + 1)
      case NoMatch => assert forall j :: 1 <= j < |rows| ==> rows[j] == rows[1..][j - 1]; NoMatch
  }

  /** The response of `GET /data/<patient_id>` for the stored dataset `data`. */
  function RecordResponse(data: Option<seq<Row>>, patientId: string): (r: Response)
    ensures data.None? ==> r == Response(404, Error(NoDataFound))
    ensures r.code == 200 <==>
              data.Some? && exists i :: 0 <= i < |data.value| && Matches(data.value[i], patientId)
                                        && forall j :: 0 <= j < i ==> !Halts(data.value[j], patientId)
    ensures r.code == 200 ==> r.body.OneRecord? && Matches(Record(r.body.fields), patientId)
    ensures r.code == 200 ==> data.Some? && Scan(data.value, patientId).Found?
                              && r.body == OneRecord(data.value[Scan(data.value, patientId).index].fields)
  {
    match data
    case None => Response(404, Error(NoDataFound))
    case Some(rows) =>
      match Scan(rows, patientId)
      case Found(i) => Response(200, OneRecord(rows[i].fields))
      case NoMatch => Response(404, Error(RecordNotFound))
      case Crash(_) => Response(500, InternalServerError)
  }

  /** `GET /data/<patient_id>`: the first record, in stored order, whose `PatientID` reads as `patient_id`. */
  method GetRecord(st: Store, patientId: string) returns (r: Response)
    ensures r == RecordResponse(st.rawData, patientId)
  {
    if st.rawData.None? {
      return Response(404, Error(NoDataFound));
    }
    var records := st.rawData.value;
    for i := 0 to |records|
      invariant forall j :: 0 <= j < i ==> !Halts(records[j], patientId)
    {
      match records[i] {
        case NonRecord(_) =>
          return Response(500, InternalServerError);  // `record.get` raises AttributeError
        case Record(fields) =>
          if ToStr(Get(fields, "PatientID")) == patientId {
            return Response(200, OneRecord(fields));
          }
      }
    }
    return Response(404, Error(RecordNotFound));
  }

  /** In a dataset of records only, the lookup finds a match or reports "Record not found.". */
  lemma RecordsOnlyLookup(rows: seq<Row>, patientId: string)
    requires forall j :: 0 <= j < |rows| ==> rows[j].Record?
    ensures RecordResponse(Some(rows), patientId).code in {200, 404}
    ensures RecordResponse(Some(rows), patientId) == Response(404, Error(RecordNotFound))
            <==> forall j :: 0 <= j < |rows| ==> !Matches(rows[j], patientId)
  {
  }

  /** `DELETE /data`. */
  method DeleteData(st: Store) returns (r: Response)
    modifies st`rawData, st`log
    ensures r == Response(200, Message(DatasetDeleted))
    ensures st.rawData == None && st.log == old(st.log) + [DelCmd]
    ensures old(st.Valid()) ==> st.Valid()
  {
    st.Delete();
    return Response(200, Message(DatasetDeleted));
  }

  /** The text of the error `job_details['job_id'] = job_id` raises when the body is not an object. */
  function SubmitError(body: RequestBody): (e: string)
    requires !body.ObjectBody?
    ensures body.Unreadable? ==> e == body.reason
    ensures body.ArrayBody? ==> e == "list indices must be integers or slices, not str"
    ensures body.ScalarBody? ==> e == "'" + TypeName(body.v) + "' object does not support item assignment"
  {
    match body
    case Unreadable(reason) => reason
    case ArrayBody(_) => "list indices must be integers or slices, not str"
    case ScalarBody(v) => "'" + TypeName(v) + "' object does not support item assignment"
  }

  /** A scalar's refusal text: a quote, the type's name, then the fixed tail. */
  lemma ScalarErrorShape(v: Scalar)
    ensures var t, n := SubmitError(ScalarBody(v)), TypeName(v);
            |t| == |n| + 42 && t[0] == '\'' && t[1..|n| + 1] == n
  {
    var t, n := SubmitError(ScalarBody(v)), TypeName(v);
    var tail := "' object does not support item assignment";
    assert t == "'" + n + tail;
    assert ("'" + n + tail)[1..|n| + 1] == n;
  }

  /**
   * The submission refusals tell the body apart: a list gets a different
   * text from any scalar, two scalars get the same text exactly when they are
   * of the same type, and a JSON `null` body names `NoneType`.
   */
  lemma SubmitErrorsDistinguish(rows: seq<Row>, v: Scalar, w: Scalar)
    ensures SubmitError(ArrayBody(rows)) != SubmitError(ScalarBody(v))
    ensures SubmitError(ScalarBody(v)) == SubmitError(ScalarBody(w)) <==> TypeName(v) == TypeName(w)
    ensures SubmitError(ScalarBody(Null))[1..9] == "NoneType"
  {
    ScalarErrorShape(v);
    ScalarErrorShape(w);
    ScalarErrorShape(Null);
    // The list text has 48 characters; no scalar type name is 6 long.
    assert |SubmitError(ArrayBody(rows))| == 48;
    assert |TypeName(v)| != 6;
  }

  /**
   * What the worker's `job_data.get(...)` reads from a queued descriptor:
   * the id the API assigned, and every other field as the client sent it.
   */
  lemma DescriptorReadsBack(fields: map<string, Value>, id: string, key: string)
    ensures Get(Descriptor(fields, id).fields, "job_id") == Str(id)
    ensures key != "job_id" ==> Get(Descriptor(fields, id).fields, key) == Get(fields, key)
  {
  }

  /** The descriptor queued for an object body: the body with `job_id` set to the new id. */
  function Descriptor(fields: map<string, Value>, id: string): (e: Entry)
    ensures e.Job? && QueuedKey(e) == Some(id)
    ensures forall k :: k in fields && k != "job_id" ==> k in e.fields && e.fields[k] == fields[k]
    ensures e.fields.Keys == fields.Keys + {"job_id"}
  {
    Job(fields["job_id" := Str(id)])
  }

  /**
   * `POST /job`, where `id` is the text of the `uuid4()` the handler draws.
   * An object body gets that id (replacing any `job_id` the client sent), is
   * marked queued and is pushed at the tail of the queue; no field is
   * checked.  Any other body fails at the assignment, before any write.
   */
  method SubmitJob(st: Store, body: RequestBody, id: string) returns (r: Response)
    modifies st`status, st`result, st`queue, st`log
    ensures body.ObjectBody? ==>
              && r == Response(202, JobSubmitted(id))
              && st.status == old(st.status)[id := Queued]
              && st.queue == old(st.queue) + [Descriptor(body.fields, id)]
              && st.log == old(st.log) + [HSetCmd(StatusHash, id, Queued), RPushCmd(Descriptor(body.fields, id))]
    ensures !body.ObjectBody? ==>
              && r == Response(500, Error(SubmitError(body)))
              && st.status == old(st.status) && st.queue == old(st.queue) && st.log == old(st.log)
    ensures st.rawData == old(st.rawData) && st.result == old(st.result)
  {
    if !body.ObjectBody? {
      return Response(500, Error(SubmitError(body)));
    }
    var job := Descriptor(body.fields, id);
    st.HSet(StatusHash, id, Queued);
    st.RPush(job);
    LogSteps(old(st.log), [HSetCmd(StatusHash, id, Queued), RPushCmd(job)]);
    return Response(202, JobSubmitted(id));
  }

  /**
   * Queueing a job under an id never used before keeps the ledger invariant:
   * with `SubmitJob`'s description of the new state, a submission with a
   * fresh `uuid4` keeps the store consistent.
   */
  lemma SubmitKeepsLedger(status: map<string, string>, result: map<string, string>, queue: seq<Entry>,
                          job: Entry, id: string)
    requires LedgerInvariant(status, result, queue) && id !in status && QueuedKey(job) == Some(id)
    ensures LedgerInvariant(status[id := Queued], result, queue + [job])
  {
    var status', queue' := status[id := Queued], queue + [job];
    assert id !in result;
    forall i | 0 <= i < |queue'|
      ensures QueuedKey(queue'[i]).Some? && QueuedKey(queue'[i]).value in status'
              && status'[QueuedKey(queue'[i]).value] == Queued
    {
      if i < |queue| {
        assert queue'[i] == queue[i];
      }
    }
    forall i, j | 0 <= i < j < |queue'|
      ensures QueuedKey(queue'[i]) != QueuedKey(queue'[j])
    {
      assert queue'[i] == queue[i];
      if j < |queue| {
        assert queue'[j] == queue[j];
      }
    }
    forall k | k in status' && status'[k] == Queued
      ensures exists i :: 0 <= i < |queue'| && QueuedKey(queue'[i]) == Some(k)
    {
      if k == id {
        assert QueuedKey(queue'[|queue|]) == Some(k);
      } else {
        var i :| 0 <= i < |queue| && QueuedKey(queue[i]) == Some(k);
        assert queue'[i] == queue[i];
      }
    }
  }

  /**
   * `GET /job/<job_id>` as written: the conditional expression binds tighter
   * than the tuple, so the status code is 404 whether or not the job exists.
   */
  function JobStatus(st: Store, jobId: string): (r: Response)
    reads st`status
    ensures r.code == 404
    ensures jobId in st.status && st.status[jobId] != "" ==> r.body == JobState(jobId, st.status[jobId])
    ensures !(jobId in st.status && st.status[jobId] != "") ==> r.body == Error(JobNotFound)
  {
    var found := jobId in st.status && st.status[jobId] != "";
    Response(404, if found then JobState(jobId, st.status[jobId]) else Error(JobNotFound))
  }

  /** `GET /job/<job_id>` as evidently intended: 200 with the status, 404 only when there is none. */
  function JobStatusIntended(st: Store, jobId: string): (r: Response)
    reads st`status
    ensures r.code == 200 <==> jobId in st.status && st.status[jobId] != ""
    ensures r.code == 200 ==> r.body == JobState(jobId, st.status[jobId])
    ensures r.code != 200 ==> r == Response(404, Error(JobNotFound))
  {
    if jobId in st.status && st.status[jobId] != "" then Response(200, JobState(jobId, st.status[jobId]))
    else Response(404, Error(JobNotFound))
  }

  /** Both versions report the same body; only the status code of a found job differs. */
  lemma JobStatusDiffersOnlyInCode(st: Store, jobId: string)
    ensures JobStatus(st, jobId).body == JobStatusIntended(st, jobId).body
    ensures JobStatus(st, jobId) == JobStatusIntended(st, jobId) <==> jobId !in st.status || st.status[jobId] == ""
  {
  }

  /** In a consistent ledger every known job is found, and the as-written handler still answers 404. */
  lemma KnownJobAnswered404(st: Store, jobId: string)
    requires st.Valid() && jobId in st.status
    ensures JobStatus(st, jobId) == Response(404, JobState(jobId, st.status[jobId]))
    ensures JobStatusIntended(st, jobId) == Response(200, JobState(jobId, st.status[jobId]))
  {
    var s := st.status[jobId];
    assert s == Queued || s == Completed || IsFailed(s);
    assert s != "" by {
      if IsFailed(s) {
        assert |s| >= |FailedPrefix|;
      }
    }
  }

  /** `GET /result/<job_id>`: the image only when a non-empty result is stored; the status is not consulted. */
  function GetResult(st: Store, jobId: string): (r: Response)
    reads st`result
    ensures r.code == 200 <==> jobId in st.result && st.result[jobId] != ""
    ensures r.code == 200 ==> r.body == Image(st.result[jobId], "result_" + jobId + ".png")
    ensures r.code != 200 ==> r == Response(404, Error(ResultNotFound))
  {
    if jobId !in st.result || st.result[jobId] == "" then Response(404, Error(ResultNotFound))
    else Response(200, Image(st.result[jobId], "result_" + jobId + ".png"))
  }

  /** In a consistent ledger a result is served exactly for a completed job. */
  lemma ResultServedIffCompleted(st: Store, jobId: string)
    requires st.Valid()
    ensures GetResult(st, jobId).code == 200 <==> jobId in st.status && st.status[jobId] == Completed
  {
  }
}
