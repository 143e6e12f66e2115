# Cancer-data plotting service: a Dafny model of its job lifecycle

The service lets a client upload a dataset of patient records over HTTP and
submit plotting jobs. A background worker takes the jobs from a queue in
Redis, draws a scatter plot of two fields of the dataset and stores the image
for the client to fetch. This project models the three core files in Dafny
and proves properties of that model:

- `src/flask_api.py`: the HTTP handlers.
- `src/worker.py`: the worker's `generate_plot`, `process_job` and one
  iteration of `main`.
- `src/jobs.py`: the alternative job functions `load_data`, `extract_fields`
  and `run_job`.

Redis is the shared state. The model makes it a class, `KeyValue.Store`, with
one field per key the core uses:

- `raw_data` is decoded and held as `rawData`.
- The hashes `job_status` and `job_result` are string maps.
- The list `job_queue` is a sequence of entries.

Each handler and worker step is a method whose `modifies` clause names the
keys it writes. Its `ensures` gives the new value of each key and the Redis
commands it sent, in order; the commands are recorded in a ghost log. The
handlers that only read are functions with `reads` clauses, except
`FlaskApi.GetRecord`: it keeps the source's scanning loop as a method, and its
`ensures` equates the answer with the function `FlaskApi.RecordResponse`.

The central invariant is `KeyValue.LedgerInvariant`:

- every queued job is in the queue exactly once;
- every status is `queued`, `completed` or `failed: …`;
- a result exists exactly for a completed job.

Submitting a job under a fresh id keeps it (`FlaskApi.SubmitKeepsLedger`).
So does one iteration of the worker, whatever the job does
(`Worker.MainLoopStep`). The worker also never rewrites a finished job, and it
leaves the job it took in a final status.

The data-cleaning loop appears twice in the source: in `generate_plot` and in
`extract_fields`. Its specification is built in layers:

- `FilterMaps.FilterMap` is a generic order-preserving filter-map.
- `Cleaning.Kept` instantiates it with the per-row conversion `row.get(field,
  'nan')` followed by `float(...)`.
- That conversion models Python's `float(str)` exactly for ASCII text, as a
  finite automaton in `FloatText`.

The two loops, at `src/worker.py:29-37` and `src/jobs.py:25-33`, are the same
code, so one method, `Cleaning.CleanRows`, models both; it is proved against
that specification. The
`if not x_vals or not y_vals` check fires exactly when no row converts. The
two modules then differ only in their error texts
(`Jobs.RunJobAgreesWithWorker`).

`Scenarios` replays the repository's tests and a few interactions as client
code: uploading and reading back, the single-record lookup, deletion, a
successful job, a job with a missing field, extraction of the sample data and
FIFO processing of two submissions.

## Model

| member | source | states |
|---|---|---|
| FilterMaps.FilterMapStep | src/worker.py:29-37 | visiting one more row appends that row's contribution (one point or none) to what was collected |
| FilterMaps.FilterMapBound | src/worker.py:29-37 | a filter-map never collects more values than it visits elements |
| FilterMaps.FilterMapEmptyIff | src/worker.py:39-40 | nothing is collected exactly when every element is skipped |
| FilterMaps.FilterMapAllIff | src/worker.py:29-37 | one value per element is collected exactly when no element is skipped |
| FilterMaps.Origins | src/worker.py:29-37 | the collected values are those of the non-skipped elements, at strictly increasing indices, with none missed |
| FloatText.RunAppend | src/worker.py:31-32 | the automaton reading `s + t` ends where reading `t` from the state after `s` ends |
| FloatText.DigitsAreFloatText | src/worker.py:31-32 | `float()` accepts every non-empty string of ASCII digits |
| FloatText.DecimalIsFloatText | src/worker.py:31-32 | `float()` accepts `<digits>.<digits>` |
| FloatText.NanIsFloatText | src/worker.py:31-32 | `float()` accepts the default text `'nan'` |
| FloatText.BadIsNotFloatText | src/worker.py:31-37 | `float("bad")` raises |
| FloatText.TrailThenTextRejected | src/worker.py:31-32 | any non-blank text after a complete number's trailing whitespace makes `float()` raise |
| FloatText.RejectAbsorbs | src/worker.py:31-32 | after a character `float()` cannot accept, no continuation is accepted |
| PyValue.NatToString | src/flask_api.py:39 | `str(n)` of a count is non-empty, all digits, and has no leading zero |
| PyValue.NatToStringRoundTrip | src/flask_api.py:39 | the decimal text of `n` denotes `n` |
| PyValue.IntToStringRoundTrip | src/flask_api.py:55 | `str(i)` starts with `-` exactly for a negative `i`, the rest is digits, and the digits denote `abs(i)` |
| PyValue.IntTextInjective | src/flask_api.py:55 | two integers have the same `str()` text exactly when they are equal, so the `PatientID` comparison compares the numbers |
| PyValue.FalsyIff | src/worker.py:61 | a value is falsy exactly when it is `None`, `False`, `0`, a zero float, or an empty string, list or dict |
| PyValue.TypeNameIdentifies | src/flask_api.py:69 | two values have the same `type().__name__` exactly when they are of the same JSON kind |
| PyValue.FloatOverflowValue | src/worker.py:31-32 | the overflow bound is 2^1024 - 2^970, the point at which rounding to a double reaches 2^1024 |
| PyValue.ToFloat | src/worker.py:31-32 | a float that `float(v)` returns comes from `v` |
| PyValue.RowGet | src/worker.py:31-32 | `row.get(field, 'nan')` raises for a row that is not a dict or an unhashable field; otherwise it is the field's value, or `'nan'` when the field is an absent string or any other hashable value |
| PyValue.NumbersCoerce | src/worker.py:31-32 | floats, booleans and integers of magnitude below 2^1024 - 2^970 convert |
| PyValue.NullAndContainersDoNotCoerce | src/worker.py:31-37 | `None`, lists and dicts make `float()` raise, so their row is skipped |
| PyValue.HugeIntDoesNotCoerce | src/worker.py:31-37 | an integer of magnitude at least 2^1024 - 2^970, which rounds past the largest double, makes `float()` raise `OverflowError` |
| PyValue.NanCoerces | src/worker.py:31-32 | an absent field's default `'nan'` converts |
| PyValue.IntegerTextCoerces | src/worker.py:31-32 | the text of every natural number converts |
| PyValue.BadDoesNotCoerce | src/worker.py:31-37 | the string `"bad"` does not convert |
| KeyValue.Failed | src/worker.py:71 | a failure status starts with `failed: ` and differs from `queued`, `processing` and `completed` |
| KeyValue.RedisField | src/worker.py:62 | a string field name is sent as it is; `None`, booleans, lists and dicts are refused and raise `DataError` |
| KeyValue.ApplyHSetsAppend | src/worker.py:66-71 | applying two runs of `HSET` commands in order is applying their concatenation |
| KeyValue.ApplyHSetsOutside | src/worker.py:66-71 | a hash field that no command writes keeps its presence and value |
| KeyValue.Store.constructor | src/flask_api.py:11 | an empty database, consistent and with an empty log |
| KeyValue.Store.Set | src/flask_api.py:38 | `SET raw_data` replaces the dataset and changes no other key |
| KeyValue.Store.Delete | src/flask_api.py:61 | `DEL raw_data` removes the dataset and changes no other key |
| KeyValue.Store.HSet | src/flask_api.py:72 | `HSET` updates one field of one hash and changes nothing else |
| KeyValue.Store.HSetValue | src/worker.py:62 | the client encodes the field name first; a `None` field raises "'hset' with no key value pairs", any other refused value raises the encoder's `DataError`, and nothing is written; an accepted field is written under its encoded name |
| KeyValue.EncoderErrorShape | src/worker.py:62 | the encoder's refusal of a non-`None` field names the field's type inside its fixed text |
| KeyValue.DataErrorIdentifiesType | src/worker.py:62 | two refused field names raise the same `DataError` text exactly when they are of the same type |
| KeyValue.Store.RPush | src/flask_api.py:73 | `RPUSH job_queue` appends at the tail and changes nothing else |
| KeyValue.Store.BLPop | src/worker.py:76 | `BLPOP job_queue` removes and returns the head and changes nothing else |
| Cleaning.Xs | src/worker.py:34 | `x_vals` holds one x per kept point, in order |
| Cleaning.Ys | src/worker.py:35 | `y_vals` holds one y per kept point, in order |
| Cleaning.KeptStep | src/worker.py:29-37 | the loop's step: row `i` adds its point to those of the rows before it, or adds nothing |
| Cleaning.KeptIndices | src/worker.py:29-37 | the kept points are exactly the points of the converting rows, in row order, none missed |
| Cleaning.KeptBound | src/worker.py:29-37 | at most one point per row |
| Cleaning.KeptEmptyIff | src/worker.py:39-40 | no point is kept exactly when no row converts |
| Cleaning.KeptAllIff | src/jobs.py:25-34 | one point per row exactly when every row converts |
| Cleaning.RecordKeepsIff | src/worker.py:30-33 | a record is kept exactly when both fields convert, an absent field reading as `'nan'` |
| Cleaning.AbsentFieldKept | src/worker.py:31-32 | a record missing a plotted field is kept whenever its present fields convert |
| Cleaning.UnusableRowsDropped | src/worker.py:30-37 | a dataset of non-dict rows, or an unhashable field name, yields no point |
| Cleaning.ConvertRow | src/worker.py:30-33 | one iteration's body computes the row's point, or the skip |
| Cleaning.CleanRows | src/worker.py:26-37 | the loop's two lists are the x and y values of the kept points, of equal length, at most one per row |
| Plot.ScatterTitleParts | src/worker.py:42-46 | the title is the y label's text, then ` vs `, then the x label's text; with the service's fields it is `"TumorSize vs BMI"` |
| Worker.PlotOutcomeCases | src/worker.py:18-40 | without a dataset "No dataset found."; with no converting row "No valid data points to plot."; otherwise the drawing of the kept points |
| Worker.GeneratePlot | src/worker.py:18-54 | `generate_plot` reads the dataset, changes nothing, and returns or raises what `PlotOutcome` says |
| Worker.AttemptWrites | src/worker.py:65-71 | the `try` block writes `processing` first; on success the image and then `completed`; on failure `failed: <error>`; all at the job's id |
| Worker.ApplyAttempt | src/worker.py:66-71 | the status ends `completed` or `failed: <error>`, and a result is stored only on success |
| Worker.Attempt | src/worker.py:65-71 | the `try` block and its handler send exactly the writes of `AttemptWrites`; an unencodable job id writes nothing and escapes |
| Worker.ProcessJob | src/worker.py:56-71 | `process_job` sends exactly the writes of `JobWrites`, touches no other key, and lets an error escape only for an unencodable job id |
| Worker.MissingFieldsWrites | src/worker.py:61-63 | a job with an empty or missing id, `x_field` or `y_field` gets exactly one write, `failed: missing job fields` under its id, never `processing` and no result; an id that cannot be a field name gets no write |
| Worker.JobWritesAtKey | src/worker.py:56-71 | a string job id's writes all address it and leave a final status, with a non-empty result exactly when completed |
| Worker.FinishKeepsLedger | src/worker.py:76-79 | retiring the head job with a final status and coherent result keeps the ledger invariant for the rest of the queue |
| Worker.StepKeepsLedger | src/worker.py:76-81 | processing the head keeps the invariant, leaves finished jobs as they were, and finalises the head |
| Worker.MainLoopStep | src/worker.py:73-81 | one iteration pops the head (FIFO), sends its writes, swallows every failure and keeps the store consistent |
| FlaskApi.Help | src/flask_api.py:19-30 | `GET /help` answers 200 listing exactly the six routes |
| FlaskApi.UploadData | src/flask_api.py:32-41 | a list replaces the dataset and reports its length; any other JSON gets 400; an unreadable body gets 500; the ledger is untouched |
| FlaskApi.GetData | src/flask_api.py:43-46 | `GET /data` returns the stored rows, or an empty list without a dataset |
| FlaskApi.Scan | src/flask_api.py:54-57 | the lookup stops at the first match, or crashes at the first non-dict row, or scans every row |
| FlaskApi.RecordResponse | src/flask_api.py:48-57 | 404 "No data found." without a dataset; 200 exactly when a matching record precedes any stop, and the body is then the first such record of the stored dataset, in stored order |
| FlaskApi.GetRecord | src/flask_api.py:48-57 | the handler's loop returns `RecordResponse` |
| FlaskApi.RecordsOnlyLookup | src/flask_api.py:54-57 | on records only, the lookup answers 200 or 404, and 404 exactly when no record matches |
| FlaskApi.DeleteData | src/flask_api.py:59-62 | `DELETE /data` removes the dataset, always answers 200, and keeps the ledger |
| FlaskApi.ScalarErrorShape | src/flask_api.py:69 | a scalar body's refusal is a quote, the body's type name, then the fixed 41-character tail |
| FlaskApi.SubmitErrorsDistinguish | src/flask_api.py:69-76 | a list body and a scalar body get different error texts; two scalars get the same text exactly when they are of the same type; `null` names `NoneType` |
| FlaskApi.DescriptorReadsBack | src/worker.py:57-59 | reading the queued descriptor with `get` gives the assigned `job_id` and every other field as the client sent it |
| FlaskApi.Descriptor | src/flask_api.py:69 | the queued descriptor is the body with `job_id` set to the new id, every other field kept |
| FlaskApi.SubmitJob | src/flask_api.py:64-76 | an object body is marked queued and pushed at the tail, answered 202 with its id; anything else is answered 500 with nothing written |
| FlaskApi.SubmitKeepsLedger | src/flask_api.py:68-73 | queueing under an id not yet in the status hash keeps the ledger invariant |
| FlaskApi.JobStatus | src/flask_api.py:78-81 | as written, `GET /job/<id>` answers 404 in every case, with the status when there is one |
| FlaskApi.JobStatusIntended | src/flask_api.py:78-81 | as intended, 200 with the status exactly when there is one, otherwise 404 "Job not found" |
| FlaskApi.JobStatusDiffersOnlyInCode | src/flask_api.py:81 | both versions send the same body, and differ exactly for a known job |
| FlaskApi.KnownJobAnswered404 | src/flask_api.py:81 | in a consistent store every known job is found, and the as-written handler still answers 404 |
| FlaskApi.GetResult | src/flask_api.py:83-91 | the image, named `result_<id>.png`, exactly when a non-empty result is stored; otherwise 404 |
| FlaskApi.ResultServedIffCompleted | src/flask_api.py:83-87 | in a consistent store a result is served exactly for a completed job |
| Jobs.LoadData | src/jobs.py:14-19 | the stored dataset, or "No dataset found in Redis." exactly when there is none |
| Jobs.ExtractFields | src/jobs.py:21-38 | one x and one y per converting row, in order; the error exactly when no row converts |
| Jobs.RunJob | src/jobs.py:55-59 | load, extract and draw, a failure of either of the first two propagating |
| Jobs.RunJobFailsBeforeRendering | src/jobs.py:55-59 | when loading or extraction fails the renderer is never consulted |
| Jobs.RunJobAgreesWithWorker | src/jobs.py:21-38 | `run_job` and `generate_plot` fail in the same cases with their own texts, and otherwise draw the same chart |
| Scenarios.UploadThenGet | test/test_flask_api.py:17-24 | uploading one record answers "Uploaded 1 records.", and `GET /data` returns it with `PatientID` 1 |
| Scenarios.GetSingleRecord | test/test_flask_api.py:26-29 | `GET /data/1` after that upload returns the record with BMI 22.5 |
| Scenarios.UploadReplaces | src/flask_api.py:38 | a second upload replaces the first dataset |
| Scenarios.UploadObjectRefused | src/flask_api.py:36-37 | an object body gets 400 and the stored dataset survives |
| Scenarios.DeleteTwice | test/test_flask_api.py:31-34 | deleting twice answers 200 both times; afterwards the dataset reads as empty and lookups find no data |
| Scenarios.PatientRowKeepsIff | src/worker.py:30-35 | a patient row is kept exactly when its BMI and tumour size are float text, and then gives that point |
| Scenarios.WorkerSampleKept | test/test_worker.py:13-16 | both rows of the worker test's dataset convert |
| Scenarios.JobsSampleKept | test/test_jobs.py:6-10 | all three rows of the jobs test's dataset convert |
| Scenarios.ExtractThreeSamples | test/test_jobs.py:12-14 | `extract_fields` on that dataset gives three x and three y values |
| Scenarios.BadRowDropped | src/worker.py:36-37 | a row whose BMI is "bad" is skipped and the next row's point is kept |
| Scenarios.CompleteJobWrites | src/worker.py:61-67 | a descriptor with all three fields goes straight to the plotting attempt |
| Scenarios.WorkerSamplePlots | test/test_worker.py:18-22 | with the test's dataset stored, the plot is the mock renderer's image |
| Scenarios.SuccessWrites | src/worker.py:66-69 | a successful attempt writes `processing`, the image, then `completed`, leaving one completed job and its image |
| Scenarios.SampleJobWrites | test/test_worker.py:18-24 | the test's job on the test's dataset is one successful attempt |
| Scenarios.ProcessJobSuccess | test/test_worker.py:18-28 | `process_job` writes `processing`, the image, then `completed`, in that order, and nothing else |
| Scenarios.ProcessJobMissingField | src/worker.py:61-63 | a descriptor without `y_field` gets the single write `failed: missing job fields`, never `processing`, and no result |
| Scenarios.FifoOrder | src/worker.py:76-79 | after two submissions one worker iteration finishes the first; the second is still queued and heads the queue |
| Scenarios.SubmitThenStatus | src/flask_api.py:81 | right after a submission, `GET /job/<id>` answers 404 as written and 200 as intended |

## Left out

- HTTP routing, `jsonify` and `send_file` are not modelled. A response is its status code and its decoded body.
- JSON encoding and decoding are not modelled. `json.dumps` followed by `json.loads` is taken to be the identity. A JSON container nested inside a record field is kept abstract, as the text `str()` gives for it.
- The Redis client and server are reduced to the four keys' values and a ghost log of the commands sent. `decode_responses`, connection errors and concurrent clients are not modelled.
- Worker.MainLoopStep: models one iteration with a non-empty queue. The blocking wait of `BLPOP`, the endless `while True` and the `print` logging are not modelled.
- The drawing with matplotlib and the base64 encoding of the PNG are foreign code. They are the `Renderer` parameter, which returns a non-empty text or an error.
- `generate_scatter_plot` of `src/jobs.py` is that same renderer: `Plot.ScatterChart` fixes its labels and its default title.
- FlaskApi.GetResult: does not model the base64 decoding of the stored text, nor an undecodable result.
- PyValue.ToFloat: models which values `float()` accepts, not the number it returns. The plotted values are kept as their source values. Non-ASCII digits, which Python also accepts, are refused by the automaton.
- FlaskApi.SubmitJob: `uuid.uuid4()` is the parameter `id`. The method does not ensure `Valid()`; its freshness, and its preservation of the ledger invariant, are stated separately in `FlaskApi.SubmitKeepsLedger` for an id not yet in the status hash.
- FlaskApi.UploadData: an unreadable request body is answered 500 with the error's text. The exact text Flask gives for a malformed or non-JSON body is a parameter.
- The `__main__` blocks, which start the server and the worker, are not modelled.
- The service's documentation says that submitting a job validates the requested fields, and that an absent field is reported as not found. The code does neither: any object is queued, and a row lacking a field reads it as `'nan'`, which converts. The model follows the code.

## Findings

| source | as written | input that shows it | evidently intended | confidence | as-written member | corrected member |
|---|---|---|---|---|---|---|
| src/flask_api.py:81 | `return jsonify(...) if status else jsonify(...), 404` parses as a tuple whose code is always 404 | `GET /job/<id>` for a job just submitted, whose status is `queued` | 200 with the status when the job exists, 404 only when it does not | high (not executed) | FlaskApi.JobStatus | FlaskApi.JobStatusIntended |

The discrepancy is exhibited by `FlaskApi.KnownJobAnswered404` and
`Scenarios.SubmitThenStatus`. `FlaskApi.JobStatusDiffersOnlyInCode` proves
that the two versions differ exactly for a known job.
