/**
 * The Redis store shared by the API and the worker, made explicit.  The four
 * keys the core uses become the four fields of `Store`:
 *   raw_data   (a JSON-encoded dataset)  -> rawData
 *   job_status (a hash)                  -> status
 *   job_result (a hash)                  -> result
 *   job_queue  (a list)                  -> queue
 * Values are kept decoded: JSON encoding followed by decoding is taken to be
 * the identity.  A ghost log records, in order, every command the core sends.
 */
module KeyValue {
  import opened Wrappers
  import opened PyValue

  /** One element of `job_queue` as the worker's `json.loads` reads it. */
  datatype Entry =
    | Job(fields: map<string, Value>)  // a JSON object: the job descriptor
    | Malformed(raw: string)           // text that is not JSON, or JSON that is not an object

  datatype Hash = StatusHash | ResultHash

  datatype Command =
    | SetCmd(rows: seq<Row>)
    | DelCmd
    | HSetCmd(hash: Hash, field: string, value: string)
    | RPushCmd(entry: Entry)
    | BLPopCmd

  // The closed set of job status strings.
  const Queued: string := "queued"
  const Processing: string := "processing"
  const Completed: string := "completed"
  const FailedPrefix: string := "failed: "

  function Failed(reason: string): (s: string)
    ensures IsFailed(s) && s != Queued && s != Completed && s != Processing
  {
    var s := FailedPrefix + reason;
    assert s[0] == 'f' && s[..|FailedPrefix|] == FailedPrefix;
    s
  }

  predicate IsFailed(s: string) {
    |s| >= |FailedPrefix| && s[..|FailedPrefix|] == FailedPrefix
  }

  /**
   * How the Redis client encodes a hash field name: a string as it is, an
   * int or a float as its `repr`; `None` stands for the `DataError` it raises
   * for None, booleans, lists and dicts.
   */
  function RedisField(v: Value): (r: Option<string>)
    ensures v.Str? ==> r == Some(v.s)
    ensures r.None? <==> v.Null? || v.Bool? || v.List? || v.Dict?
  {
    match v
    case Str(s) => Some(s)
    case Int(i) => Some(IntToString(i))
    case Float(t) => Some(t)
    case _ => None
  }

  /**
   * The text of the `DataError` `hset` raises for a field name it refuses:
   * `None` is rejected before encoding as a missing key, any other value by
   * the encoder, naming its type.
   */
  function DataErrorText(v: Value): string {
    if v.Null? then NoKeyValuePairs
    else "Invalid input of type: '" + TypeName(v) + "'. Convert to a bytes, string, int or float first."
  }

  const NoKeyValuePairs: string := "'hset' with no key value pairs"

  /** The encoder's refusal starts with `I` and names the type at characters 24 to 27. */
  lemma EncoderErrorShape(v: Value)
    requires RedisField(v).None? && !v.Null?
    ensures var t := DataErrorText(v); |t| > 28 && t[0] == 'I' && t[24..28] == TypeName(v)
  {
    var head, tail := "Invalid input of type: '", "'. Convert to a bytes, string, int or float first.";
    assert |TypeName(v)| == 4;
    assert DataErrorText(v) == head + TypeName(v) + tail;
    assert (head + TypeName(v) + tail)[24..28] == TypeName(v);
  }

  /** Two refused field names give the same error text exactly when they are of the same type. */
  lemma DataErrorIdentifiesType(v: Value, w: Value)
    requires RedisField(v).None? && RedisField(w).None?
    ensures DataErrorText(v) == DataErrorText(w) <==> TypeName(v) == TypeName(w)
  {
    if !v.Null? { EncoderErrorShape(v); }
    if !w.Null? { EncoderErrorShape(w); }
    assert NoKeyValuePairs[0] == '\'';
  }

  /** The job id of a queue entry the API pushed. */
  function QueuedKey(e: Entry): Option<string> {
    if e.Job? && "job_id" in e.fields && e.fields["job_id"].Str? then Some(e.fields["job_id"].s) else None
  }

  /** The hash `m` after command `c`, when `c` is an `HSET` on hash `h`; `m` itself otherwise. */
  function Step(c: Command, h: Hash, m: map<string, string>): map<string, string> {
    if c.HSetCmd? && c.hash == h then m[c.field := c.value] else m
  }

  /** The hash `m` after the `HSET` commands of `cmds` that address hash `h`, in order. */
  function ApplyHSets(cmds: seq<Command>, h: Hash, m: map<string, string>): map<string, string> {
    if cmds == [] then m else ApplyHSets(cmds[1..], h, Step(cmds[0], h, m))
  }

  lemma {:induction false} ApplyHSetsAppend(a: seq<Command>, b: seq<Command>, h: Hash, m: map<string, string>)
    ensures ApplyHSets(a + b, h, m) == ApplyHSets(b, h, ApplyHSets(a, h, m))
  {
    if a != [] {
      assert (a + b)[1..] == a[1..] + b;
      ApplyHSetsAppend(a[1..], b, h, Step(a[0], h, m));
    } else {
      assert a + b == b;
    }
  }

  /** Applying a sequence of one to three commands, one command at a time. */
  lemma ApplyHSetsSmall(cmds: seq<Command>, h: Hash, m: map<string, string>)
    requires 1 <= |cmds| <= 3
    ensures var m1 := Step(cmds[0], h, m);
            var m2 := if |cmds| >= 2 then Step(cmds[1], h, m1) else m1;
            var m3 := if |cmds| == 3 then Step(cmds[2], h, m2) else m2;
            ApplyHSets(cmds, h, m) == m3
  {
    var m1 := Step(cmds[0], h, m);
    assert ApplyHSets(cmds, h, m) == ApplyHSets(cmds[1..], h, m1);
    if |cmds| >= 2 {
      var m2 := Step(cmds[1], h, m1);
      assert ApplyHSets(cmds[1..], h, m1) == ApplyHSets(cmds[2..], h, m2);
      if |cmds| == 3 {
        assert ApplyHSets(cmds[2..], h, m2) == ApplyHSets(cmds[3..], h, Step(cmds[2], h, m2));
      }
    }
  }

  /** Sending up to three commands one at a time logs them in order. */
  lemma LogSteps(log: seq<Command>, w: seq<Command>)
    requires 1 <= |w| <= 3
    ensures |w| == 1 ==> log + [w[0]] == log + w
    ensures |w| == 2 ==> log + [w[0]] + [w[1]] == log + w
    ensures |w| == 3 ==> log + [w[0]] + [w[1]] + [w[2]] == log + w
  {
    if |w| == 1 {
      assert w == [w[0]];
    } else if |w| == 2 {
      assert w == [w[0]] + [w[1]];
    } else {
      assert w == [w[0]] + [w[1]] + [w[2]];
    }
  }

  /** A field no command of `cmds` writes keeps its entry. */
  lemma {:induction false} ApplyHSetsOutside(cmds: seq<Command>, h: Hash, m: map<string, string>, k: string)
    requires forall i :: 0 <= i < |cmds| && cmds[i].HSetCmd? ==> cmds[i].field != k
    ensures k in ApplyHSets(cmds, h, m) <==> k in m
    ensures k in m ==> ApplyHSets(cmds, h, m)[k] == m[k]
  {
    if cmds != [] {
      var m' := Step(cmds[0], h, m);
      assert k in m' <==> k in m;
      assert k in m ==> m'[k] == m[k];
      ApplyHSetsOutside(cmds[1..], h, m', k);
    }
  }

  /**
   * The job-ledger invariant kept by every operation of the core: a queued job
   * is exactly one in the queue, queue ids are distinct, every status is one
   * of the closed set, and a result exists exactly for a completed job.
   */
  ghost predicate LedgerInvariant(status: map<string, string>, result: map<string, string>, queue: seq<Entry>) {
    && (forall i :: 0 <= i < |queue| ==>
          QueuedKey(queue[i]).Some? && QueuedKey(queue[i]).value in status
          && status[QueuedKey(queue[i]).value] == Queued)
    && (forall i, j :: 0 <= i < j < |queue| ==> QueuedKey(queue[i]) != QueuedKey(queue[j]))
    && (forall k :: k in status && status[k] == Queued ==>
          exists i :: 0 <= i < |queue| && QueuedKey(queue[i]) == Some(k))
    && (forall k :: k in status ==> status[k] == Queued || status[k] == Completed || IsFailed(status[k]))
    && (forall k :: k in result <==> k in status && status[k] == Completed)
    && (forall k :: k in result ==> result[k] != "")
  }

  class Store {
    var rawData: Option<seq<Row>>
    var status: map<string, string>
    var result: map<string, string>
    var queue: seq<Entry>
    ghost var log: seq<Command>

    ghost predicate Valid()
      reads this
    {
      LedgerInvariant(status, result, queue)
    }

    /** An empty Redis database. */
    constructor ()
      ensures rawData == None && status == map[] && result == map[] && queue == []
      ensures log == [] && Valid()
    {
      rawData, status, result, queue := None, map[], map[], [];
      log := [];
    }

    /** `SET raw_data <rows>`. */
    method Set(rows: seq<Row>)
      modifies this`rawData, this`log
      ensures rawData == Some(rows)
      ensures status == old(status) && result == old(result) && queue == old(queue)
      ensures log == old(log) + [SetCmd(rows)]
    {
      rawData := Some(rows);
      log := log + [SetCmd(rows)];
    }

    /** `DEL raw_data`. */
    method Delete()
      modifies this`rawData, this`log
      ensures rawData == None
      ensures status == old(status) && result == old(result) && queue == old(queue)
      ensures log == old(log) + [DelCmd]
    {
      rawData := None;
      log := log + [DelCmd];
    }

    /** `HSET job_status|job_result <field> <value>`. */
    method HSet(hash: Hash, field: string, value: string)
      modifies this`status, this`result, this`log
      ensures status == (if hash == StatusHash then old(status)[field := value] else old(status))
      ensures result == (if hash == ResultHash then old(result)[field := value] else old(result))
      ensures rawData == old(rawData) && queue == old(queue)
      ensures log == old(log) + [HSetCmd(hash, field, value)]
    {
      if hash == StatusHash {
        status := status[field := value];
      } else {
        result := result[field := value];
      }
      log := log + [HSetCmd(hash, field, value)];
    }

    /**
     * `HSET` with a field name that is still a Python value: the client
     * encodes it first, and raises `DataError` when it cannot.
     */
    method HSetValue(hash: Hash, field: Value, value: string) returns (r: Result<()>)
      modifies this`status, this`result, this`log
      ensures RedisField(field).None? ==>
                r == Err(DataErrorText(field)) && status == old(status) && result == old(result) && log == old(log)
      ensures RedisField(field).Some? ==>
                var k := RedisField(field).value;
                && r == Ok(())
                && status == (if hash == StatusHash then old(status)[k := value] else old(status))
                && result == (if hash == ResultHash then old(result)[k := value] else old(result))
                && log == old(log) + [HSetCmd(hash, k, value)]
    {
      match RedisField(field)
      case None =>
        r := Err(DataErrorText(field));
      case Some(k) =>
        HSet(hash, k, value);
        r := Ok(());
    }

    /** `RPUSH job_queue <entry>`: append at the tail. */
    method RPush(entry: Entry)
      modifies this`queue, this`log
      ensures queue == old(queue) + [entry]
      ensures rawData == old(rawData) && status == old(status) && result == old(result)
      ensures log == old(log) + [RPushCmd(entry)]
    {
      queue := queue + [entry];
      log := log + [RPushCmd(entry)];
    }

    /** `BLPOP job_queue` once an entry is available: remove and return the head. */
    method BLPop() returns (entry: Entry)
      requires queue != []
      modifies this`queue, this`log
      ensures entry == old(queue)[0] && queue == old(queue)[1..]
      ensures rawData == old(rawData) && status == old(status) && result == old(result)
      ensures log == old(log) + [BLPopCmd]
    {
      entry := queue[0];
      queue := queue[1..];
      log := log + [BLPopCmd];
    }
  }
}
