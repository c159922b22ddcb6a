/**
 * Backend-API/server.js: the IoT ingestion API. Every record is kept in a
 * bounded in-memory store (memoryStorage) besides the best-effort InfluxDB
 * write, and /latest and /history fall back to that store when InfluxDB
 * gives no rows.
 */
module BackendApi {
  import opened Common

  const MaxMemoryRecords: nat := 1000
  const ApiKeyPlaceholder := "your-secret-api-key-here"
  const DemoCountDefault := 50
  const DemoCountCap := 200
  const DemoSensorId := "cheesense_demo"
  const HistoryLimitDefault := 100
  const HistoryLimitCap := 1000

  /** A stored sample: this server stringifies sensor_id. */
  type Sample = Reading<string>

  // ---------------------------------------------------------------------------
  // validateApiKey
  // ---------------------------------------------------------------------------

  /** The X-API-Key header and the apiKey query parameter of a request. */
  datatype Credentials = Credentials(header: Option<string>, query: Option<string>)

  /** The configured key switches the check off when unset, empty or the sample placeholder. */
  predicate KeyUnset(apiKey: Option<string>) {
    apiKey.None? || apiKey.value == "" || apiKey.value == ApiKeyPlaceholder
  }

  /** `req.headers['x-api-key'] || req.query.apiKey` */
  function ProvidedKey(c: Credentials): Option<string> {
    if c.header.Some? && c.header.value != "" then c.header else c.query
  }

  /**
   * The API-key middleware: true lets the request through, false answers 401.
   * With a key configured, the header decides when it is non-empty and the
   * query parameter otherwise, and only an exact match passes.
   */
  function ValidateApiKey(apiKey: Option<string>, c: Credentials): (pass: bool)
    ensures KeyUnset(apiKey) ==> pass
    ensures !KeyUnset(apiKey) && c.header.Some? && c.header.value != "" ==>
              (pass <==> c.header.value == apiKey.value)
    ensures !KeyUnset(apiKey) && (c.header.None? || c.header.value == "") ==>
              (pass <==> c.query == Some(apiKey.value))
  {
    if KeyUnset(apiKey) then true
    else
      var provided := ProvidedKey(c);
      !(provided.None? || provided.value == "" || provided.value != apiKey.value)
  }

  // ---------------------------------------------------------------------------
  // POST /record: validation and normalisation
  // ---------------------------------------------------------------------------

  /** What building the data point of a record request gives. */
  datatype Normalized =
    | Missing              // sensor_id is falsy: the 400
    | Unprintable          // String(sensor_id) threw: the outer catch's 500
    | Point(sample: Sample)

  /**
   * The data point built from a body at time `now`. A falsy sensor_id is
   * Missing, and one String() cannot convert is Unprintable. Otherwise
   * sensor_id becomes String(sensor_id) and each channel `parseFloat(x) || 0`.
   */
  function Normalize(body: RecordBody, now: int): (r: Normalized)
    ensures r.Missing? <==> !Truthy(body.sensorId)
    ensures r.Unprintable? <==> Truthy(body.sensorId) && ToJsString(body.sensorId).None?
    ensures r.Point? ==> r.sample.timestamp == now && ToJsString(body.sensorId) == Some(r.sample.sensorId)
    ensures r.Point? ==> forall k :: 0 <= k < ChannelCount ==>
              r.sample.channels.Values()[k] == OrZero(body.channels.Values()[k])
  {
    if !Truthy(body.sensorId) then Missing
    else
      match ToJsString(body.sensorId)
      case None => Unprintable
      case Some(id) => Point(Reading(now, id, body.channels.Map(OrZero)))
  }

  /** A string sensor_id is stored unchanged, and is never empty. */
  lemma StringSensorIdKept(id: string, channels: Channels<Option<real>>, now: int)
    requires !Normalize(RecordBody(Str(id), channels), now).Missing?
    ensures Normalize(RecordBody(Str(id), channels), now).Point?
    ensures Normalize(RecordBody(Str(id), channels), now).sample.sensorId == id != ""
  {
  }

  /** An empty array passes the `!sensor_id` check and is stored with sensor_id "". */
  lemma EmptyArraySensorIdStoredBlank(channels: Channels<Option<real>>, now: int)
    ensures Normalize(RecordBody(Array([]), channels), now).Point?
    ensures Normalize(RecordBody(Array([]), channels), now).sample.sensorId == ""
  {
    EmptyArrayIsTruthyButBlank();
  }

  /** The reply to POST /record. */
  datatype RecordReply =
    | Created(timestamp: int, sensorId: string)  // 201
    | BadRequest                                // 400, 'sensor_id is required'
    | Unauthorized                              // 401, 'Invalid or missing API key'
    | InternalError                             // 500, the handler threw
  {
    function StatusCode(): int {
      match this
      case Created(_, _) => 201
      case BadRequest => 400
      case Unauthorized => 401
      case InternalError => 500
    }
  }

  // ---------------------------------------------------------------------------
  // The server's state: memoryStorage
  // ---------------------------------------------------------------------------

  class Server {
    var memoryStorage: seq<Sample>

    ghost predicate Valid()
      reads this
    {
      |memoryStorage| <= MaxMemoryRecords
    }

    constructor ()
      ensures Valid() && memoryStorage == []
    {
      memoryStorage := [];
    }

    /** addToMemory: push, then cut back to the newest MAX_MEMORY_RECORDS. */
    method AddToMemory(data: Sample)
      requires Valid()
      modifies this
      ensures Valid()
      ensures memoryStorage == Trim(old(memoryStorage) + [data], MaxMemoryRecords)
      ensures |memoryStorage| == if |old(memoryStorage)| < MaxMemoryRecords then |old(memoryStorage)| + 1 else MaxMemoryRecords
      ensures memoryStorage[|memoryStorage| - 1] == data
    {
      memoryStorage := memoryStorage + [data];
      if |memoryStorage| > MaxMemoryRecords {
        memoryStorage := SliceFrom(memoryStorage, -(MaxMemoryRecords as int));
      }
    }

    /**
     * POST /record behind validateApiKey. A rejected request leaves memoryStorage
     * as it was; an accepted one is stored whatever the InfluxDB write did.
     */
    method PostRecord(apiKey: Option<string>, cred: Credentials, body: RecordBody, now: int, write: WriteOutcome)
      returns (reply: RecordReply)
      requires Valid()
      modifies this
      ensures Valid()
      ensures !ValidateApiKey(apiKey, cred) ==>
                reply == Unauthorized && memoryStorage == old(memoryStorage)
      ensures ValidateApiKey(apiKey, cred) && Normalize(body, now).Missing? ==>
                reply == BadRequest && memoryStorage == old(memoryStorage)
      ensures ValidateApiKey(apiKey, cred) && Normalize(body, now).Unprintable? ==>
                reply == InternalError && memoryStorage == old(memoryStorage)
      ensures ValidateApiKey(apiKey, cred) && Normalize(body, now).Point? ==>
                var d := Normalize(body, now).sample;
                reply == Created(now, d.sensorId) &&
                memoryStorage == Trim(old(memoryStorage) + [d], MaxMemoryRecords)
    {
      if !ValidateApiKey(apiKey, cred) {
        return Unauthorized;
      }
      var dataPoint := Normalize(body, now);
      if dataPoint.Missing? {
        return BadRequest;
      }
      if dataPoint.Unprintable? {
        // String(sensor_id) threw before anything was written or stored.
        return InternalError;
      }
      // The InfluxDB write (skipped, flushed or failed) is caught and ignored.
      AddToMemory(dataPoint.sample);
      reply := Created(dataPoint.sample.timestamp, dataPoint.sample.sensorId);
    }

    /**
     * POST /demo/generate: `count = min(parseInt(count) || 50, 200)` samples, one
     * minute apart and ending a minute before `now`, each added with addToMemory.
     */
    method PostDemoGenerate(count: JsInt, now: int, values: nat -> Channels<real>)
      returns (generated: int, totalRecords: nat)
      requires Valid()
      modifies this
      ensures Valid()
      ensures generated == DemoCount(count)
      ensures memoryStorage ==
                Trim(old(memoryStorage) + DemoBatch(generated, now, DemoSensorId, values), MaxMemoryRecords)
      ensures totalRecords == |memoryStorage| <= MaxMemoryRecords
    {
      generated := DemoCount(count);
      ghost var batch := DemoBatch(generated, now, DemoSensorId, values);
      ghost var before := memoryStorage;
      var i := 0;
      while i < generated
        invariant 0 <= i <= |batch|
        invariant Valid()
        invariant memoryStorage == Trim(before + batch[..i], MaxMemoryRecords)
      {
        var sample := Reading(now - (generated - i) * DemoIntervalMillis, DemoSensorId, values(i));
        assert sample == batch[i];
        AddToMemory(sample);
        TrimStep(before, batch, i, MaxMemoryRecords);
        i := i + 1;
      }
      assert batch[..i] == batch;
      totalRecords := |memoryStorage|;
    }
  }

  /** `Math.min(parseInt(count) || 50, 200)` */
  function DemoCount(count: JsInt): (n: int)
    ensures n <= DemoCountCap && n != 0
    ensures count.None? || count.value == 0 ==> n == DemoCountDefault
    ensures count.Some? && count.value != 0 && count.value <= DemoCountCap ==> n == count.value
    ensures count.Some? && count.value > DemoCountCap ==> n == DemoCountCap
  {
    var c := IntOr(count, DemoCountDefault);
    if c < DemoCountCap then c else DemoCountCap
  }

  // ---------------------------------------------------------------------------
  // GET /latest
  // ---------------------------------------------------------------------------

  /**
   * The `data` of GET /latest (None is `data: null`): the first InfluxDB row if
   * the query gave any, else the newest stored sample. The sources are never mixed.
   */
  function GetLatest(influx: Query<Sample>, memoryStorage: seq<Sample>): (r: Option<Sample>)
    ensures influx.Delivered() != [] ==> r == Some(influx.Delivered()[0])
    ensures influx.Delivered() == [] && memoryStorage != [] ==> r == Some(memoryStorage[|memoryStorage| - 1])
    ensures r.None? <==> influx.Delivered() == [] && memoryStorage == []
  {
    var results := influx.Delivered();
    if |results| > 0 then Some(results[0])
    else if |memoryStorage| > 0 then Some(memoryStorage[|memoryStorage| - 1])
    else None
  }

  /**
   * A record accepted while InfluxDB yields no rows is what /latest returns next,
   * whatever memoryStorage held before.
   */
  lemma LatestAfterRecord(influx: Query<Sample>, memoryStorage: seq<Sample>, body: RecordBody, now: int)
    requires influx.Delivered() == []
    requires Normalize(body, now).Point?
    ensures GetLatest(influx, Trim(memoryStorage + [Normalize(body, now).sample], MaxMemoryRecords))
            == Some(Normalize(body, now).sample)
  {
    var d := Normalize(body, now).sample;
    var s := Trim(memoryStorage + [d], MaxMemoryRecords);
    assert s[|s| - 1] == (memoryStorage + [d])[|memoryStorage|];
  }

  // ---------------------------------------------------------------------------
  // GET /history
  // ---------------------------------------------------------------------------

  /** `Math.min(parseInt(limit), 1000)` with `limit` defaulting to 100 when absent (None). */
  function MaxLimit(limit: Option<JsInt>): (m: JsInt)
    ensures m.None? <==> limit == Some(None)
    ensures limit.None? ==> m == Some(HistoryLimitDefault)
    ensures m.Some? ==> m.value <= HistoryLimitCap
    ensures limit.Some? && limit.value.Some? && limit.value.value <= HistoryLimitCap ==> m == limit.value
    ensures limit.Some? && limit.value.Some? && limit.value.value > HistoryLimitCap ==> m == Some(HistoryLimitCap)
  {
    match limit
    case None => Some(HistoryLimitDefault)
    case Some(None) => None
    case Some(Some(n)) => Some(if n < HistoryLimitCap then n else HistoryLimitCap)
  }

  /** The fallback filter: inside [start, end] and, when a sensor is given, from that sensor. */
  predicate Matches(d: Sample, start: int, end: int, sensor: Option<string>) {
    start <= d.timestamp <= end && (sensor.None? || sensor.value == "" || d.sensorId == sensor.value)
  }

  /** `memoryStorage.filter(...)`: the stored samples the fallback may answer with, in store order. */
  function Matching(memoryStorage: seq<Sample>, start: int, end: int, sensor: Option<string>): (r: seq<Sample>)
    ensures Subsequence(r, memoryStorage)
    ensures forall i :: 0 <= i < |r| ==> r[i] in memoryStorage && Matches(r[i], start, end, sensor)
    ensures forall i :: 0 <= i < |memoryStorage| && Matches(memoryStorage[i], start, end, sensor) ==> memoryStorage[i] in r
    ensures forall x :: multiset(r)[x] == if Matches(x, start, end, sensor) then multiset(memoryStorage)[x] else 0
  {
    FilterCounts(memoryStorage, d => Matches(d, start, end, sensor));
    Filter(memoryStorage, d => Matches(d, start, end, sensor))
  }

  /** The response of GET /history; Failed is the 500 an invalid date leads to. */
  datatype HistoryReply = History(data: seq<Sample>, start: int, end: int) | Failed

  /**
   * GET /history: the InfluxDB rows when there are any; otherwise the newest
   * `maxLimit` stored samples in the window (and of the sensor), in store order.
   * `slice(-maxLimit)` keeps every match when maxLimit is 0 or NaN.
   */
  function GetHistory(influx: Query<Sample>, memoryStorage: seq<Sample>, start: TimeArg, end: TimeArg,
                      limit: Option<JsInt>, sensor: Option<string>, now: int): (r: HistoryReply)
    ensures r.Failed? <==> Window(start, end, now).None?
    ensures r.History? ==> (r.start, r.end) == Window(start, end, now).value
    ensures r.History? && influx.Delivered() != [] ==> r.data == influx.Delivered()
    ensures r.History? && influx.Delivered() == [] ==>
              var matches := Matching(memoryStorage, r.start, r.end, sensor);
              var maxLimit := MaxLimit(limit);
              |r.data| <= |matches| && r.data == matches[|matches| - |r.data|..] &&
              (maxLimit.Some? && maxLimit.value > 0 ==>
                 |r.data| == if |matches| < maxLimit.value then |matches| else maxLimit.value) &&
              (maxLimit.None? || maxLimit.value == 0 ==> r.data == matches) &&
              (maxLimit.Some? && maxLimit.value < 0 ==> |r.data| == if -maxLimit.value <= |matches| then |matches| + maxLimit.value else 0)
  {
    var window := Window(start, end, now);
    if window.None? then Failed
    else
      var startTime, endTime := window.value.0, window.value.1;
      var historyData := influx.Delivered();
      if |historyData| == 0 && |memoryStorage| > 0 then
        var matches := Matching(memoryStorage, startTime, endTime, sensor);
        var data := SliceLast(matches, MaxLimit(limit));
        assert data == matches[|matches| - |data|..];
        History(data, startTime, endTime)
      else
        // An empty answer with an empty store: the fallback would be empty too.
        assert |historyData| == 0 ==> historyData == Matching(memoryStorage, startTime, endTime, sensor) == [];
        History(historyData, startTime, endTime)
  }

  /**
   * Every sample a fallback answer holds is a stored sample inside the window and,
   * when a sensor is given, of that sensor; the answer keeps store order.
   */
  lemma HistoryFallbackSound(influx: Query<Sample>, memoryStorage: seq<Sample>, start: TimeArg, end: TimeArg,
                             limit: Option<JsInt>, sensor: Option<string>, now: int)
    requires influx.Delivered() == []
    ensures var r := GetHistory(influx, memoryStorage, start, end, limit, sensor, now);
            r.History? ==>
              Subsequence(r.data, memoryStorage) &&
              forall i :: 0 <= i < |r.data| ==> r.data[i] in memoryStorage && Matches(r.data[i], r.start, r.end, sensor)
  {
    var r := GetHistory(influx, memoryStorage, start, end, limit, sensor, now);
    if r.History? {
      var matches := Matching(memoryStorage, r.start, r.end, sensor);
      var k := |matches| - |r.data|;
      assert r.data == matches[k..];
      SubsequenceDrop(matches, memoryStorage, k);
      forall i | 0 <= i < |r.data|
        ensures r.data[i] in memoryStorage && Matches(r.data[i], r.start, r.end, sensor)
      {
        assert r.data[i] == matches[k + i];
      }
    }
  }

  /** A fallback answer never holds more than 1000 samples, whatever limit was asked for. */
  lemma HistoryFallbackBounded(influx: Query<Sample>, memoryStorage: seq<Sample>, start: TimeArg, end: TimeArg,
                               limit: Option<JsInt>, sensor: Option<string>, now: int)
    requires |memoryStorage| <= MaxMemoryRecords
    requires influx.Delivered() == []
    ensures var r := GetHistory(influx, memoryStorage, start, end, limit, sensor, now);
            r.History? ==> |r.data| <= HistoryLimitCap
  {
  }

  /**
   * A record accepted while InfluxDB yields no rows shows up last in a history
   * request whose window covers it, for its own sensor, with a positive limit.
   */
  lemma RecordedSampleEndsHistory(influx: Query<Sample>, memoryStorage: seq<Sample>, d: Sample, start: TimeArg,
                                  end: TimeArg, limit: Option<JsInt>, sensor: Option<string>, now: int)
    requires influx.Delivered() == []
    requires Window(start, end, now).Some?
    requires Matches(d, Window(start, end, now).value.0, Window(start, end, now).value.1, sensor)
    requires MaxLimit(limit).Some? && MaxLimit(limit).value > 0
    ensures var r := GetHistory(influx, Trim(memoryStorage + [d], MaxMemoryRecords), start, end, limit, sensor, now);
            r.History? && |r.data| > 0 && r.data[|r.data| - 1] == d
  {
    var w := Window(start, end, now).value;
    var s := Trim(memoryStorage + [d], MaxMemoryRecords);
    assert s[|s| - 1] == (memoryStorage + [d])[|memoryStorage|];
    MatchingEndsWith(s, d, w.0, w.1, sensor);
  }

  /** A store whose newest sample matches has that sample as the last match. */
  lemma MatchingEndsWith(s: seq<Sample>, d: Sample, start: int, end: int, sensor: Option<string>)
    requires |s| > 0 && s[|s| - 1] == d && Matches(d, start, end, sensor)
    ensures var m := Matching(s, start, end, sensor); |m| > 0 && m[|m| - 1] == d
  {
    var keep := (x: Sample) => Matches(x, start, end, sensor);
    var front := s[..|s| - 1];
    assert s == front + [d];
    FilterAppend(front, [d], keep);
    assert Filter([d], keep) == [d];
  }

  // ---------------------------------------------------------------------------
  // GET /status
  // ---------------------------------------------------------------------------

  datatype Status = Status(server: string, influxdb: string, memoryRecords: nat)

  /** GET /status: the outcome of a one-row InfluxDB probe and the size of memoryStorage. */
  function GetStatus(probe: Query<Sample>, memoryStorage: seq<Sample>): (r: Status)
    ensures r.server == "online" && r.memoryRecords == |memoryStorage|
    ensures r.influxdb == "not configured" <==> probe.NotConfigured?
    ensures r.influxdb == "connected" <==> probe.Completed?
    ensures r.influxdb == "error" <==> probe.Errored? || probe.Threw?
  {
    var influxdb :=
      match probe
      case NotConfigured => "not configured"
      case Completed(_) => "connected"
      case Errored(_) => "error"
      case Threw => "error";
    Status("online", influxdb, |memoryStorage|)
  }
}
