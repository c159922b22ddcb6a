/**
 * server.js: the web dashboard's own server. It keeps every record in the
 * bounded in-memory array demoData besides the InfluxDB write, and its read
 * endpoints fall back to demoData. Its policies differ from Backend-API's:
 * sensor_id is stored as sent, a failed InfluxDB write is a 500 and stores
 * nothing, /latest never answers null, /history has no sensor filter and no
 * limit cap, and /demo/generate has no count cap and trims once, after its loop.
 */
module WebServer {
  import opened Common

  const MaxDemoData: nat := 1000
  const DemoCountDefault := 50
  const DemoSensorId := Str("cheesense_demo")
  const PlaceholderSensorId := Str("demo")
  const HistoryLimitDefault := 100
  /** The farthest a valid JavaScript Date lies from the epoch, in milliseconds. */
  const MaxTimeMillis := 8_640_000_000_000_000

  /** A stored sample: this server keeps sensor_id exactly as the request sent it. */
  type Sample = Reading<JsValue>

  /**
   * The data point built from a body at time `now`, or None when sensor_id is
   * falsy. sensor_id is kept as it came; each channel becomes `parseFloat(x) || 0`.
   */
  function ToDataPoint(body: RecordBody, now: int): (r: Option<Sample>)
    ensures r.Some? <==> Truthy(body.sensorId)
    ensures r.Some? ==> r.value.timestamp == now && r.value.sensorId == body.sensorId
    ensures r.Some? ==> forall k :: 0 <= k < ChannelCount ==>
              r.value.channels.Values()[k] == OrZero(body.channels.Values()[k])
  {
    if !Truthy(body.sensorId) then None
    else Some(Reading(now, body.sensorId, body.channels.Map(OrZero)))
  }

  /** The reply to POST /api/record. */
  datatype RecordReply =
    | Recorded(data: Sample)  // 200, the data point echoed back
    | BadRequest              // 400, 'sensor_id is required'
    | InternalError           // 500: the InfluxDB write or flush threw, or the log line could not print sensor_id
  {
    function StatusCode(): int {
      match this
      case Recorded(_) => 200
      case BadRequest => 400
      case InternalError => 500
    }
  }

  /** The answer to POST /api/demo/generate. */
  datatype DemoReply =
    | Generated(count: int, totalData: nat)  // 200, the count and demoData's new length
    | DemoFailed                             // 500: the first timestamp is not a valid Date

  class Server {
    var demoData: seq<Sample>

    ghost predicate Valid()
      reads this
    {
      |demoData| <= MaxDemoData
    }

    constructor ()
      ensures Valid() && demoData == []
    {
      demoData := [];
    }

    /**
     * POST /api/record. A falsy sensor_id or a failed InfluxDB write leaves
     * demoData as it was; otherwise the point is pushed and demoData trimmed.
     * The log line after the push prints sensor_id with a template literal, which
     * throws where String() does: the point then stays stored, yet the reply is a 500.
     */
    method PostRecord(body: RecordBody, now: int, write: WriteOutcome) returns (reply: RecordReply)
      requires Valid()
      modifies this
      ensures Valid()
      ensures ToDataPoint(body, now).None? ==> reply == BadRequest && demoData == old(demoData)
      ensures ToDataPoint(body, now).Some? && write == WriteFailed ==>
                reply == InternalError && demoData == old(demoData)
      ensures ToDataPoint(body, now).Some? && write != WriteFailed ==>
                var d := ToDataPoint(body, now).value;
                demoData == Trim(old(demoData) + [d], MaxDemoData) &&
                reply == if ToJsString(body.sensorId).None? then InternalError else Recorded(d)
    {
      var dataPoint := ToDataPoint(body, now);
      if dataPoint.None? {
        return BadRequest;
      }
      if write == WriteFailed {
        // writePoint / flush threw: the outer catch answers 500 before the push.
        return InternalError;
      }
      demoData := demoData + [dataPoint.value];
      if |demoData| > MaxDemoData {
        demoData := SliceFrom(demoData, -(MaxDemoData as int));
      }
      if ToJsString(dataPoint.value.sensorId).None? {
        // `${sensor_id}` in the log line threw after the push.
        return InternalError;
      }
      reply := Recorded(dataPoint.value);
    }

    /**
     * POST /api/demo/generate: `parseInt(count) || 50` samples, uncapped, one minute
     * apart and ending a minute before `now`, all pushed first and trimmed once.
     * The earliest timestamp comes first, so a count reaching back past the earliest
     * valid Date makes the first `toISOString()` throw before anything is pushed.
     */
    method PostDemoGenerate(count: JsInt, now: int, values: nat -> Channels<real>)
      returns (reply: DemoReply)
      requires Valid()
      requires -MaxTimeMillis <= now <= MaxTimeMillis
      modifies this
      ensures Valid()
      ensures var n := IntOr(count, DemoCountDefault);
        if 0 < n && now - n * DemoIntervalMillis < -MaxTimeMillis then
          reply == DemoFailed && demoData == old(demoData)
        else
          reply == Generated(n, |demoData|) &&
          demoData == Trim(old(demoData) + DemoBatch(n, now, DemoSensorId, values), MaxDemoData)
      ensures reply.Generated? ==> reply.totalData <= MaxDemoData
    {
      var generated := IntOr(count, DemoCountDefault);
      ghost var batch := DemoBatch(generated, now, DemoSensorId, values);
      ghost var before := demoData;
      var i := 0;
      while i < generated
        invariant 0 <= i <= |batch|
        invariant demoData == before + batch[..i]
        invariant 0 < i ==> -MaxTimeMillis <= now - generated * DemoIntervalMillis
      {
        var timestamp := now - (generated - i) * DemoIntervalMillis;
        if timestamp < -MaxTimeMillis {
          // The Date is invalid and `toISOString()` throws a RangeError; the
          // timestamps only grow, so this can only be the first one.
          return DemoFailed;
        }
        var sample := Reading(timestamp, DemoSensorId, values(i));
        assert sample == batch[i];
        demoData := demoData + [sample];
        assert batch[..i + 1] == batch[..i] + [batch[i]];
        i := i + 1;
      }
      assert batch[..i] == batch;
      if |demoData| > MaxDemoData {
        demoData := SliceFrom(demoData, -(MaxDemoData as int));
      }
      reply := Generated(generated, |demoData|);
    }
  }

  // ---------------------------------------------------------------------------
  // GET /api/latest
  // ---------------------------------------------------------------------------

  /** The reply to GET /api/latest; LatestFailed is the 500 a throwing query leads to. */
  datatype LatestReply = Latest(data: Sample, isDemo: bool) | LatestFailed

  /** The placeholder answered when there is no data at all. */
  function Placeholder(now: int): (p: Sample)
    ensures p.sensorId == PlaceholderSensorId && p.timestamp == now
    ensures forall k :: 0 <= k < ChannelCount ==> p.channels.Values()[k] == 0.0
  {
    Reading(now, PlaceholderSensorId, Channels(0.0, 0.0, 0.0, 0.0, 0.0, 0.0, 0.0, 0.0, 0.0, 0.0))
  }

  /**
   * GET /api/latest: the first InfluxDB row, else the newest demoData entry, else
   * the zero placeholder marked isDemo. Never null; a throwing query is a 500.
   */
  function GetLatest(influx: Query<Sample>, demoData: seq<Sample>, now: int): (r: LatestReply)
    ensures r.LatestFailed? <==> influx.Threw?
    ensures r.Latest? && influx.Delivered() != [] ==> r == Latest(influx.Delivered()[0], false)
    ensures r.Latest? && influx.Delivered() == [] && demoData != [] ==>
              r == Latest(demoData[|demoData| - 1], false)
    ensures r.Latest? ==> (r.isDemo <==> influx.Delivered() == [] && demoData == [])
    ensures r.Latest? && r.isDemo ==> r.data == Placeholder(now)
  {
    if influx.Threw? then LatestFailed
    else
      var results := influx.Delivered();
      if |results| > 0 then Latest(results[0], false)
      else if |demoData| > 0 then Latest(demoData[|demoData| - 1], false)
      else Latest(Placeholder(now), true)
  }

  // ---------------------------------------------------------------------------
  // GET /api/history
  // ---------------------------------------------------------------------------

  /** The response of GET /api/history; Failed is a 500 (an invalid date or a throwing query). */
  datatype HistoryReply = History(data: seq<Sample>, start: int, end: int) | Failed

  /** `demoData.filter(...)`: the entries inside [start, end], in store order. */
  function InWindow(demoData: seq<Sample>, start: int, end: int): (r: seq<Sample>)
    ensures Subsequence(r, demoData)
    ensures forall i :: 0 <= i < |r| ==> r[i] in demoData && start <= r[i].timestamp <= end
    ensures forall i :: 0 <= i < |demoData| && start <= demoData[i].timestamp <= end ==> demoData[i] in r
    ensures forall x :: multiset(r)[x] == if start <= x.timestamp <= end then multiset(demoData)[x] else 0
  {
    FilterCounts(demoData, (d: Sample) => start <= d.timestamp <= end);
    Filter(demoData, (d: Sample) => start <= d.timestamp <= end)
  }

  /** `parseInt(limit)` with `limit` defaulting to 100 when absent (None); no cap. */
  function ParsedLimit(limit: Option<JsInt>): (n: JsInt)
    ensures limit.None? ==> n == Some(HistoryLimitDefault)
    ensures limit.Some? ==> n == limit.value
  {
    if limit.None? then Some(HistoryLimitDefault) else limit.value
  }

  /**
   * GET /api/history: the InfluxDB rows when there are any; otherwise the newest
   * `parseInt(limit)` demoData entries in the window, in store order, with no cap.
   */
  function GetHistory(influx: Query<Sample>, demoData: seq<Sample>, start: TimeArg, end: TimeArg,
                      limit: Option<JsInt>, now: int): (r: HistoryReply)
    ensures r.Failed? <==> Window(start, end, now).None? || influx.Threw?
    ensures r.History? ==> (r.start, r.end) == Window(start, end, now).value
    ensures r.History? && influx.Delivered() != [] ==> r.data == influx.Delivered()
    ensures r.History? && influx.Delivered() == [] ==>
              var matches := InWindow(demoData, r.start, r.end);
              var n := ParsedLimit(limit);
              |r.data| <= |matches| && r.data == matches[|matches| - |r.data|..] &&
              (n.Some? && n.value > 0 ==> |r.data| == if |matches| < n.value then |matches| else n.value) &&
              (n.None? || n.value == 0 ==> r.data == matches) &&
              (n.Some? && n.value < 0 ==> |r.data| == if -n.value <= |matches| then |matches| + n.value else 0)
  {
    var window := Window(start, end, now);
    if window.None? || influx.Threw? then Failed
    else
      var startTime, endTime := window.value.0, window.value.1;
      var historyData := influx.Delivered();
      if |historyData| == 0 && |demoData| > 0 then
        var matches := InWindow(demoData, startTime, endTime);
        var data := SliceLast(matches, ParsedLimit(limit));
        assert data == matches[|matches| - |data|..];
        History(data, startTime, endTime)
      else
        // An empty answer with an empty store: the fallback would be empty too.
        assert |historyData| == 0 ==> historyData == InWindow(demoData, startTime, endTime) == [];
        History(historyData, startTime, endTime)
  }

  /**
   * Every entry of a fallback answer is a demoData entry inside the window, and
   * the answer keeps store order.
   */
  lemma HistoryFallbackSound(influx: Query<Sample>, demoData: seq<Sample>, start: TimeArg, end: TimeArg,
                             limit: Option<JsInt>, now: int)
    requires influx.Delivered() == []
    ensures var r := GetHistory(influx, demoData, start, end, limit, now);
            r.History? ==>
              Subsequence(r.data, demoData) &&
              forall i :: 0 <= i < |r.data| ==> r.data[i] in demoData && r.start <= r.data[i].timestamp <= r.end
  {
    var r := GetHistory(influx, demoData, start, end, limit, now);
    if r.History? {
      var matches := InWindow(demoData, r.start, r.end);
      var k := |matches| - |r.data|;
      assert r.data == matches[k..];
      SubsequenceDrop(matches, demoData, k);
      forall i | 0 <= i < |r.data|
        ensures r.data[i] in demoData && r.start <= r.data[i].timestamp <= r.end
      {
        assert r.data[i] == matches[k + i];
      }
    }
  }

  // ---------------------------------------------------------------------------
  // GET /api/status
  // ---------------------------------------------------------------------------

  datatype Status = Status(server: string, influxdb: string, lastDataTime: Option<int>, dataCount: nat)

  /** GET /api/status: the one-row InfluxDB probe, the size of demoData and its newest timestamp. */
  function GetStatus(probe: Query<Sample>, demoData: seq<Sample>): (r: Status)
    ensures r.server == "online" && r.dataCount == |demoData|
    ensures r.lastDataTime.None? <==> demoData == []
    ensures r.lastDataTime.Some? ==> r.lastDataTime.value == demoData[|demoData| - 1].timestamp
    ensures r.influxdb == "not configured" <==> probe.NotConfigured?
    ensures r.influxdb == "connected" <==> probe.Completed?
    ensures r.influxdb == "disconnected" <==> probe.Errored?
    ensures r.influxdb == "error" <==> probe.Threw?
  {
    var influxdb :=
      match probe
      case NotConfigured => "not configured"
      case Completed(_) => "connected"
      case Errored(_) => "disconnected"
      case Threw => "error";
    var lastDataTime := if |demoData| > 0 then Some(demoData[|demoData| - 1].timestamp) else None;
    Status("online", influxdb, lastDataTime, |demoData|)
  }
}
