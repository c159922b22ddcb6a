# CheeSense in Dafny

CheeSense collects readings from an AS7341-style spectral sensor that watches
cheese. Each reading has a timestamp, a sensor id and ten channels: eight
visible bands f1..f8 (415 to 680 nm), `clear` and the near-infrared `nir`
(910 nm). Two Node servers accept readings. Both write readings to InfluxDB
when it is configured. Both also keep them in a bounded in-memory array, and
`/latest` and `/history` fall back to that array when InfluxDB returns no rows.
Two browser pages show the data.

This project models:

- **`common.dfy` (module `Common`)**: the JavaScript behaviour the servers rely
  on. It covers truthiness, `String(x)`, `Array.join` and its inverse,
  `parseFloat(x) || 0`, `parseInt(x) || d`, `Array.slice(-n)` (including
  `slice(-0)`, which keeps everything) and the "push, then keep the newest
  `max`" trim. It also holds the sample types, the order-preserving filter,
  the InfluxDB oracle, the default time window and the demo-batch timestamps.
- **`backend_api.dfy` (module `BackendApi`)**: `Backend-API/server.js`. This
  is the IoT ingestion API. It has the API-key check, `/record`,
  `/demo/generate` (both mutate `memoryStorage` through `addToMemory`),
  `/latest`, `/history` and `/status`.
- **`web_server.dfy` (module `WebServer`)**: the root `server.js`, which serves
  the dashboard. It has its own array, `demoData`, and different policies
  (see below).
- **`dashboard.dfy` (module `Dashboard`)**: `public/js/dashboard.js`. It covers
  base-path detection, the three chart vectors, the dominant channel (a loop)
  and the quality grade.
- **`history_page.dfy` (module `HistoryPage`)**: `public/js/history.js`. It
  covers the time-range table, the requested window and the CSV export (a
  loop that appends to a string).

InfluxDB is an oracle: `Query<R>` is `NotConfigured`, `Completed(rows)`,
`Errored(rows delivered before the error)` or `Threw`. `WriteOutcome` is
`WriteSkipped`, `Flushed` or `WriteFailed`. Timestamps are integers in
milliseconds. Parsed numbers (`parseFloat`, `parseInt`) are inputs of type
`Option`, with `None` standing for NaN. A date that does not parse is
`TimeArg.Unparsable`. `toISOString` throws on such a date, so both servers
answer 500.

The two servers differ, and the model keeps each one's own policy:

| | Backend-API/server.js | server.js |
|---|---|---|
| stored `sensor_id` | `String(sensor_id)` | as sent |
| failed InfluxDB write | logged; the sample is still stored; 201 | 500; nothing stored |
| `/latest` with no data | `data: null` | zero placeholder, `sensor_id: 'demo'`, `isDemo: true` |
| `/history` fallback | window, optional sensor, limit capped at 1000 | window only, no cap |
| `/demo/generate` count | `min(parseInt(count) || 50, 200)`, trimmed after each push | `parseInt(count) || 50`, uncapped, trimmed once at the end; 500 when the first timestamp is before the earliest valid Date |
| throwing InfluxDB query | swallowed | `/latest` and `/history`: 500; `/status`: "error" |
| `sensor_id` that `String()` cannot print | 500, nothing stored | stored, then the log line throws: 500 |

Behaviours of the code worth knowing:

- The backend accepts an empty array as `sensor_id`, because `[]` is truthy.
  It stores it as `""`, because `String([])` is `""`
  (`BackendApi.EmptyArraySensorIdStoredBlank`).
- `slice(-limit)` with a limit of 0 or NaN returns every match.
- A negative limit drops the oldest matches instead of keeping the newest.
- An object whose JSON gave it its own `toString` key cannot be printed:
  `String()` and template literals throw a TypeError on it, and so does
  `join` on a CSV row that holds it.
- server.js's `/demo/generate` does not cap the count and pushes every sample
  before its single trim, so demoData briefly holds the old entries plus all
  `count` new ones; a count in the tens of millions can exhaust the heap.
- A count large enough that `now - count * 60000` falls before the earliest
  valid Date (-8640000000000000 ms) makes the first `toISOString()` throw a
  RangeError before any push: the answer is 500 and demoData is unchanged
  (`WebServer.Server.PostDemoGenerate`).

## Model

| member | source | states |
|---|---|---|
| Common.ToJsString | Backend-API/server.js:184 | `String(v)`: a string is kept as it is, the empty array becomes "", a number prints its text, a plain object prints "[object Object]", and it throws (None) exactly for an object with its own toString key or an array holding a value that throws |
| Common.ItemString | Backend-API/server.js:184 | how `String()` of an array prints one item: "" for null and undefined, else the item's own `String()` |
| Common.EmptyArrayIsTruthyButBlank | Backend-API/server.js:174-184 | `[]` passes the falsy check, yet `String([])` is empty |
| Common.Truthy | Backend-API/server.js:174 | JavaScript truthiness behind `!sensor_id`: undefined, null, false, 0, NaN and "" are falsy; arrays and objects are truthy |
| Common.OrZero | Backend-API/server.js:185-194 | `parseFloat(x) \|\| 0` gives the parsed value, and gives 0 exactly when the parse is NaN or 0 |
| Common.IntOr | Backend-API/server.js:469 | `parseInt(x) \|\| d` gives the parsed value unless it is NaN or 0; it is never 0 when d is not |
| Common.Channels.Values | Backend-API/server.js:185-194 | the ten channels in the order f1..f8, clear, nir |
| Common.Channels.Map | Backend-API/server.js:185-194 | mapping applies the function to each of the ten channels in place |
| Common.SliceFrom | Backend-API/server.js:121 | `slice(start)` is a suffix with JavaScript's length rules for negative and positive starts |
| Common.SliceLast | Backend-API/server.js:397 | `slice(-n)` is a suffix: the newest min(n, len) for n > 0, everything for NaN or 0, and a negative n drops the oldest |
| Common.Trim | Backend-API/server.js:119-122 | "keep the newest max" gives length min(len, max) and is a suffix of its input |
| Common.TrimAppend | Backend-API/server.js:118-123 | trimming after every push equals trimming once at the end |
| Common.TrimStep | Backend-API/server.js:472-488 | one more push-and-trim extends the trimmed prefix of a batch by one element |
| Common.Filter | Backend-API/server.js:390-396 | `filter` keeps only elements that pass, every passing element, in order, as a subsequence |
| Common.FilterCounts | Backend-API/server.js:390-396 | `filter` keeps each passing element exactly as often as it occurs, and no other element |
| Common.FilterAppend | Backend-API/server.js:390-396 | filtering distributes over concatenation |
| Common.SubsequenceDrop | Backend-API/server.js:397 | a suffix of a subsequence is still a subsequence |
| Common.Split | public/js/history.js:367-368 | splitting gives at least one piece |
| Common.Join | public/js/history.js:368 | `parts.join(sep)`: the parts in order with sep between neighbours |
| Common.SplitAtFirst | public/js/history.js:368 | a piece free of the separator splits off whole |
| Common.SplitJoin | public/js/history.js:368 | `join(sep)` is undone by splitting when no piece holds sep |
| Common.JoinAvoids | public/js/history.js:396 | joining pieces that avoid a character other than sep gives a string that avoids it |
| Common.Query.Delivered | Backend-API/server.js:265-291 | the rows a query yields: all of them on completion, those before the error on error, none otherwise |
| Common.Window | Backend-API/server.js:336-338 | the window is [start, end]; an omitted start is now - 24 h and an omitted end is now; an unparsable date gives no window |
| Common.DemoBatch | Backend-API/server.js:472-488 | demo sample i is at now - (count - i) minutes, so timestamps strictly increase and end a minute before now |
| BackendApi.ValidateApiKey | Backend-API/server.js:129-147 | an unset or placeholder key always passes; otherwise the header key decides when present, else the query key, exact match only |
| BackendApi.KeyUnset | Backend-API/server.js:133 | the check is off when API_KEY is unset, empty or the placeholder |
| BackendApi.ProvidedKey | Backend-API/server.js:137 | the header key when it is non-empty, else the query key |
| BackendApi.Normalize | Backend-API/server.js:174-195 | a falsy sensor_id is Missing (400); one `String()` cannot print is Unprintable (500); otherwise the timestamp is now, the id is `String(sensor_id)` and each channel is `parseFloat \|\| 0` |
| BackendApi.StringSensorIdKept | Backend-API/server.js:184 | a string sensor_id that passes the check is stored unchanged and is never empty |
| BackendApi.EmptyArraySensorIdStoredBlank | Backend-API/server.js:174-184 | an empty-array sensor_id is accepted and stored as "" |
| BackendApi.Server.constructor | Backend-API/server.js:115 | memoryStorage starts empty |
| BackendApi.Server.AddToMemory | Backend-API/server.js:118-123 | after a push the store is the newest min(old + 1, 1000) samples, ends with the new one and stays within 1000 |
| BackendApi.Server.PostRecord | Backend-API/server.js:169-242 | 401, 400 and the 500 of an unprintable sensor_id leave the store unchanged; otherwise the reply is 201 with the same timestamp and sensor_id, and the sample is stored whatever the InfluxDB write did |
| BackendApi.RecordReply.StatusCode | Backend-API/server.js:169-242 | the HTTP status of each /record reply: 201, 400, 401 or 500 |
| BackendApi.Server.PostDemoGenerate | Backend-API/server.js:468-495 | the count is min(parseInt \|\| 50, 200); the store becomes the trimmed old store plus the batch; totalRecords is its length, at most 1000 |
| BackendApi.DemoCount | Backend-API/server.js:469 | `min(parseInt(count) \|\| 50, 200)`: 50 for NaN or 0, the request itself up to 200 (negative ones included), 200 above that |
| BackendApi.GetLatest | Backend-API/server.js:280-307 | the first InfluxDB row if there is one, else the newest stored sample, else null; the sources are never mixed |
| BackendApi.LatestAfterRecord | Backend-API/server.js:224-232 | with no InfluxDB rows, /latest returns the sample that was just recorded |
| BackendApi.MaxLimit | Backend-API/server.js:335-339 | `min(parseInt(limit), 1000)` with a default of 100: the limit itself up to 1000, 1000 above that, and NaN stays NaN |
| BackendApi.Matches | Backend-API/server.js:391-395 | a sample matches when its timestamp is in [start, end] and, when a non-empty sensor is asked for, its sensor_id is that one |
| BackendApi.Matching | Backend-API/server.js:390-396 | the fallback keeps exactly the stored samples in [start, end] (and of the sensor when given), each as often as it is stored, in store order |
| BackendApi.GetHistory | Backend-API/server.js:333-417 | an unparsable date gives 500; InfluxDB rows win when there are any; otherwise the newest maxLimit matches in store order, all of them for 0 or NaN |
| BackendApi.HistoryFallbackSound | Backend-API/server.js:389-398 | every fallback sample is stored, in the window, of the requested sensor, in store order |
| BackendApi.HistoryFallbackBounded | Backend-API/server.js:116-122 | the store never holds more than 1000 samples, so neither does a fallback answer drawn from it |
| BackendApi.RecordedSampleEndsHistory | Backend-API/server.js:224-232 | whenever InfluxDB delivers no rows, a just-recorded sample in the window is the last entry of the next fallback history for a positive limit |
| BackendApi.MatchingEndsWith | Backend-API/server.js:390-396 | when the newest stored sample matches, it is the last sample the filter keeps |
| BackendApi.GetStatus | Backend-API/server.js:423-462 | memoryRecords is the store size; influxdb is "connected", "error" or "not configured" according to the probe |
| WebServer.ToDataPoint | server.js:67-88 | a falsy sensor_id is rejected; otherwise sensor_id is kept as sent and each channel is `parseFloat \|\| 0` |
| WebServer.Server.constructor | server.js:43 | demoData starts empty |
| WebServer.Server.PostRecord | server.js:62-123 | 400 and a failed write (500) leave demoData unchanged; otherwise demoData is the newest 1000 of old plus the point, and the reply echoes the point, or is 500 when the log line cannot print sensor_id |
| WebServer.RecordReply.StatusCode | server.js:62-123 | the HTTP status of each /api/record reply: 200, 400 or 500 |
| WebServer.Server.PostDemoGenerate | server.js:314-347 | `parseInt(count) \|\| 50` samples, uncapped; when the first timestamp `now - count * 60000` is before the earliest valid Date the reply is a 500 and demoData is unchanged; otherwise demoData is the trimmed old data plus the whole batch and totalData is its length, at most 1000 |
| WebServer.Placeholder | server.js:177-189 | the placeholder has sensor_id "demo", timestamp now and all ten channels 0 |
| WebServer.GetLatest | server.js:129-196 | the first InfluxDB row, else the newest demoData entry, else the placeholder with isDemo; never null; a throwing query is 500 |
| WebServer.InWindow | server.js:247-251 | the fallback keeps exactly the demoData entries in [start, end], each as often as it occurs, in order |
| WebServer.ParsedLimit | server.js:205 | the limit is `parseInt(limit)` with a default of 100, and no cap |
| WebServer.GetHistory | server.js:203-265 | an unparsable date or a throwing query gives 500; InfluxDB rows win; otherwise the newest `parseInt(limit)` window matches in order |
| WebServer.HistoryFallbackSound | server.js:246-252 | every fallback entry is a demoData entry in the window, in order |
| WebServer.GetStatus | server.js:271-309 | dataCount is the demoData length; lastDataTime is the newest timestamp, or null when empty; influxdb follows the probe |
| Dashboard.GetBasePath | public/js/dashboard.js:17-24 | "/cheesense" exactly when the path starts with it, else ""; always a prefix of the path |
| Dashboard.SpectrumValues | public/js/dashboard.js:419-430 | ten values in the order f1..f8, clear, nir, with a missing value as 0 |
| Dashboard.PieValues | public/js/dashboard.js:442-452 | the first eight entries of the spectrum vector |
| Dashboard.GaugeValues | public/js/dashboard.js:454-459 | the last two entries of the spectrum vector: clear and nir |
| Dashboard.ChartsShowStoredValues | public/js/dashboard.js:422-426 | a stored sample with every channel present is charted with exactly its values |
| Dashboard.DominantIsUnique | public/js/dashboard.js:465-479 | at most one channel satisfies the dominance condition |
| Dashboard.FindDominantChannel | public/js/dashboard.js:465-479 | the first channel among f1..f8 with the greatest value (ties go to the earliest), or null exactly when every value is at most -1 |
| Dashboard.Grade | public/js/dashboard.js:487-498 | waiting iff the average is 0; above 500 very good; above 300 good; above 150 fair; otherwise needs attention |
| Dashboard.AnalyzeQuality | public/js/dashboard.js:481-499 | the grade of the mean of f6 and f7; waiting exactly when they sum to 0; needs attention only at a mean of at most 150 |
| Dashboard.GradeMonotone | public/js/dashboard.js:487-498 | away from 0, a higher average never gets a lower grade, and a negative one needs attention |
| Dashboard.YellowOrangeAverage | public/js/dashboard.js:484-486 | the mean of f6 and f7, a missing one as 0 |
| Dashboard.Quality.Status | public/js/dashboard.js:488-498 | the label of each grade |
| Dashboard.Quality.Color | public/js/dashboard.js:488-498 | the colour of each grade |
| HistoryPage.GetTimeRangeMillis | public/js/history.js:189-207 | a range is a positive duration, and any unknown code means one hour |
| HistoryPage.RangeCodesMeanWhatTheySay | public/js/history.js:194-204 | each selector code maps to the duration it spells (count times minute, hour or day) |
| HistoryPage.KnownDurations | public/js/history.js:195-204 | 15m is 900000 ms, 1h is 3600000, 7d is 604800000 and 30d is 2592000000 |
| HistoryPage.RangesIncrease | public/js/history.js:194-204 | the codes 15m < 30m < 1h < 3h < 6h < 12h < 24h < 3d < 7d < 30d have strictly increasing durations |
| HistoryPage.ResetIsOneHour | public/js/history.js:209-216 | resetting selects 1h, which is 3600000 ms |
| HistoryPage.HistoryWindow | public/js/history.js:224-228 | the requested window ends now and is as long as the selected range |
| HistoryPage.Headers | public/js/history.js:364 | the twelve column headers in order |
| HistoryPage.HeaderLine | public/js/history.js:364-368 | the headers joined by ';', the first line of the file |
| HistoryPage.SensorCell | public/js/history.js:384 | `row.sensor_id \|\| ''` as join prints it: "" when falsy, else `String(sensor_id)`, which can throw |
| HistoryPage.CsvValues | public/js/history.js:382-395 | the twelve cells of a row |
| HistoryPage.CsvLine | public/js/history.js:396 | the cells of a row joined by ';' |
| HistoryPage.CsvValuesLayout | public/js/history.js:382-395 | a row has twelve cells under the twelve headers: date, sensor (blank when falsy, else what `String()` prints), then f1..f8, clear, nir with missing as 0 |
| HistoryPage.CsvLinesInOrder | public/js/history.js:370-396 | one data line per row, in data order |
| HistoryPage.CsvLines | public/js/history.js:370-396 | the data lines of the rows, one per row, in data order |
| HistoryPage.Terminated | public/js/history.js:396 | each line followed by '\n' |
| HistoryPage.CsvText | public/js/history.js:367-396 | the header line and a newline, then every data line and a newline |
| HistoryPage.ExportToCsv | public/js/history.js:357-397 | only a warning when the data is empty; an exception exactly when some row's sensor_id cannot be printed; otherwise the header line, then each row's line, each ended by a newline |
| HistoryPage.AppendRows | public/js/history.js:370-396 | the loop appends each row's line and a newline, in order, and stops exactly when a row's sensor_id cannot be printed |
| HistoryPage.AppendLine | public/js/history.js:396 | one step of the loop adds the next row's line and a newline |
| HistoryPage.CsvLineFields | public/js/history.js:367-395 | a data line splits at ';' back into its twelve cells when no cell holds ';' |
| HistoryPage.CsvLineAvoids | public/js/history.js:396 | a character that is not ';' and is in no cell is not in the line |
| HistoryPage.CsvLinesAvoid | public/js/history.js:370-396 | one data line per row, and no line holds a character other than ';' that none of its cells holds |
| HistoryPage.HeaderCells | public/js/history.js:364 | no header holds ';' or a newline |
| HistoryPage.HeaderFields | public/js/history.js:364-368 | the header line splits at ';' back into the twelve headers and holds no newline |
| HistoryPage.TerminatedSplit | public/js/history.js:368-396 | newline-terminated lines split back into the lines plus a final "" |
| HistoryPage.CsvLayout | public/js/history.js:357-397 | the exported file, split at newlines, is the header line, one line per row in order, and a final "" |

`public/js/history.js:17-24` carries the same `getBasePath` as the dashboard.
`Dashboard.GetBasePath` models both.

## Left out

- Express plumbing is not modelled: helmet, CORS, rate limiting, the JSON body limit, request logging, static files, the 404 and error handlers, `/health`, the API root route and `listen`.
- The InfluxDB client is not modelled: points, Flux query text, `queryRows` callbacks and `close` are foreign calls. Query results and write outcomes are oracle parameters, and the query's own window, filter and limit are inside the oracle.
- `initInfluxDB` and the environment are not modelled. The API key, the InfluxDB setup and whether InfluxDB is connected are parameters: a `NotConfigured` query and a `WriteSkipped` write.
- Parsing and formatting are parameters or `Option` inputs: dates (`new Date`, `toISOString`, `toLocaleString`), `parseInt`, `parseFloat` and `toFixed`. A date query parameter is `Omitted` when absent or empty.
- BackendApi.Normalize: a channel value whose string conversion throws (an object with its own `toString` key, passed to `parseFloat`) is not modelled; the source then answers 500 with memoryStorage unchanged (Backend-API/server.js:185-194, 234-241), while a parsed channel here is always a number or NaN.
- BackendApi.Server.PostRecord: the same throwing channel gives 500 with memoryStorage unchanged; not modelled, for the reason above.
- WebServer.ToDataPoint: a channel whose string conversion throws makes server.js:78-87 throw; not modelled, for the reason above.
- WebServer.Server.PostRecord: the same throwing channel gives 500 with demoData unchanged (server.js:119-122); not modelled.
- BackendApi.DemoCount: a count whose string conversion throws makes `parseInt` throw; not modelled, since the parsed count is an integer or NaN.
- BackendApi.Server.PostDemoGenerate: the same throwing count escapes the handler before any sample is added, so the error handler answers 500 with memoryStorage unchanged; not modelled. With the count capped at 200, its first timestamp is out of the Date range only for a `now` within 200 minutes of the earliest valid Date, which is not modelled either.
- WebServer.Server.PostDemoGenerate: a count whose string conversion throws makes `parseInt` at server.js:315 throw before any push, so Express answers 500 with demoData unchanged; not modelled. The heap running out while the loop at server.js:318-334 holds the old entries plus all `count` new ones before the trim at 337-339 is not modelled either: the model's store is unbounded until the trim. The RangeError of an out-of-range first timestamp is modelled (`DemoFailed`), given a `now` inside the Date range, which `Date.now()` always is.
- Floating-point arithmetic is modelled with exact reals. NaN is `None` before `|| 0` and cannot reach a stored sample; `Infinity` and rounding are not modelled.
- `Math.random` demo channel values are the parameter `values`.
- `BackendApi.Server.PostDemoGenerate` and `WebServer.Server.PostDemoGenerate` generate one sample per minute before `now`; the channel values are not modelled.
- A query string that repeats a parameter (an array value) is not modelled; every parameter is a single value or absent.
- Interleaving is not modelled. The handlers are `async` and can interleave at each `await` (the InfluxDB flush and queries): a `/record` can be overtaken while it awaits `flush()`, before its sample is stored. Each store update (the push and trim, the demo loop) is synchronous and so atomic; the model treats each handler as one step.
- The comparison and distribution chart averages are not modelled, since they are floating-point display code.
- DOM and Chart.js rendering, toasts, loading indicators, polling, `fetch` and the Blob download (with its byte-order mark) are not modelled.
- The channel grid's `toFixed(1)` text in the dashboard is not modelled; its values are those of `Dashboard.SpectrumValues`.
- In server.js, whether the InfluxDB write of a point throws (for example on a sensor_id that is not a string) is decided by the `WriteOutcome` parameter.
- `BackendApi.GetLatest`, `BackendApi.GetHistory`, `WebServer.GetLatest` and `WebServer.GetHistory` take InfluxDB rows already shaped as samples; the row-to-object mapping is inside the oracle.
