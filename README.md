# express-influx-multilogger: record store and point mapping

A Dafny model of the core of `express-influx-multilogger`, an Express
middleware that buffers per-request telemetry in process memory and
periodically writes it to InfluxDB as time-series points.

The model covers two source files:

- `multilogger.js`: the record store, two module-level arrays holding
  pending request records (`data`) and pending custom timing objects
  (`customData`), with `pushToData`, `pushCustomData`, `emptyAllData`,
  `getData` and `getCustomData`; and the option defaulting of `init`.
  The store is the class `RecordStore.Store`, whose two `seq` fields the
  methods reassign; `init`'s defaulting is the pure function `Config.Init`.
- `lib/Influx.js`: `writeToDatabase`, which decides whether the database must
  be created, builds one `number_of_requests` summary point with the request
  count and the counts per status class (by first character of the status
  code), one `multilogger` detail point per request record (with `" "`
  placeholders for missing geolocation and error details and the batch size
  repeated on every point), one `databaseMetrics` point per custom object
  that has properties, and one `performance` point per non-empty performance
  object (with `|| " "` and `|| 0` defaults), and then empties the buffers.
  The point construction is pure (module `Points`); the flush, with its
  `for...of` loops, is the method `InfluxWriter.WriteToDatabase`, proved to
  emit exactly `Points.FlushPoints` of the drained buffers and to leave the
  store empty.

JavaScript values (module `JsValues`) are carried, never computed on: the
model only tests their truthiness (for `||` and `? :`), reads properties of
plain objects, and represents the text of `JSON.stringify(v)` abstractly as
`Json(v)`, which is never empty; `JSON.stringify(undefined)` is `undefined`.

Store interface used by the flush. `lib/Influx.js` calls
`multilog.emptyData()` (line 159), `getDatabaseMetrics` /
`emptyDatabaseMetrics` (lines 163, 174) and `getPerformanceMetrics` /
`emptyPerformanceMetrics` (lines 178, 196), none of which `multilogger.js`
exports (it exports `getData`, `getCustomData` and `emptyAllData`, lines
30-39). The model reads one consistent store:

- `data` (via `GetData`) feeds the request points;
- `customData` (via `GetCustomData`) feeds the `databaseMetrics` points;
- the performance objects have no buffer in `multilogger.js`, so they are a
  parameter of the flush;
- the drain is one `EmptyAllData` call after all points are built. Calling it
  where line 159 calls `emptyData` would discard `customData` before line 163
  reads it; draining at the end gives the final state the two separate
  `empty…` calls evidently intend.

The custom measurement is `databaseMetrics`. The performance point has tags
`osHost`, `memoryTotal` and fields `cpuLoad`, `memoryUsage`, `memoryFree`,
copied without unit conversion. An error message that is an empty string
serialises to `""` and is kept; only an undefined error value falls back to
the `" "` placeholder. The detail point also carries the `totalMemory` tag and
the `cpuUsage` and `memoryUsage` fields.

As the two files stand, the flush does not run to its end:
`InfluxWriter.WriteToDatabase` models the single-store reading above, not the
code as it runs, which `InfluxWriter.FlushAsWritten` models (see
"## Findings").

## Model

| member | source | states |
|---|---|---|
| `Config.Init` | multilogger.js:5-17 | every supplied option (interval and each database property) is kept; every absent one becomes its default: interval 1000, type `influx`, server `127.0.0.1`, name `myMultilogDb`, password `""`, port 3000, username `""`; an absent `database` object counts as `{}` |
| `Config.InitWithNoOptions` | multilogger.js:5-15 | `init({})` resolves to all the defaults |
| `RecordStore.Store.constructor` | multilogger.js:1-2 | both buffers start empty |
| `RecordStore.Store.PushToData` | multilogger.js:24-26 | appends the record at the end of `data`, earlier records unchanged and in order, `customData` unchanged; returns the new length, the old length + 1 |
| `RecordStore.Store.PushCustomData` | multilogger.js:27-29 | appends the object at the end of `customData`, `data` unchanged; returns the new length |
| `RecordStore.Store.EmptyAllData` | multilogger.js:30-33 | both buffers are empty afterwards |
| `RecordStore.Store.GetData` | multilogger.js:34-36 | returns the pending request records in append order, changing nothing |
| `RecordStore.Store.GetCustomData` | multilogger.js:37-39 | returns the pending custom objects in append order, changing nothing |
| `RecordStore.DrainTwice` | multilogger.js:30-39 | a read-and-empty returns what was pending in both buffers; a second one with no push in between finds both empty, and both buffers end empty |
| `RecordStore.PushAfterEmpty` | multilogger.js:24-39 | a record pushed after `emptyAllData` is the only element of the next `getData`, and `getCustomData` is empty |
| `JsValues.Or` | lib/Influx.js:184-190 | JavaScript's "a or b" is `a` when `a` is truthy and `b` otherwise; it is truthy iff one of them is |
| `JsValues.Serialize` | lib/Influx.js:140-142 | `JSON.stringify(v)` is undefined exactly when `v` is, and a non-empty (truthy) text otherwise |
| `JsValues.Property` | lib/Influx.js:169 | `o.key` is the stored value when the key is present and `undefined` otherwise |
| `Points.WithPrefix` | lib/Influx.js:80-104 | the filter never yields more records than the batch holds |
| `Points.WithPrefixSound` | lib/Influx.js:80-104 | every record the filter keeps is in the batch and its status code starts with the digit |
| `Points.WithPrefixAppend` | lib/Influx.js:80-104 | filtering a concatenation is the concatenation of the filtered parts, order kept |
| `Points.AmountIsIndexCount` | lib/Influx.js:80-104 | the filter's size is the number of positions whose status code starts with the digit |
| `Points.BucketsAtMostRequests` | lib/Influx.js:79-104 | the five buckets together count at most `requests` records, and exactly `requests` iff every status code starts with a digit 1 to 5 (a code without such a prefix is counted in no bucket) |
| `Points.SummaryPoint` | lib/Influx.js:76-107 | measurement `number_of_requests`, no tags |
| `Points.SummaryPointSchema` | lib/Influx.js:78-105 | exactly the fields `requests` and `amountOf1xx` … `amountOf5xx` |
| `Points.SummaryBucketsAtMostRequests` | lib/Influx.js:79-104 | the five `amountOfNxx` fields of the written summary point add up to at most its `requests` field |
| `Points.SummaryRequests` | lib/Influx.js:79 | the `requests` field is the number of buffered records |
| `Points.SummaryAmount` | lib/Influx.js:80-104 | for N in 1..5, `amountOfNxx` is the number of records whose status code starts with N |
| `Points.SummaryExample` | lib/Influx.js:76-107 | codes 200, 404, 500 give requests 3 and one each in the 2xx, 4xx and 5xx buckets, zero in 1xx and 3xx |
| `Points.LocationTag` | lib/Influx.js:126-133 | the tag is the location's value when the location is present and the value truthy, and `" "` otherwise |
| `Points.ErrorTag` | lib/Influx.js:139-142 | the tag is `" "` when the error value is undefined and its JSON text otherwise |
| `Points.DetailPoint` | lib/Influx.js:116-153 | measurement `multilogger`; the `requests` field is the batch size, the same on every point of the batch |
| `Points.DetailPointTags` | lib/Influx.js:119-142 | `statusCode` is the record's code; `country`, `geohash`, `errorMessage`, `errorStack` are never falsy; country and geohash are the record's values when the location is present and they are truthy, and `" "` when the location is missing; an error tag is `" "` exactly when the error value is undefined |
| `Points.DetailPointSchema` | lib/Influx.js:118-152 | a detail point has exactly the 17 tags and 6 fields the code writes |
| `Points.DetailPoints` | lib/Influx.js:113-158 | one detail point per record |
| `Points.DetailPointsAppend` | lib/Influx.js:113-158 | detail points of a concatenation are the concatenated detail points |
| `Points.DetailPointsAt` | lib/Influx.js:113-158 | the k-th detail point is the point of the k-th record, in buffer order |
| `Points.CustomPoint` | lib/Influx.js:166-171 | measurement `databaseMetrics`; the tags are the object itself; the one field `timing` is `object.timing` (undefined when missing) |
| `Points.CustomPoints` | lib/Influx.js:163-175 | at most one point per custom object |
| `Points.CustomPointsAppend` | lib/Influx.js:164-173 | custom points of a concatenation are the concatenated custom points |
| `Points.CustomPointsExact` | lib/Influx.js:164-173 | every custom object with properties yields its point, every point comes from such an object, and there are none iff every object is empty |
| `Points.PerformancePoint` | lib/Influx.js:181-193 | measurement `performance`; tags `osHost` (the host name when truthy, else `" "`) and `memoryTotal` (the total when truthy, else 0); fields `cpuLoad`, `memoryUsage`, `memoryFree`, each the sampled value when truthy and 0 otherwise |
| `Points.PerformancePoints` | lib/Influx.js:178-197 | at most one point per performance object |
| `Points.PerformancePointsAppend` | lib/Influx.js:179-195 | performance points of a concatenation are the concatenated performance points |
| `Points.PerformancePointsExact` | lib/Influx.js:179-181 | every non-empty performance object yields its point, every point comes from one, and there are none iff every object is empty |
| `Points.PerformancePointsDefined` | lib/Influx.js:179-195 | no tag or field of a performance point is undefined or null |
| `Points.RequestPoints` | lib/Influx.js:73-160 | no request point for an empty buffer; otherwise the summary plus one point per record |
| `Points.DetailPointsMeasurements` | lib/Influx.js:113-158 | the detail section holds one `multilogger` point per record and no summary point |
| `Points.CustomPointsMeasurements` | lib/Influx.js:163-175 | the custom section holds no `multilogger` and no summary point |
| `Points.PerformancePointsMeasurements` | lib/Influx.js:178-197 | the performance section holds no `multilogger` and no summary point |
| `Points.RequestPointsMeasurement` | lib/Influx.js:73-158 | the first request point is the `number_of_requests` summary and every later one a `multilogger` detail point |
| `Points.FlushPointCounts` | lib/Influx.js:73-197 | a flush emits a `number_of_requests` point iff the request buffer is non-empty (then exactly one), and exactly one `multilogger` point per record |
| `Points.FlushDetailOrder` | lib/Influx.js:73-158 | with a non-empty buffer the summary comes first and the detail point of record k is at position k + 1 |
| `InfluxWriter.ShouldCreateDatabase` | lib/Influx.js:61-67 | the database is created iff its name is not among the existing names |
| `InfluxWriter.EmitRequestPoints` | lib/Influx.js:73-158 | the request section's loop writes exactly `RequestPoints` of the buffer |
| `InfluxWriter.EmitCustomPoints` | lib/Influx.js:163-173 | the custom section's loop writes exactly `CustomPoints` of the buffer |
| `InfluxWriter.EmitPerformancePoints` | lib/Influx.js:178-195 | the performance section's loop writes exactly `PerformancePoints` of the objects |
| `InfluxWriter.WriteToDatabase` | lib/Influx.js:60-198 | decides database creation, writes exactly `FlushPoints` of the drained buffers in section order, and leaves both buffers empty |
| `InfluxWriter.PushBetweenFlushes` | lib/Influx.js:60-198 | a record pushed between two flushes is written by the second flush only, as the sole request record |
| `InfluxWriter.FlushAsWritten` | lib/Influx.js:73-163 | as the files run: exactly the request points (`RequestPoints` of the buffer: none for an empty buffer, else the summary and one detail point per record) are written, then the flush throws; no buffer is cleared and no custom point is written |
| `InfluxWriter.FlushAsWrittenRepeats` | lib/Influx.js:113-163 | with one request and one custom object buffered, two flushes as written write the same request points twice and never the custom point, which the single-store flush writes |

## Left out

- `intializeInflux` (lib/Influx.js:6-58) constructs the external InfluxDB client; only its measurement and field names are kept, as constants and map keys. The declared field types are not modelled.
- Submission: `writePoints`, `writeMeasurement`, `getDatabaseNames`, `createDatabase` and the `.catch` logging are network I/O through the `influx` library. The flush returns the creation decision and the sequence of points it would write instead. A failing `writePoints` is logged and dropped (lib/Influx.js:109-111, 155-157); a failing `writeMeasurement` (lines 166, 181) is awaited without a handler, so it rejects the whole flush and the rest of it does not run. Neither failure is modelled: every write succeeds.
- `async`/`await` and pushes interleaved with a running flush: the model is sequential, so a push happens either before or after a whole flush.
- The flush timer and its interval live in `lib/DatabaseInitializer`, which is not part of this model; `Config.Init` returns the settings `init` passes on to it.
- `getInstanceData` (multilogger.js:40-46) samples the host through `os` and `systeminformation`.
- `log`, `error`, `insertDatabaseCallSpeed` and `insertCustomLog` (multilogger.js:18-23, 47-52) forward to `lib/Logger` and `lib/MultiError`, which are not part of this model.
- The performance buffer: `getPerformanceMetrics` and `emptyPerformanceMetrics` do not exist in `multilogger.js`; the performance objects are a parameter of the flush and nothing is cleared for them.
- Numbers are carried as `real` values and never computed on; NaN (falsy in JavaScript) is not represented.
- The exact text of `JSON.stringify` is left abstract; values it maps to `undefined` other than `undefined` itself (functions, symbols) are not represented.
- Missing nested objects that make the source throw (`object.errorMessage`, `object.memoryUsage`, `object.cpuUsage` on a request record; `osHost`, `memoryUsage`, `cpuUsage` on a performance object) are not modelled: every record carries them.
- A `location` that is truthy but not an object is not represented; `location` is either absent or an object with `country` and `geohash`.
- Config.Init: `init()` with no argument and `init({database: null})` throw in the source (destructuring `undefined` or `null`), a supplied `null` option is kept rather than defaulted (destructuring defaults apply only to `undefined`), and options of another type (a string `port`, a non-numeric `interval`) pass through unchanged; `InitOptions` can express none of these, so the model does not capture them.
- `statusCode` is the string lodash's `startsWith` compares; lodash's conversion of a number or `null` to a string is not modelled.

## Findings

| source | as written | input that shows it | evidently intended | confidence | as-written member | corrected member |
|---|---|---|---|---|---|---|
| lib/Influx.js:159-163 | calls `multilog.emptyData()` and `multilog.getDatabaseMetrics()`, which `multilogger.js` does not export, so the flush throws a TypeError there: `data` is never cleared, every later flush rewrites every buffered record, and the custom and performance sections never run | one buffered request with status 200 and one custom object `{timing: 1}` | drain both buffers with `emptyAllData` and write the custom points from `customData` | high, not executed | `InfluxWriter.FlushAsWrittenRepeats` | `InfluxWriter.WriteToDatabase` |
