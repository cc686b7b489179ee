# TempoIQ node.js client — a Dafny model of its value-level core

This project models the value-level logic of the TempoIQ node.js client and
proves properties about it. That logic covers:

- the two write-result classifiers, `WriteStatus` and `MultiStatus`;
- the request builders `BulkWrite`, `Pipeline` and `Query`;
- the single-request `Cursor`;
- the in-memory `StubbedSession`, with the dispatch rule every session follows;
- the entities `Device` and `Sensor`, built with `||` defaulting;
- the client's own policy in `lib/tempoiq.js`: media-type strings, the
  per-call status-code transforms, action values and queries, the write
  `writeDevice` builds, and option defaulting.

JavaScript values are modelled by `JsValues.JsValue`. The module also defines
the parts of the language the code relies on:

- truthiness (`!v`, `a || b`) and loose comparison with `undefined`;
- property reads, which throw a `TypeError` on `undefined`/`null`;
- `for … in` enumeration, where array and string indices become decimal keys
  (module `Decimal`).

Exceptions are the `Completion` datatype. `JSON.parse` is a parameter
`parse: string -> Option<JsValue>`, where `None` means a `SyntaxError`.
Enumeration order is not kept. A loop over `for … in` keys whose result can
depend on the visiting order is a method that takes the keys in any order,
and its contract holds for every order; where the order cannot matter, the
loop is an order-free function.

A session's callback receives an error and a payload. A payload of `None` is
the null the session passes itself; a payload a transform returned is kept
inside `Some` whatever it is, so a transform's own null payload (as
`getDevice` gives for 404) is `Some(None)`.

Modules follow the source files: `WriteStatuses`, `MultiStatuses`,
`BulkWrites`, `Pipelines`, `Queries`, `Cursors`, `Devices`, `Sensors`,
`StubbedSessions`, `Http` (the status-code constants) and `TempoIQ` (the
client).

Behaviour of the code that is easy to misread (the comment at
lib/tempoiq.js:174-183 describes streamed events that the code does not
produce):

- **No pagination.** There are no pagination, continuation or streaming
  events. A cursor makes one GET and reads one segment `json[segmentKey]`.
- **Write success.** `WriteStatus.isSuccess` fails only on an entry whose
  `success` is strictly `false`. A missing or non-boolean flag counts as
  success.
- **MultiStatus.** `MultiStatus.isSuccess` is `!status`. Any status object,
  even `{}` or one whose entries all say `success: true`, is a partial success.
  Its `failures()` lists every key, whatever the flag says.
- **Fold.** `Query.toJSON` with a non-null fold refers to an identifier that
  is not in scope. It is modelled as throwing a `ReferenceError`, so every
  query that carries a pipeline fails to serialise.
- **Not found.** `createDevice` reports a 404 as an error, while `getDevice`
  reports it as a null device with no error.

## Model

| member | source | states |
|---|---|---|
| WriteStatuses.IsSuccessByEnumeration | lib/models/write_status.js:11-18 | In any enumeration order: false once an entry has `success === false`; a TypeError when an entry is undefined/null; true otherwise. When both kinds of entry exist, the result is false or that TypeError, depending on order. |
| WriteStatuses.IsSuccess | lib/models/write_status.js:11-18 | Order-free reference for `isSuccess()`: throws a TypeError exactly when some entry cannot be read; true exactly when every entry is readable and none has `success === false` |
| WriteStatuses.IsPartialSuccess | lib/models/write_status.js:21-23 | Always the negation of `isSuccess()`, with the same exception when that throws |
| WriteStatuses.Failures | lib/models/write_status.js:27-35 | Throws exactly when some entry cannot be read |
| WriteStatuses.FilterBy | lib/models/write_status.js:37-45 | Throws exactly when some entry cannot be read |
| WriteStatuses.Existing | lib/models/write_status.js:47-49 | Throws exactly when some entry cannot be read; otherwise exactly the entries whose `device_state` is "existing", unchanged |
| WriteStatuses.Modified | lib/models/write_status.js:51-53 | Throws exactly when some entry cannot be read; otherwise exactly the entries whose `device_state` is "modified", unchanged |
| WriteStatuses.Created | lib/models/write_status.js:55-57 | Throws exactly when some entry cannot be read; otherwise exactly the entries whose `device_state` is "created", unchanged |
| WriteStatuses.NoEntriesIsSuccess | lib/models/write_status.js:11-18 | An absent or empty status is a total success with no failures |
| WriteStatuses.SuccessIffNoFalseFlag | lib/models/write_status.js:11-18 | `isSuccess()` is true iff no entry's `success` is strictly `false`; missing or other flags count as successes |
| WriteStatuses.FailuresAreFailedEntries | lib/models/write_status.js:27-35 | The domain of `failures()` is exactly the keys with `success === false`, each mapped to its `message` |
| WriteStatuses.FailuresEmptyIffSuccess | lib/models/write_status.js:11-35 | `failures()` is empty iff `isSuccess()` is true, and one throws iff the other does |
| WriteStatuses.FilterByExactly | lib/models/write_status.js:37-45 | `_filterBy(s)` keeps exactly the entries whose `device_state === s`, each entry unchanged |
| WriteStatuses.LifecyclesDisjoint | lib/models/write_status.js:47-57 | `existing`, `modified` and `created` are pairwise disjoint, and an entry without `device_state` is in none of them |
| MultiStatuses.IsSuccess | lib/models/multi_status.js:11-13 | True exactly for the falsy statuses: undefined, null, false, 0 and ""; a successful status has no failures |
| MultiStatuses.IsPartialSuccess | lib/models/multi_status.js:16-18 | True exactly for the truthy statuses; any object, array or date status is a partial success |
| MultiStatuses.Failures | lib/models/multi_status.js:22-28 | Throws iff some enumerated entry is undefined/null; otherwise its keys are exactly the enumerated keys |
| MultiStatuses.SuccessIffNoStatus | lib/models/multi_status.js:11-18 | `isSuccess()` iff the status is undefined, null, false, 0 or ""; failures are then empty; `isPartialSuccess()` is its negation |
| MultiStatuses.NoStatusIsSuccess | lib/models/multi_status.js:6-13 | The no-argument MultiStatus is a success and not a partial one, and has no failures |
| MultiStatuses.AnyObjectIsPartial | lib/models/multi_status.js:11-18 | Any status object, `{}` included, is not a success and is a partial success |
| MultiStatuses.FailuresIgnoreSuccessFlag | lib/models/multi_status.js:22-28 | Every key of a readable status object appears in `failures()`, mapped to its message, whatever its `success` flag |
| MultiStatuses.AllSucceededDisagree | lib/models/multi_status.js:11-28 | A status whose entries all report success is a total success as a WriteStatus, yet a partial one as a MultiStatus that lists every key as a failure |
| BulkWrites.New | lib/models/bulk_write.js:4-6 | A new write has no devices at all, so it holds no points for any device and sensor |
| BulkWrites.Push | lib/models/bulk_write.js:13-27 | `push(d, s, p)` creates the missing device and sensor entries and appends `p` to `data[d][s]`; other lists, devices and keys stay as they were |
| BulkWrites.PushOrder | lib/models/bulk_write.js:13-27 | After any sequence of pushes, each list holds its earlier points followed by the points pushed to it, in call order |
| BulkWrites.PushAddsOne | lib/models/bulk_write.js:20-26 | Every push adds exactly one point to the write's total |
| BulkWrites.ToJson | lib/models/bulk_write.js:29-31 | The JSON has the same device and sensor keys as the data, and each list becomes an array of `{t, v}` objects, element by element |
| BulkWrites.RoundTrip | lib/models/bulk_write.js:29-31 | Reading the request body back as `{device: {sensor: [{t, v}]}}` gives the write it came from |
| BulkWrites.ToJsonInjective | lib/models/bulk_write.js:29-31 | Two writes with the same request body are the same write |
| BulkWrites.SinglePushJson | lib/models/bulk_write.js:13-31 | One push into a new write serialises as `{d: {s: [{t, v}]}}` |
| Pipelines.New | lib/models/pipeline.js:5-7 | A new pipeline has no steps |
| Pipelines.ToIsoString | lib/models/pipeline.js:49 | `start.toISOString()` gives a valid date's ISO string. It throws a RangeError for an invalid Date and a TypeError for a value that is not a Date. |
| Pipelines.Aggregate | lib/models/pipeline.js:20-25 | Appends exactly one step `{aggregation, [fun]}` and keeps the earlier steps |
| Pipelines.Rollup | lib/models/pipeline.js:43-52 | Appends exactly one step `{rollup, [fun, period, iso(start)]}`, function before period; throws what `toISOString()` throws when start is not a valid Date |
| Pipelines.Interpolate | lib/models/pipeline.js:64-74 | Appends exactly one step `{interpolate, [fun, period, iso(start), iso(end)]}`; throws unless both bounds are valid Dates, with the error of the first bound that is not |
| Pipelines.ToJson | lib/models/pipeline.js:76-80 | The JSON has the single key `functions`, one element per step |
| Pipelines.RoundTrip | lib/models/pipeline.js:76-80 | The step list can be read back from `toJSON()`: decoding the JSON gives the same pipeline |
| Queries.ToJson | lib/models/query.js:9-24 | Throws a ReferenceError iff the fold is non-null. Otherwise the keys are exactly `search` and the action name, the action key maps to the action value, and no `fold` key is written |
| Queries.WireShape | lib/models/query.js:9-24 | With a null fold and an action not named `search`, the JSON has exactly two keys: `search`, holding `{select: "devices", filters: selection}` with the selection verbatim, and the action name, holding its value |
| Queries.ActionNamedSearchWins | lib/models/query.js:21 | The action key is written last, so an action named `search` overrides the search clause |
| Devices.New | lib/models/device.js:4-16 | Key stored verbatim; name, attributes and sensors are taken from params when truthy, else `""`, `{}` and `[]` |
| Devices.FromJson | lib/models/device.js:18-20 | `fromJSON(j)` is `new Device(j.key, j)`, and throws iff `j` is undefined/null |
| Devices.FalsyParamsAreEmpty | lib/models/device.js:5 | Falsy params behave like an empty params object, giving the all-default device |
| Devices.FromJsonKeepsFields | lib/models/device.js:18-20 | A record with any key and truthy name, attributes and sensors decodes to a device with exactly those fields |
| Devices.RoundTrip | lib/models/device.js:4-20 | Decoding a device's own fields gives back the same device |
| Sensors.New | lib/models/sensor.js:4-15 | Key stored verbatim; name and attributes are taken from params when truthy, else `""` and `{}` |
| Sensors.FromJson | lib/models/sensor.js:17-19 | `fromJSON(j)` is `new Sensor(j.key, j)`, and throws iff `j` is undefined/null |
| Sensors.FalsyParamsAreEmpty | lib/models/sensor.js:5 | Falsy params behave like an empty params object, giving the all-default sensor |
| Sensors.RoundTrip | lib/models/sensor.js:4-19 | Decoding a sensor's own fields gives back the same sensor |
| StubbedSessions.New | lib/session/stubbed_session.js:7-9 | A new session has no stubs, so every lookup misses |
| StubbedSessions.AddStub | lib/session/stubbed_session.js:11-17 | After `stub(v, r, …)` a lookup of `(v, r)` finds `{body, code, headers}`; every other stub is unchanged |
| StubbedSessions.StubOverwrites | lib/session/stubbed_session.js:11-17 | A later stub for the same verb and route replaces the earlier one |
| StubbedSessions.KeyFor | lib/session/stubbed_session.js:47-51 | The digested string is the verb followed by the route: it splits back into them at the verb's length |
| StubbedSessions.Get | lib/session/stubbed_session.js:19-21 | Consults only the GET stub of the route: none gives the "not allowed" error and null; one is dispatched through `Deliver` |
| StubbedSessions.Post | lib/session/stubbed_session.js:23-25 | Consults only the POST stub of the route: none gives the "not allowed" error and null; one is dispatched through `Deliver` |
| StubbedSessions.Delete | lib/session/stubbed_session.js:27-29 | Consults only the DELETE stub of the route: none gives the "not allowed" error and null; one is dispatched through `Deliver` |
| StubbedSessions.KeyForInjective | lib/session/stubbed_session.js:47-51 | Keys of different (verb, route) pairs never collide, for slash-free verbs and routes that start with '/' |
| StubbedSessions.Deliver | lib/session/stubbed_session.js:36-43 | A value the transform returns reaches the callback as exactly its `(error, payload)`. No value gives an "Unexpected response code" error and null. An exception the transform throws propagates unchanged. |
| StubbedSessions.LookupStub | lib/session/stubbed_session.js:31-45 | A missing stub calls back with the "Real HTTP Connections are not allowed" error and null, without running the transform. A present stub is dispatched through `Deliver`. |
| StubbedSessions.VerbRouting | lib/session/stubbed_session.js:19-32 | `get`, `post` and `delete` find only the stubs of their own verb, and the request body never changes the outcome |
| StubbedSessions.UnexpectedCodeNamesCode | lib/session/stubbed_session.js:41 | The unexpected-code message determines the code: different codes never give the same message |
| Cursors.New | lib/models/cursor.js:9-15 | The segment key is kept when given and non-empty, and defaults to "data" otherwise; the other fields are stored as given |
| Cursors.SegmentTransform | lib/models/cursor.js:19-26 | On 200 a segment that can be read yields `{}` (undefined error and payload), and a parse or read failure is raised; any other code yields nothing |
| Cursors.HandleError | lib/models/cursor.js:5-7 | Throws exactly the error the session reports, and returns normally when there is none |
| Cursors.GetSegment | lib/models/cursor.js:17-27 | At most one request, a GET of the route with the serialised query. None iff serialising throws, which ends in that ReferenceError. A delivered segment comes from a 200 stub's `json[segmentKey]`. |
| Cursors.GetSegmentFollowsSession | lib/models/cursor.js:5-27 | The fetch outcome is the session's dispatch of the segment transform: a raised exception propagates, an error is rethrown by `_handleError`, and otherwise the segment is delivered |
| Cursors.Non200Throws | lib/models/cursor.js:19-26 | A non-200 reply ends in the session's "Unexpected response code" error |
| Cursors.ForEach | lib/models/cursor.js:29-37 | Visits exactly the records of the one segment, in order, when the segment is an array. A fetch that throws fails with that error; a delivered segment that is not an array fails with a TypeError for `forEach`. |
| Cursors.RecordsYieldedRaw | lib/models/cursor.js:9-37 | The stored decoder makes no difference to the records visited |
| Cursors.ForEachVisitsSegmentInOrder | lib/models/cursor.js:17-37 | For a 200 reply whose segment is an array, `forEach` visits exactly those records, in order, after exactly one GET |
| Cursors.Map | lib/models/cursor.js:39-43 | `map` returns undefined when `forEach` completes and throws its error otherwise, discarding the callback's results |
| TempoIQ.MediaType | lib/tempoiq.js:88-91 | Starts with `application/prs.tempoiq`, ends with `+` and the effective suffix, and its length accounts for exactly the parts and three separators |
| TempoIQ.MediaTypeRoundTrip | lib/tempoiq.js:88-91 | The media type is `application/prs.tempoiq.<resource>.<version>+<suffix or json>`, and resource, version and effective suffix can be read back from it |
| TempoIQ.DefaultSuffix | lib/tempoiq.js:88-91 | An omitted or empty suffix gives `+json` |
| TempoIQ.MediaTypes | lib/tempoiq.js:81-86 | Exactly the headers Accept and Content-Type. Accept is empty for no types and the type itself for one. For comma-free types it splits back into the list when cut at each ", ", so the separator is fixed. Content-Type is the content value. |
| TempoIQ.SplitJoin | lib/tempoiq.js:81-86 | A non-empty list of comma-free media types joined with ", " splits back into the same list, with every comma followed by exactly one space |
| TempoIQ.CreateDeviceResult | lib/tempoiq.js:99-103 | 200 gives `(null, decoded device)` or raises the decode error; 404 gives a "Device not found" error; every other code gives no value |
| TempoIQ.DeleteDeviceResult | lib/tempoiq.js:112-116 | Only 200 gives a value, `(null, true)` |
| TempoIQ.ParsedBodyResult | lib/tempoiq.js:126-130 | The transform of `deleteDevices`, and the identical one of `deleteDatapoints` (lines 141-145): only 200 gives a value, the parsed body with no error, or a raised SyntaxError |
| TempoIQ.UpdateDeviceResult | lib/tempoiq.js:153-157 | Only 200 gives a value: the decoded device with no error, or the decode error raised |
| TempoIQ.GetDeviceResult | lib/tempoiq.js:165-171 | 200 gives the decoded device, or raises the decode error; 404 gives `(null, null)`, not an error; other codes give no value; no returned value ever carries an error |
| TempoIQ.WriteBulkResult | lib/tempoiq.js:227-233 | 200 gives a MultiStatus with no status. 207 gives a MultiStatus of the parsed body, and raises a SyntaxError exactly when the body does not parse. Every other code gives no value. |
| TempoIQ.WriteBulkClassification | lib/tempoiq.js:228-232 | A 200 write is a total success with no failures; a 207 with any status object is a partial success |
| TempoIQ.NotFoundPolicies | lib/tempoiq.js:99-170 | Under the session's dispatch rule, a 404 reaches the caller as an error for `createDevice` but as a null device without error for `getDevice`. An unclassified code reaches it as the unexpected-code error on either call. |
| TempoIQ.CreateDeviceScenario | test/test_client.js:33-49 | The 200 reply of the device-creation test is classified as the device with key, name, attributes and sensors as sent |
| TempoIQ.FindValue | lib/tempoiq.js:196-200 | `{quantifier: "all"}`, plus `limit` exactly when it is truthy, and no other key |
| TempoIQ.ReadValue | lib/tempoiq.js:276-279 | `{start, stop}`, plus `limit` exactly when it is truthy, and no other key |
| TempoIQ.SingleValue | lib/tempoiq.js:315-318 | `{function}`, plus `timestamp` exactly when it is truthy, and no other key |
| TempoIQ.ListDevicesQuery | lib/tempoiq.js:195-200 | Throws iff the options are undefined/null; otherwise a find query with a null fold |
| TempoIQ.ReadQuery | lib/tempoiq.js:275-280 | Throws iff the options are undefined/null; otherwise a read query whose fold is the pipeline |
| TempoIQ.DeleteDevicesQuery | lib/tempoiq.js:124-125 | The query always serialises, to the search clause and `find: {quantifier: "all"}` with no limit |
| TempoIQ.SingleQuery | lib/tempoiq.js:315-319 | Without a pipeline it serialises to the search clause and the `single` value; with one, serialising throws a ReferenceError |
| TempoIQ.LatestQuery | lib/tempoiq.js:346-352 | `latest` is `single` with function "latest" and no timestamp key, keeping selection and pipeline |
| TempoIQ.DeleteDevicesFindsAll | lib/tempoiq.js:124-131 | `deleteDevices` sends the find-all query that `listDevices` builds for options without a limit |
| TempoIQ.DefaultOptionsSendNoLimit | lib/tempoiq.js:195-218 | With the default options `{streamed: false}`, no limit is sent by `listDevices` or by `read` |
| TempoIQ.PipelineQueriesCannotSerialise | lib/models/query.js:17-19 | `read`, `single` and `latest` queries with a pipeline fail to serialise with a ReferenceError, while a `listDevices` query serialises to the find shape |
| TempoIQ.WriteDeviceBatch | lib/tempoiq.js:244-249 | One point `(ts, value)` per enumerated sensor key, all under `deviceKey`, in any visiting order; an empty write when there are no keys |
| TempoIQ.PushEach | lib/tempoiq.js:245-249 | The push loop, visiting the sensor keys in any order, ends with the same write: one point per key, under the device |
| TempoIQ.BatchStep | lib/tempoiq.js:246-249 | Pushing a not-yet-written sensor's point extends the partial write by exactly that sensor |
| TempoIQ.WriteDeviceReport | lib/tempoiq.js:251-257 | The caller gets only the write's error (null when there is none); the status is dropped |
| TempoIQ.PartialWriteReportedAsSuccess | lib/tempoiq.js:251-257 | A 207 write with a status object is a partial success, yet `writeDevice` reports no error |
| TempoIQ.Initialize | lib/tempoiq.js:57-79 | Key, secret and host are stored. Port and secure fall back to 443 and true when the options or the field are undefined/null, and are kept otherwise. A live session is built from them unless a session is supplied, and a supplied session is the one given. |
| TempoIQ.GivenOptionsKept | lib/tempoiq.js:72-75 | An explicit port 0 and `secure: false` are kept. `{port: 80}`, as in the initialisation test, keeps 80 with secure true. No options equals empty options. |

## Left out

- lib/session/live_session.js: real HTTP/HTTPS I/O, so it is left out. A session is modelled by the stubbed session's table and its dispatch rule. `Initialize` records only that a live session would be built, with its port and secure flag.
- Call-site wiring in lib/tempoiq.js: `createDevice` and the others pass `(route, body, {}, callback, transform)` to session methods that take `(route, body, callback, transform)`. The per-call transforms are modelled as pure functions of the HTTP result, composed with the session's dispatch rule as the transforms intend, not as the shifted calls do. Route building with `encodeURIComponent` is also left out.
- `updateDevice` calls `put`, which no session defines. Only its transform is modelled.
- `listDevices`, `read` and `single` call `cursor.toArray` and `cursor.run`, which `Cursor` does not define. They also pass the media-type map (or `{}`) where the cursor takes its segment key. These calls are not modelled beyond the queries they build. Pagination, continuation and streaming do not exist in the code.
- `JSON.stringify` is abstracted: a request body is the JSON value of the query. `JSON.parse` is a parameter. SHA-1 in `_key_for` is the string it digests, `verb + route`.
- Dates are opaque: a valid `Date` is its `toISOString()` text, and an invalid one has none. lib/models/row.js is not part of this model, and DataPoint values are opaque JS values.
- Numbers are integers only: no NaN, fractions or `-0`. Property names inherited through prototypes are not modelled, nor enumeration of values other than objects, arrays and strings.
- Segment keys and media-type suffixes are strings; a non-string key's string conversion is not modelled.
- The TypeError's message is reduced to the property name that was read.
- Exceptions thrown by the caller's own callbacks are not modelled.
- WriteStatuses.IsSuccess: requires that the status does not have both an entry with `success === false` and an undefined/null entry. In that case the source's answer depends on enumeration order. `WriteStatuses.IsSuccessByEnumeration` covers every input and states both possible answers.
- WriteStatuses.IsPartialSuccess: inherits the same requirement as `WriteStatuses.IsSuccess`.
- WriteStatuses.FailuresEmptyIffSuccess: inherits the same requirement as `WriteStatuses.IsSuccess`.
