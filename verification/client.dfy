/**
 The client object's value-level policy: media-type strings, the per-call
 transforms that classify a response by status code, the action values and
 queries the read calls build, `writeDevice`'s write, and option defaulting.
 */
module TempoIQ {
  import opened JsValues
  import Http
  import Devices
  import MultiStatuses
  import BulkWrites
  import Queries
  import StubbedSessions

  type Transformed<P> = StubbedSessions.Transformed<P>

  const MediaPrefix := "application/prs.tempoiq"

  /** `suffix || "json"`. */
  function MediaSuffix(suffix: Option<string>): string {
    if suffix.Some? && suffix.value != "" then suffix.value else "json"
  }

  /**
   `_mediaType(resource, version, suffix)`: the vendor prefix, then the
   resource and version, then the effective suffix after a `+`.
   MediaTypeRoundTrip reads the three parts back.
   */
  function MediaType(resource: string, version: string, suffix: Option<string>): (t: string)
    ensures |t| == |MediaPrefix| + |resource| + |version| + |MediaSuffix(suffix)| + 3
    ensures t[..|MediaPrefix|] == MediaPrefix
    ensures t[|t| - |MediaSuffix(suffix)| - 1..] == "+" + MediaSuffix(suffix)
  {
    MediaPrefix + "." + resource + "." + version + "+" + MediaSuffix(suffix)
  }

  /** Position of the first `c` in `s`, or `|s|` when there is none. */
  function IndexOf(s: string, c: char): (i: nat)
    ensures i <= |s|
    ensures i < |s| ==> s[i] == c
    ensures forall j :: 0 <= j < i ==> s[j] != c
  {
    if |s| == 0 || s[0] == c then 0 else 1 + IndexOf(s[1..], c)
  }

  /** Splits "version+suffix" at its first '+'. */
  function ParseVersion(tail: string): (parts: Option<(string, string)>) {
    var plus := IndexOf(tail, '+');
    if plus == |tail| then None else Some((tail[..plus], tail[plus + 1..]))
  }

  /** Splits "resource.version+suffix" at its first '.'. */
  function ParseResource(rest: string): (parts: Option<(string, string, string)>) {
    var dot := IndexOf(rest, '.');
    if dot == |rest| then None
    else match ParseVersion(rest[dot + 1..])
      case None => None
      case Some(vs) => Some((rest[..dot], vs.0, vs.1))
  }

  /** `t` without its leading `head`, when it starts with one. */
  function StripPrefix(t: string, head: string): (rest: Option<string>) {
    if |head| <= |t| && t[..|head|] == head then Some(t[|head|..]) else None
  }

  /** Splits a media type back into resource, version and suffix. */
  function ParseMediaType(t: string): (parts: Option<(string, string, string)>) {
    match StripPrefix(t, MediaPrefix + ".")
    case None => None
    case Some(rest) => ParseResource(rest)
  }

  lemma {:induction false} IndexOfAfter(a: string, c: char, b: string)
    requires c !in a
    ensures IndexOf(a + [c] + b, c) == |a|
    decreases |a|
  {
    if |a| > 0 {
      assert (a + [c] + b)[1..] == a[1..] + [c] + b;
      assert a[0] in a;
      IndexOfAfter(a[1..], c, b);
    }
  }

  /** A string built on `head` gives back its remainder. */
  lemma StripPrefixConcat(head: string, rest: string)
    ensures StripPrefix(head + rest, head) == Some(rest)
  {
    assert (head + rest)[..|head|] == head;
    assert (head + rest)[|head|..] == rest;
  }

  /** "resource.version+suffix" splits back into its parts when the resource holds no '.' and the version no '+'. */
  lemma ParseResourceRoundTrip(resource: string, version: string, suffix: string)
    requires '.' !in resource && '+' !in version
    ensures ParseResource(resource + "." + version + "+" + suffix) == Some((resource, version, suffix))
  {
    var tail := version + ['+'] + suffix;
    var rest := resource + ['.'] + tail;
    assert resource + "." + version + "+" + suffix == rest;
    IndexOfAfter(resource, '.', tail);
    assert rest[..|resource|] == resource;
    assert rest[|resource| + 1..] == tail;
    IndexOfAfter(version, '+', suffix);
    assert tail[..|version|] == version;
    assert tail[|version| + 1..] == suffix;
  }

  /**
   The media type names its parts: whenever the resource holds no '.' and the
   version no '+', they and the effective suffix can be read back from it.
   */
  lemma MediaTypeRoundTrip(resource: string, version: string, suffix: Option<string>)
    requires '.' !in resource && '+' !in version
    ensures ParseMediaType(MediaType(resource, version, suffix)) == Some((resource, version, MediaSuffix(suffix)))
  {
    var head := MediaPrefix + ".";
    var rest := resource + "." + version + "+" + MediaSuffix(suffix);
    assert MediaType(resource, version, suffix) == head + rest;
    StripPrefixConcat(head, rest);
    ParseResourceRoundTrip(resource, version, MediaSuffix(suffix));
  }

  /** An omitted or empty suffix gives "+json". */
  lemma DefaultSuffix(resource: string, version: string)
    ensures MediaType(resource, version, None) == MediaType(resource, version, Some(""))
    ensures MediaType(resource, version, None) == MediaPrefix + "." + resource + "." + version + "+json"
  {
  }

  /** `xs.join(sep)`. */
  function Join(xs: seq<string>, sep: string): (joined: string)
    decreases |xs|
  {
    if |xs| == 0 then "" else if |xs| == 1 then xs[0] else xs[0] + sep + Join(xs[1..], sep)
  }

  /**
   Reads an Accept header back into its list: split at each comma, which must
   be followed by exactly the one space the join puts after it; `None` when a
   comma is not.
   */
  function SplitList(s: string): (parts: Option<seq<string>>)
    decreases |s|
  {
    var i := IndexOf(s, ',');
    if i == |s| then Some([s])
    else if i + 1 < |s| && s[i + 1] == ' ' then
      match SplitList(s[i + 2..])
      case None => None
      case Some(rest) => Some([s[..i]] + rest)
    else None
  }

  /** No element of `xs` contains a comma. */
  predicate CommaFree(xs: seq<string>) {
    forall i :: 0 <= i < |xs| ==> ',' !in xs[i]
  }

  /** A comma-free head is split off at the comma the join put after it. */
  lemma SplitHead(x: string, tail: string)
    requires ',' !in x
    ensures SplitList(tail).Some? ==> SplitList(x + ", " + tail) == Some([x] + SplitList(tail).value)
  {
    IndexOfAfter(x, ',', " " + tail);
    var s := x + [','] + (" " + tail);
    assert x + ", " + tail == s;
    assert s[..|x|] == x;
    assert s[|x| + 1] == ' ';
    assert s[|x| + 2..] == tail;
  }

  /** A comma-free string is a list of one. */
  lemma SplitSingle(x: string)
    requires ',' !in x
    ensures SplitList(x) == Some([x])
  {
    assert IndexOf(x, ',') == |x|;
  }

  lemma CommaFreeTail(xs: seq<string>)
    requires |xs| > 0 && CommaFree(xs)
    ensures ',' !in xs[0] && CommaFree(xs[1..])
  {
    forall i | 0 <= i < |xs[1..]| ensures ',' !in xs[1..][i] {
      assert xs[1..][i] == xs[i + 1];
    }
  }

  /** A non-empty list of comma-free media types survives joining and splitting. */
  lemma {:induction false} SplitJoin(xs: seq<string>)
    requires |xs| > 0 && CommaFree(xs)
    ensures SplitList(Join(xs, ", ")) == Some(xs)
    decreases |xs|
  {
    CommaFreeTail(xs);
    if |xs| == 1 {
      SplitSingle(xs[0]);
      assert xs == [xs[0]];
    } else {
      var tail := Join(xs[1..], ", ");
      assert Join(xs, ", ") == xs[0] + ", " + tail;
      SplitJoin(xs[1..]);
      SplitHead(xs[0], tail);
      assert [xs[0]] + xs[1..] == xs;
    }
  }

  /** SplitJoin for any list, as an implication. */
  lemma SplitJoinIfCommaFree(xs: seq<string>)
    ensures |xs| > 0 && CommaFree(xs) ==> SplitList(Join(xs, ", ")) == Some(xs)
  {
    if |xs| > 0 && CommaFree(xs) {
      SplitJoin(xs);
    }
  }

  /**
   `_mediaTypes({accept, content})`: the Accept header lists the accepted
   types, comma-separated, and reads back into that list; Content-Type is
   passed through.
   */
  function MediaTypes(accept: seq<string>, content: string): (h: map<string, string>)
    ensures h.Keys == {"Accept", "Content-Type"}
    ensures h["Content-Type"] == content
    ensures |accept| == 0 ==> h["Accept"] == ""
    ensures |accept| == 1 ==> h["Accept"] == accept[0]
    ensures |accept| > 0 && CommaFree(accept) ==> SplitList(h["Accept"]) == Some(accept)
  {
    SplitJoinIfCommaFree(accept);
    map["Accept" := Join(accept, ", "), "Content-Type" := content]
  }

  // ---- Response classifiers: the transform each call passes to the session ----

  /** `Device.fromJSON(JSON.parse(body))`. */
  function DeviceFromBody(body: string, parse: JsonParser): Completion<Devices.Device> {
    match ParseJson(parse, body)
    case Throw(e) => Throw(e)
    case Normal(json) => Devices.FromJson(json)
  }

  /** Returns the decoded device, or raises what decoding raised. */
  function DeviceOrRaise(body: string, parse: JsonParser): Transformed<Option<Devices.Device>> {
    match DeviceFromBody(body, parse)
    case Throw(e) => StubbedSessions.Raised(e)
    case Normal(d) => StubbedSessions.Returned(None, Some(d))
  }

  /** Returns the parsed body, or raises the parse error. */
  function JsonOrRaise(body: string, parse: JsonParser): Transformed<JsValue> {
    match ParseJson(parse, body)
    case Throw(e) => StubbedSessions.Raised(e)
    case Normal(json) => StubbedSessions.Returned(None, json)
  }

  /** `createDevice`: 200 gives the decoded device, 404 a "Device not found" error, anything else nothing. */
  function CreateDeviceResult(result: Http.HttpResult, parse: JsonParser): (t: Transformed<Option<Devices.Device>>)
    ensures t.NoValue? <==> result.code != Http.OK && result.code != Http.NOT_FOUND
    ensures result.code == Http.NOT_FOUND ==> t == StubbedSessions.Returned(Some(Error("Device not found")), None)
    ensures result.code == Http.OK ==>
      match DeviceFromBody(result.body, parse)
      case Normal(d) => t == StubbedSessions.Returned(None, Some(d))
      case Throw(e) => t == StubbedSessions.Raised(e)
  {
    if result.code == Http.OK then DeviceOrRaise(result.body, parse)
    else if result.code == Http.NOT_FOUND then StubbedSessions.Returned(Some(Error("Device not found")), None)
    else StubbedSessions.NoValue
  }

  /** `deleteDevice`: only 200 gives a value, `(null, true)`. */
  function DeleteDeviceResult(result: Http.HttpResult): (t: Transformed<bool>)
    ensures t.NoValue? <==> result.code != Http.OK
    ensures !t.NoValue? ==> t == StubbedSessions.Returned(None, true)
  {
    if result.code == Http.OK then StubbedSessions.Returned(None, true) else StubbedSessions.NoValue
  }

  /**
   The transform `deleteDevices` and `deleteDatapoints` share: 200 gives the
   parsed body (the delete summary), anything else nothing.
   */
  function ParsedBodyResult(result: Http.HttpResult, parse: JsonParser): (t: Transformed<JsValue>)
    ensures t.NoValue? <==> result.code != Http.OK
    ensures t.Returned? ==> t.error.None? && parse(result.body) == Some(t.payload)
    ensures t.Raised? ==> t.thrown == SyntaxError && parse(result.body).None?
  {
    if result.code == Http.OK then JsonOrRaise(result.body, parse) else StubbedSessions.NoValue
  }

  /** `updateDevice`: 200 gives the decoded device, anything else nothing. */
  function UpdateDeviceResult(result: Http.HttpResult, parse: JsonParser): (t: Transformed<Option<Devices.Device>>)
    ensures t.NoValue? <==> result.code != Http.OK
    ensures t.Returned? ==> t.error.None? && t.payload.Some? && DeviceFromBody(result.body, parse) == Normal(t.payload.value)
    ensures result.code == Http.OK ==>
      match DeviceFromBody(result.body, parse)
      case Normal(d) => t == StubbedSessions.Returned(None, Some(d))
      case Throw(e) => t == StubbedSessions.Raised(e)
  {
    if result.code == Http.OK then DeviceOrRaise(result.body, parse) else StubbedSessions.NoValue
  }

  /** `getDevice`: 200 gives the decoded device; 404 is not an error but `(null, null)`. */
  function GetDeviceResult(result: Http.HttpResult, parse: JsonParser): (t: Transformed<Option<Devices.Device>>)
    ensures t.NoValue? <==> result.code != Http.OK && result.code != Http.NOT_FOUND
    ensures result.code == Http.NOT_FOUND ==> t == StubbedSessions.Returned(None, None)
    ensures t.Returned? ==> t.error.None?
    ensures t.Returned? && t.payload.Some? ==> result.code == Http.OK && DeviceFromBody(result.body, parse) == Normal(t.payload.value)
    ensures result.code == Http.OK ==>
      match DeviceFromBody(result.body, parse)
      case Normal(d) => t == StubbedSessions.Returned(None, Some(d))
      case Throw(e) => t == StubbedSessions.Raised(e)
  {
    if result.code == Http.OK then DeviceOrRaise(result.body, parse)
    else if result.code == Http.NOT_FOUND then StubbedSessions.Returned(None, None)
    else StubbedSessions.NoValue
  }

  /**
   `writeBulk`: 200 gives a MultiStatus with no status, 207 one holding the
   parsed body, anything else nothing.
   */
  function WriteBulkResult(result: Http.HttpResult, parse: JsonParser): (t: Transformed<MultiStatuses.MultiStatus>)
    ensures t.NoValue? <==> result.code != Http.OK && result.code != Http.MULTI
    ensures result.code == Http.OK ==> t == StubbedSessions.Returned(None, MultiStatuses.NoStatus)
    ensures result.code == Http.MULTI && parse(result.body).Some? ==>
      t == StubbedSessions.Returned(None, MultiStatuses.MultiStatus(parse(result.body).value))
    ensures t.Raised? ==> result.code == Http.MULTI && parse(result.body).None? && t.thrown == SyntaxError
    ensures result.code == Http.MULTI && parse(result.body).None? ==> t == StubbedSessions.Raised(SyntaxError)
  {
    if result.code == Http.OK then StubbedSessions.Returned(None, MultiStatuses.NoStatus)
    else if result.code == Http.MULTI then
      match ParseJson(parse, result.body)
      case Throw(e) => StubbedSessions.Raised(e)
      case Normal(json) => StubbedSessions.Returned(None, MultiStatuses.MultiStatus(json))
    else StubbedSessions.NoValue
  }

  /** A 200 write is a total success; a 207 with any status object is a partial one. */
  lemma WriteBulkClassification(result: Http.HttpResult, parse: JsonParser)
    ensures result.code == Http.OK ==>
      var t := WriteBulkResult(result, parse);
      MultiStatuses.IsSuccess(t.payload) && MultiStatuses.Failures(t.payload) == Normal(map[])
    ensures result.code == Http.MULTI && parse(result.body).Some? && parse(result.body).value.Obj? ==>
      MultiStatuses.IsPartialSuccess(WriteBulkResult(result, parse).payload)
  {
    MultiStatuses.NoStatusIsSuccess();
  }

  /**
   A 404 on `createDevice` reaches the callback as an error, the same reply
   on `getDevice` as a null device with no error, and an unclassified code on
   either as the session's "Unexpected response code" error.
   */
  lemma NotFoundPolicies(stub: StubbedSessions.Stub, parse: JsonParser)
    ensures stub.code == Http.NOT_FOUND ==>
      StubbedSessions.Deliver(stub, (r: Http.HttpResult) => CreateDeviceResult(r, parse))
        == StubbedSessions.Callback(Some(Error("Device not found")), Some(None))
    ensures stub.code == Http.NOT_FOUND ==>
      StubbedSessions.Deliver(stub, (r: Http.HttpResult) => GetDeviceResult(r, parse))
        == StubbedSessions.Callback(None, Some(None))
    ensures stub.code != Http.OK && stub.code != Http.NOT_FOUND ==>
      StubbedSessions.Deliver(stub, (r: Http.HttpResult) => GetDeviceResult(r, parse))
        == StubbedSessions.Callback(Some(StubbedSessions.UnexpectedCodeError(stub.code, stub.body)), None)
    ensures stub.code != Http.OK && stub.code != Http.NOT_FOUND ==>
      StubbedSessions.Deliver(stub, (r: Http.HttpResult) => CreateDeviceResult(r, parse))
        == StubbedSessions.Callback(Some(StubbedSessions.UnexpectedCodeError(stub.code, stub.body)), None)
  {
  }

  /**
   The reply the device-creation test stubs (a 200 whose body is the device
   record) is classified as that device, every field kept.
   */
  lemma CreateDeviceScenario(parse: JsonParser, body: string, headers: map<string, string>)
    requires parse(body) == Some(Obj(map["key" := Str("stubbed_key"), "name" := Str("stubbed_name"),
                                         "attributes" := Obj(map["attr1" := Str("value1")]), "sensors" := Arr([])]))
    ensures CreateDeviceResult(Http.HttpResult(200, headers, body), parse)
      == StubbedSessions.Returned(None, Some(Devices.Device(Str("stubbed_key"), Str("stubbed_name"),
                                                            Obj(map["attr1" := Str("value1")]), Arr([]))))
  {
  }

  // ---- Action values and the queries the read calls build ----

  /** The `find` value: `{quantifier: "all"}`, plus `limit` only when it is truthy. */
  function FindValue(limit: JsValue): (v: JsValue)
    ensures v.Obj? && "quantifier" in v.props && v.props["quantifier"] == Str("all")
    ensures "limit" in v.props <==> Truthy(limit)
    ensures "limit" in v.props ==> v.props["limit"] == limit
    ensures v.props.Keys <= {"quantifier", "limit"}
  {
    var find := map["quantifier" := Str("all")];
    Obj(if Truthy(limit) then find["limit" := limit] else find)
  }

  /** The `read` value: `{start, stop}`, plus `limit` only when it is truthy. */
  function ReadValue(start: JsValue, stop: JsValue, limit: JsValue): (v: JsValue)
    ensures v.Obj? && "start" in v.props && "stop" in v.props
    ensures v.props["start"] == start && v.props["stop"] == stop
    ensures "limit" in v.props <==> Truthy(limit)
    ensures "limit" in v.props ==> v.props["limit"] == limit
    ensures v.props.Keys <= {"start", "stop", "limit"}
  {
    var read := map["start" := start, "stop" := stop];
    Obj(if Truthy(limit) then read["limit" := limit] else read)
  }

  /** The `single` value: `{function}`, plus `timestamp` only when it is truthy. */
  function SingleValue(func: JsValue, timestamp: JsValue): (v: JsValue)
    ensures v.Obj? && "function" in v.props && v.props["function"] == func
    ensures "timestamp" in v.props <==> Truthy(timestamp)
    ensures "timestamp" in v.props ==> v.props["timestamp"] == timestamp
    ensures v.props.Keys <= {"function", "timestamp"}
  {
    var args := map["function" := func];
    Obj(if Truthy(timestamp) then args["timestamp" := timestamp] else args)
  }

  /** The options a read call uses when the caller leaves them out: `{streamed: false}`. */
  const DefaultCallOptions: JsValue := Obj(map["streamed" := Bool(false)])

  /** `listDevices`' query; reading `options.limit` throws when options is undefined or null. */
  function ListDevicesQuery(selection: JsValue, options: JsValue): (r: Completion<Queries.Query>)
    ensures r.Throw? <==> Nullish(options)
    ensures r.Normal? ==> r.value == Queries.Query(selection, Null, Queries.Action("find", FindValue(Prop(options, "limit"))))
  {
    match GetProp(options, "limit")
    case Throw(e) => Throw(e)
    case Normal(limit) => Normal(Queries.Query(selection, Null, Queries.Action("find", FindValue(limit))))
  }

  /** `deleteDevices`' query: find-all with no limit; it always serialises. */
  function DeleteDevicesQuery(selection: JsValue): (q: Queries.Query)
    ensures Queries.ToJson(q) == Normal(Obj(map["search" := Queries.SearchClause(selection),
                                                 "find" := Obj(map["quantifier" := Str("all")])]))
  {
    Queries.Query(selection, Null, Queries.Action("find", Obj(map["quantifier" := Str("all")])))
  }

  /** `read`'s query: the pipeline becomes the fold. */
  function ReadQuery(selection: JsValue, start: JsValue, end: JsValue, pipeline: JsValue, options: JsValue): (r: Completion<Queries.Query>)
    ensures r.Throw? <==> Nullish(options)
    ensures r.Normal? ==> r.value == Queries.Query(selection, pipeline, Queries.Action("read", ReadValue(start, end, Prop(options, "limit"))))
  {
    match GetProp(options, "limit")
    case Throw(e) => Throw(e)
    case Normal(limit) => Normal(Queries.Query(selection, pipeline, Queries.Action("read", ReadValue(start, end, limit))))
  }

  /**
   `single`'s query. Without a pipeline it serialises to the search clause and
   the `single` value; with one, serialising throws.
   */
  function SingleQuery(selection: JsValue, func: JsValue, timestamp: JsValue, pipeline: JsValue): (q: Queries.Query)
    ensures Nullish(pipeline) ==>
      Queries.ToJson(q) == Normal(Obj(map["search" := Queries.SearchClause(selection), "single" := SingleValue(func, timestamp)]))
    ensures !Nullish(pipeline) ==> Queries.ToJson(q) == Throw(ReferenceError("fold"))
  {
    Queries.Query(selection, pipeline, Queries.Action("single", SingleValue(func, timestamp)))
  }

  /** `latest(selection, pipeline)`: `single` with function "latest" and a null timestamp. */
  function LatestQuery(selection: JsValue, pipeline: JsValue): (q: Queries.Query)
    ensures q.action == Queries.Action("single", Obj(map["function" := Str("latest")]))
    ensures q.selection == selection && q.fold == pipeline
  {
    SingleQuery(selection, Str("latest"), Null, pipeline)
  }

  /** `deleteDevices` sends the query `listDevices` builds for options without a limit. */
  lemma DeleteDevicesFindsAll(selection: JsValue)
    ensures ListDevicesQuery(selection, EmptyObject) == Normal(DeleteDevicesQuery(selection))
    ensures Queries.ToJson(DeleteDevicesQuery(selection))
      == Normal(Obj(map["search" := Queries.SearchClause(selection), "find" := Obj(map["quantifier" := Str("all")])]))
  {
  }

  /** With the default options no limit is sent. */
  lemma DefaultOptionsSendNoLimit(selection: JsValue, start: JsValue, end: JsValue)
    ensures ListDevicesQuery(selection, DefaultCallOptions)
      == Normal(Queries.Query(selection, Null, Queries.Action("find", Obj(map["quantifier" := Str("all")]))))
    ensures ReadQuery(selection, start, end, Null, DefaultCallOptions)
      == Normal(Queries.Query(selection, Null, Queries.Action("read", Obj(map["start" := start, "stop" := end]))))
  {
  }

  /**
   The read calls that carry a pipeline build a query whose serialisation
   throws, while a pipeline-free `listDevices` query serialises to the find
   shape with the selection verbatim.
   */
  lemma PipelineQueriesCannotSerialise(selection: JsValue, start: JsValue, end: JsValue, pipeline: JsValue,
                                       options: JsValue, func: JsValue, timestamp: JsValue)
    requires !Nullish(pipeline) && !Nullish(options)
    ensures Queries.ToJson(ReadQuery(selection, start, end, pipeline, options).value) == Throw(ReferenceError("fold"))
    ensures Queries.ToJson(SingleQuery(selection, func, timestamp, pipeline)) == Throw(ReferenceError("fold"))
    ensures Queries.ToJson(LatestQuery(selection, pipeline)) == Throw(ReferenceError("fold"))
    ensures Queries.ToJson(ListDevicesQuery(selection, options).value)
      == Normal(Obj(map["search" := Queries.SearchClause(selection), "find" := FindValue(Prop(options, "limit"))]))
  {
  }

  // ---- writeDevice ----

  /** The write after the sensors in `done` have each been pushed once. */
  function BatchOf(deviceKey: string, ts: JsValue, entries: map<string, JsValue>, done: set<string>): (w: BulkWrites.BulkWrite)
    requires done <= entries.Keys
  {
    if done == {} then BulkWrites.New()
    else BulkWrites.BulkWrite(map[deviceKey := map s | s in done :: [BulkWrites.DataPoint(ts, entries[s])]])
  }

  /** Pushing the point of a sensor not yet written extends the batch by exactly that sensor. */
  lemma BatchStep(deviceKey: string, ts: JsValue, entries: map<string, JsValue>, done: set<string>, s: string)
    requires done <= entries.Keys && s in entries && s !in done
    ensures BulkWrites.Push(BatchOf(deviceKey, ts, entries, done), deviceKey, s, BulkWrites.DataPoint(ts, entries[s]))
      == BatchOf(deviceKey, ts, entries, done + {s})
  {
    var p := BulkWrites.DataPoint(ts, entries[s]);
    var before := BatchOf(deviceKey, ts, entries, done);
    var after := BulkWrites.Push(before, deviceKey, s, p);
    var inner := map k | k in done + {s} :: [BulkWrites.DataPoint(ts, entries[k])];
    var sensors := if deviceKey in before.data then before.data[deviceKey] else map[];
    assert s !in sensors;
    var empty: seq<BulkWrites.DataPoint> := [];
    assert empty + [p] == [p];
    assert after.data == before.data[deviceKey := sensors[s := empty + [p]]];
    assert before.data.Keys <= {deviceKey};
    assert after.data == map[deviceKey := sensors[s := [p]]];
    assert sensors[s := [p]] == inner by {
      forall k | k in inner
        ensures k in sensors[s := [p]] && sensors[s := [p]][k] == inner[k]
      {
        if k != s {
          assert k in done;
        }
      }
    }
  }

  /** Once every entry is done, the batch holds exactly one point per entry under the device key. */
  lemma BatchComplete(deviceKey: string, ts: JsValue, entries: map<string, JsValue>)
    ensures var w := BatchOf(deviceKey, ts, entries, entries.Keys);
      && (entries == map[] ==> w == BulkWrites.New())
      && (entries != map[] ==> w.data.Keys == {deviceKey} && w.data[deviceKey].Keys == entries.Keys)
      && forall s :: s in entries ==> BulkWrites.Points(w, deviceKey, s) == [BulkWrites.DataPoint(ts, entries[s])]
  {
    if entries != map[] {
      var s :| s in entries;
      assert s in entries.Keys;
    }
  }

  /** The `for … in` loop of `writeDevice`: pushes one point per entry, visiting the keys in any order. */
  method PushEach(deviceKey: string, ts: JsValue, entries: map<string, JsValue>) returns (w: BulkWrites.BulkWrite)
    ensures w == BatchOf(deviceKey, ts, entries, entries.Keys)
  {
    w := BulkWrites.New();
    var pending := entries.Keys;
    while pending != {}
      invariant pending <= entries.Keys
      invariant w == BatchOf(deviceKey, ts, entries, entries.Keys - pending)
      decreases pending
    {
      var s :| s in pending;
      BatchStep(deviceKey, ts, entries, entries.Keys - pending, s);
      w := BulkWrites.Push(w, deviceKey, s, BulkWrites.DataPoint(ts, entries[s]));
      assert entries.Keys - pending + {s} == entries.Keys - (pending - {s});
      pending := pending - {s};
    }
    assert entries.Keys - pending == entries.Keys;
  }

  /**
   The write `writeDevice(deviceKey, ts, values)` builds: one point
   `(ts, value)` per enumerated sensor key of `values`, all under `deviceKey`,
   whatever order the keys are visited in; nothing at all for no keys.
   */
  method WriteDeviceBatch(deviceKey: string, ts: JsValue, values: JsValue) returns (w: BulkWrites.BulkWrite)
    ensures ForIn(values) == map[] ==> w == BulkWrites.New()
    ensures ForIn(values) != map[] ==> w.data.Keys == {deviceKey} && w.data[deviceKey].Keys == ForIn(values).Keys
    ensures forall s :: s in ForIn(values) ==>
      BulkWrites.Points(w, deviceKey, s) == [BulkWrites.DataPoint(ts, ForIn(values)[s])]
  {
    var entries := ForIn(values);
    w := PushEach(deviceKey, ts, entries);
    BatchComplete(deviceKey, ts, entries);
  }

  /** What `writeDevice` hands its callback: the write's error alone, the status dropped. */
  function WriteDeviceReport(d: StubbedSessions.Delivery<MultiStatuses.MultiStatus>): (r: Completion<Option<Error>>)
    ensures d.Callback? ==> r == Normal(d.error)
    ensures d.Throws? ==> r == Throw(d.thrown)
  {
    match d
    case Callback(err, _) => Normal(err)
    case Throws(e) => Throw(e)
  }

  /** A 207 write with per-device failures reaches `writeDevice`'s caller as no error at all. */
  lemma PartialWriteReportedAsSuccess(stub: StubbedSessions.Stub, parse: JsonParser, status: map<string, JsValue>)
    requires stub.code == Http.MULTI && parse(stub.body) == Some(Obj(status))
    ensures
      var d := StubbedSessions.Deliver(stub, (r: Http.HttpResult) => WriteBulkResult(r, parse));
      && d == StubbedSessions.Callback(None, Some(MultiStatuses.MultiStatus(Obj(status))))
      && MultiStatuses.IsPartialSuccess(d.payload.value)
      && WriteDeviceReport(d) == Normal(None)
  {
  }

  // ---- Option defaulting ----

  /** The session the client uses: a live one built from the options, or the one supplied. */
  datatype SessionChoice = LiveSession(port: JsValue, secure: JsValue) | Supplied(session: JsValue)

  datatype Client = Client(key: JsValue, secret: JsValue, host: JsValue, port: JsValue, secure: JsValue, session: SessionChoice)

  const DefaultPort: JsValue := Num(443)
  const DefaultSecure: JsValue := Bool(true)
  const DefaultOptions: JsValue := Obj(map["port" := DefaultPort, "secure" := DefaultSecure])

  /** `opts.name == undefined ? fallback : opts.name`. */
  function OptionOr(opts: JsValue, name: string, fallback: JsValue): (v: JsValue)
    requires !Nullish(opts)
  {
    var v := Prop(opts, name);
    if Nullish(v) then fallback else v
  }

  /** `_initialize()`: missing options, or a missing port or secure flag, take the defaults. */
  function Initialize(key: JsValue, secret: JsValue, host: JsValue, opts: JsValue): (c: Client)
    ensures c.key == key && c.secret == secret && c.host == host
    ensures Nullish(opts) ==> c.port == DefaultPort && c.secure == DefaultSecure
    ensures !Nullish(opts) && !Nullish(Prop(opts, "port")) ==> c.port == Prop(opts, "port")
    ensures !Nullish(opts) && Nullish(Prop(opts, "port")) ==> c.port == DefaultPort
    ensures !Nullish(opts) && !Nullish(Prop(opts, "secure")) ==> c.secure == Prop(opts, "secure")
    ensures !Nullish(opts) && Nullish(Prop(opts, "secure")) ==> c.secure == DefaultSecure
    ensures c.session.LiveSession? ==> c.session == LiveSession(c.port, c.secure)
    ensures c.session.Supplied? <==> !Nullish(opts) && !Nullish(Prop(opts, "session"))
    ensures c.session.Supplied? ==> !Nullish(opts) && c.session.session == Prop(opts, "session")
  {
    var o := if Nullish(opts) then DefaultOptions else opts;
    var port := OptionOr(o, "port", DefaultPort);
    var secure := OptionOr(o, "secure", DefaultSecure);
    var session := Prop(o, "session");
    Client(key, secret, host, port, secure, if Nullish(session) then LiveSession(port, secure) else Supplied(session))
  }

  /**
   The defaulting tests for undefined, not truthiness: an explicit port 0 or
   `secure: false` is kept, and the initialisation test's `{port: 80}` keeps 80
   while secure defaults to true.
   */
  lemma GivenOptionsKept(key: JsValue, secret: JsValue, host: JsValue)
    ensures Initialize(key, secret, host, Obj(map["port" := Num(0), "secure" := Bool(false)])).port == Num(0)
    ensures Initialize(key, secret, host, Obj(map["port" := Num(0), "secure" := Bool(false)])).secure == Bool(false)
    ensures Initialize(Str("key"), Str("secret"), Str("host"), Obj(map["port" := Num(80)]))
      == Client(Str("key"), Str("secret"), Str("host"), Num(80), Bool(true), LiveSession(Num(80), Bool(true)))
    ensures Initialize(key, secret, host, Undefined) == Initialize(key, secret, host, Obj(map[]))
  {
  }
}
