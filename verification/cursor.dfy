/**
 Cursor: fetches one segment of results with a single GET of the stored
 route, sending the serialised stored query, and extracts `json[segmentKey]`
 from the reply. `forEach` visits that segment's records in order, exactly as
 received. There is no continuation: one request is all a cursor makes.
 */
module Cursors {
  import opened JsValues
  import Http
  import Queries
  import StubbedSessions

  /**
   `new Cursor(obj, session, route, query, segmentKey)`. `obj`, the record
   decoder, is stored but never applied.
   */
  datatype Cursor<D> = Cursor(obj: D, session: StubbedSessions.StubbedSession, route: string,
                              query: Queries.Query, segmentKey: string)

  /** A request the cursor sends: verb, route and the JSON value of its body. */
  datatype Request = Request(verb: string, route: string, body: JsValue)

  /** How fetching a segment ends: the segment handed to the caller's callback, or a thrown error. */
  datatype SegmentOutcome = Delivered(segment: JsValue) | Thrown(error: Error)

  datatype Fetch = Fetch(requests: seq<Request>, outcome: SegmentOutcome)

  /** How `forEach` ends: the records visited, in order, or a thrown error. */
  datatype Visit = Visited(records: seq<JsValue>) | Failed(error: Error)

  const DefaultSegmentKey := "data"

  /** The constructor; an absent (undefined) or empty segment key falls back to "data". */
  function New<D>(obj: D, session: StubbedSessions.StubbedSession, route: string, query: Queries.Query,
                  segmentKey: Option<string>): (c: Cursor<D>)
    ensures segmentKey.Some? && segmentKey.value != "" ==> c.segmentKey == segmentKey.value
    ensures segmentKey.None? || segmentKey.value == "" ==> c.segmentKey == DefaultSegmentKey
    ensures c.obj == obj && c.session == session && c.route == route && c.query == query
  {
    var key := match segmentKey
      case Some(k) => if k != "" then k else DefaultSegmentKey
      case None => DefaultSegmentKey;
    Cursor(obj, session, route, query, key)
  }

  /** `JSON.parse(result.body)[segmentKey]`. */
  function ReadSegment(result: Http.HttpResult, segmentKey: string, parse: JsonParser): Completion<JsValue> {
    match ParseJson(parse, result.body)
    case Throw(e) => Throw(e)
    case Normal(json) => GetProp(json, segmentKey)
  }

  /**
   The transform `_getSegment` hands the session: on 200 it reads the
   segment (passing it to the caller) and returns `{}`, whose error and
   payload are both undefined; on any other code it returns nothing.
   */
  function SegmentTransform(segmentKey: string, parse: JsonParser): (f: Http.HttpResult -> StubbedSessions.Transformed<JsValue>)
    ensures forall result: Http.HttpResult :: result.code != Http.OK ==> f(result).NoValue?
    ensures forall result: Http.HttpResult :: result.code == Http.OK && ReadSegment(result, segmentKey, parse).Throw? ==>
      f(result) == StubbedSessions.Raised(ReadSegment(result, segmentKey, parse).error)
    ensures forall result: Http.HttpResult :: result.code == Http.OK && ReadSegment(result, segmentKey, parse).Normal? ==>
      f(result) == StubbedSessions.Returned(None, Undefined)
  {
    (result: Http.HttpResult) =>
      if result.code == Http.OK then
        match ReadSegment(result, segmentKey, parse)
        case Throw(e) => StubbedSessions.Raised(e)
        case Normal(_) => StubbedSessions.Returned(None, Undefined)
      else StubbedSessions.NoValue
  }

  /** `_handleError(err)`: throws the error the session reports, and returns normally when there is none. */
  function HandleError(err: Option<Error>): (r: Completion<()>)
    ensures r.Throw? <==> err.Some?
    ensures r.Throw? ==> r.error == err.value
  {
    match err
    case Some(e) => Throw(e)
    case None => Normal(())
  }

  /**
   `_getSegment(callback)` (and so `forEachSegment`). Serialising the query
   comes first and may throw; otherwise exactly one GET goes out, and its
   reply either yields the segment or ends in the error `_handleError` throws.
   */
  function GetSegment<D>(c: Cursor<D>, parse: JsonParser): (f: Fetch)
    ensures |f.requests| <= 1
    ensures f.requests == [] <==> !Nullish(c.query.fold)
    ensures f.requests != [] ==> f.requests[0] == Request("GET", c.route, Queries.ToJson(c.query).value)
    ensures f.requests == [] ==> f.outcome == Thrown(ReferenceError("fold"))
    ensures f.outcome.Delivered? ==>
      var stub := StubbedSessions.FindStub(c.session, "GET", c.route);
      && stub.Some? && stub.value.code == Http.OK
      && ReadSegment(Http.HttpResult(stub.value.code, stub.value.headers, stub.value.body), c.segmentKey, parse)
         == Normal(f.outcome.segment)
  {
    match Queries.ToJson(c.query)
    case Throw(e) => Fetch([], Thrown(e))
    case Normal(body) =>
      var outcome :=
        match StubbedSessions.FindStub(c.session, "GET", c.route)
        case None => Thrown(StubbedSessions.NoStubError("GET", c.route))
        case Some(stub) =>
          if stub.code == Http.OK then
            match ReadSegment(Http.HttpResult(stub.code, stub.headers, stub.body), c.segmentKey, parse)
            case Throw(e) => Thrown(e)
            case Normal(segment) => Delivered(segment)
          else Thrown(StubbedSessions.UnexpectedCodeError(stub.code, stub.body));
      Fetch([Request("GET", c.route, body)], outcome)
  }

  /**
   The cursor's outcome is what the session's dispatch rule makes of its
   transform: an exception the transform raises propagates, an error handed
   to the callback is thrown by `_handleError`, and otherwise the segment
   reaches the caller.
   */
  lemma GetSegmentFollowsSession<D>(c: Cursor<D>, parse: JsonParser)
    requires Nullish(c.query.fold)
    ensures var body := Queries.ToJson(c.query).value;
      var d := StubbedSessions.Get(c.session, c.route, body, SegmentTransform(c.segmentKey, parse));
      var o := GetSegment(c, parse).outcome;
      match d
      case Throws(e) => o == Thrown(e)
      case Callback(err, _) =>
        && (HandleError(err).Throw? ==> o == Thrown(HandleError(err).error))
        && (HandleError(err).Normal? ==> o.Delivered?)
  {
  }

  /** A non-200 reply ends the fetch in the session's "Unexpected response code" error. */
  lemma Non200Throws<D>(c: Cursor<D>, parse: JsonParser, stub: StubbedSessions.Stub)
    requires Nullish(c.query.fold)
    requires StubbedSessions.FindStub(c.session, "GET", c.route) == Some(stub)
    requires stub.code != Http.OK
    ensures GetSegment(c, parse).outcome == Thrown(StubbedSessions.UnexpectedCodeError(stub.code, stub.body))
  {
  }

  /**
   `forEach(callback)`: the callback sees each record of the one segment, in
   order. A segment that is not an array has no `forEach` and the call throws.
   */
  function ForEach<D>(c: Cursor<D>, parse: JsonParser): (v: Visit)
    ensures v.Visited? <==> GetSegment(c, parse).outcome.Delivered? && GetSegment(c, parse).outcome.segment.Arr?
    ensures v.Visited? ==> GetSegment(c, parse).outcome.segment == Arr(v.records)
    ensures GetSegment(c, parse).outcome.Thrown? ==> v == Failed(GetSegment(c, parse).outcome.error)
    ensures GetSegment(c, parse).outcome.Delivered? && !GetSegment(c, parse).outcome.segment.Arr? ==>
      v == Failed(TypeError("forEach"))
  {
    match GetSegment(c, parse).outcome
    case Thrown(e) => Failed(e)
    case Delivered(segment) =>
      match segment
      case Arr(records) => Visited(records)
      case _ => Failed(TypeError("forEach"))
  }

  /**
   The records are yielded raw: the decoder the cursor holds makes no
   difference to what `forEach` visits.
   */
  lemma RecordsYieldedRaw<D>(c: Cursor<D>, other: D, parse: JsonParser)
    ensures ForEach(c.(obj := other), parse) == ForEach(c, parse)
  {
  }

  /** The records of a 200 reply whose segment is an array, in the order the reply lists them. */
  lemma ForEachVisitsSegmentInOrder<D>(c: Cursor<D>, parse: JsonParser, stub: StubbedSessions.Stub,
                                       json: map<string, JsValue>, records: seq<JsValue>)
    requires Nullish(c.query.fold)
    requires StubbedSessions.FindStub(c.session, "GET", c.route) == Some(stub)
    requires stub.code == Http.OK && parse(stub.body) == Some(Obj(json))
    requires c.segmentKey in json && json[c.segmentKey] == Arr(records)
    ensures ForEach(c, parse) == Visited(records)
    ensures GetSegment(c, parse).requests == [Request("GET", c.route, Queries.ToJson(c.query).value)]
  {
  }

  /**
   `map(callback)`: runs `forEach`, discards what the callback returns, and
   returns undefined.
   */
  function Map<D>(c: Cursor<D>, parse: JsonParser, callback: JsValue -> JsValue): (r: Completion<JsValue>)
    ensures r.Normal? <==> ForEach(c, parse).Visited?
    ensures r.Normal? ==> r.value == Undefined
    ensures r.Throw? ==> r.error == ForEach(c, parse).error
  {
    match ForEach(c, parse)
    case Failed(e) => Throw(e)
    case Visited(_) => Normal(Undefined)
  }
}
