/**
 StubbedSession: the in-memory session used in place of HTTP. Responses are
 stubbed per verb and route; a request either finds its stub, whose response
 goes through the caller's transform, or fails as a forbidden real connection.
 The dispatch rule after the transform is the one every session follows.
 */
module StubbedSessions {
  import opened JsValues
  import Decimal
  import Http

  /** A canned response. */
  datatype Stub = Stub(body: string, code: int, headers: map<string, string>)

  datatype StubbedSession = StubbedSession(activeStubs: map<string, Stub>)

  /**
   What a transform returns for a response: undefined (or null), an object
   `{error, payload}`, or an exception it throws.
   */
  datatype Transformed<+P> = NoValue | Returned(error: Option<Error>, payload: P) | Raised(thrown: Error)

  /**
   What a request comes to: the one call of the callback, with its error and
   payload, or an exception propagating out of the request. A payload of
   `None` is the null the session itself passes; a payload a transform
   returned is carried inside `Some`, whatever its value, so a transform's
   own null payload (as `getDevice` gives for 404) appears as `Some(None)`.
   */
  datatype Delivery<+P> = Callback(error: Option<Error>, payload: Option<P>) | Throws(thrown: Error)

  /** `new StubbedSession()`. */
  function New(): (s: StubbedSession)
    ensures s.activeStubs == map[]
    ensures forall verb, route :: FindStub(s, verb, route).None?
  {
    StubbedSession(map[])
  }

  /** `_key_for(verb, route)`: the SHA-1 digest of `verb + route`, kept here as the string it digests. */
  function KeyFor(verb: string, route: string): (k: string)
    ensures |k| == |verb| + |route|
    ensures k[..|verb|] == verb && k[|verb|..] == route
  {
    verb + route
  }

  /** `stub(verb, route, code, body, headers)`: stores the stub, replacing any with the same key. */
  function AddStub(s: StubbedSession, verb: string, route: string, code: int, body: string, headers: map<string, string>): (r: StubbedSession)
    ensures FindStub(r, verb, route) == Some(Stub(body, code, headers))
    ensures r.activeStubs.Keys == s.activeStubs.Keys + {KeyFor(verb, route)}
    ensures forall k :: k in s.activeStubs && k != KeyFor(verb, route) ==> r.activeStubs[k] == s.activeStubs[k]
  {
    StubbedSession(s.activeStubs[KeyFor(verb, route) := Stub(body, code, headers)])
  }

  /** The stub a request with this verb and route finds, if any. */
  function FindStub(s: StubbedSession, verb: string, route: string): (stub: Option<Stub>) {
    var key := KeyFor(verb, route);
    if key in s.activeStubs then Some(s.activeStubs[key]) else None
  }

  function NoStubError(verb: string, route: string): (e: Error) {
    Error("Real HTTP Connections are not allowed. " + verb + " " + route + " didn't match any active stubs")
  }

  function UnexpectedCodeError(code: int, body: string): (e: Error) {
    Error("Unexpected response code: " + Decimal.IntToString(code) + ". " + body)
  }

  /**
   The dispatch rule once a response exists: the transform sees
   `HttpResult(code, headers, body)`; a value it returns is handed on as
   `(value.error, value.payload)`; no value becomes an "Unexpected response
   code" error with a null payload; an exception it throws propagates.
   */
  function Deliver<P>(stub: Stub, transform: Http.HttpResult -> Transformed<P>): (r: Delivery<P>)
    ensures r.Throws? <==> transform(Http.HttpResult(stub.code, stub.headers, stub.body)).Raised?
    ensures transform(Http.HttpResult(stub.code, stub.headers, stub.body)).NoValue? ==>
      r == Callback(Some(UnexpectedCodeError(stub.code, stub.body)), None)
    ensures r.Callback? && r.payload.Some? ==>
      transform(Http.HttpResult(stub.code, stub.headers, stub.body)) == Returned(r.error, r.payload.value)
    ensures transform(Http.HttpResult(stub.code, stub.headers, stub.body)).Returned? ==>
      var t := transform(Http.HttpResult(stub.code, stub.headers, stub.body));
      r == Callback(t.error, Some(t.payload))
    ensures transform(Http.HttpResult(stub.code, stub.headers, stub.body)).Raised? ==>
      r == Throws(transform(Http.HttpResult(stub.code, stub.headers, stub.body)).thrown)
  {
    match transform(Http.HttpResult(stub.code, stub.headers, stub.body))
    case NoValue => Callback(Some(UnexpectedCodeError(stub.code, stub.body)), None)
    case Returned(error, payload) => Callback(error, Some(payload))
    case Raised(e) => Throws(e)
  }

  /**
   `_lookup_stub(verb, route, body, callback, transform)`: a missing stub
   calls back with the no-connection error and a null payload, without
   running the transform; the request body plays no part.
   */
  function LookupStub<P>(s: StubbedSession, verb: string, route: string, body: JsValue,
                         transform: Http.HttpResult -> Transformed<P>): (r: Delivery<P>)
    ensures FindStub(s, verb, route).None? ==> r == Callback(Some(NoStubError(verb, route)), None)
    ensures FindStub(s, verb, route).Some? ==> r == Deliver(FindStub(s, verb, route).value, transform)
  {
    match FindStub(s, verb, route)
    case None => Callback(Some(NoStubError(verb, route)), None)
    case Some(stub) => Deliver(stub, transform)
  }

  /** `get(route, body, callback, transform)`. */
  function Get<P>(s: StubbedSession, route: string, body: JsValue, transform: Http.HttpResult -> Transformed<P>): (r: Delivery<P>)
    ensures FindStub(s, "GET", route).None? ==> r == Callback(Some(NoStubError("GET", route)), None)
    ensures FindStub(s, "GET", route).Some? ==> r == Deliver(FindStub(s, "GET", route).value, transform)
  {
    LookupStub(s, "GET", route, body, transform)
  }

  /** `post(route, body, callback, transform)`. */
  function Post<P>(s: StubbedSession, route: string, body: JsValue, transform: Http.HttpResult -> Transformed<P>): (r: Delivery<P>)
    ensures FindStub(s, "POST", route).None? ==> r == Callback(Some(NoStubError("POST", route)), None)
    ensures FindStub(s, "POST", route).Some? ==> r == Deliver(FindStub(s, "POST", route).value, transform)
  {
    LookupStub(s, "POST", route, body, transform)
  }

  /** `delete(route, body, callback, transform)`. */
  function Delete<P>(s: StubbedSession, route: string, body: JsValue, transform: Http.HttpResult -> Transformed<P>): (r: Delivery<P>)
    ensures FindStub(s, "DELETE", route).None? ==> r == Callback(Some(NoStubError("DELETE", route)), None)
    ensures FindStub(s, "DELETE", route).Some? ==> r == Deliver(FindStub(s, "DELETE", route).value, transform)
  {
    LookupStub(s, "DELETE", route, body, transform)
  }

  /** A later stub for the same verb and route replaces the earlier one. */
  lemma StubOverwrites(s: StubbedSession, verb: string, route: string, c1: int, b1: string, h1: map<string, string>,
                       c2: int, b2: string, h2: map<string, string>)
    ensures AddStub(AddStub(s, verb, route, c1, b1, h1), verb, route, c2, b2, h2) == AddStub(s, verb, route, c2, b2, h2)
  {
    assert s.activeStubs[KeyFor(verb, route) := Stub(b1, c1, h1)][KeyFor(verb, route) := Stub(b2, c2, h2)]
        == s.activeStubs[KeyFor(verb, route) := Stub(b2, c2, h2)];
  }

  /**
   Keys of distinct requests never collide when verbs contain no '/' and
   routes start with one, as every route of the client does.
   */
  lemma KeyForInjective(v1: string, r1: string, v2: string, r2: string)
    requires forall i :: 0 <= i < |v1| ==> v1[i] != '/'
    requires forall i :: 0 <= i < |v2| ==> v2[i] != '/'
    requires |r1| > 0 && r1[0] == '/' && |r2| > 0 && r2[0] == '/'
    requires KeyFor(v1, r1) == KeyFor(v2, r2)
    ensures v1 == v2 && r1 == r2
  {
    var k := KeyFor(v1, r1);
    SlashEndsVerb(v1, r1);
    SlashEndsVerb(v2, r2);
    assert v1 == k[..|v1|] == v2;
    assert r1 == k[|v1|..] == r2;
  }

  /** Index of the first '/' in `s`, or `|s|` when there is none. */
  function FirstSlash(s: string): nat
    decreases |s|
  {
    if |s| == 0 || s[0] == '/' then 0 else 1 + FirstSlash(s[1..])
  }

  lemma {:induction false} SlashEndsVerb(v: string, r: string)
    requires forall i :: 0 <= i < |v| ==> v[i] != '/'
    requires |r| > 0 && r[0] == '/'
    ensures FirstSlash(v + r) == |v|
    decreases |v|
  {
    if |v| > 0 {
      assert (v + r)[1..] == v[1..] + r;
      SlashEndsVerb(v[1..], r);
    }
  }

  /**
   `get`, `post` and `delete` each find only the stubs registered under their
   own verb, and the body sent never changes the outcome.
   */
  lemma VerbRouting<P>(s: StubbedSession, route: string, body: JsValue, other: JsValue,
                       code: int, text: string, headers: map<string, string>, t: Http.HttpResult -> Transformed<P>)
    requires |route| > 0 && route[0] == '/'
    ensures Get(AddStub(s, "GET", route, code, text, headers), route, body, t) == Deliver(Stub(text, code, headers), t)
    ensures Post(AddStub(s, "GET", route, code, text, headers), route, body, t) == Post(s, route, body, t)
    ensures Delete(AddStub(s, "GET", route, code, text, headers), route, body, t) == Delete(s, route, body, t)
    ensures Post(AddStub(s, "POST", route, code, text, headers), route, body, t) == Deliver(Stub(text, code, headers), t)
    ensures Get(AddStub(s, "POST", route, code, text, headers), route, body, t) == Get(s, route, body, t)
    ensures Delete(AddStub(s, "DELETE", route, code, text, headers), route, body, t) == Deliver(Stub(text, code, headers), t)
    ensures Get(s, route, body, t) == Get(s, route, other, t)
  {
    assert KeyFor("POST", route) != KeyFor("GET", route) by {
      if KeyFor("POST", route) == KeyFor("GET", route) { KeyForInjective("POST", route, "GET", route); }
    }
    assert KeyFor("DELETE", route) != KeyFor("GET", route) by {
      if KeyFor("DELETE", route) == KeyFor("GET", route) { KeyForInjective("DELETE", route, "GET", route); }
    }
  }

  /** Strings that agree around a part of the same length agree on that part. */
  lemma MiddleDetermined(prefix: string, a: string, b: string, suffix: string)
    requires prefix + a + suffix == prefix + b + suffix
    ensures a == b
  {
    var m := prefix + a + suffix;
    assert |a| == |b|;
    assert a == m[|prefix|..|prefix| + |a|];
    assert b == (prefix + b + suffix)[|prefix|..|prefix| + |b|];
  }

  /** The unexpected-code error names the code: two codes never give the same message for one body. */
  lemma UnexpectedCodeNamesCode(c1: int, c2: int, body: string)
    requires UnexpectedCodeError(c1, body) == UnexpectedCodeError(c2, body)
    ensures c1 == c2
  {
    var prefix, suffix := "Unexpected response code: ", ". " + body;
    assert UnexpectedCodeError(c1, body).message == prefix + Decimal.IntToString(c1) + suffix;
    assert UnexpectedCodeError(c2, body).message == prefix + Decimal.IntToString(c2) + suffix;
    MiddleDetermined(prefix, Decimal.IntToString(c1), Decimal.IntToString(c2), suffix);
    Decimal.IntToStringInjective(c1, c2);
  }
}
