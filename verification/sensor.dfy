/** Sensor: a keyed stream of data points, built with `||` defaulting of its optional fields. */
module Sensors {
  import opened JsValues

  datatype Sensor = Sensor(key: JsValue, name: JsValue, attributes: JsValue)

  /**
   `new Sensor(key, params)`: a falsy `params` reads as `{}`, then `name` and
   `attributes` fall back to "" and {} when falsy.
   */
  function New(key: JsValue, params: JsValue): (s: Sensor)
    ensures s.key == key
    ensures s.name == (if Truthy(params) && Truthy(Prop(params, "name")) then Prop(params, "name") else Str(""))
    ensures s.attributes == (if Truthy(params) && Truthy(Prop(params, "attributes")) then Prop(params, "attributes") else EmptyObject)
  {
    var p := Or(params, EmptyObject);
    Sensor(key, Or(Prop(p, "name"), Str("")), Or(Prop(p, "attributes"), EmptyObject))
  }

  /** `Sensor.fromJSON(json)`: `new Sensor(json.key, json)`; undefined or null input throws. */
  function FromJson(json: JsValue): (r: Completion<Sensor>)
    ensures r.Throw? <==> Nullish(json)
    ensures r.Normal? ==> r.value == New(Prop(json, "key"), json)
  {
    match GetProp(json, "key")
    case Throw(e) => Throw(e)
    case Normal(key) => Normal(New(key, json))
  }

  /** The sensor's own properties, as the object JSON.stringify serialises. */
  function ToJson(s: Sensor): JsValue {
    Obj(map["key" := s.key, "name" := s.name, "attributes" := s.attributes])
  }

  /** Omitted or falsy params behave like an empty params object. */
  lemma FalsyParamsAreEmpty(key: JsValue, params: JsValue)
    requires !Truthy(params)
    ensures New(key, params) == New(key, EmptyObject)
    ensures New(key, params) == Sensor(key, Str(""), EmptyObject)
  {
  }

  /** Every constructed sensor survives serialisation and `fromJSON` unchanged. */
  lemma RoundTrip(key: JsValue, params: JsValue)
    ensures FromJson(ToJson(New(key, params))) == Normal(New(key, params))
  {
  }
}
