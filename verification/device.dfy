/** Device: a keyed container of sensors, built with `||` defaulting of its optional fields. */
module Devices {
  import opened JsValues

  datatype Device = Device(key: JsValue, name: JsValue, attributes: JsValue, sensors: JsValue)

  /**
   `new Device(key, params)`: a falsy `params` reads as `{}`, then `name`,
   `attributes` and `sensors` each fall back to "", {} and [] when falsy.
   */
  function New(key: JsValue, params: JsValue): (d: Device)
    ensures d.key == key
    ensures d.name == (if Truthy(params) && Truthy(Prop(params, "name")) then Prop(params, "name") else Str(""))
    ensures d.attributes == (if Truthy(params) && Truthy(Prop(params, "attributes")) then Prop(params, "attributes") else EmptyObject)
    ensures d.sensors == (if Truthy(params) && Truthy(Prop(params, "sensors")) then Prop(params, "sensors") else Arr([]))
  {
    var p := Or(params, EmptyObject);
    Device(key, Or(Prop(p, "name"), Str("")), Or(Prop(p, "attributes"), EmptyObject), Or(Prop(p, "sensors"), Arr([])))
  }

  /** `Device.fromJSON(json)`: `new Device(json.key, json)`; undefined or null input throws. */
  function FromJson(json: JsValue): (r: Completion<Device>)
    ensures r.Throw? <==> Nullish(json)
    ensures r.Normal? ==> r.value == New(Prop(json, "key"), json)
  {
    match GetProp(json, "key")
    case Throw(e) => Throw(e)
    case Normal(key) => Normal(New(key, json))
  }

  /** The device's own properties, as the object JSON.stringify serialises. */
  function ToJson(d: Device): JsValue {
    Obj(map["key" := d.key, "name" := d.name, "attributes" := d.attributes, "sensors" := d.sensors])
  }

  /** Omitted or falsy params behave like an empty params object. */
  lemma FalsyParamsAreEmpty(key: JsValue, params: JsValue)
    requires !Truthy(params)
    ensures New(key, params) == New(key, EmptyObject)
    ensures New(key, params) == Device(key, Str(""), EmptyObject, Arr([]))
  {
  }

  /** A record with a key and truthy name, attributes and sensors decodes to exactly those fields. */
  lemma FromJsonKeepsFields(key: JsValue, name: JsValue, attributes: JsValue, sensors: JsValue)
    requires Truthy(name) && Truthy(attributes) && Truthy(sensors)
    ensures FromJson(Obj(map["key" := key, "name" := name, "attributes" := attributes, "sensors" := sensors]))
      == Normal(Device(key, name, attributes, sensors))
  {
  }

  /** Every constructed device survives serialisation and `fromJSON` unchanged. */
  lemma RoundTrip(key: JsValue, params: JsValue)
    ensures FromJson(ToJson(New(key, params))) == Normal(New(key, params))
  {
  }
}
