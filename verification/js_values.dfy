/**
 The JavaScript values the client handles, with the few pieces of the
 language's semantics its code relies on: truthiness (`!v`, `a || b`),
 loose comparison with `undefined`, property reads (`v[key]`, `v.key`),
 for-in enumeration, and the exceptions those can raise.
 */
module JsValues {
  import Decimal

  datatype Option<+T> = None | Some(value: T)

  /** The errors the modelled code raises or hands to a callback. */
  datatype Error =
    | Error(message: string)        // new Error(message)
    | TypeError(property: string)   // reading or calling `property` on a value that has no such member
    | SyntaxError                   // JSON.parse on text that is not JSON
    | ReferenceError(name: string)  // reading an identifier that is not in scope
    | RangeError(message: string)   // a value outside the range an operation accepts

  /** How an evaluation ends: with a value, or by throwing. */
  datatype Completion<+T> = Normal(value: T) | Throw(error: Error)

  /**
   A JavaScript value. Numbers are integers here; a `Date` is represented by
   the string its `toISOString()` returns, or by `None` for an invalid Date
   (one whose time value is NaN), which has no such string.
   */
  datatype JsValue =
    | Undefined
    | Null
    | Bool(b: bool)
    | Num(n: int)
    | Str(s: string)
    | Arr(elems: seq<JsValue>)
    | Obj(props: map<string, JsValue>)
    | Date(iso: Option<string>)

  /** `JSON.parse`, supplied by the caller; `None` when the text is not JSON. */
  type JsonParser = string -> Option<JsValue>

  function ParseJson(parse: JsonParser, text: string): (r: Completion<JsValue>)
    ensures r.Throw? <==> parse(text).None?
    ensures r.Throw? ==> r.error == SyntaxError
    ensures r.Normal? ==> parse(text) == Some(r.value)
  {
    match parse(text)
    case None => Throw(SyntaxError)
    case Some(v) => Normal(v)
  }

  /** The empty object literal `{}`. */
  const EmptyObject: JsValue := Obj(map[])

  /** `!!v`: false exactly for undefined, null, false, 0 and "". */
  predicate Truthy(v: JsValue) {
    match v
    case Undefined => false
    case Null => false
    case Bool(b) => b
    case Num(n) => n != 0
    case Str(s) => s != ""
    case _ => true
  }

  /** `v == undefined`, which under loose equality also holds for null. */
  predicate Nullish(v: JsValue) {
    v.Undefined? || v.Null?
  }

  /** `a || b`. */
  function Or(a: JsValue, b: JsValue): (r: JsValue)
    ensures Truthy(a) ==> r == a
    ensures !Truthy(a) ==> r == b
  {
    if Truthy(a) then a else b
  }

  /** Whether `key` is the property key of an index below `n`. */
  predicate IsIndexKey(key: string, n: nat) {
    Decimal.Canonical(key) && Decimal.DigitsValue(key) < n
  }

  /**
   `v[key]`. Reading any property of undefined or null throws a TypeError;
   an object yields its own property or undefined; arrays and strings yield
   their elements (one-character strings) by index key and their `length`.
   */
  function GetProp(v: JsValue, key: string): (r: Completion<JsValue>)
    ensures r.Throw? <==> Nullish(v)
    ensures r.Throw? ==> r.error == TypeError(key)
  {
    match v
    case Undefined => Throw(TypeError(key))
    case Null => Throw(TypeError(key))
    case Obj(props) => Normal(if key in props then props[key] else Undefined)
    case Arr(elems) =>
      Normal(
        if key == "length" then Num(|elems|)
        else if IsIndexKey(key, |elems|) then elems[Decimal.DigitsValue(key)]
        else Undefined)
    case Str(s) =>
      Normal(
        if key == "length" then Num(|s|)
        else if IsIndexKey(key, |s|) then Str([s[Decimal.DigitsValue(key)]])
        else Undefined)
    case _ => Normal(Undefined)
  }

  /** `v.key` on a value known to be neither undefined nor null. */
  function Prop(v: JsValue, key: string): (r: JsValue)
    requires !Nullish(v)
  {
    GetProp(v, key).value
  }

  /** The index keys below `n`, each mapped to what `at` gives for its index. */
  function IndexEntries<T>(n: nat, at: nat -> T): (entries: map<string, T>)
    ensures forall k :: k in entries ==> IsIndexKey(k, n) && entries[k] == at(Decimal.DigitsValue(k))
  {
    Decimal.IndexKeysAreIndices(n);
    map k | k in Decimal.IndexKeys(n) :: at(Decimal.DigitsValue(k))
  }

  /** A canonical numeral is never the key "length". */
  lemma IndexKeyIsNotLength(k: string, n: nat)
    requires IsIndexKey(k, n)
    ensures k != "length"
  {
    assert Decimal.IsDigit(k[0]);
  }

  /**
   The pairs `for (k in v)` visits, as `k -> v[k]`: an object's own
   properties, the indices of an array or string, and nothing for any other
   value, undefined and null included.
   */
  function ForIn(v: JsValue): (entries: map<string, JsValue>)
    ensures forall k :: k in entries ==> GetProp(v, k) == Normal(entries[k])
    ensures !v.Obj? && !v.Arr? && !v.Str? ==> entries == map[]
  {
    match v
    case Obj(props) => props
    case Arr(elems) => ArrayEntries(elems)
    case Str(s) => StringEntries(s)
    case _ => map[]
  }

  /** An array's index keys, each mapped to its element. */
  function ArrayEntries(elems: seq<JsValue>): (entries: map<string, JsValue>)
    ensures forall k :: k in entries ==> GetProp(Arr(elems), k) == Normal(entries[k])
  {
    var entries := IndexEntries(|elems|, (i: nat) => if i < |elems| then elems[i] else Undefined);
    assert forall k :: k in entries ==> k != "length" by {
      forall k | k in entries ensures k != "length" { IndexKeyIsNotLength(k, |elems|); }
    }
    entries
  }

  /** A string's index keys, each mapped to its one-character string. */
  function StringEntries(s: string): (entries: map<string, JsValue>)
    ensures forall k :: k in entries ==> GetProp(Str(s), k) == Normal(entries[k])
  {
    var entries := IndexEntries(|s|, (i: nat) => if i < |s| then Str([s[i]]) else Undefined);
    assert forall k :: k in entries ==> k != "length" by {
      forall k | k in entries ensures k != "length" { IndexKeyIsNotLength(k, |s|); }
    }
    entries
  }

  /** A falsy value has nothing to enumerate. */
  lemma FalsyEnumeratesNothing(v: JsValue)
    requires !Truthy(v)
    ensures ForIn(v) == map[]
  {
    if v.Str? {
      assert v.s == "";
      assert Decimal.IndexKeys(0) == {};
    }
  }

  /** Enumerating an array visits exactly its indices, each with its element. */
  lemma ArrayEnumeration(elems: seq<JsValue>)
    ensures forall i :: 0 <= i < |elems| ==>
      Decimal.NatToString(i) in ForIn(Arr(elems)) && ForIn(Arr(elems))[Decimal.NatToString(i)] == elems[i]
  {
    forall i | 0 <= i < |elems|
      ensures Decimal.NatToString(i) in ForIn(Arr(elems))
      ensures ForIn(Arr(elems))[Decimal.NatToString(i)] == elems[i]
    {
      Decimal.ReadRendering(i);
      assert Decimal.NatToString(i) in Decimal.IndexKeys(|elems|);
    }
  }
}
