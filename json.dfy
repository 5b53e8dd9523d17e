/**
 * The JavaScript values that travel through the dashboard: what `JSON.parse`
 * can produce, plus "undefined" as `None` wherever a property may be missing.
 * `JSON.parse`, `JSON.stringify` and `String(number)` are not modelled; they
 * are supplied as a `Codec`, and the properties that need them rely only on
 * the codec round-tripping.
 */
module JsonValues {
  import opened Wrappers

  /** A value `JSON.parse` can return. NaN and the infinities cannot occur. */
  datatype Json =
    | JNull
    | JBool(b: bool)
    | JNumber(n: real)
    | JString(s: string)
    | JArray(items: seq<Json>)
    | JObject(fields: map<string, Json>)

  /** JavaScript truthiness of a defined value: `null`, `false`, `0` and `""`
      are falsy, every array and object is truthy. */
  predicate Truthy(v: Json) {
    match v
    case JNull => false
    case JBool(b) => b
    case JNumber(n) => n != 0.0
    case JString(s) => s != []
    case _ => true
  }

  /** `typeof v === 'object'`, which in JavaScript holds for `null` too. */
  predicate IsObjectType(v: Json) {
    v.JNull? || v.JArray? || v.JObject?
  }

  /** `v.key` on a value that is not `null`: an own field of an object;
      arrays, strings, numbers and booleans carry none of the keys used here. */
  function Get(v: Json, key: string): (r: Option<Json>)
    ensures r.Some? <==> v.JObject? && key in v.fields
  {
    if v.JObject? && key in v.fields then Some(v.fields[key]) else None
  }

  /** `v?.key`: undefined when `v` is undefined or `null`. */
  function GetOpt(v: Option<Json>, key: string): (r: Option<Json>)
    ensures v.None? || v.value.JNull? ==> r.None?
    ensures v.Some? ==> r == Get(v.value, key)
  {
    match v
    case None => None
    case Some(x) => Get(x, key)
  }

  /** The host's `JSON.parse` (`None` when it throws), `JSON.stringify`
      (`None` when it throws) and `String(n)` for numbers. */
  datatype Codec = Codec(
    parse: string -> Option<Json>,
    stringify: Json -> Option<string>,
    numberText: real -> string)

  /** What the real `JSON.parse`/`JSON.stringify` pair guarantees on plain
      data: text that `stringify` produces is non-empty and parses back to the
      value it came from. */
  ghost predicate RoundTrips(c: Codec) {
    forall v :: c.stringify(v).Some? ==> c.stringify(v).value != [] && c.parse(c.stringify(v).value) == Some(v)
  }
}
