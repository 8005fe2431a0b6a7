/** JavaScript values as far as the stores see them, with the two facts of the language the
    stores rely on (truthiness and `Object.keys`), and `JSON.stringify`/`JSON.parse` as an
    abstract codec whose round trip is a hypothesis rather than a definition. */
module Json {
  import opened Wrappers

  /** A JSON-representable JavaScript value. */
  datatype Json =
    | JNull
    | JBool(b: bool)
    | JNum(n: real)
    | JStr(s: string)
    | JArr(elems: seq<Json>)
    | JObj(fields: map<string, Json>)

  /** The literal `{}`. */
  const EmptyObject: Json := JObj(map[])

  /** JavaScript truthiness: `null`, `false`, `0` and `''` are falsy; arrays and objects,
      even empty ones, are truthy. */
  predicate Truthy(v: Json) {
    match v
    case JNull => false
    case JBool(b) => b
    case JNum(n) => n != 0.0
    case JStr(s) => s != ""
    case _ => true
  }

  /** `x || d` for a value that may be `undefined` (`None`). */
  function Or(v: Option<Json>, d: Json): (r: Json)
    ensures v.Some? && Truthy(v.value) ==> r == v.value
    ensures v.None? || !Truthy(v.value) ==> r == d
  {
    if v.Some? && Truthy(v.value) then v.value else d
  }

  /** `Object.keys(v).length`: the characters of a string, the indices of an array and the
      own keys of an object; numbers and booleans have none. (`null` throws in JavaScript; the
      stores replace a falsy value by `{}` before they count, so that case never arises.) */
  function KeyCount(v: Json): nat {
    match v
    case JStr(s) => |s|
    case JArr(e) => |e|
    case JObj(f) => |f|
    case _ => 0
  }

  /** `obj && typeof obj === 'object'`: true of arrays and objects, false of `null`. */
  predicate IsObject(v: Json) {
    v.JArr? || v.JObj?
  }

  /** `obj.name` on a value that is not `null`/`undefined`: `None` is `undefined`. */
  function Property(v: Json, name: string): Option<Json> {
    if v.JObj? && name in v.fields then Some(v.fields[name]) else None
  }

  /** The stored strings that hydration treats as "no profile" before parsing. */
  predicate IsBlank(raw: string) {
    raw == "" || raw == "undefined" || raw == "null"
  }

  /** `JSON.stringify` and `JSON.parse` (`None` when parsing throws). */
  datatype Codec = Codec(stringify: Json -> string, parse: string -> Option<Json>)

  /** What the stores assume of the platform's JSON for one value they write: parsing what was
      stringified gives the value back, and a value with keys never stringifies to one of the
      blank sentinels (a string, array or object serialises with a quote or bracket first).
      It is stated per value: no single codec can round-trip every real number through a
      string, while each profile a store actually writes is a finite JSON document. */
  predicate RoundTrips(c: Codec, v: Json) {
    && c.parse(c.stringify(v)) == Some(v)
    && (KeyCount(v) > 0 ==> !IsBlank(c.stringify(v)))
  }

  /** The hypothesis can be met for every value. */
  lemma RoundTripsSatisfiable(v: Json)
    ensures exists c :: RoundTrips(c, v)
  {
    var c := Codec(_ => "{}", _ => Some(v));
    assert RoundTrips(c, v);
  }
}
