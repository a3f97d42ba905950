/** The PHP values that cross the client's boundary. */
module PhpValues {
  import opened Wrappers

  /** PHP strings are byte strings; where the bytes matter they are modelled as `Bytes`. */
  newtype byte = x: int | 0 <= x < 256
  type Bytes = seq<byte>

  /**
   * The data that `json_encode` and `json_decode` exchange. A PHP array becomes
   * `JArray` when it is a list and `JObject` when it has string keys.
   */
  datatype Json =
    | JNull
    | JBool(b: bool)
    | JNumber(n: int)
    | JString(s: string)
    | JArray(elems: seq<Json>)
    | JObject(fields: map<string, Json>)

  /** The values a PHP `array` can stand for once encoded. */
  predicate IsArray(j: Json) {
    j.JArray? || j.JObject?
  }

  /** A value of PHP type `array`. */
  type JsonArray = j: Json | IsArray(j) witness JArray([])

  /** `null` or the string, as an optional PHP string is encoded. */
  function NullableString(s: Option<string>): (j: Json)
    ensures j == JNull <==> s.None?
    ensures s.Some? ==> j.JString? && j.s == s.value
  {
    match s
    case None => JNull
    case Some(v) => JString(v)
  }

  /** `null` or the array, as an optional PHP array is encoded. */
  function NullableArray(a: Option<JsonArray>): (j: Json)
    ensures j == JNull <==> a.None?
    ensures a.Some? ==> j == a.value
  {
    match a
    case None => JNull
    case Some(v) => v
  }

  /** PHP's `(string)` cast of a boolean: `"1"` for true, `""` for false. */
  function BoolToBytes(b: bool): (r: Bytes)
    ensures |r| <= 1
    ensures b ==> r == ['1' as byte]
    ensures !b ==> r == []
  {
    if b then ['1' as byte] else []
  }

  /** PHP's string concatenation with `null` operands, which contribute the empty string. */
  function OrEmpty(s: Option<Bytes>): (r: Bytes)
    ensures s.Some? ==> r == s.value
    ensures s.None? ==> r == []
  {
    s.GetOr([])
  }
}
