/**
 * Decoded JSON as the plugin reads it after `json_decode`, with PHP's
 * `isset`/`??` lookups, string conversion, emptiness and loose comparison.
 */
module Json {
  import opened Wrappers
  import Php

  /** A decoded JSON value. JSON numbers are integers here. */
  datatype JVal =
    | JNull
    | JBool(b: bool)
    | JNum(n: int)
    | JStr(s: string)
    | JList(items: seq<JVal>)
    | JObj(fields: map<string, JVal>)

  /** A response body: it either failed to decode or decoded to a value. */
  datatype Body = InvalidJson | Decoded(value: JVal)

  /** `$data[$key] ?? …` and `isset($data[$key])`: the field of a decoded
    * object, absent when the key is missing, null, or data is no object. */
  function Field(data: JVal, key: string): (r: Option<JVal>)
    ensures r.Some? <==> data.JObj? && key in data.fields && data.fields[key] != JNull
    ensures r.Some? ==> r.value == data.fields[key]
  {
    if data.JObj? && key in data.fields && data.fields[key] != JNull then Some(data.fields[key]) else None
  }

  /** `$body->Key` on an object decoded without the associative flag: the
    * member, or null when the body is invalid, not an object, or lacks it. */
  function Member(body: Body, key: string): (r: JVal)
    ensures r != JNull ==> body.Decoded? && body.value.JObj? && key in body.value.fields
  {
    if body.Decoded? && body.value.JObj? && key in body.value.fields then body.value.fields[key] else JNull
  }

  /** `is_array()` of a decoded value: JSON lists and objects. */
  predicate IsArray(v: JVal)
  {
    v.JList? || v.JObj?
  }

  /** The string PHP makes of a decoded value when it is used as a message. */
  function Text(v: JVal): string
  {
    match v
    case JNull => ""
    case JBool(b) => if b then "1" else ""
    case JNum(n) => Php.IntToString(n)
    case JStr(s) => s
    case JList(_) => "Array"
    case JObj(_) => "Array"
  }

  /** `empty()` of a decoded value. */
  predicate Empty(v: JVal)
  {
    match v
    case JNull => true
    case JBool(b) => !b
    case JNum(n) => n == 0
    case JStr(s) => Php.EmptyString(s)
    case JList(items) => items == []
    case JObj(fields) => fields == map[]
  }

  /** PHP 8's loose `$v == $n` between a decoded value and an int. */
  predicate LooseEqualsInt(v: JVal, n: int)
  {
    match v
    case JNull => n == 0
    case JBool(b) => b == (n != 0)
    case JNum(m) => m == n
    case JStr(s) => Php.NumericStringEquals(s, n)
    case JList(_) => false
    case JObj(_) => false
  }
}
