/**
 * The values `JSON.parse` produces, JavaScript's property lookup on them,
 * truthiness, and `String(v)` coercion (as a template literal or
 * `parseInt` applies it).
 */
module Json {
  import opened Wrappers
  import opened Text

  /** A JSON value; numbers are restricted to integers. */
  datatype Json =
    | JNull
    | JBool(b: bool)
    | JNum(n: int)
    | JStr(s: string)
    | JArr(items: seq<Json>)
    | JObj(fields: map<string, Json>)

  /** `v[key]`: a field of an object; `None` is `undefined` (also for non-objects). */
  function Field(v: Json, key: string): Option<Json>
  {
    if v.JObj? && key in v.fields then Some(v.fields[key]) else None
  }

  /** JavaScript truthiness of a looked-up field. */
  predicate Truthy(v: Option<Json>)
  {
    match v
    case None => false
    case Some(JNull) => false
    case Some(JBool(b)) => b
    case Some(JNum(n)) => n != 0
    case Some(JStr(s)) => s != ""
    case Some(_) => true
  }

  /**
   * Whether `String(v)` throws. An object with its own `toString` key does:
   * a parsed value is never callable, so the conversion falls through to
   * `valueOf`, which gives back the object itself. An array throws when
   * `join` meets such a value among its elements, at any depth of arrays.
   */
  predicate StringThrows(v: Json)
  {
    match v
    case JObj(fields) => "toString" in fields
    case JArr(items) => exists i :: 0 <= i < |items| && StringThrows(items[i])
    case _ => false
  }

  /**
   * `String(v)`; `None` when the conversion throws. Arrays join their
   * elements with commas, writing `null` elements as empty.
   */
  function Str(v: Json): (r: Option<string>)
    ensures r.None? <==> StringThrows(v)
    ensures v.JStr? ==> r == Some(v.s)
  {
    match v
    case JNull => Some("null")
    case JBool(b) => Some(if b then "true" else "false")
    case JNum(n) => Some(IntToString(n))
    case JStr(s) => Some(s)
    case JArr(items) =>
      var parts := seq(|items|, i requires 0 <= i < |items| => if items[i].JNull? then Some("") else Str(items[i]));
      assert forall i :: 0 <= i < |items| ==> (parts[i].None? <==> StringThrows(items[i]));
      JoinAll(parts)
    case JObj(fields) => if "toString" in fields then None else Some("[object Object]")
  }

  /** `join(',')` over converted elements; `None` as soon as one conversion threw. */
  function JoinAll(parts: seq<Option<string>>): (r: Option<string>)
    ensures r.None? <==> exists i :: 0 <= i < |parts| && parts[i].None?
  {
    if parts == [] then Some("")
    else if parts[0].None? then None
    else if |parts| == 1 then parts[0]
    else
      match JoinAll(parts[1..])
      case None =>
        assert exists i :: 0 <= i < |parts| - 1 && parts[1..][i].None?;
        None
      case Some(rest) => Some(parts[0].value + "," + rest)
  }

  /** `String(v)` of a looked-up field; a missing field is written `undefined`. */
  function ToJsString(v: Option<Json>): (r: Option<string>)
    ensures r.None? <==> v.Some? && StringThrows(v.value)
  {
    match v
    case None => Some("undefined")
    case Some(j) => Str(j)
  }
}
