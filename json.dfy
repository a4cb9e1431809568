/** Values loaded from JSON and YAML documents, and the Python operations the code applies to them. */
module Json {
  import opened Wrappers

  /**
   * A loaded document value.  Numbers are integers: no modelled operation
   * looks at a fractional number.  An object keeps its keys in document order.
   */
  datatype Json =
    | JNull
    | JBool(b: bool)
    | JNum(n: int)
    | JStr(s: string)
    | JList(items: seq<Json>)
    | JObj(fields: seq<(string, Json)>)

  /** The value stored under `key` in an object's fields (the first one, as loaders keep one per key). */
  function FieldOf(fields: seq<(string, Json)>, key: string): (r: Option<Json>)
    ensures r.None? <==> forall i | 0 <= i < |fields| :: fields[i].0 != key
    ensures r.Some? ==> exists i | 0 <= i < |fields| :: fields[i] == (key, r.value)
  {
    if fields == [] then None
    else if fields[0].0 == key then Some(fields[0].1)
    else FieldOf(fields[1..], key)
  }

  /** `v[key]`: KeyError for a missing key, TypeError on a value that is not a mapping. */
  function Index(v: Json, key: string): (r: Result<Json>)
    ensures !v.JObj? ==> r == Err(TypeError)
    ensures v.JObj? ==> (r.Ok? <==> FieldOf(v.fields, key).Some?)
    ensures v.JObj? && r.Ok? ==> r.value == FieldOf(v.fields, key).value
    ensures v.JObj? && r.Err? ==> r.error == KeyError("'" + key + "'")
  {
    match v
    case JObj(fields) =>
      if FieldOf(fields, key).Some? then Ok(FieldOf(fields, key).value)
      else Err(KeyError("'" + key + "'"))
    case _ => Err(TypeError)
  }

  /** `v.get(key)`: None for a missing key, AttributeError on a value that is not a mapping. */
  function GetField(v: Json, key: string): (r: Result<Json>)
    ensures r.Err? <==> !v.JObj?
    ensures r.Err? ==> r.error == AttributeError
    ensures v.JObj? && FieldOf(v.fields, key).None? ==> r == Ok(JNull)
    ensures r.Ok? && r.value != JNull ==> Index(v, key) == r
  {
    match v
    case JObj(fields) => Ok(FieldOf(fields, key).GetOr(JNull))
    case _ => Err(AttributeError)
  }

  /** Python truthiness of a loaded value. */
  predicate JsonTruthy(v: Json)
  {
    match v
    case JNull => false
    case JBool(b) => b
    case JNum(n) => n != 0
    case JStr(s) => s != ""
    case JList(items) => items != []
    case JObj(fields) => fields != []
  }

  /** The text of a string value; `None` for every other kind of value. */
  function AsText(v: Json): (r: Option<string>)
    ensures r.Some? <==> v.JStr?
    ensures r.Some? ==> v == JStr(r.value)
  {
    if v.JStr? then Some(v.s) else None
  }

  /**
   * What `for x in v` visits: the items of a list, the keys of a mapping, the
   * one-character strings of a string; other values are not iterable.
   */
  function Iterate(v: Json): (r: Result<seq<Json>>)
    ensures r.Err? <==> !(v.JList? || v.JObj? || v.JStr?)
    ensures v.JList? ==> r == Ok(v.items)
    ensures v.JObj? ==> (r.Ok? && |r.value| == |v.fields| &&
                         forall i | 0 <= i < |v.fields| :: r.value[i] == JStr(v.fields[i].0))
    ensures v.JStr? ==> (r.Ok? && |r.value| == |v.s| &&
                         forall i | 0 <= i < |v.s| :: r.value[i] == JStr([v.s[i]]))
  {
    match v
    case JList(items) => Ok(items)
    case JObj(fields) => Ok(seq(|fields|, i requires 0 <= i < |fields| => JStr(fields[i].0)))
    case JStr(s) => Ok(seq(|s|, i requires 0 <= i < |s| => JStr([s[i]])))
    case _ => Err(TypeError)
  }
}
