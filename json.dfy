/**
 * The values `json.loads` can return. The parser itself is not modelled: callers
 * receive its outcome as an input (`Result<Json, string>`, the error carrying the
 * text of the `JSONDecodeError`).
 */
module Json {
  import opened Wrappers

  datatype Json =
    | JNull
    | JBool(b: bool)
    | JInt(i: int)
    | JFloat(x: real)
    | JString(s: string)
    | JArray(items: seq<Json>)
    | JObject(fields: map<string, Json>)

  /** `type(v).__name__` of the Python object `json.loads` builds. */
  function TypeName(v: Json): string {
    match v
    case JNull => "NoneType"
    case JBool(_) => "bool"
    case JInt(_) => "int"
    case JFloat(_) => "float"
    case JString(_) => "str"
    case JArray(_) => "list"
    case JObject(_) => "dict"
  }

  /** Whether `len(v)` is defined (str, list, dict); otherwise it raises TypeError. */
  predicate HasLen(v: Json) {
    v.JString? || v.JArray? || v.JObject?
  }

  /** The text of the TypeError that `len(v)` raises. */
  function NoLenMessage(v: Json): string {
    "object of type '" + TypeName(v) + "' has no len()"
  }

  /** The text of the AttributeError that `v.get(...)` raises on a non-dict. */
  function NoGetMessage(v: Json): string {
    "'" + TypeName(v) + "' object has no attribute 'get'"
  }

  /** Whether `v` can be a dict key: lists and dicts are unhashable. */
  predicate Hashable(v: Json) {
    !v.JArray? && !v.JObject?
  }

  /** The text of the TypeError that using `v` as a dict key raises. */
  function UnhashableMessage(v: Json): string {
    "unhashable type: '" + TypeName(v) + "'"
  }

  /** The first unhashable item of a list, if any. */
  function FirstUnhashable(items: seq<Json>): (r: Option<Json>)
    ensures r.None? <==> forall i :: 0 <= i < |items| ==> Hashable(items[i])
    ensures r.Some? ==> exists i :: 0 <= i < |items| && items[i] == r.value && !Hashable(r.value) &&
                                    forall j :: 0 <= j < i ==> Hashable(items[j])
  {
    if |items| == 0 then None
    else if !Hashable(items[0]) then Some(items[0])
    else
      var r := FirstUnhashable(items[1..]);
      assert forall i :: 1 <= i < |items| ==> items[i] == items[1..][i - 1];
      r
  }

  /**
   * The TypeError that storing each element of `for x in v` as a dict key raises,
   * if any: only a list can hold an unhashable element (the characters of a str
   * and the keys of a dict are strings).
   */
  function UnhashableElement(v: Json): (r: Option<string>)
    ensures r.Some? ==> v.JArray? && exists i :: 0 <= i < |v.items| && !Hashable(v.items[i])
    ensures r.None? && v.JArray? ==> forall i :: 0 <= i < |v.items| ==> Hashable(v.items[i])
  {
    if v.JArray? then
      match FirstUnhashable(v.items)
      case Some(x) => Some(UnhashableMessage(x))
      case None => None
    else None
  }

  /** `v` read as a `List[str]`: present exactly when `v` is an array of strings. */
  function AsStrings(v: Json): (r: Option<seq<string>>)
    ensures r.Some? <==> v.JArray? && forall i :: 0 <= i < |v.items| ==> v.items[i].JString?
    ensures r.Some? ==> |r.value| == |v.items| &&
                        forall i :: 0 <= i < |v.items| ==> v.items[i] == JString(r.value[i])
  {
    if v.JArray? && forall i :: 0 <= i < |v.items| ==> v.items[i].JString? then
      Some(seq(|v.items|, i requires 0 <= i < |v.items| => v.items[i].s))
    else None
  }
}
