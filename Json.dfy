/**
 * The JSON values that `resp.json()` produces (numbers are integers here) and
 * the Python dictionary and comparison operations the content client applies
 * to them.
 */
module Json {
  import opened Wrappers

  datatype Json =
    | JNull
    | JBool(b: bool)
    | JInt(i: int)
    | JStr(s: string)
    | JArr(elems: seq<Json>)
    | JObj(fields: map<string, Json>)

  /** `fields.get(key, default)` on a dict. */
  function GetOr(fields: map<string, Json>, key: string, default: Json): (v: Json)
    ensures key in fields ==> v == fields[key]
    ensures key !in fields ==> v == default
  {
    if key in fields then fields[key] else default
  }

  /**
   * `v.get(key, default)` on any decoded value: only a dict has `.get`; on
   * any other value the call raises, which is None here.
   */
  function DictGet(v: Json, key: string, default: Json): (r: Option<Json>)
    ensures r.Some? <==> v.JObj?
    ensures v.JObj? ==> r.value == GetOr(v.fields, key, default)
  {
    match v
    case JObj(fields) => Some(GetOr(fields, key, default))
    case _ => None
  }

  /** Python's `v == 0` on a decoded value: true for 0 and, because bool is an int, for false. */
  predicate EqualsZero(v: Json)
  {
    v == JInt(0) || v == JBool(false)
  }
}
