/** JSON values as Python's `json` module hands them to the client and takes
    them back: the parameter objects the facade builds, and the decoded
    response bodies the transport classifies. Floating-point numbers are not
    part of this model. */
module JsonValues {

  datatype Option<+T> = None | Some(value: T)

  datatype Json =
    | JNull
    | JBool(b: bool)
    | JInt(i: int)
    | JStr(s: string)
    | JArr(items: seq<Json>)
    | JObj(fields: map<string, Json>)

  /** Python's `d.get(key, default)` on a dict. */
  function GetOr(fields: map<string, Json>, key: string, default: Json): (v: Json)
    ensures key in fields ==> v == fields[key]
    ensures key !in fields ==> v == default
  {
    if key in fields then fields[key] else default
  }

  /** Python's truthiness test `if value:` on an `Optional[str]` argument:
      the value the caller supplied, with `None` and `""` both read as absent. */
  function Supplied(value: Option<string>): (r: Option<string>)
    ensures r.Some? <==> value.Some? && value.value != ""
    ensures r.Some? ==> r == value
  {
    match value
    case None => None
    case Some(s) => if s == "" then None else value
  }

  /** The string stored under `key`, if the object has one there. */
  function StrField(fields: map<string, Json>, key: string): (r: Option<string>)
    ensures r.Some? <==> key in fields && fields[key].JStr?
    ensures r.Some? ==> fields[key] == JStr(r.value)
  {
    if key in fields && fields[key].JStr? then Some(fields[key].s) else None
  }

  /** True when no value anywhere inside `j` is `null` or `false`: an
      optional field that was not supplied is left out rather than sent as
      one of these. */
  predicate NoNullOrFalse(j: Json) {
    match j
    case JNull => false
    case JBool(b) => b
    case JInt(_) => true
    case JStr(_) => true
    case JArr(items) => forall k :: 0 <= k < |items| ==> NoNullOrFalse(items[k])
    case JObj(fields) => forall key :: key in fields ==> NoNullOrFalse(fields[key])
  }
}
