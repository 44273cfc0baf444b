/** Decoded JSON as `response.json()` hands it to the bot, with the Python
    operations the bot applies to it. Numbers are an abstract ordered score
    (`real`); floating-point rounding is not modelled. */
module Json {
  import opened Outcomes

  datatype Json =
    | JNull
    | JBool(b: bool)
    | JNum(n: real)
    | JStr(s: string)
    | JArr(items: seq<Json>)
    | JObj(fields: map<string, Json>)

  /** Python's `bool(value)` for a decoded JSON value. */
  predicate Truthy(j: Json) {
    match j
    case JNull => false
    case JBool(b) => b
    case JNum(n) => n != 0.0
    case JStr(s) => s != []
    case JArr(items) => items != []
    case JObj(fields) => fields != map[]
  }

  /** `str()` of a non-string value is never empty (`None`, `0`, `[]`, ...). */
  type NonEmptyString = s: string | s != [] witness "?"

  /** Renderings the model does not spell out: `str(value)` for a
      non-string value, and the `{score:.2%}` percentage format. */
  datatype Show = Show(str: Json -> NonEmptyString, percent: real -> string)

  /** `str(value)` / an f-string field: a string renders as itself. */
  function Str(j: Json, show: Show): (r: string)
    ensures j.JStr? ==> r == j.s
  {
    if j.JStr? then j.s else show.str(j)
  }

  /** `value[0]`. Only a non-empty list yields something the bot can use:
      indexing a dict with 0 raises `KeyError`, and the first character of
      a string makes the following key lookup raise `TypeError`. */
  function First(j: Json): (r: Attempt<Json>)
    ensures r.Returned? <==> j.JArr? && j.items != []
    ensures r.Returned? ==> r.value == j.items[0]
  {
    if j.JArr? && j.items != [] then Returned(j.items[0]) else Raised
  }

  /** `value[key]`: a `KeyError` or `TypeError` unless `value` is an object
      holding `key`. */
  function Field(j: Json, key: string): (r: Attempt<Json>)
    ensures r.Returned? <==> j.JObj? && key in j.fields
    ensures r.Returned? ==> r.value == j.fields[key]
  {
    if j.JObj? && key in j.fields then Returned(j.fields[key]) else Raised
  }

  /** The numeric value of a JSON number or boolean (Python's `bool` is an
      `int`); anything else cannot be ordered against numbers or formatted
      as a percentage. */
  function Number(j: Json): (r: Option<real>)
    ensures r.Some? <==> j.JNum? || j.JBool?
  {
    match j
    case JNum(n) => Some(n)
    case JBool(b) => Some(if b then 1.0 else 0.0)
    case _ => None
  }
}
