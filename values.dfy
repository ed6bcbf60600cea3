/** Values that flow through the pipeline: parsed JSON documents as Python sees
    them after `response.json()`, and the cells they become in a SQL row. */
module Values {

  datatype Option<T> = None | Some(value: T)

  /** A parsed JSON value. `JNull` is Python's `None`; numbers are kept as
      integers because no arithmetic is done on them. */
  datatype Json =
    | JNull
    | JBool(b: bool)
    | JNum(n: int)
    | JStr(s: string)
    | JArr(items: seq<Json>)
    | JObj(fields: map<string, Json>)

  /** A Python `dict` parsed from a JSON object. */
  type Record = map<string, Json>

  /** `record.get(key)`: a missing key reads as `None`. */
  function Get(r: Record, key: string): Json
  {
    if key in r then r[key] else JNull
  }

  /** `record.get(key, default)`: the default is used only when the key is
      missing, not when it maps to `None`. */
  function GetOr(r: Record, key: string, default: Json): Json
  {
    if key in r then r[key] else default
  }

  /** Python truthiness of a parsed JSON value. */
  predicate Truthy(v: Json)
  {
    match v
    case JNull => false
    case JBool(b) => b
    case JNum(n) => n != 0
    case JStr(s) => s != ""
    case JArr(items) => items != []
    case JObj(fields) => fields != map[]
  }

  /** What a Python `for x in v` loop visits, or `None` when the loop raises
      a TypeError (`None`, numbers and booleans are not iterable). A string
      is visited character by character. Iterating a non-empty object visits
      its keys in insertion order, which a `map` does not keep; that case is
      reported as an error here. */
  function Iterate(v: Json): (r: Option<seq<Json>>)
    ensures v.JArr? ==> r == Some(v.items)
    ensures v.JNull? || v.JNum? || v.JBool? ==> r.None?
    ensures r.Some? && v.JStr? ==> |r.value| == |v.s|
  {
    match v
    case JArr(items) => Some(items)
    case JStr(s) => Some(seq(|s|, i requires 0 <= i < |s| => JStr([s[i]])))
    case JObj(fields) => if fields == map[] then Some([]) else None
    case _ => None
  }

  /** A SQL cell: `Null` is SQL NULL, `Val(v)` a value bound from Python, and
      `JsonText(v)` the JSON text `json.dumps(v)` stored in a JSONB column. */
  datatype Cell = Null | Val(v: Json) | JsonText(doc: Json)

  /** How psycopg2 binds a Python value as a statement parameter. */
  function Param(v: Json): (c: Cell)
    ensures c.Null? <==> v.JNull?
  {
    if v.JNull? then Null else Val(v)
  }

  /** A parameter passed through `json.dumps`: `None` becomes the text `null`. */
  function Dumps(v: Json): Cell
  {
    JsonText(v)
  }

  /** The Python value psycopg2 hands back for a cell: a JSONB column is
      parsed, so the text `null` reads back as `None`. */
  function Decode(c: Cell): Json
  {
    match c
    case Null => JNull
    case Val(v) => v
    case JsonText(doc) => doc
  }

  /** How the model encodes a dumped parameter: the stored cell is never SQL
      NULL and reads back as the value dumped. This holds by the choice of
      `JsonText` as the encoding; JSON text itself is not modelled. */
  lemma DecodeDumps(v: Json)
    ensures Decode(Dumps(v)) == v
    ensures Dumps(v) != Null
  {
  }
}
