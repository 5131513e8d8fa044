/** Decoded JSON bodies and the ways the script reads them. */
module Json {
  import opened Results

  /** A decoded JSON value. A JSON number with a fraction or an exponent
      decodes to a Python float; `JFloat` keeps only its `str()` text. */
  datatype Json =
    | JNull
    | JBool(b: bool)
    | JInt(i: int)
    | JFloat(text: string)
    | JStr(s: string)
    | JArr(items: seq<Json>)
    | JObj(fields: map<string, Json>)

  /** `j[key]`: a `KeyError`, or a `TypeError` when `j` is not a dict, is an
      uncaught exception. */
  function Field(j: Json, key: string): Result<Json>
  {
    if j.JObj? && key in j.fields then Ok(j.fields[key]) else Fail(Malformed)
  }

  /** `d.get(key, default)` on a dict: the default only when the key is
      missing (a JSON `null` under the key is returned as it is). */
  function Get(d: map<string, Json>, key: string, default: Json): Json
  {
    if key in d then d[key] else default
  }

  /** A value used where the script needs a `str` (string concatenation,
      `str.join`, `in` on a string, `.replace`). */
  function AsStr(j: Json): Result<string>
  {
    if j.JStr? then Ok(j.s) else Fail(Malformed)
  }

  /** The elements a `for item in j` loop visits, when each element is then
      indexed with a string key. A list gives its elements; an empty dict or
      empty string gives none; a non-empty dict or string gives string
      elements, and indexing the first one raises; anything else is not
      iterable. */
  function Items(j: Json): Result<seq<Json>>
  {
    match j
    case JArr(xs) => Ok(xs)
    case JObj(m) => if m == map[] then Ok([]) else Fail(Malformed)
    case JStr(s) => if s == "" then Ok([]) else Fail(Malformed)
    case _ => Fail(Malformed)
  }

  /** `item["@odata.id"]`, the reference a Redfish collection member holds. */
  function RawOdataId(item: Json): Result<Json>
  {
    Field(item, "@odata.id")
  }

  /** `item["@odata.id"]` used as part of a URI, so it must be a string. */
  function OdataId(item: Json): Result<string>
  {
    var v :- RawOdataId(item);
    AsStr(v)
  }
}
