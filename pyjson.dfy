/**
 * Parsed JSON as `json.loads` returns it, and Python's subscript `x[key]` on such values
 * with the exception each misuse raises.
 */
module PyJson {
  import opened Wrappers

  datatype Json =
    | JNull
    | JBool(b: bool)
    | JNum(n: int)
    | JStr(s: string)
    | JArr(items: seq<Json>)
    | JObj(fields: map<string, Json>)

  /** A subscript: a string key or an integer index. */
  datatype Key = KStr(name: string) | KInt(index: int)

  /** The exceptions a subscript can raise. */
  datatype PyError = KeyError | IndexError | TypeError

  /**
   * `j[key]`. Objects (Python dicts with string keys) raise KeyError for an absent key,
   * including every integer; lists and strings take integer indices, negative ones counting
   * from the end, and raise IndexError out of range; everything else raises TypeError.
   */
  function Subscript(j: Json, key: Key): (r: Result<Json, PyError>)
    ensures r == Failure(KeyError) <==> j.JObj? && (key.KInt? || key.name !in j.fields)
    ensures j.JObj? && key.KStr? && key.name in j.fields ==> r == Success(j.fields[key.name])
    ensures j.JArr? && key.KInt? && 0 <= key.index < |j.items| ==> r == Success(j.items[key.index])
    ensures r.Success? ==> j.JObj? || j.JArr? || j.JStr?
  {
    match j
    case JObj(fields) =>
      if key.KStr? && key.name in fields then Success(fields[key.name]) else Failure(KeyError)
    case JArr(items) =>
      if key.KStr? then Failure(TypeError)
      else if 0 <= key.index < |items| then Success(items[key.index])
      else if -|items| <= key.index < 0 then Success(items[|items| + key.index])
      else Failure(IndexError)
    case JStr(s) =>
      if key.KStr? then Failure(TypeError)
      else if 0 <= key.index < |s| then Success(JStr([s[key.index]]))
      else if -|s| <= key.index < 0 then Success(JStr([s[|s| + key.index]]))
      else Failure(IndexError)
    case _ => Failure(TypeError)
  }
}
