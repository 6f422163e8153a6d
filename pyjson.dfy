/**
 * Parsed JSON values and the Python operations the tap applies to them
 * (`in`, subscripting by a string key, `len`, `[0]`, iteration, truthiness),
 * including the exceptions Python raises when a value has the wrong shape.
 */
module PyJson {
  import opened Wrappers
  import opened Text

  /** A value as `json.loads` returns it; `Null` is Python's `None`. */
  datatype Json =
    | Null
    | Bool(b: bool)
    | Int(i: int)
    | Num(r: real)
    | Str(s: string)
    | Arr(items: seq<Json>)
    | Obj(fields: map<string, Json>)

  /** The Python exceptions the modelled code can raise without meaning to. */
  datatype PyError =
    | KeyError            // a missing dictionary key
    | TypeError           // an operation applied to a value of the wrong type
    | IndexError          // `[0]` on an empty sequence
    | JsonDecodeError     // `response.json()` on a body that is not JSON
    | AttributeError      // `.json()` called on `None`
    | UnboundLocalError   // a local variable read before any assignment
    | RequestFailed       // `requests.request` raised (connection, timeout, ...)

  /** Python's `needle in container` for a string `needle`. */
  function PyIn(needle: string, container: Json): (r: Result<bool, PyError>)
    ensures container.Obj? ==> r == Ok(needle in container.fields)
    ensures container.Str? ==> r == Ok(Contains(container.s, needle))
    ensures container.Arr? ==> r == Ok(Str(needle) in container.items)
    ensures r.Err? <==> !(container.Obj? || container.Str? || container.Arr?)
  {
    match container
    case Str(s) => Ok(Contains(s, needle))
    case Arr(items) => Ok(Str(needle) in items)
    case Obj(fields) => Ok(needle in fields)
    case _ => Err(TypeError)
  }

  /** Python's `value[key]` for a string `key`. */
  function PyGetItem(value: Json, key: string): (r: Result<Json, PyError>)
    ensures r.Ok? <==> value.Obj? && key in value.fields
    ensures r.Ok? ==> r.value == value.fields[key]
    ensures r.Err? ==> r.error == (if value.Obj? then KeyError else TypeError)
  {
    match value
    case Obj(fields) => if key in fields then Ok(fields[key]) else Err(KeyError)
    case _ => Err(TypeError)
  }

  /** Python's `len(value)`. */
  function PyLen(value: Json): Result<nat, PyError> {
    match value
    case Str(s) => Ok(|s|)
    case Arr(items) => Ok(|items|)
    case Obj(fields) => Ok(|fields|)
    case _ => Err(TypeError)
  }

  /** Python's `value[0]`; the keys of a JSON object are strings, so `0` is never one of them. */
  function PyFirst(value: Json): Result<Json, PyError> {
    match value
    case Str(s) => if s == [] then Err(IndexError) else Ok(Str([s[0]]))
    case Arr(items) => if items == [] then Err(IndexError) else Ok(items[0])
    case Obj(_) => Err(KeyError)
    case _ => Err(TypeError)
  }

  /**
   * The elements a `for` loop visits when its body first subscripts each element
   * with a string key, as every loop of the tap does. Iterating a string visits
   * one-character strings. Iterating a non-empty object visits its keys, which are
   * strings, so the first subscript raises TypeError before the loop body has done
   * anything; the model raises it up front. Other scalars are not iterable.
   */
  function LoopItems(value: Json): (r: Result<seq<Json>, PyError>)
    ensures value.Arr? ==> r == Ok(value.items)
  {
    match value
    case Arr(items) => Ok(items)
    case Str(s) => Ok(seq(|s|, i requires 0 <= i < |s| => Str([s[i]])))
    case Obj(fields) => if |fields| == 0 then Ok([]) else Err(TypeError)
    case _ => Err(TypeError)
  }

  /** Python's truth value of a JSON value (`if value:`). */
  predicate Truthy(value: Json) {
    match value
    case Null => false
    case Bool(b) => b
    case Int(i) => i != 0
    case Num(r) => r != 0.0
    case Str(s) => s != []
    case Arr(items) => items != []
    case Obj(fields) => |fields| != 0
  }
}
