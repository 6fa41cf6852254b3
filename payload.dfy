/** The decoded JSON bodies the handlers work on, seen the way Python code
    sees them: a key of an object may be absent, or present with a value
    that may be `null`. Subscripting (`obj[key]`) and `dict.get` are the
    two ways the handlers read a key, and subscripting can raise.
 */
module Payload {

  datatype Option<+T> = None | Some(value: T)

  /** A JSON value that may be `null` (Python `None`). */
  datatype Json<+T> = Null | Val(value: T)

  /** What a JSON object holds under one key. */
  datatype Key<+T> = Absent | Present(json: Json<T>)

  /** The Python exceptions that the handlers do not catch: Flask turns
      each of them into its generic "500 Internal Server Error" page. */
  datatype Fault =
    | KeyError(key: string)  // `obj[key]` with the key absent
    | TypeError              // subscripting, iterating, rounding or parsing `None`
    | AttributeError         // calling `.title()` on `None`
    | IndexError             // `[0]` on an empty list
    | ValueError             // `strptime` on a string that does not match

  /** A computation that either yields a value or raises a `Fault`. */
  datatype Result<+T> = Ok(value: T) | Err(fault: Fault) {
    predicate IsFailure() { Err? }
    function PropagateFailure<U>(): Result<U> requires Err? { Err(fault) }
    function Extract(): T requires Ok? { value }
  }

  /** `obj[name]`: the stored value, or `KeyError` when the key is absent. */
  function Index<T>(k: Key<T>, name: string): Result<Json<T>>
  {
    match k
    case Absent => Err(KeyError(name))
    case Present(j) => Ok(j)
  }

  /** `obj.get(name, default)`: the stored value (even a stored `null`),
      or `default` when the key is absent. */
  function Get<T>(k: Key<T>, default: Json<T>): Json<T>
  {
    match k
    case Absent => default
    case Present(j) => j
  }

  /** Using a value as an object, a list or a number: `TypeError` on `null`. */
  function Deref<T>(j: Json<T>): Result<T>
  {
    match j
    case Null => Err(TypeError)
    case Val(v) => Ok(v)
  }

  /** `obj[name]` followed by a use that needs a non-null value. */
  function IndexValue<T>(k: Key<T>, name: string): Result<T>
  {
    var j :- Index(k, name);
    Deref(j)
  }

  /** Python truthiness of a string-or-null: `None` and `""` are false. */
  predicate Truthy(j: Json<string>)
  {
    j.Val? && j.value != ""
  }
}
