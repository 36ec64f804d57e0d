/** Values shared by every part of the model: the small wrappers used for
    Python's `None` and exceptions, the dynamically typed values that flow
    through dictionaries, and Python's truthiness test on them. */
module Values {

  datatype Option<+T> = None | Some(value: T)

  /** The outcome of a call that returns nothing on success. */
  datatype Outcome<+E> = Pass | Fail(error: E)

  datatype Result<+R, +E> = Success(value: R) | Failure(error: E)

  /** A value stored in a row, a metadata dictionary or an RPC argument.
      `Vector` is a numeric array after `tolist()`. */
  datatype Value =
    | Null
    | Bool(b: bool)
    | Int(i: int)
    | Num(r: real)
    | Str(s: string)
    | Vector(v: seq<real>)

  /** A dictionary with string keys (a metadata dict, a table row). */
  type Dict = map<string, Value>

  /** Python's truth test: `None`, `False`, zero and empty containers are false. */
  predicate Truthy(v: Value)
  {
    match v
    case Null => false
    case Bool(b) => b
    case Int(i) => i != 0
    case Num(r) => r != 0.0
    case Str(s) => s != ""
    case Vector(xs) => xs != []
  }

  /** `d.get(k)`: the value under `k`, or `None` when the key is absent. */
  function Get(d: Dict, k: string): Value
  {
    if k in d then d[k] else Null
  }

  /** The exceptions the modelled code raises. */
  datatype Error =
    | ValueError(message: string)
      /** `SupabaseConnectionError` with the given text. */
    | ConnectionError(message: string)
      /** `SupabaseConnectionError("Supabase query failed: " + json.dumps(payload))`;
          the JSON rendering of the payload is kept as the payload itself. */
    | QueryFailed(payload: Value)
      /** numpy's IndexError for `embedding[0]` on an empty array. */
    | IndexError
      /** Python's TypeError for a call with a keyword the callee does not accept. */
    | TypeError(message: string)

  /** `str(e)` for the exceptions that are re-wrapped by message. Only the
      save path re-wraps by message, and it never meets `QueryFailed`, whose
      text here is therefore just the fixed prefix: the source's message
      continues with ": " and `json.dumps` of the payload, which this model
      does not render. */
  function Message(e: Error): string
  {
    match e
    case ValueError(m) => m
    case ConnectionError(m) => m
    case QueryFailed(_) => "Supabase query failed"
    case IndexError => "index 0 is out of bounds for axis 0 with size 0"
    case TypeError(m) => m
  }
}
