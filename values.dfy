/**
 * The Python values that flow between the agent's nodes and its tools: a tool
 * returns a string, a list or a dict, and a dict with an "error" key is the
 * tools' way of reporting a handled failure. A call into code outside the
 * model either returns a value or raises; `Attempt` records which.
 */
module Values {

  datatype Option<+T> = None | Some(value: T)

  /** The outcome of a call that may raise: its return value, or the text of the exception. */
  datatype Attempt<+T> = Done(value: T) | Raised(error: string)

  /** A Python value as the tools produce it (`None`, `str`, `list`, `dict` with string keys). */
  datatype Value =
    | Null
    | Str(s: string)
    | List(items: seq<Value>)
    | Dict(fields: map<string, Value>)

  /** `{"error": msg}`: the tools' handled-failure result. */
  function ErrorMap(msg: string): (v: Value)
    ensures IsError(v) && v.fields["error"] == Str(msg) && v.fields.Keys == {"error"}
  {
    Dict(map["error" := Str(msg)])
  }

  /** Python's `"error" in v` for a dict result. */
  predicate IsError(v: Value) {
    v.Dict? && "error" in v.fields
  }

  /** Python truthiness: `None`, `""`, `[]` and `{}` are false. */
  predicate Truthy(v: Value) {
    match v
    case Null => false
    case Str(s) => s != ""
    case List(items) => items != []
    case Dict(fields) => fields != map[]
  }

  /** `[str(m) for m in values]` on values that are already strings. */
  function StrList(ss: seq<string>): (v: Value)
    ensures v.List? && |v.items| == |ss|
    ensures forall k | 0 <= k < |ss| :: v.items[k] == Str(ss[k])
  {
    List(seq(|ss|, k requires 0 <= k < |ss| => Str(ss[k])))
  }
}
