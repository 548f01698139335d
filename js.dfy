/**
 * The handful of JavaScript value notions the export handler depends on:
 * an absent value (`undefined`), the `[value, error]` pair returned by the
 * `handle` wrapper around every awaited collaborator, and truthiness as used
 * by the handler's `if (x)` / `if (!x)` tests.
 */
module Js {

  /** A value that may be `undefined`. */
  datatype Option<+T> = None | Some(value: T)

  /** The outcome of an awaited collaborator call wrapped by `handle`:
      either a resolved value or an error. `Err` stands for a truthy
      error reason only: a falsy one would pass the handler's error tests. */
  datatype Result<+T> = Ok(value: T) | Err(error: string)

  /** An opaque JavaScript value, kept only as precise as truthiness needs.
      Numbers are integers here, so NaN does not arise. */
  datatype JsValue =
    | Undefined
    | Null
    | Bool(b: bool)
    | Num(n: int)
    | Str(s: string)
    | Obj(json: string)
  {
    /** JavaScript truthiness: `undefined`, `null`, `false`, `0` and `""` are falsy. */
    predicate Truthy() {
      match this
      case Undefined => false
      case Null => false
      case Bool(b) => b
      case Num(n) => n != 0
      case Str(s) => s != ""
      case Obj(_) => true
    }
  }

  /** Truthiness of a field typed `string | undefined`. */
  predicate TruthyStr(o: Option<string>) {
    o.Some? && o.value != ""
  }
}
