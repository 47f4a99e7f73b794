/**
 * The JavaScript values the validation types and the read controller
 * receive, reduced to the kinds their behaviour distinguishes, and the
 * Option/Result wrappers used for optional arguments and thrown errors.
 */
module JsValues {

  /**
   * A JavaScript value. `Obj` is a plain object: its map holds exactly the
   * object's own properties, so `k in props` is `hasOwnProperty(k)` and a
   * property explicitly set to `undefined` is present with value `Undefined`.
   * Arrays and `null` are not plain objects. Numbers are compared only, never
   * computed with, so they are modelled as reals.
   */
  datatype Value =
    | Num(n: real)
    | Str(s: string)
    | Arr(items: seq<Value>)
    | Obj(props: map<string, Value>)
    | Null
    | Undefined

  datatype Option<T> = None | Some(value: T)

  /** The outcome of an operation that either returns a value or throws `error`. */
  datatype Result<T, E> = Ok(value: T) | Err(error: E)
}
