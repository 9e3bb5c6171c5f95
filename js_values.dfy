/** JavaScript values as the containers see them: an ordinary value, or one of the
    two absence sentinels `null` and `undefined`. */
module JsValues {

  datatype JsVal<T> = Null | Undefined | Val(value: T)

  /** The test `value === null || value === undefined` that the Option factory makes. */
  predicate IsAbsent<T>(v: JsVal<T>) {
    v.Null? || v.Undefined?
  }
}
