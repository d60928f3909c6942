/** Optional values and results, used where the source has `None` or raises. */
module Common {

  datatype Option<+T> = None | Some(value: T)

  datatype Result<+T, +E> = Ok(value: T) | Err(error: E)

  /** Python truthiness of an optional number: `None` and `0` are false. */
  predicate TruthyInt(x: Option<int>)
  {
    x.Some? && x.value != 0
  }

  /** Python truthiness of an optional string: `None` and `""` are false. */
  predicate TruthyString(x: Option<string>)
  {
    x.Some? && x.value != ""
  }
}
