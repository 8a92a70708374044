/** Optional values: Python's `None` versus a present value. */
module Wrappers {

  datatype Option<+T> = None | Some(value: T)

  /** Python truthiness of an optional string: `None` and `""` are false. */
  predicate IsTruthy(s: Option<string>)
  {
    s.Some? && s.value != ""
  }

  /** Python truthiness of an optional list: `None` and `[]` are false. */
  predicate IsTruthyList<T>(s: Option<seq<T>>)
  {
    s.Some? && |s.value| > 0
  }
}
