/** Types that all modules share: optional values and results, standing for std::optional and for C++ exceptions,
  and vectors. */
module Wrappers {
  type Vec = seq<real>

  datatype Option<+T> = None | Some(value: T)

  datatype Result<+T, +E> = Ok(value: T) | Err(error: E)
}
