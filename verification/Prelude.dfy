/** The two result shapes the model uses for absent values and raised exceptions. */
module Prelude {
  datatype Option<+T> = None | Some(value: T)

  datatype Result<+T, +E> = Ok(value: T) | Err(error: E)

  /** Two distinct inputs with one hash: what a failed integrity claim must exhibit. */
  ghost predicate Collision<A(!new)>(h: A -> string, a: A, b: A) {
    a != b && h(a) == h(b)
  }
}
