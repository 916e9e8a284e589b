/** Optional values and two-sided results, the shapes the activity gets from
    its decoders and models (fp-ts Option and Either). */
module Wrappers {

  /** A value that may be absent (fp-ts `Option`, or a nullable field). */
  datatype Option<+T> = None | Some(value: T)

  /** A value or an error (fp-ts `Either`): `Left` carries the error. */
  datatype Either<+L, +R> = Left(left: L) | Right(right: R)
}
