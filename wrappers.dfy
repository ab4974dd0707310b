/** Optional values and fallible results, used for nullable columns,
    `undefined` JavaScript values and thrown errors. */
module Wrappers {

  datatype Option<+T> = None | Some(value: T)

  /** `Failure` carries the message of the error the source throws or returns. */
  datatype Result<+R> = Success(value: R) | Failure(error: string)

  function Min(a: int, b: int): int {
    if a <= b then a else b
  }
}
