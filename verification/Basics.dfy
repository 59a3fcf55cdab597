/** Small shared vocabulary: optional values, results and clock units. */
module Basics {

  datatype Option<+T> = None | Some(value: T)

  /** Clock readings and durations, in nanoseconds as in Go's time package. */
  type Time = int

  /** Intent ids, HREFs and vApp names share one type: a store key can be either of the first two. */
  datatype Id = Id(text: string)

  const NO_ID := Id("")

  const SECOND: Time := 1_000_000_000
  const MINUTE: Time := 60 * SECOND

  function Min(a: int, b: int): int {
    if a <= b then a else b
  }
}
