/** Small result types shared by every module. */
module Outcomes {
  datatype Option<+T> = None | Some(value: T)

  datatype Result<+T, +E> = Ok(value: T) | Err(error: E)
}

/** Counts as the program checks them: non-negative safe integers. */
module SafeIntegers {
  const MAX_SAFE_INTEGER := 9007199254740991

  predicate SafeCount(n: int) {
    0 <= n <= MAX_SAFE_INTEGER
  }
}
