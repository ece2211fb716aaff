/** The Python exceptions that the dataset's decision logic can raise, and
    the Option/Result values that carry them through the model. */
module Outcomes {

  datatype PyError =
    | ZeroDivision      // `x % 0` (an empty image set)
    | EmptyRange        // `random.randint(a, b)` with `b < a` (a ValueError)
    | IndexOutOfRange   // a list subscript outside `[-len, len)`
    | MissingAttribute  // reading `self.mask_paths` / `self.mask_size` that `__init__` never set

  datatype Option<+T> = None | Some(value: T)

  datatype Result<+T> = Ok(value: T) | Err(error: PyError)

  /** Python's `s[i]`: a negative subscript counts from the end. */
  function Subscript<T>(s: seq<T>, i: int): Result<T>
  {
    if 0 <= i < |s| then Ok(s[i])
    else if -|s| <= i < 0 then Ok(s[|s| + i])
    else Err(IndexOutOfRange)
  }
}
