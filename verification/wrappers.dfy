/** Small value helpers shared by every handler model. */
module Wrappers {

  /** A value that may be missing: an absent request argument, an absent stored key. */
  datatype Option<+T> = None | Some(value: T)

  /** JavaScript `x || fallback` for a numeric request argument: a missing value
      and 0 are both falsy, so both yield `fallback`. */
  function OrNumber(x: Option<int>, fallback: int): int
  {
    match x
    case None => fallback
    case Some(v) => if v == 0 then fallback else v
  }

  /** JavaScript `x || fallback` for a string request argument: a missing value
      and the empty string are both falsy. */
  function OrText(x: Option<string>, fallback: string): string
  {
    match x
    case None => fallback
    case Some(v) => if v == "" then fallback else v
  }

  function Max(a: int, b: int): int
  {
    if a < b then b else a
  }
}
