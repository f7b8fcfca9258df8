/** Small things that most modules share. */
module Wrappers {
  type byte = bv8

  /** What stands for a pointer that may be null. */
  datatype Option<+T> = None | Some(value: T)

  function Max(a: int, b: int): int
  {
    if a >= b then a else b
  }

  function Flatten<T>(pieces: seq<seq<T>>): seq<T>
  {
    if pieces == [] then [] else Flatten(pieces[..|pieces| - 1]) + pieces[|pieces| - 1]
  }
}
