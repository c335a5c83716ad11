/** A value that may be absent: the model of a Java reference that may be null. */
module Wrappers {

  datatype Option<+T> = None | Some(value: T)

  /** `Optional.ofNullable(s).orElse(empty)`: an absent collection reads as the empty one. */
  function OrEmpty<T>(s: Option<seq<T>>): seq<T>
  {
    match s
    case None => []
    case Some(xs) => xs
  }
}
