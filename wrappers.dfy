/** Shared helper types: an optional value (the model of a nullable reference) and bytes. */
module Wrappers {

  /** A value that may be absent; stands for a C# reference that may be null. */
  datatype Option<+T> = None | Some(value: T)

  /** An unsigned 8-bit value, as C#'s `byte`. */
  newtype byte = x: int | 0 <= x < 256
}
