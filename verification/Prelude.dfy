/** Result and option types shared by every component. */
module Prelude {

  datatype Option<+T> = None | Some(value: T)

  datatype Result<+T, +E> = Ok(value: T) | Err(error: E)

  /** A byte of an encoding or of a DNS message. */
  type Byte = b: int | 0 <= b < 0x100

  type Bytes = seq<Byte>
}
