/** Values shared by every module: optional values, outcomes, bytes and connections. */
module Prelude {

  datatype Option<+T> = None | Some(value: T)

  datatype Result<+T, +E> = Ok(value: T) | Err(error: E)

  type Byte = x: int | 0 <= x < 256

  /** Connections are numbered. */
  type Conn = nat
}
