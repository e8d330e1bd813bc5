/** The two small container types the other modules share. */
module Wrappers {

  datatype Option<+T> = None | Some(value: T)

  datatype Result<+T, +E> = Ok(value: T) | Err(error: E)

  /** The side of an order or a position. */
  datatype Direction = Buy | Sell
}
