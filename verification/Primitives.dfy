/** Identifiers that the gateway only stores and compares. */
module Primitives {
  type Hash = nat
  type Wallet = nat
  type Preimage = nat
  type Timestamp = nat

  datatype Option<+T> = None | Some(value: T)

  datatype Result<+T, +E> = Ok(value: T) | Err(error: E)
}
