/** Identifiers and small types shared by every component of the service. */
module Prelude {
  datatype Option<+T> = None | Some(value: T)

  datatype Result<+T, +E> = Ok(value: T) | Err(error: E)

  /** UUIDs of users and of tokens: only equality of them is ever used. */
  type Uid = nat
  type Jti = nat

  /** Rust strings are UTF-8 bytes, and `len()` counts bytes. */
  newtype byte = x: int | 0 <= x < 256

  type Bytes = seq<byte>
  type Email = Bytes
  type Password = Bytes

  const REFRESH_TTL: nat := 7 * 24 * 3600
  const ACCESS_TTL: nat := 15 * 60
  const RESET_TTL: nat := 900

  lemma {:induction false} SubsetSize<T>(a: set<T>, b: set<T>)
    requires a <= b
    ensures |a| <= |b|
  {
    if a != {} {
      var x :| x in a;
      SubsetSize(a - {x}, b - {x});
    }
  }
}
