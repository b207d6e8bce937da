/** Identifiers as they arrive, and as the database reads them. */
module Identifiers {

  datatype Option<+T> = None | Some(value: T)

  /** A parsed UUID. */
  type Uuid = nat

  /**
   Text where an identifier is expected. `parsed` is what `uuid.UUID` makes of it, if anything;
   `spelling` tells apart the many texts one UUID can be written as. Zero is the canonical one,
   the text `str(uuid)` returns.
   */
  datatype RawId<+U> = RawId(parsed: Option<U>, spelling: nat)

  function Canonical<U>(u: U): RawId<U> {
    RawId(Some(u), 0)
  }
}
