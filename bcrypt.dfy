/** The password hasher, seen from the outside.

    bcrypt is a foreign library: its digest and its comparison are two
    functions the model does not interpret. The only fact the application
    relies on is that a password verifies against a digest made from it,
    whatever salt was drawn; `Sound` states that fact and every property that
    needs it takes it as a precondition. */
module Bcrypt {

  /** The random salt bcrypt draws on every call to `hash`. */
  type Salt = nat

  /** `hash(password, salt)` is `bcrypt.hash`, `compare(password, digest)` is
      `bcrypt.compare`. The cost factor is not modelled. */
  datatype Hasher = Hasher(hash: (string, Salt) -> string, compare: (string, string) -> bool)

  /** A password always verifies against its own digest. */
  ghost predicate Sound(h: Hasher)
  {
    forall password, salt :: h.compare(password, h.hash(password, salt))
  }
}
