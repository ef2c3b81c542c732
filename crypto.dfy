/** The password hasher (bcrypt), seen only through its two entry points. */
module Crypto {

  /** `hash(plaintext, rounds)` and `compare(plaintext, hashed)`. Salting, the
      cost of each round and constant-time comparison are not modelled; one
      hasher value is shared by every service that hashes or compares. */
  datatype Hasher = Hasher(hash: (string, nat) -> string, compare: (string, string) -> bool)

  /** The cost factor the user service passes to `hash`. */
  const SaltRounds: nat := 10

  /** The one property the services rely on: a password matches its own hash. */
  ghost predicate Sound(h: Hasher)
  {
    forall p: string, rounds: nat :: h.compare(p, h.hash(p, rounds))
  }
}
