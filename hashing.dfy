/** The password hasher both servers call (passlib), idealised: hashing is
    salted and collision-free, and checking a password against a stored hash
    succeeds exactly for the password that was hashed. */
module Hashing {

  datatype Scheme = Bcrypt | BcryptSha256

  /** A stored hash. `preimage` stands for the digest: the model only needs
      that two different passwords never share one. */
  datatype PasswordHash = PasswordHash(scheme: Scheme, salt: nat, preimage: string)

  /** `CryptContext.hash` / `bcrypt.hash`: the salt is the per-call random
      part, so equal passwords may give different stored hashes. */
  function Hash(scheme: Scheme, password: string, salt: nat): PasswordHash
  {
    PasswordHash(scheme, salt, password)
  }

  /** `verify(password, hash)`. */
  predicate Verify(password: string, h: PasswordHash)
  {
    h.preimage == password
  }

  /** A hash accepts the password it was made from and no other, whatever
      the salt. */
  lemma VerifyHash(scheme: Scheme, password: string, other: string, salt: nat)
    ensures Verify(password, Hash(scheme, password, salt))
    ensures Verify(other, Hash(scheme, password, salt)) <==> other == password
  {
  }
}
