/**
 * Password hashing as the backend uses it: `bcrypt.genSalt(10)` then
 * `bcrypt.hash`, and `bcrypt.compare` at login. The digest is a value the
 * rest of the model can only build with `Hash` and test with `Compare`.
 */
module Bcrypt {

  /** The cost factor passed to `genSalt`. */
  const Rounds: nat := 10

  /** bcrypt only reads the first 72 bytes of a password. */
  const MaxKeyLength: nat := 72

  /** A stored password digest: the cost and the key material bcrypt reads. */
  datatype Digest = Digest(cost: nat, key: string)

  /** The part of a password that bcrypt reads. */
  function KeyOf(password: string): (k: string)
    ensures |k| <= MaxKeyLength && |k| <= |password|
    ensures k == password[..|k|]
    ensures |password| <= MaxKeyLength ==> k == password
  {
    if |password| <= MaxKeyLength then password else password[..MaxKeyLength]
  }

  function Hash(password: string): (d: Digest)
    ensures d.cost == Rounds
  {
    Digest(Rounds, KeyOf(password))
  }

  /** `bcrypt.compare(candidate, digest)`. */
  predicate Compare(candidate: string, d: Digest) {
    KeyOf(candidate) == d.key
  }

  /** A password always matches its own digest. */
  lemma CompareOwnHash(password: string)
    ensures Compare(password, Hash(password))
  {
  }

  /** Two passwords match each other's digests exactly when their first 72 characters agree. */
  lemma CompareOtherHash(candidate: string, password: string)
    ensures Compare(candidate, Hash(password)) <==> KeyOf(candidate) == KeyOf(password)
    ensures |candidate| <= MaxKeyLength && |password| <= MaxKeyLength ==>
              (Compare(candidate, Hash(password)) <==> candidate == password)
  {
  }
}
