/**
 * Session tokens as the backend issues them: `jwt.sign({id, email}, secret)`
 * and `jwt.verify(token, secret)` (JSON Web Token, RFC 7519, with an HMAC
 * signature). No expiry is set, so a token stays valid for as long as the
 * secret does.
 */
module Jwt {
  import opened Wrappers
  import opened Schema

  datatype Claims = Claims(id: Id, email: string)

  /** The HMAC of the claims under a key; only a holder of the key can compute it. */
  datatype Signature = Hmac(key: string, claims: Claims)

  datatype Token = Jws(claims: Claims, signature: Signature)

  function Sign(c: Claims, key: string): (t: Token)
    ensures t.claims == c
  {
    Jws(c, Hmac(key, c))
  }

  /** The claims of a token whose signature checks under `key`, or None. */
  function Verify(t: Token, key: string): (r: Option<Claims>)
    ensures r.Some? ==> r.value == t.claims && t == Sign(r.value, key)
  {
    if t.signature == Hmac(key, t.claims) then Some(t.claims) else None
  }

  /** A token verifies, with its own claims, under the key that signed it. */
  lemma VerifySigned(c: Claims, key: string)
    ensures Verify(Sign(c, key), key) == Some(c)
  {
  }

  /** Changing the claims of a signed token makes it fail: a token for A never verifies as B. */
  lemma TamperedClaimsRejected(c: Claims, forged: Claims, key: string)
    requires forged != c
    ensures Verify(Jws(forged, Sign(c, key).signature), key) == None
  {
  }

  /** A token signed under another key is rejected. */
  lemma OtherKeyRejected(c: Claims, key: string, other: string)
    requires other != key
    ensures Verify(Sign(c, other), key) == None
  {
  }
}
