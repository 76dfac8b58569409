/**
 * The password hasher, abstracted. A stored value is either a plain string or the digest
 * of another stored value, so hashing twice is visible in the value. Hashing is injective
 * and a digest verifies exactly against its own preimage; the random salt is abstracted away.
 */
module Argon2 {
  import opened Wrappers

  datatype Secret = Plain(text: string) | Digest(preimage: Secret)

  /** argon2.hash */
  function Hash(p: Secret): (h: Secret)
    ensures h.Digest? && Verify(h, p)
  {
    Digest(p)
  }

  /** argon2.verify(stored, plain): true exactly when `stored` is a digest of `plain`. */
  predicate Verify(stored: Secret, plain: Secret)
  {
    stored == Digest(plain)
  }

  /** JavaScript truthiness of a string-valued field: absent and "" are falsy; a digest never is empty. */
  predicate Truthy(s: Option<Secret>)
  {
    s.Some? && (s.value.Digest? || s.value.text != "")
  }

  /** A stored password field is well-formed when it is falsy or a digest: never truthy plaintext. */
  predicate StoredWellFormed(s: Option<Secret>)
  {
    Truthy(s) ==> s.value.Digest?
  }

  lemma HashInjective(p: Secret, q: Secret)
    ensures Hash(p) == Hash(q) <==> p == q
  {
  }

  /** A digest verifies against its own preimage and against nothing else. */
  lemma VerifyExactlyPreimage(p: Secret, q: Secret)
    ensures Verify(Hash(p), q) <==> q == p
  {
  }

  /** No value is its own digest. */
  lemma {:induction false} DigestNotSelf(p: Secret)
    ensures Hash(p) != p
  {
    if p.Digest? {
      DigestNotSelf(p.preimage);
    }
  }

  /**
   * What the services persist for a supplied password field when they hash it themselves and no
   * hook runs: a truthy value is hashed once, a falsy one is written as given.
   */
  function HashIfTruthy(p: Option<Secret>): (r: Option<Secret>)
    ensures Truthy(p) ==> r.Some? && r.value.Digest? && Verify(r.value, p.value)
    ensures !Truthy(p) ==> r == p
    ensures StoredWellFormed(r)
  {
    if Truthy(p) then Some(Hash(p.value)) else p
  }

  /** A password hashed twice no longer verifies against the password itself. */
  lemma DoubleHashRejectsPassword(p: Secret)
    ensures !Verify(Hash(Hash(p)), p)
    ensures Verify(Hash(Hash(p)), Hash(p))
  {
    DigestNotSelf(p);
  }
}
