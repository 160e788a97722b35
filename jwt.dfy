/**
 * The signed token, abstracted. An HS256 token is modelled as the claims it
 * carries sealed together with the key it was signed with: whoever holds it
 * can present it but cannot change its claims or its key. Verifying with a
 * key gives back the claims exactly when the token was signed with that key.
 * The library also refuses a token whose `exp` claim has passed.
 */
module Jwt {
  import opened Wrappers

  /** A claim value: the service writes strings and a Unix time. */
  datatype ClaimValue = Str(s: string) | Num(n: int)

  /** Claims as the token library keeps them: a map from claim name to value. */
  type Claims = map<string, ClaimValue>

  datatype Token = Token(claims: Claims, signedWith: string)

  function Sign(claims: Claims, key: string): Token {
    Token(claims, key)
  }

  function Verify(t: Token, key: string): Option<Claims> {
    if t.signedWith == key then Some(t.claims) else None
  }

  /**
   * The token library's expiry rule at Unix time `now`: a token without `exp`
   * never expires; a numeric `exp` must still lie ahead; any other `exp` is refused.
   */
  predicate Unexpired(claims: Claims, now: int) {
    "exp" !in claims || (claims["exp"].Num? && now < claims["exp"].n)
  }

  /** A token verifies with the key that signed it, yielding its claims unchanged. */
  lemma VerifySigned(claims: Claims, key: string)
    ensures Verify(Sign(claims, key), key) == Some(claims)
  {
  }

  /** A token signed with any other key does not verify. */
  lemma VerifyOtherKey(claims: Claims, key: string, other: string)
    requires other != key
    ensures Verify(Sign(claims, other), key) == None
  {
  }
}
