/**
 * JWT signing and decoding, abstracted as an uninterpreted encode/decode pair: a token
 * carries its claims and the key it was signed with; decoding with the same key gives the
 * claims back and any other key is rejected. Expiry and bearer extraction are not modelled.
 */
module Jwt {
  import opened Wrappers

  /** The claims a token may carry; each one may be absent from a payload. */
  datatype Claims = Claims(id: Option<int>, correo: Option<string>, rol: Option<string>)

  datatype Token = Token(claims: Claims, key: string)

  /** jwtService.signAsync */
  function Sign(c: Claims, key: string): Token
  {
    Token(c, key)
  }

  /** Signature check plus decoding, as passport-jwt does before calling `validate`. */
  function Decode(t: Token, key: string): (r: Option<Claims>)
    ensures r.Some? <==> t.key == key
  {
    if t.key == key then Some(t.claims) else None
  }

  lemma DecodeSign(c: Claims, key: string, other: string)
    ensures Decode(Sign(c, key), key) == Some(c)
    ensures other != key ==> Decode(Sign(c, key), other) == None
  {
  }
}
