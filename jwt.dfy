/**
 * The boundary to the JWT library (`Firebase\JWT`). Decoding, HS256 verification
 * and JWK set parsing are not modelled; only the shapes of their results are.
 */
module Jwt {
  import opened Wrappers

  /** The claims of a decoded payload that the plugin reads; `None` is a claim that is not set. */
  datatype Claims = Claims(email: Option<string>, role: Option<string>)

  /** One key of a parsed JWK set, kept opaque. */
  datatype Jwk = Jwk(kid: string, material: string)

  /** What `JWT::decode` is handed as its key: a plain string, or the keys of a parsed JWK set. */
  datatype Key = StringKey(text: string) | KeySetKey(keys: seq<Jwk>)

  /** The fetch of the JWKS URL followed by `json_decode` and `JWK::parseKeySet`: a key set, or an exception. */
  datatype JwksOutcome = Parsed(keys: seq<Jwk>) | ParseFailed

  /** `JWT::decode(token, key, ['HS256'])`: the payload, a `SignatureInvalidException`, or any other exception. */
  datatype DecodeOutcome = Decoded(payload: Claims) | SignatureInvalid | OtherError

  type Decoder = (string, Key) -> DecodeOutcome
}
