/** `getKey` and `verifyToken`: choosing the verification key and collapsing a decode to yes or no. */
module KeySelection {
  import opened Jwt

  /**
   * `getKey`: the shared secret when no JWKS URL is configured, the parsed key set
   * when one is and it parses, and the empty string when fetching or parsing throws.
   */
  function GetKey(jwksUrl: string, privateSecret: string, fetched: JwksOutcome): (key: Key)
    ensures jwksUrl == "" ==> key == StringKey(privateSecret)
    ensures jwksUrl != "" && fetched.ParseFailed? ==> key == StringKey("")
    ensures key.KeySetKey? <==> jwksUrl != "" && fetched.Parsed?
    ensures key.KeySetKey? ==> fetched == Parsed(key.keys)
  {
    if jwksUrl != "" then
      match fetched
      case Parsed(keys) => KeySetKey(keys)
      case ParseFailed => StringKey("")
    else
      StringKey(privateSecret)
  }

  /** The secret is used only when no JWKS URL is configured, or (as the empty string) when it is empty and JWKS parsing failed. */
  lemma SecretOnlyWithoutJwks(jwksUrl: string, privateSecret: string, fetched: JwksOutcome)
    requires privateSecret != ""
    ensures GetKey(jwksUrl, privateSecret, fetched) == StringKey(privateSecret) <==> jwksUrl == ""
  {
  }

  /** `verifyToken`: true exactly when the token decodes under the key `getKey` picks; both kinds of failure give false. */
  function VerifyToken(jwt: string, jwksUrl: string, privateSecret: string, fetched: JwksOutcome, decode: Decoder): (ok: bool)
    ensures ok <==> decode(jwt, GetKey(jwksUrl, privateSecret, fetched)).Decoded?
    ensures !ok <==> decode(jwt, GetKey(jwksUrl, privateSecret, fetched)) in {SignatureInvalid, OtherError}
  {
    match decode(jwt, GetKey(jwksUrl, privateSecret, fetched))
    case Decoded(_) => true
    case SignatureInvalid => false
    case OtherError => false
  }

  /**
   * Fail-closed key resolution: if the library refuses an empty key (as `JWT::decode`
   * does), a JWKS that cannot be fetched or parsed makes every token fail to verify.
   */
  lemma JwksFailureRejectsEveryToken(jwt: string, jwksUrl: string, privateSecret: string, decode: Decoder)
    requires jwksUrl != ""
    requires forall t :: !decode(t, StringKey("")).Decoded?
    ensures !VerifyToken(jwt, jwksUrl, privateSecret, ParseFailed, decode)
  {
  }
}
