/**
 * JSON Web Tokens (RFC 7519) as the `jsonwebtoken` library handles them for these services.
 * The cryptography is not modelled: decoding a token's header, checking its signature and
 * producing a signature are functions supplied by the caller, about which nothing is assumed.
 */
module Jwt {
  import opened Wrappers

  /** Key material as the identity service publishes it (PEM text). */
  type Key = string

  /** A compact serialised token. */
  type Token = string

  /** JSON Web Signature algorithm names (section 3.1 of RFC 7518), `none` included. */
  datatype Algorithm =
    | HS256 | HS384 | HS512
    | RS256 | RS384 | RS512
    | ES256 | ES384 | ES512
    | PS256 | PS384 | PS512
    | NoneAlg

  /** The payload the identity service signs: the user's id, email, name and role. */
  datatype Payload = Payload(id: string, email: string, name: string, role: string)

  /** A decoded payload as `jwt.verify` returns it; `exp` is the registered expiry claim in seconds, if any. */
  datatype Claims = Claims(id: string, email: string, name: string, role: string, exp: Option<int>)

  /**
   * The library's view of a token, left abstract:
   * `headerAlg` is the `alg` of a well-formed token's header (None when the token cannot be decoded),
   * `signatureValid` checks the signature with a key under an algorithm,
   * `payload` is the decoded payload (None when it is not a JSON object).
   */
  datatype JwtLibrary = JwtLibrary(
    headerAlg: Token -> Option<Algorithm>,
    signatureValid: (Token, Key, Algorithm) -> bool,
    payload: Token -> Option<Claims>)

  /**
   * `jwt.verify(token, key, { algorithms })` at time `now` (seconds since the epoch):
   * the payload when the header's algorithm is one of `algorithms`, the signature checks out under
   * that algorithm and the token has not expired; None where the library throws.
   */
  function Verify(lib: JwtLibrary, token: Token, key: Key, algorithms: seq<Algorithm>, now: int): Option<Claims> {
    match lib.headerAlg(token)
    case None => None
    case Some(alg) =>
      if alg !in algorithms || !lib.signatureValid(token, key, alg) then None
      else
        match lib.payload(token)
        case None => None
        case Some(c) => if c.exp.Some? && now >= c.exp.value then None else Some(c)
  }

  /** The options `jwt.sign` is given: the signing algorithm and the lifetime in seconds. */
  datatype SignOptions = SignOptions(algorithm: Algorithm, expiresInSeconds: nat)

  /** `jwt.sign(payload, privateKey, options)`: a token, or None where the library throws. */
  type Signer = (Payload, SignOptions) -> Option<Token>
}
