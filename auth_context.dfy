/**
 * The shared authentication code of the Rust services: token issue
 * (`create_jwt`), token check (`verify_jwt`) and the request extractor that
 * turns an `Authorization: Bearer <token>` header into the caller's user id.
 *
 * The token codec (base64url JSON) and the HMAC are not interpreted: a
 * `Crypto` value supplies them, and lemmas that need the codec to round-trip
 * say so for the one token they are about.
 */
module AuthContext {
  import opened Wrappers

  /** `Duration::days(7)` in seconds. */
  const TokenLifetime: int := 7 * 24 * 60 * 60
  /** Default clock leeway of `jsonwebtoken::Validation`, in seconds. */
  const Leeway: int := 60
  const BearerPrefix: string := "Bearer "

  datatype Claims = Claims(sub: int, exp: int, iat: int)

  datatype Algorithm = HS256 | OtherAlgorithm(name: string)

  /** A compact JWT once its three base64url parts are decoded. */
  datatype Jwt = Jwt(alg: Algorithm, claims: Claims, signature: string)

  /** The token serialisation and the keyed MAC of the JWT library. */
  datatype Crypto = Crypto(
    serialize: Jwt -> string,
    parse: string -> Option<Jwt>,
    mac: (string, Algorithm, Claims) -> string)

  datatype JwtError = Malformed | InvalidAlgorithm | InvalidSignature | ExpiredSignature

  datatype Verified = Valid(claims: Claims) | Rejected(error: JwtError)

  /** The token `create_jwt` signs for `userId` at time `now` (seconds). */
  function IssuedJwt(userId: int, secret: string, now: int, c: Crypto): Jwt
  {
    var claims := Claims(userId, now + TokenLifetime, now);
    Jwt(HS256, claims, c.mac(secret, HS256, claims))
  }

  /** `create_jwt`: an HS256 token for `userId`, issued now, expiring in seven days. */
  function CreateJwt(userId: int, secret: string, now: int, c: Crypto): (token: string)
    ensures c.parse(c.serialize(IssuedJwt(userId, secret, now, c))) == Some(IssuedJwt(userId, secret, now, c))
            ==> c.parse(token).Some? && c.parse(token).value.claims == Claims(userId, now + TokenLifetime, now)
                && c.parse(token).value.alg == HS256
  {
    c.serialize(IssuedJwt(userId, secret, now, c))
  }

  /** The checks `decode` makes with `Validation::new(HS256)`, in its order. */
  function VerifyJwt(token: string, secret: string, now: int, c: Crypto): (r: Verified)
    ensures r.Valid? <==>
              c.parse(token).Some? && c.parse(token).value.alg == HS256
              && c.parse(token).value.signature == c.mac(secret, HS256, c.parse(token).value.claims)
              && c.parse(token).value.claims.exp >= now - Leeway
    ensures r.Valid? ==> r.claims == c.parse(token).value.claims
  {
    match c.parse(token)
    case None => Rejected(Malformed)
    case Some(jwt) =>
      if jwt.alg != HS256 then Rejected(InvalidAlgorithm)
      else if jwt.signature != c.mac(secret, jwt.alg, jwt.claims) then Rejected(InvalidSignature)
      else if jwt.claims.exp < now - Leeway then Rejected(ExpiredSignature)
      else Valid(jwt.claims)
  }

  /** `HeaderValue::to_str` succeeds only on visible ASCII (and tab). */
  predicate VisibleAscii(s: string)
  {
    forall i :: 0 <= i < |s| ==> (32 <= s[i] as int < 127 || s[i] == '\t')
  }

  /**
   * `AuthContext::from_request_parts`: the caller's user id, or a 401 with the
   * message of the first check that failed.
   */
  function Authenticate(header: Option<string>, secret: string, now: int, c: Crypto): (r: Outcome<int>)
    ensures r.Fail? ==> r.status == 401
    ensures (header.None? || !VisibleAscii(header.value)) <==> r == Fail(401, "Missing authorization header")
    ensures header.Some? && VisibleAscii(header.value) && !(BearerPrefix <= header.value)
            <==> r == Fail(401, "Invalid authorization header")
    ensures r.Ok? <==>
              header.Some? && VisibleAscii(header.value) && BearerPrefix <= header.value
              && VerifyJwt(header.value[|BearerPrefix|..], secret, now, c).Valid?
    ensures r.Ok? ==> r.value == VerifyJwt(header.value[|BearerPrefix|..], secret, now, c).claims.sub
  {
    if header.None? || !VisibleAscii(header.value) then Fail(401, "Missing authorization header")
    else if !(BearerPrefix <= header.value) then Fail(401, "Invalid authorization header")
    else
      match VerifyJwt(header.value[7..], secret, now, c)
      case Rejected(_) => Fail(401, "Invalid token")
      case Valid(claims) => Ok(claims.sub)
  }

  /**
   * A token issued by `create_jwt` authenticates its user with the same secret
   * for seven days (plus the leeway), provided the codec reads back what it
   * wrote for that token.
   */
  lemma IssuedTokenAuthenticates(userId: int, secret: string, issuedAt: int, at: int, c: Crypto)
    requires c.parse(c.serialize(IssuedJwt(userId, secret, issuedAt, c))) == Some(IssuedJwt(userId, secret, issuedAt, c))
    requires VisibleAscii(CreateJwt(userId, secret, issuedAt, c))
    requires at <= issuedAt + TokenLifetime + Leeway
    ensures Authenticate(Some(BearerPrefix + CreateJwt(userId, secret, issuedAt, c)), secret, at, c) == Ok(userId)
  {
    var token := CreateJwt(userId, secret, issuedAt, c);
    var header := BearerPrefix + token;
    assert header[|BearerPrefix|..] == token;
    assert VisibleAscii(header) by {
      forall i | 0 <= i < |header|
        ensures 32 <= header[i] as int < 127 || header[i] == '\t'
      {
        if i >= |BearerPrefix| { assert header[i] == token[i - |BearerPrefix|]; }
      }
    }
  }

  /** After the leeway has passed, the same token is refused. */
  lemma ExpiredTokenRefused(userId: int, secret: string, issuedAt: int, at: int, c: Crypto)
    requires c.parse(c.serialize(IssuedJwt(userId, secret, issuedAt, c))) == Some(IssuedJwt(userId, secret, issuedAt, c))
    requires VisibleAscii(CreateJwt(userId, secret, issuedAt, c))
    requires at > issuedAt + TokenLifetime + Leeway
    ensures Authenticate(Some(BearerPrefix + CreateJwt(userId, secret, issuedAt, c)), secret, at, c)
            == Fail(401, "Invalid token")
  {
    var token := CreateJwt(userId, secret, issuedAt, c);
    var header := BearerPrefix + token;
    assert header[|BearerPrefix|..] == token;
    assert VisibleAscii(header) by {
      forall i | 0 <= i < |header|
        ensures 32 <= header[i] as int < 127 || header[i] == '\t'
      {
        if i >= |BearerPrefix| { assert header[i] == token[i - |BearerPrefix|]; }
      }
    }
  }

  /** A token signed under another secret (whose MAC differs) is refused. */
  lemma ForeignSecretRefused(userId: int, secret: string, other: string, issuedAt: int, at: int, c: Crypto)
    requires c.parse(c.serialize(IssuedJwt(userId, other, issuedAt, c))) == Some(IssuedJwt(userId, other, issuedAt, c))
    requires c.mac(other, HS256, IssuedJwt(userId, other, issuedAt, c).claims)
             != c.mac(secret, HS256, IssuedJwt(userId, other, issuedAt, c).claims)
    ensures VerifyJwt(CreateJwt(userId, other, issuedAt, c), secret, at, c) == Rejected(InvalidSignature)
  {
  }
}
