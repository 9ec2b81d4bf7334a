// security.py: token creation (copy the claims, add the expiry), the
// mapping of a failed decode to 401, and the Bearer header check.
// Signing and verifying (jose, HS256) stay abstract: a token is shown by
// the claims it carries, and reading a client-sent string back into claims
// is the parameter `decode`, which fails on a bad signature or an expired
// token. Time is whole seconds since the epoch.

module Security {
  import opened Wrappers
  import opened Http

  /** A JSON value in a token payload. */
  datatype ClaimValue = Text(text: string) | Number(number: int)

  type Claims = map<string, ClaimValue>

  /** A signed token, standing for the payload it carries. */
  datatype Jwt = Jwt(claims: Claims)

  const AccessTokenExpireMinutes: nat := 30
  const RefreshTokenExpireDays: nat := 7

  /** The default lifetimes, in seconds. */
  const AccessTokenLifetime: nat := AccessTokenExpireMinutes * 60
  const RefreshTokenLifetime: nat := RefreshTokenExpireDays * 24 * 60 * 60

  /**
   * `to_encode = data.copy(); to_encode.update({"exp": expire})` followed by
   * signing. A timedelta of zero is falsy, so it falls back to the default
   * lifetime like a missing one.
   */
  function Encode(data: Claims, now: int, expiresDelta: Option<int>, defaultLifetime: nat): (t: Jwt)
    ensures t.claims.Keys == data.Keys + {"exp"}
    ensures forall k :: k in data && k != "exp" ==> t.claims[k] == data[k]
    ensures expiresDelta.Some? && expiresDelta.value != 0 ==>
              t.claims["exp"] == Number(now + expiresDelta.value)
    ensures expiresDelta.None? || expiresDelta.value == 0 ==>
              t.claims["exp"] == Number(now + defaultLifetime)
  {
    var lifetime := if expiresDelta.Some? && expiresDelta.value != 0 then expiresDelta.value else defaultLifetime;
    Jwt(data["exp" := Number(now + lifetime)])
  }

  /** `create_access_token`: the claims plus an expiry 30 minutes ahead unless told otherwise. */
  function CreateAccessToken(data: Claims, now: int, expiresDelta: Option<int>): (t: Jwt)
    ensures t.claims.Keys == data.Keys + {"exp"}
    ensures forall k :: k in data && k != "exp" ==> t.claims[k] == data[k]
    ensures expiresDelta.None? ==> t.claims["exp"] == Number(now + 30 * 60)
    ensures expiresDelta.Some? && expiresDelta.value != 0 ==>
              t.claims["exp"] == Number(now + expiresDelta.value)
  {
    Encode(data, now, expiresDelta, AccessTokenLifetime)
  }

  /** `create_refresh_token`: as above, with a default of 7 days. */
  function CreateRefreshToken(data: Claims, now: int, expiresDelta: Option<int>): (t: Jwt)
    ensures t.claims.Keys == data.Keys + {"exp"}
    ensures forall k :: k in data && k != "exp" ==> t.claims[k] == data[k]
    ensures expiresDelta.None? ==> t.claims["exp"] == Number(now + 7 * 24 * 3600)
    ensures expiresDelta.Some? && expiresDelta.value != 0 ==>
              t.claims["exp"] == Number(now + expiresDelta.value)
  {
    Encode(data, now, expiresDelta, RefreshTokenLifetime)
  }

  /** A zero delta behaves exactly like no delta. */
  lemma ZeroDeltaIsDefault(data: Claims, now: int)
    ensures CreateAccessToken(data, now, Some(0)) == CreateAccessToken(data, now, None)
    ensures CreateRefreshToken(data, now, Some(0)) == CreateRefreshToken(data, now, None)
  {
  }

  const TokenRejected: HttpError := HttpError(Unauthorized, "Invalid token or Token Expired")

  /** `verify_token`: the decoded payload, or 401 when jose rejects the token. */
  function VerifyToken(token: string, decode: string -> Option<Claims>): (r: Result<Claims, HttpError>)
    ensures r.Failure? <==> decode(token).None?
    ensures r.Failure? ==> r.error == TokenRejected
    ensures r.Success? ==> Some(r.value) == decode(token)
  {
    match decode(token)
    case None => Failure(TokenRejected)
    case Some(payload) => Success(payload)
  }

  const BearerPrefix: string := "Bearer "

  predicate StartsWith(s: string, prefix: string) {
    |prefix| <= |s| && s[..|prefix|] == prefix
  }

  const HeaderMissing: HttpError := HttpError(Unauthorized, "Authorization header is missing")
  const BadPrefix: HttpError := HttpError(Unauthorized, "Invalid token prefix")

  /**
   * `validate_token_from_header`: the claims of the token that follows
   * "Bearer " in the Authorization header.
   */
  function ValidateTokenFromHeader(authorization: Option<string>, decode: string -> Option<Claims>): (r: Result<Claims, HttpError>)
    ensures authorization.None? ==> r == Failure(HeaderMissing)
    ensures authorization.Some? && !StartsWith(authorization.value, BearerPrefix) ==> r == Failure(BadPrefix)
    ensures r.Success? ==> exists token :: authorization == Some(BearerPrefix + token) && decode(token) == Some(r.value)
  {
    match authorization
    case None => Failure(HeaderMissing)
    case Some(header) =>
      if !StartsWith(header, BearerPrefix) then Failure(BadPrefix)
      else
        var token := header[|BearerPrefix|..];
        assert header == BearerPrefix + token;
        VerifyToken(token, decode)
  }

  /** The token handed to verification is exactly what follows the seven-character prefix. */
  lemma BearerTokenPassedOn(token: string, decode: string -> Option<Claims>)
    ensures ValidateTokenFromHeader(Some(BearerPrefix + token), decode) == VerifyToken(token, decode)
  {
    var header := BearerPrefix + token;
    assert header[..|BearerPrefix|] == BearerPrefix;
    assert header[|BearerPrefix|..] == token;
  }

  /** The prefix is matched exactly, case included. */
  lemma LowerCaseBearerRejected(token: string, decode: string -> Option<Claims>)
    ensures ValidateTokenFromHeader(Some("bearer " + token), decode) == Failure(BadPrefix)
  {
    assert ("bearer " + token)[0] == 'b';
  }
}
