/**
  Access tokens: issuing them at login and the auth gate every protected
  endpoint calls first. The JWT encoding and its HMAC-SHA256 signature
  (`jwt.encode` / `jwt.decode` with the service's fixed key and algorithm)
  are a `Signer` passed in; the clock is an integer number of seconds.
 */
module Tokens {
  import opened Responses

  type Username = string

  /** The encoded, signed token string handed to the client. */
  type Token = string

  /** The claims of a token payload that the service reads or writes. */
  datatype Claims = Claims(sub: Option<Username>, exp: Option<int>)

  /**
    Encoding and decoding with the fixed key. `decode` accepts only HS256
    tokens (`algorithms=[ALGORITHM]`); it answers None when the header names
    another algorithm, the signature does not verify or the payload is
    malformed. It does not look at the clock (expiry is `Expired` below).
   */
  datatype Signer = Signer(encode: Claims -> Token, decode: Token -> Option<Claims>)

  /** The one assumption about the signer: it decodes what it encoded. */
  ghost predicate DecodesOwnTokens(signer: Signer)
  {
    forall c :: signer.decode(signer.encode(c)) == Some(c)
  }

  const AccessTokenExpireMinutes: int := 30

  /** Token lifetime in seconds of the integer clock. */
  const AccessTokenLifetime: int := AccessTokenExpireMinutes * 60

  /**
    PyJWT's default check of the `exp` claim, with no leeway: a token is
    expired once the clock reaches `exp`; a token without `exp` never expires.
   */
  predicate Expired(claims: Claims, now: int)
  {
    claims.exp.Some? && claims.exp.value <= now
  }

  /**
    `create_access_token({"sub": subject})` at clock `now`: a token that the
    signer reads back as the subject, expiring 30 minutes after `now`.
   */
  function CreateAccessToken(signer: Signer, subject: Username, now: int): (t: Token)
    ensures DecodesOwnTokens(signer) ==>
              signer.decode(t) == Some(Claims(Some(subject), Some(now + 30 * 60)))
  {
    signer.encode(Claims(Some(subject), Some(now + AccessTokenLifetime)))
  }

  /**
    `get_current_user`: the auth gate. It yields the subject exactly when the
    token decodes, has not expired and carries a `sub` claim. A bad signature,
    a malformed payload, an expired token and a missing subject are all the
    same `InvalidToken` failure.
   */
  function GetCurrentUser(signer: Signer, token: Token, now: int): (r: Response<Username>)
    ensures r.Ok? <==>
              && signer.decode(token).Some?
              && !Expired(signer.decode(token).value, now)
              && signer.decode(token).value.sub.Some?
    ensures r.Ok? ==> Some(r.value) == signer.decode(token).value.sub
    ensures r.Err? ==> r.failure == InvalidToken
  {
    match signer.decode(token)
    case None => Err(InvalidToken)
    case Some(claims) =>
      if Expired(claims, now) then Err(InvalidToken)
      else
        match claims.sub
        case None => Err(InvalidToken)
        case Some(username) => Ok(username)
  }

  /**
    The validity window of an issued token: checked at any clock value before
    issue time plus 30 minutes it authenticates its subject, and from then on
    it is rejected with `InvalidToken`.
   */
  lemma TokenValidityWindow(signer: Signer, subject: Username, issued: int, now: int)
    requires DecodesOwnTokens(signer)
    ensures now < issued + 30 * 60 ==>
              GetCurrentUser(signer, CreateAccessToken(signer, subject, issued), now) == Ok(subject)
    ensures now >= issued + 30 * 60 ==>
              GetCurrentUser(signer, CreateAccessToken(signer, subject, issued), now) == Err(InvalidToken)
  {
  }
}
