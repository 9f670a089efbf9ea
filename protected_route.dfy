/**
 * `GET /api/auth/protected` (`app/api/auth/protected/route.ts`): accepts a request whose
 * `Authorization` header carries a bearer token that verifies under the server's secret, and
 * echoes the decoded claims. `jwt.verify` is the `verify` parameter: it answers with the
 * decoded claims or the error it would throw.
 */
module ProtectedRoute {
  import opened Wrappers
  import opened Strings
  import opened ResponseHandler
  import LoginRoute

  /** What `jwt.verify` returns for a token signed by the login route: its claims and the times `jwt` adds. */
  datatype Decoded = Decoded(userId: nat, email: string, issuedAt: int, expiresAt: int)
  datatype ProtectedPayload = ProtectedPayload(decoded: Decoded)

  const Bearer: string := "Bearer "
  const HeaderMissing: string := "Authorization header missing"
  const TokenValid: string := "Token is valid"
  const TokenInvalid: string := "Invalid or expired token"

  /** `authHeader.replace("Bearer ", "").trim()`: no white space at either end. */
  function Token(header: string): (r: string)
    ensures r == [] || (!IsWhitespace(r[0]) && !IsWhitespace(r[|r| - 1]))
  {
    Trim(ReplaceFirst(header, Bearer, ""))
  }

  /** Behind the prefix the route checked for, the token is the rest of the header, trimmed. */
  lemma TokenIsRestOfHeader(header: string)
    requires StartsWith(header, Bearer)
    ensures Token(header) == Trim(header[|Bearer|..])
  {
    ReplaceFirstOfPrefix(header, Bearer);
  }

  /** `GET`: header first, then the secret, then verification; a failed verification is the `catch`. */
  function Get(authorization: Option<string>, jwtSecret: Option<string>,
               verify: (string, string) -> Result<Decoded, string>,
               nodeEnv: string, timestamp: string): (r: Response<ProtectedPayload>)
    ensures r.body.Success() <==> r.status == 200
    ensures r.status == 200 ==> r.body.message == TokenValid
  {
    if authorization.None? || !StartsWith(authorization.value, Bearer) then
      SendError(nodeEnv, timestamp, HeaderMissing, ValidationError, 401)
    else
      var token := Token(authorization.value);
      if LoginRoute.BadSecret(jwtSecret) then
        SendError(nodeEnv, timestamp, LoginRoute.ConfigurationError, InternalError, 500)
      else match verify(token, jwtSecret.value)
        case Ok(decoded) => SendSuccess(timestamp, Some(ProtectedPayload(decoded)), TokenValid)
        case Err(e) => SendError(nodeEnv, timestamp, TokenInvalid, ValidationError, 401, Some(e))
  }

  /**
   * The answers in full: no bearer header is 401 whatever the secret; otherwise a bad
   * secret is 500; otherwise the answer is 200 with the claims exactly when the trimmed
   * rest of the header verifies, and 401 with the verifier's error otherwise.
   */
  lemma Outcomes(authorization: Option<string>, jwtSecret: Option<string>,
                 verify: (string, string) -> Result<Decoded, string>, nodeEnv: string, timestamp: string)
    ensures var r := Get(authorization, jwtSecret, verify, nodeEnv, timestamp);
      authorization.None? || !StartsWith(authorization.value, Bearer) ==>
        r.status == 401 && r.body.message == HeaderMissing
    ensures var r := Get(authorization, jwtSecret, verify, nodeEnv, timestamp);
      authorization.Some? && StartsWith(authorization.value, Bearer) && LoginRoute.BadSecret(jwtSecret) ==>
        r.status == 500 && r.body.message == LoginRoute.ConfigurationError
    ensures var r := Get(authorization, jwtSecret, verify, nodeEnv, timestamp);
      authorization.Some? && StartsWith(authorization.value, Bearer) && !LoginRoute.BadSecret(jwtSecret) ==>
        var v := verify(Trim(authorization.value[|Bearer|..]), jwtSecret.value);
        && (v.Ok? ==> r.status == 200 && r.body.data == Some(ProtectedPayload(v.value)))
        && (v.Err? ==>
              && r.status == 401 && r.body.message == TokenInvalid
              && r.body.error.details == if nodeEnv == Development then Some(v.error) else None)
  {
    if authorization.Some? && StartsWith(authorization.value, Bearer) {
      TokenIsRestOfHeader(authorization.value);
    }
  }

  /**
   * A token handed out by a login, sent back as `Bearer <token>`, is accepted whenever
   * `verify` accepts what `sign` produced with the same secret and the token has no
   * surrounding white space (a compact JWT has none); the claims echoed are that user's.
   */
  lemma LoginTokenAccepted(token: string, secret: string, d: Decoded,
                           verify: (string, string) -> Result<Decoded, string>, nodeEnv: string, timestamp: string)
    requires |secret| >= LoginRoute.MinSecretLength
    requires Trim(token) == token
    requires verify(token, secret) == Ok(d)
    ensures var r := Get(Some(Bearer + token), Some(secret), verify, nodeEnv, timestamp);
      r.status == 200 && r.body.data == Some(ProtectedPayload(d))
  {
    var h := Bearer + token;
    assert StartsWith(h, Bearer);
    TokenIsRestOfHeader(h);
    assert h[|Bearer|..] == token;
  }

  /** The prefix is case- and space-sensitive: a lower-case `bearer` header is refused before any verification. */
  lemma LowerCaseSchemeRefused(rest: string, jwtSecret: Option<string>,
                               verify: (string, string) -> Result<Decoded, string>, nodeEnv: string, timestamp: string)
    ensures Get(Some("bearer " + rest), jwtSecret, verify, nodeEnv, timestamp).body.message == HeaderMissing
  {
    assert ("bearer " + rest)[0] != Bearer[0];
  }
}
