/**
 * `POST /api/auth/login` (`app/api/auth/login/route.ts`): checks the server's signing secret,
 * looks the user up by normalised email, compares the password with the stored hash and
 * answers with a signed token. The route only reads the table, so it is a function of its
 * rows. `bcrypt.compare` is the `compare` parameter and `jwt.sign` the `sign` parameter;
 * `process.env.JWT_SECRET` is the `jwtSecret` parameter.
 */
module LoginRoute {
  import opened Wrappers
  import opened Strings
  import opened ResponseHandler
  import opened UserStore
  import SignupRoute

  /** The JSON body's two fields as strings, `None` where a field is absent or `null`. */
  datatype LoginBody = LoginBody(email: Option<string>, password: Option<string>)

  /** The claims the token is signed over: `{ userId, email }`. */
  datatype Claims = Claims(userId: nat, email: string)

  datatype LoginUser = LoginUser(id: nat, name: string, email: string)
  datatype LoginPayload = LoginPayload(token: string, user: LoginUser)

  const MinSecretLength: nat := 16
  const TokenLifetime: string := "24h"
  const ConfigurationError: string := "Server configuration error"
  const MissingFields: string := "Email and password are required"
  const InvalidCredentials: string := "Invalid email or password"
  const LoggedIn: string := "Login successful"
  const LoginFailed: string := "Login failed"

  /** `!jwtSecret || jwtSecret.length < 16`. */
  predicate BadSecret(jwtSecret: Option<string>) {
    jwtSecret.None? || |jwtSecret.value| < MinSecretLength
  }

  /** `POST`, validating in the order the route does. */
  function Login(jwtSecret: Option<string>, request: Result<LoginBody, string>, rows: seq<User>,
                 compare: (string, string) -> bool, sign: (Claims, string, string) -> string,
                 nodeEnv: string, timestamp: string): (r: Response<LoginPayload>)
    ensures r.body.Success() <==> r.status == 200
  {
    if BadSecret(jwtSecret) then SendError(nodeEnv, timestamp, ConfigurationError, InternalError, 500)
    else match request
      case Err(e) => SendError(nodeEnv, timestamp, LoginFailed, InternalError, 500, Some(e))
      case Ok(b) =>
        if SignupRoute.Falsy(b.email) || SignupRoute.Falsy(b.password) then
          SendError(nodeEnv, timestamp, MissingFields, ValidationError, 400)
        else match FindByEmail(rows, SignupRoute.NormaliseEmail(b.email.value))
          case None => SendError(nodeEnv, timestamp, InvalidCredentials, NotFound, 401)
          case Some(u) =>
            if !compare(b.password.value, u.password) then
              SendError(nodeEnv, timestamp, InvalidCredentials, ValidationError, 401)
            else
              var token := sign(Claims(u.id, u.email), jwtSecret.value, TokenLifetime);
              SendSuccess(timestamp, Some(LoginPayload(token, LoginUser(u.id, u.name, u.email))), LoggedIn)
  }

  /**
   * The refusals after the secret check and before the lookup: a body that is not JSON lands
   * in the `catch` as 500 INTERNAL_ERROR "Login failed", with the parse error as details in
   * development; a missing or empty email or password answers 400 VALIDATION_ERROR "Email and
   * password are required".
   */
  lemma LoginRejects(jwtSecret: Option<string>, request: Result<LoginBody, string>, rows: seq<User>,
                     compare: (string, string) -> bool, sign: (Claims, string, string) -> string,
                     nodeEnv: string, timestamp: string)
    requires !BadSecret(jwtSecret)
    ensures var r := Login(jwtSecret, request, rows, compare, sign, nodeEnv, timestamp);
      request.Err? ==>
        && r.status == 500 && r.body.error.code == InternalError && r.body.message == LoginFailed
        && r.body.error.details == (if nodeEnv == Development then Some(request.error) else None)
    ensures var r := Login(jwtSecret, request, rows, compare, sign, nodeEnv, timestamp);
      request.Ok? && (SignupRoute.Falsy(request.value.email) || SignupRoute.Falsy(request.value.password)) ==>
        && r.status == 400 && r.body.error.code == ValidationError && r.body.message == MissingFields
        && r.body.error.details == None
  {
  }

  /** The secret is checked before the body is read: a misconfigured server answers 500 to everyone. */
  lemma SecretCheckedFirst(jwtSecret: Option<string>, request: Result<LoginBody, string>, rows: seq<User>,
                           compare: (string, string) -> bool, sign: (Claims, string, string) -> string,
                           nodeEnv: string, timestamp: string)
    ensures var r := Login(jwtSecret, request, rows, compare, sign, nodeEnv, timestamp);
      BadSecret(jwtSecret) <==> r.status == 500 && r.body.message == ConfigurationError
  {
  }

  /**
   * A login succeeds exactly when the secret is usable, both fields are present, a user has
   * the normalised email and the password matches that user's hash; the token is then signed
   * over that user's id and email for 24 hours with the server's secret, and the answer
   * carries no password.
   */
  lemma LoginSucceedsIff(jwtSecret: Option<string>, request: Result<LoginBody, string>, rows: seq<User>,
                         compare: (string, string) -> bool, sign: (Claims, string, string) -> string,
                         nodeEnv: string, timestamp: string)
    ensures var r := Login(jwtSecret, request, rows, compare, sign, nodeEnv, timestamp);
      r.status == 200 <==>
        && !BadSecret(jwtSecret) && request.Ok?
        && !SignupRoute.Falsy(request.value.email) && !SignupRoute.Falsy(request.value.password)
        && var found := FindByEmail(rows, SignupRoute.NormaliseEmail(request.value.email.value));
        found.Some? && compare(request.value.password.value, found.value.password)
    ensures var r := Login(jwtSecret, request, rows, compare, sign, nodeEnv, timestamp);
      r.status == 200 ==>
        var u := FindByEmail(rows, SignupRoute.NormaliseEmail(request.value.email.value)).value;
        && u in rows
        && r.body.data == Some(LoginPayload(sign(Claims(u.id, u.email), jwtSecret.value, TokenLifetime),
                                            LoginUser(u.id, u.name, u.email)))
  {
  }

  /**
   * An unknown email and a wrong password get the same status and message, so the message
   * does not reveal which accounts exist; the error code still tells them apart
   * (NOT_FOUND against VALIDATION_ERROR).
   */
  lemma FailuresLookAlike(jwtSecret: Option<string>, e1: string, e2: string, p1: string, p2: string,
                          rows: seq<User>, compare: (string, string) -> bool, sign: (Claims, string, string) -> string,
                          nodeEnv: string, timestamp: string)
    requires !BadSecret(jwtSecret) && e1 != "" && e2 != "" && p1 != "" && p2 != ""
    requires FindByEmail(rows, SignupRoute.NormaliseEmail(e1)).None?
    requires var u := FindByEmail(rows, SignupRoute.NormaliseEmail(e2)); u.Some? && !compare(p2, u.value.password)
    ensures var unknown := Login(jwtSecret, Ok(LoginBody(Some(e1), Some(p1))), rows, compare, sign, nodeEnv, timestamp);
      var wrong := Login(jwtSecret, Ok(LoginBody(Some(e2), Some(p2))), rows, compare, sign, nodeEnv, timestamp);
      && unknown.status == wrong.status == 401
      && unknown.body.message == wrong.body.message == InvalidCredentials
      && unknown.body.error.code == NotFound && wrong.body.error.code == ValidationError
  {
  }

  /** A new user stored after rows without its email is the one found by that email. */
  lemma FindAppended(rows: seq<User>, u: User)
    requires !HasEmail(rows, u.email)
    ensures FindByEmail(rows + [u], u.email) == Some(u)
  {
    var all := rows + [u];
    assert all[|rows|] == u;
    assert HasEmail(all, u.email);
    var f := FindByEmail(all, u.email).value;
    var k :| 0 <= k < |all| && all[k] == f;
    if k < |rows| {
      assert rows[k] == f;
    }
  }

  /**
   * Logging in right after a successful signup, with the email as typed at signup (in any
   * case, with any surrounding white space) and the same password, succeeds as the new user,
   * provided `compare` accepts a password against its own hash.
   */
  lemma LoginAfterSignup(rows: seq<User>, nextId: nat, b: SignupRoute.SignupBody, hash: string -> string,
                         jwtSecret: Option<string>, compare: (string, string) -> bool, sign: (Claims, string, string) -> string,
                         nodeEnv: string, t1: string, t2: string, createdAt: int)
    requires SignupRoute.Signup(rows, nextId, Ok(b), hash, nodeEnv, t1, createdAt).2.status == 201
    requires !BadSecret(jwtSecret)
    requires forall p :: compare(p, hash(p))
    ensures var (rows', _, _) := SignupRoute.Signup(rows, nextId, Ok(b), hash, nodeEnv, t1, createdAt);
      var r := Login(jwtSecret, Ok(LoginBody(b.email, b.password)), rows', compare, sign, nodeEnv, t2);
      && r.status == 200
      && r.body.data.value.user == LoginUser(nextId, Trim(b.name.value), SignupRoute.NormaliseEmail(b.email.value))
  {
    SignupRoute.SignupCreatesOne(rows, nextId, Ok(b), hash, nodeEnv, t1, createdAt);
    var c := SignupRoute.Validate(b).value;
    var u := User(nextId, c.name, c.email, hash(c.password), createdAt);
    FindAppended(rows, u);
    assert compare(c.password, hash(c.password));
  }
}
