/**
 * `POST /api/auth/signup` (`app/api/auth/signup/route.ts`): validates a name, an email and a
 * password, refuses an email that is already registered, and stores the new user with a
 * hashed password. `bcrypt.hash(password, 10)` is the `hash` parameter (its random salt is
 * out of scope); the clock is the `timestamp` and `createdAt` parameters.
 */
module SignupRoute {
  import opened Wrappers
  import opened Strings
  import opened ResponseHandler
  import opened UserStore

  /** The JSON body's three fields as strings, `None` where a field is absent or `null`. */
  datatype SignupBody = SignupBody(name: Option<string>, email: Option<string>, password: Option<string>)

  /** The fields after normalisation: trimmed name, trimmed lower-case email, password as sent. */
  datatype Credentials = Credentials(name: string, email: string, password: string)

  /** The `select`ed columns of the created user: everything but the password. */
  datatype PublicUser = PublicUser(id: nat, name: string, email: string, createdAt: int)

  const MinPasswordLength: nat := 8
  const MissingFields: string := "Name, email, and password are required"
  const NameEmpty: string := "Name cannot be empty"
  const InvalidEmail: string := "Invalid email format"
  const PasswordTooShort: string := "Password must be at least 8 characters"
  const EmailTaken: string := "A user with this email already exists"
  const Created: string := "Account created successfully"
  const SignupFailed: string := "Signup failed"

  /** JavaScript's `!value` on a field: missing, `null` or the empty string. */
  predicate Falsy(v: Option<string>) {
    v.None? || v.value == ""
  }

  /**
   * `String(email).trim().toLowerCase()`, the form in which emails are looked up and stored:
   * it holds no ASCII capital.
   */
  function NormaliseEmail(email: string): (r: string)
    ensures forall j | 0 <= j < |r| :: !('A' <= r[j] <= 'Z')
  {
    ToLowerNormalises(Trim(email));
    ToLower(Trim(email))
  }

  /** A non-empty run of characters that are neither white space nor `@`: `[^\s@]+`. */
  predicate Segment(s: string) {
    |s| > 0 && forall j | 0 <= j < |s| :: !IsWhitespace(s[j]) && s[j] != '@'
  }

  /** `EMAIL_REGEX = /^[^\s@]+@[^\s@]+\.[^\s@]+$/`: the string splits as `a@b.c` into three segments. */
  predicate MatchesEmailPattern(s: string) {
    exists i, k | 0 < i && i + 1 < k && k + 1 < |s| ::
      s[i] == '@' && s[k] == '.' && Segment(s[..i]) && Segment(s[i + 1..k]) && Segment(s[k + 1..])
  }

  /** The same language described by what it contains: no white space, one `@` not in front, and a `.` inside the domain. */
  predicate EmailShape(s: string) {
    && (forall j | 0 <= j < |s| :: !IsWhitespace(s[j]))
    && exists i | 0 < i < |s| ::
      && s[i] == '@'
      && (forall j | 0 <= j < |s| && j != i :: s[j] != '@')
      && (exists k | i + 1 < k < |s| - 1 :: s[k] == '.')
  }

  /** A string the regular expression accepts has that shape. */
  lemma PatternHasShape(s: string)
    requires MatchesEmailPattern(s)
    ensures EmailShape(s)
  {
    var i, k :| 0 < i && i + 1 < k && k + 1 < |s| &&
      s[i] == '@' && s[k] == '.' && Segment(s[..i]) && Segment(s[i + 1..k]) && Segment(s[k + 1..]);
    forall j | 0 <= j < |s| && j != i
      ensures s[j] != '@' && !IsWhitespace(s[j])
    {
      if j < i {
        assert s[j] == s[..i][j];
      } else if j < k {
        assert s[j] == s[i + 1..k][j - i - 1];
      } else if j > k {
        assert s[j] == s[k + 1..][j - k - 1];
      }
    }
    assert s[k] == '.';
  }

  /** A string of that shape is accepted by the regular expression. */
  lemma ShapeMatchesPattern(s: string)
    requires EmailShape(s)
    ensures MatchesEmailPattern(s)
  {
    var i :| 0 < i < |s| && s[i] == '@'
      && (forall j | 0 <= j < |s| && j != i :: s[j] != '@')
      && (exists k | i + 1 < k < |s| - 1 :: s[k] == '.');
    var k :| i + 1 < k < |s| - 1 && s[k] == '.';
    assert Segment(s[..i]) && Segment(s[i + 1..k]) && Segment(s[k + 1..]);
  }

  /** The regular expression accepts exactly the strings of that shape. */
  lemma EmailPatternIff(s: string)
    ensures MatchesEmailPattern(s) <==> EmailShape(s)
  {
    if MatchesEmailPattern(s) {
      PatternHasShape(s);
    }
    if EmailShape(s) {
      ShapeMatchesPattern(s);
    }
  }

  /** The four checks in the order the route makes them; each failure carries its message. */
  function Validate(b: SignupBody): (r: Result<Credentials, string>)
    ensures r.Err? ==> r.error in {MissingFields, NameEmpty, InvalidEmail, PasswordTooShort}
    ensures r.Ok? <==>
      && !Falsy(b.name) && !Falsy(b.email) && !Falsy(b.password)
      && Trim(b.name.value) != ""
      && MatchesEmailPattern(NormaliseEmail(b.email.value))
      && |b.password.value| >= MinPasswordLength
    ensures r.Ok? ==> r.value == Credentials(Trim(b.name.value), NormaliseEmail(b.email.value), b.password.value)
  {
    if Falsy(b.name) || Falsy(b.email) || Falsy(b.password) then Err(MissingFields)
    else
      var name := Trim(b.name.value);
      var email := NormaliseEmail(b.email.value);
      var password := b.password.value;
      if name == "" then Err(NameEmpty)
      else if !MatchesEmailPattern(email) then Err(InvalidEmail)
      else if |password| < MinPasswordLength then Err(PasswordTooShort)
      else Ok(Credentials(name, email, password))
  }

  /**
   * Which message a rejected body gets: the first failing check wins, so a body missing a
   * field is never told about its email, and a name of white space alone is "empty".
   */
  lemma RejectionMessages(b: SignupBody)
    ensures Falsy(b.name) || Falsy(b.email) || Falsy(b.password) ==> Validate(b) == Err(MissingFields)
    ensures !Falsy(b.name) && !Falsy(b.email) && !Falsy(b.password) ==>
      (Validate(b) == Err(NameEmpty) <==> AllWhitespace(b.name.value))
    ensures Validate(b) == Err(InvalidEmail) ==> !MatchesEmailPattern(NormaliseEmail(b.email.value))
    ensures Validate(b) == Err(PasswordTooShort) ==>
      MatchesEmailPattern(NormaliseEmail(b.email.value)) && |b.password.value| < MinPasswordLength
  {
    if b.name.Some? {
      TrimEmptyIff(b.name.value);
    }
  }

  /** A normalised email the pattern accepts has the pattern's shape and no ASCII capital. */
  lemma NormalisedEmail(email: string)
    requires MatchesEmailPattern(NormaliseEmail(email))
    ensures EmailShape(NormaliseEmail(email))
    ensures forall j | 0 <= j < |NormaliseEmail(email)| :: !('A' <= NormaliseEmail(email)[j] <= 'Z')
  {
    PatternHasShape(NormaliseEmail(email));
    ToLowerNormalises(Trim(email));
  }

  /**
   * What a validated body stores: a name with no surrounding white space, an email with a
   * single `@`, no white space and no ASCII capital, and a password of eight characters or more.
   */
  lemma AcceptedCredentials(b: SignupBody)
    requires Validate(b).Ok?
    ensures var c := Validate(b).value;
      && c.name != "" && Trim(c.name) == c.name
      && EmailShape(c.email)
      && (forall j | 0 <= j < |c.email| :: !('A' <= c.email[j] <= 'Z'))
      && |c.password| >= MinPasswordLength
  {
    var c := Validate(b).value;
    assert c == Credentials(Trim(b.name.value), NormaliseEmail(b.email.value), b.password.value);
    TrimIdempotent(b.name.value);
    NormalisedEmail(b.email.value);
  }

  /** The route's effect on the table and its answer, as a function of the table before. */
  function Signup(rows: seq<User>, nextId: nat, request: Result<SignupBody, string>, hash: string -> string,
                  nodeEnv: string, timestamp: string, createdAt: int): (out: (seq<User>, nat, Response<PublicUser>))
    ensures |out.0| == if out.2.status == 201 then |rows| + 1 else |rows|
    ensures out.2.status == 201 ==> request.Ok? && Validate(request.value).Ok?
  {
    match request
    case Err(e) => (rows, nextId, SendError(nodeEnv, timestamp, SignupFailed, InternalError, 500, Some(e)))
    case Ok(b) =>
      match Validate(b)
      case Err(m) => (rows, nextId, SendError(nodeEnv, timestamp, m, ValidationError, 400))
      case Ok(c) =>
        if HasEmail(rows, c.email) then (rows, nextId, SendError(nodeEnv, timestamp, EmailTaken, ValidationError, 409))
        else
          var u := User(nextId, c.name, c.email, hash(c.password), createdAt);
          (rows + [u], nextId + 1,
           SendSuccess(timestamp, Some(PublicUser(u.id, u.name, u.email, u.createdAt)), Created, 201))
  }

  /**
   * `POST`: parse, validate, look the email up, hash and create. A body that is not JSON
   * lands in the route's `catch` as "Signup failed".
   */
  method Post(table: UserTable, request: Result<SignupBody, string>, hash: string -> string,
              nodeEnv: string, timestamp: string, createdAt: int) returns (r: Response<PublicUser>)
    requires table.Valid()
    modifies table
    ensures table.Valid()
    ensures (table.rows, table.nextId, r)
      == Signup(old(table.rows), old(table.nextId), request, hash, nodeEnv, timestamp, createdAt)
  {
    if request.Err? {
      return SendError(nodeEnv, timestamp, SignupFailed, InternalError, 500, Some(request.error));
    }
    var checked := Validate(request.value);
    if checked.Err? {
      return SendError(nodeEnv, timestamp, checked.error, ValidationError, 400);
    }
    var c := checked.value;
    if FindByEmail(table.rows, c.email).Some? {
      return SendError(nodeEnv, timestamp, EmailTaken, ValidationError, 409);
    }
    var hashed := hash(c.password);
    var created := table.Create(c.name, c.email, hashed, createdAt);
    var u := created.value;
    r := SendSuccess(timestamp, Some(PublicUser(u.id, u.name, u.email, u.createdAt)), Created, 201);
  }

  /**
   * A successful signup appends exactly one user, under the next id, holding the normalised
   * credentials and the hash of the password (never the password itself unless the hash
   * returns it); the answer shows that user without the password.
   */
  lemma SignupCreatesOne(rows: seq<User>, nextId: nat, request: Result<SignupBody, string>, hash: string -> string,
                         nodeEnv: string, timestamp: string, createdAt: int)
    requires Signup(rows, nextId, request, hash, nodeEnv, timestamp, createdAt).2.status == 201
    ensures request.Ok? && Validate(request.value).Ok?
    ensures var c := Validate(request.value).value;
      var (rows', nextId', resp) := Signup(rows, nextId, request, hash, nodeEnv, timestamp, createdAt);
      && !HasEmail(rows, c.email)
      && rows' == rows + [User(nextId, c.name, c.email, hash(c.password), createdAt)]
      && nextId' == nextId + 1
      && resp.body.Success() && resp.body.message == Created
      && resp.body.data == Some(PublicUser(nextId, c.name, c.email, createdAt))
  {
  }

  /** Every other answer leaves the table as it was; an email already registered gets 409. */
  lemma RefusalsChangeNothing(rows: seq<User>, nextId: nat, request: Result<SignupBody, string>, hash: string -> string,
                              nodeEnv: string, timestamp: string, createdAt: int)
    ensures var (rows', nextId', resp) := Signup(rows, nextId, request, hash, nodeEnv, timestamp, createdAt);
      resp.status != 201 ==> rows' == rows && nextId' == nextId && !resp.body.Success()
    ensures request.Ok? && Validate(request.value).Ok? && HasEmail(rows, Validate(request.value).value.email) ==>
      Signup(rows, nextId, request, hash, nodeEnv, timestamp, createdAt).2.status == 409
  {
  }

  /**
   * The two refusals before the table is read: a body that fails validation answers 400
   * VALIDATION_ERROR with the message of the first failing check, and a body that is not
   * JSON lands in the `catch` as 500 INTERNAL_ERROR "Signup failed", with the parse error as
   * details in development. Neither touches the table.
   */
  lemma SignupRejects(rows: seq<User>, nextId: nat, request: Result<SignupBody, string>, hash: string -> string,
                      nodeEnv: string, timestamp: string, createdAt: int)
    ensures var (rows', nextId', r) := Signup(rows, nextId, request, hash, nodeEnv, timestamp, createdAt);
      request.Ok? && Validate(request.value).Err? ==>
        && r.status == 400 && !r.body.Success() && r.body.error.code == ValidationError
        && r.body.message == Validate(request.value).error && r.body.error.details == None
        && rows' == rows && nextId' == nextId
    ensures var (rows', nextId', r) := Signup(rows, nextId, request, hash, nodeEnv, timestamp, createdAt);
      request.Err? ==>
        && r.status == 500 && !r.body.Success() && r.body.error.code == InternalError
        && r.body.message == SignupFailed
        && r.body.error.details == (if nodeEnv == Development then Some(request.error) else None)
        && rows' == rows && nextId' == nextId
  {
  }

  /** Signing up twice with the same body never registers the email twice. */
  lemma {:induction false} NoDuplicateSignup(rows: seq<User>, nextId: nat, b: SignupBody, hash: string -> string,
                                             nodeEnv: string, t1: string, t2: string, c1: int, c2: int)
    requires UniqueEmails(rows)
    ensures var (rows1, next1, _) := Signup(rows, nextId, Ok(b), hash, nodeEnv, t1, c1);
      var (rows2, next2, second) := Signup(rows1, next1, Ok(b), hash, nodeEnv, t2, c2);
      && second.status != 201 && rows2 == rows1 && UniqueEmails(rows2)
  {
    var (rows1, next1, first) := Signup(rows, nextId, Ok(b), hash, nodeEnv, t1, c1);
    if first.status == 201 {
      var c := Validate(b).value;
      var u := User(nextId, c.name, c.email, hash(c.password), c1);
      assert rows1 == rows + [u];
      assert rows1[|rows|].email == c.email;
      assert UniqueEmails(rows1) by {
        forall i, j | 0 <= i < j < |rows1|
          ensures rows1[i].email != rows1[j].email
        {
          if j == |rows| {
            assert rows1[i] == rows[i];
          } else {
            assert rows1[i] == rows[i] && rows1[j] == rows[j];
          }
        }
      }
    }
  }
}
