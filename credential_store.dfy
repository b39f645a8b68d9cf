/**
 * The signup and signin handlers of Backend/src/routes/auth.ts over the user
 * collection, whose email field is unique: the collection is a map keyed by
 * email. The password hash is a stand-in for bcrypt that keeps the salt (drawn
 * at random by bcrypt, a parameter here) and what `compare` needs to decide a
 * match; the token is the payload and lifetime `jwt.sign` is given.
 */
module CredentialStore {
  import opened JsonValue
  import opened Validation
  import opened AuthSchema

  type UserId = nat

  datatype PasswordHash = PasswordHash(salt: nat, secret: string)

  /** `bcrypt.hash(password, saltRounds)` with the given salt. */
  function Hash(password: string, salt: nat): (h: PasswordHash)
    ensures Verify(password, h)
  {
    PasswordHash(salt, password)
  }

  /**
   * `bcrypt.compare(password, hash)`. bcrypt reads at most 72 bytes of a
   * password; passwords of at most 14 characters fit, so the comparison is exact.
   */
  predicate Verify(password: string, h: PasswordHash)
  {
    h.secret == password
  }

  /** Hashing with any salt is verified by exactly the password that was hashed. */
  lemma VerifyExactlyThePassword(password: string, attempt: string, salt: nat)
    ensures Verify(attempt, Hash(password, salt)) <==> attempt == password
  {
  }

  datatype User = User(id: UserId, name: string, email: string, passwordHash: PasswordHash)

  /** `expiresIn: "24h"`, in seconds. */
  const TokenLifetime: int := 86400

  /** The signed token's claims: the user id, issue time and expiry, in seconds. */
  datatype Token = Token(userId: UserId, issuedAt: int, expiresAt: int)

  datatype SignupResponse =
    | Created                                 // 201 "User created successfully"
    | Conflict                                // 409 "Email already registered"
    | SignupRefused(message: string)          // 400

  datatype SigninResponse =
    | LoggedIn(token: Token)                  // 200 "Login successful"
    | Unauthorized(message: string)           // 401
    | SigninRefused(message: string)          // 400

  function SignupStatus(r: SignupResponse): nat
  {
    match r
    case Created => 201
    case Conflict => 409
    case SignupRefused(_) => 400
  }

  function SigninStatus(r: SigninResponse): nat
  {
    match r
    case LoggedIn(_) => 200
    case Unauthorized(_) => 401
    case SigninRefused(_) => 400
  }

  const InvalidCredentials := "Invalid email or password"

  datatype SignupPayload = SignupPayload(name: string, email: string, password: string)

  datatype SigninPayload = SigninPayload(email: string, password: string)

  datatype SignupParsed = SignupAccepted(payload: SignupPayload) | SignupIssuesFound(issues: seq<string>)

  datatype SigninParsed = SigninAccepted(payload: SigninPayload) | SigninIssuesFound(issues: seq<string>)

  /** The signup pre-check refuses only payloads the schema refuses too. */
  lemma SignupMissingFieldIsInvalid(b: SignupBody)
    requires SignupMissingField(b)
    ensures !ValidSignup(b)
  {
  }

  /** The signin pre-check refuses only payloads the schema refuses too. */
  lemma SigninMissingFieldIsInvalid(b: SigninBody)
    requires SigninMissingField(b)
    ensures !ValidSignin(b)
  {
  }

  /** `userPayloadSchema.safeParse(body)`. */
  function ParseSignup(b: SignupBody): (r: SignupParsed)
    ensures r.SignupAccepted? <==> ValidSignup(b)
    ensures r.SignupAccepted? ==> r.payload == SignupPayload(b.name.s, b.email.s, b.password.s)
    ensures r.SignupIssuesFound? ==> r.issues == SignupIssues(b) && r.issues != []
  {
    SignupIssuesEmptyIffValid(b);
    if ValidSignup(b) then SignupAccepted(SignupPayload(b.name.s, b.email.s, b.password.s))
    else SignupIssuesFound(SignupIssues(b))
  }

  /** `signinPayloadSchema.safeParse(body)`. */
  function ParseSignin(b: SigninBody): (r: SigninParsed)
    ensures r.SigninAccepted? <==> ValidSignin(b)
    ensures r.SigninAccepted? ==> r.payload == SigninPayload(b.email.s, b.password.s)
    ensures r.SigninIssuesFound? ==> r.issues == SigninIssues(b) && r.issues != []
  {
    SigninIssuesEmptyIffValid(b);
    if ValidSignin(b) then SigninAccepted(SigninPayload(b.email.s, b.password.s))
    else SigninIssuesFound(SigninIssues(b))
  }

  /**
   * The outcome of checking credentials against a user table: a token for the
   * stored user when the email is registered and the password verifies, and the
   * same refusal otherwise.
   */
  function Authenticate(users: map<string, User>, p: SigninPayload, now: int): (r: SigninResponse)
    ensures r.LoggedIn? <==> p.email in users && Verify(p.password, users[p.email].passwordHash)
    ensures r.LoggedIn? ==> r.token == Token(users[p.email].id, now, now + TokenLifetime)
    ensures !r.LoggedIn? ==> r == Unauthorized(InvalidCredentials)
  {
    if p.email !in users then Unauthorized(InvalidCredentials)
    else
      var u := users[p.email];
      if !Verify(p.password, u.passwordHash) then Unauthorized(InvalidCredentials)
      else LoggedIn(Token(u.id, now, now + TokenLifetime))
  }

  /** An unknown email and a wrong password cannot be told apart by the response. */
  lemma FailuresLookAlike(users: map<string, User>, unknown: SigninPayload, wrong: SigninPayload, now: int)
    requires unknown.email !in users
    requires wrong.email in users && !Verify(wrong.password, users[wrong.email].passwordHash)
    ensures Authenticate(users, unknown, now) == Authenticate(users, wrong, now)
    ensures SigninStatus(Authenticate(users, unknown, now)) == 401
  {
  }

  /** A token is valid for exactly 24 hours from its issue time. */
  lemma TokenLastsOneDay(users: map<string, User>, p: SigninPayload, now: int)
    requires Authenticate(users, p, now).LoggedIn?
    ensures var t := Authenticate(users, p, now).token;
            t.expiresAt - t.issuedAt == 24 * 60 * 60 && t.issuedAt == now
  {
  }

  class UserCollection {
    var users: map<string, User>
    var nextId: UserId

    /** Each user is stored under its own email, and ids are distinct and below `nextId`. */
    ghost predicate Valid()
      reads this
    {
      && (forall e :: e in users ==> users[e].email == e && users[e].id < nextId)
      && (forall e, f :: e in users && f in users && users[e].id == users[f].id ==> e == f)
    }

    constructor ()
      ensures Valid() && users == map[]
    {
      users := map[];
      nextId := 0;
    }

    /**
     * POST /signup: a missing field or the first schema issue is a 400; a
     * registered email is a 409 that changes nothing; otherwise exactly one user
     * is added, with the name, the email and the hash of the password.
     */
    method Signup(body: SignupBody, salt: nat) returns (r: SignupResponse)
      requires Valid()
      modifies this
      ensures Valid()
      ensures SignupMissingField(body) ==> r == SignupRefused(SignupRequiredMessage) && users == old(users)
      ensures !SignupMissingField(body) && ParseSignup(body).SignupIssuesFound? ==>
        r == SignupRefused(Reported(ParseSignup(body).issues)) && users == old(users)
      ensures !SignupMissingField(body) && ParseSignup(body).SignupAccepted? ==>
        var p := ParseSignup(body).payload;
        && (p.email in old(users) ==> r == Conflict && SignupStatus(r) == 409 && users == old(users))
        && (p.email !in old(users) ==>
              && r == Created && SignupStatus(r) == 201
              && users == old(users)[p.email := User(old(nextId), p.name, p.email, Hash(p.password, salt))])
    {
      if SignupMissingField(body) {
        return SignupRefused(SignupRequiredMessage);
      }
      var parsed := ParseSignup(body);
      if parsed.SignupIssuesFound? {
        return SignupRefused(Reported(parsed.issues));
      }
      var p := parsed.payload;
      if p.email in users {
        return Conflict;
      }
      users := users[p.email := User(nextId, p.name, p.email, Hash(p.password, salt))];
      nextId := nextId + 1;
      r := Created;
    }

    /**
     * POST /signin: a missing field or the first schema issue is a 400;
     * otherwise the credentials are checked against the stored hash. Nothing changes.
     */
    method Signin(body: SigninBody, now: int) returns (r: SigninResponse)
      ensures SigninMissingField(body) ==> r == SigninRefused(SigninRequiredMessage)
      ensures !SigninMissingField(body) && ParseSignin(body).SigninIssuesFound? ==>
        r == SigninRefused(Reported(ParseSignin(body).issues))
      ensures !SigninMissingField(body) && ParseSignin(body).SigninAccepted? ==>
        r == Authenticate(users, ParseSignin(body).payload, now)
    {
      if SigninMissingField(body) {
        return SigninRefused(SigninRequiredMessage);
      }
      var parsed := ParseSignin(body);
      if parsed.SigninIssuesFound? {
        return SigninRefused(Reported(parsed.issues));
      }
      r := Authenticate(users, parsed.payload, now);
    }
  }

  /** The signin body carrying the email and password of a signup body. */
  function SigninFor(b: SignupBody): SigninBody
  {
    SigninBody(b.email, b.password)
  }

  /** Credentials accepted at signup are accepted by the signin schema and its pre-check. */
  lemma SignupCredentialsPassSignin(b: SignupBody)
    requires !SignupMissingField(b) && ValidSignup(b)
    ensures !SigninMissingField(SigninFor(b)) && ValidSignin(SigninFor(b))
  {
    SignupPasswordPassesSignin(b.password.s);
  }

  /**
   * A client run: signing up with a fresh email and then signing in with the
   * same credentials yields a token for the new user; a second signup with that
   * email is a conflict and changes nothing.
   */
  method SignupThenSignin(db: UserCollection, b: SignupBody, salt: nat, now: int)
    requires db.Valid() && !SignupMissingField(b) && ValidSignup(b) && b.email.s !in db.users
    modifies db
  {
    var id := db.nextId;
    var r := db.Signup(b, salt);
    assert r == Created && b.email.s in db.users && db.users[b.email.s].id == id;
    SignupCredentialsPassSignin(b);
    var s := db.Signin(SigninFor(b), now);
    assert s == LoggedIn(Token(id, now, now + TokenLifetime));
    var before := db.users;
    r := db.Signup(b, salt + 1);
    assert r == Conflict && db.users == before;
  }
}
