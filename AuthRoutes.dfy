/**
 * The backend's account routes: local signup and login, Google login with
 * find-by-google-id, else link-by-email, else create, and logout. The
 * field checks and the login decision are functions; the handlers are
 * methods over the `Database` of `Tables`. bcrypt, `jwt.verify` and Google's
 * `verifyIdToken` are parameters.
 */
module AuthRoutes {
  import opened Wrappers
  import opened Tables
  import opened Bearer

  /** `bcrypt.hash(password, salt)` for the salt this request drew. */
  type Hasher = string -> string

  /** `bcrypt.compare(password, hash)`. */
  type PasswordCheck = (string, string) -> bool

  /** The fields of a verified Google ID token the handler reads. */
  datatype GooglePayload = GooglePayload(sub: string, email: string, name: Option<string>, picture: Option<string>)

  /** `googleClient.verifyIdToken` and `getPayload`: None when verification throws. */
  type GoogleVerifier = string -> Option<GooglePayload>

  const TokenLifetimeDays: nat := 7

  /** What `jwt.sign` is given: the claims, and `expiresIn: '7d'`. */
  datatype Token = Token(claims: Claims, expiresInDays: nat)

  /** The user object of a login response. */
  datatype UserView = UserView(id: int, email: string, name: Option<string>, picture: Option<string>, provider: Provider)

  const MissingSignupFieldsMessage: string := "Nama, email, dan password harus diisi"
  const InvalidEmailMessage: string := "Email tidak valid"
  const ShortPasswordMessage: string := "Password minimal 6 karakter"
  const EmailTakenMessage: string := "Email sudah terdaftar. Silakan login atau gunakan email lain."
  const SignedUpMessage: string := "Pendaftaran berhasil! Silakan login dengan akun Anda."
  const SignupFailedMessage: string := "Gagal mendaftar"
  const MissingLoginFieldsMessage: string := "Email dan password harus diisi"
  const WrongCredentialsMessage: string := "Email atau password salah"
  const GoogleAccountMessage: string := "Akun ini terdaftar dengan Google. Silakan login dengan Google."
  const LoggedInMessage: string := "Login berhasil"
  const LoginFailedMessage: string := "Gagal login"
  const MissingCredentialMessage: string := "Credential diperlukan"
  const GoogleFailedMessage: string := "Verifikasi Google gagal"
  const LogoutMessage: string := "Logout berhasil"

  /** The answers of these routes. A signup answer carries no password hash. */
  datatype Reply =
    | Rejected(status: int, message: string)
    | SignedUp(id: int, email: string, name: Option<string>)
    | LoggedIn(user: UserView, token: Token)
    | LoggedOut(message: string)
  {
    function Status(): int {
      match this
      case Rejected(status, _) => status
      case SignedUp(_, _, _) => 201
      case _ => 200
    }

    function Message(): string {
      match this
      case Rejected(_, message) => message
      case SignedUp(_, _, _) => SignedUpMessage
      case LoggedIn(_, _) => LoggedInMessage
      case LoggedOut(message) => message
    }
  }

  /** A JavaScript string value is truthy when present and not empty. */
  predicate Truthy(s: Option<string>) {
    s.Some? && s.value != ""
  }

  /** `user.picture || picture`. */
  function PictureOr(stored: Option<string>, given: Option<string>): (r: Option<string>)
    ensures Truthy(stored) ==> r == stored
    ensures !Truthy(stored) ==> r == given
  {
    if Truthy(stored) then stored else given
  }

  /** The token issued for an account: its id, email and name, valid for seven days. */
  function TokenFor(a: Account): Token {
    Token(Claims(a.id, a.email, a.name), TokenLifetimeDays)
  }

  // ---------------------------------------------------------------------
  // Signup
  // ---------------------------------------------------------------------

  /**
   * The field checks of POST /signup, in order, an absent field being "":
   * all three given, an '@' in the email, a password of six characters or more.
   */
  function SignupCheck(name: string, email: string, password: string): (error: Option<string>)
    ensures error == Some(MissingSignupFieldsMessage) <==> name == "" || email == "" || password == ""
    ensures error == Some(InvalidEmailMessage) <==> name != "" && email != "" && password != "" && '@' !in email
    ensures error == Some(ShortPasswordMessage) <==>
      name != "" && email != "" && password != "" && '@' in email && |password| < 6
    ensures error.None? <==> name != "" && email != "" && '@' in email && |password| >= 6
  {
    if name == "" || email == "" || password == "" then Some(MissingSignupFieldsMessage)
    else if '@' !in email then Some(InvalidEmailMessage)
    else if |password| < 6 then Some(ShortPasswordMessage)
    else None
  }

  /**
   * POST /signup: after the field checks, a registered email is a 400;
   * otherwise one 'local' user with the hashed password and one SIGNUP log
   * holding the request's ip are added. An insert that fails (a value too
   * long for its column) is a 500, and the user id sequence has advanced.
   */
  method Signup(db: Database, name: string, email: string, password: string, hash: Hasher, ip: JsonValue, now: int)
    returns (reply: Reply)
    requires db.Valid()
    modifies db
    ensures db.Valid()
    ensures db.predictions == old(db.predictions) && db.nextPredictionId == old(db.nextPredictionId)
    ensures SignupCheck(name, email, password).Some? ==>
      reply == Rejected(400, SignupCheck(name, email, password).value) && unchanged(db)
    ensures SignupCheck(name, email, password).None? && old(db.FindUserByEmail(email)).Some? ==>
      reply == Rejected(400, EmailTakenMessage) && unchanged(db)
    ensures SignupCheck(name, email, password).None? && old(db.FindUserByEmail(email)).None? ==>
      && db.nextUserId == old(db.nextUserId) + 1
      && if LocalInsertAllowed(old(db.users), email, Some(name), hash(password)) then
           var u := LocalUser(old(db.nextUserId), email, Some(name), hash(password), now);
           && db.users == old(db.users) + [u]
           && db.history == old(db.history) + [HistoryEntry(old(db.nextHistoryId), u.id, "SIGNUP",
                                                             Stringify([Member("ip", ip)]), now)]
           && db.nextHistoryId == old(db.nextHistoryId) + 1
           && reply == SignedUp(u.id, email, Some(name))
         else
           && db.users == old(db.users) && db.history == old(db.history)
           && db.nextHistoryId == old(db.nextHistoryId)
           && reply == Rejected(500, SignupFailedMessage)
  {
    var error := SignupCheck(name, email, password);
    if error.Some? {
      return Rejected(400, error.value);
    }
    var existing := db.FindUserByEmail(email);
    if existing.Some? {
      return Rejected(400, EmailTakenMessage);
    }
    var passwordHash := hash(password);
    var created := db.CreateLocalUser(email, Some(name), passwordHash, now);
    if created.None? {
      return Rejected(500, SignupFailedMessage);
    }
    var a := created.value;
    assert db.users[|db.users| - 1].id == a.id;
    var logged := db.CreateHistoryLog(a.id, "SIGNUP", Some([Member("ip", ip)]), now);
    if logged.None? {
      return Rejected(500, SignupFailedMessage);
    }
    reply := SignedUp(a.id, a.email, a.name);
  }

  // ---------------------------------------------------------------------
  // Login
  // ---------------------------------------------------------------------

  /** What POST /login decides once the user is looked up by email. */
  datatype LoginStep = LoginRefused(status: int, message: string) | Accepted(user: User)

  /**
   * The decision chain of POST /login, `found` being `findUserByEmail(email)`:
   * missing fields, an unknown email, a Google account without a password
   * hash (before any compare), a password that does not match. A local row
   * with a NULL hash makes bcrypt throw, which is the 500.
   */
  function LoginDecision(email: string, password: string, found: Option<User>, compare: PasswordCheck): (step: LoginStep)
    ensures email == "" || password == "" ==> step == LoginRefused(400, MissingLoginFieldsMessage)
    ensures email != "" && password != "" && found.None? ==> step == LoginRefused(401, WrongCredentialsMessage)
    ensures (email != "" && password != "" && found.Some? && found.value.provider == Google
             && !Truthy(found.value.passwordHash)) ==> step == LoginRefused(401, GoogleAccountMessage)
    ensures step.Accepted? <==>
      && email != "" && password != "" && found.Some? && found.value.passwordHash.Some?
      && !(found.value.provider == Google && !Truthy(found.value.passwordHash))
      && compare(password, found.value.passwordHash.value)
    ensures step.Accepted? ==> step.user == found.value
    ensures step == LoginRefused(500, LoginFailedMessage) <==>
      email != "" && password != "" && found.Some? && found.value.provider == Local && found.value.passwordHash.None?
  {
    if email == "" || password == "" then LoginRefused(400, MissingLoginFieldsMessage)
    else
      match found
      case None => LoginRefused(401, WrongCredentialsMessage)
      case Some(u) =>
        if u.provider == Google && !Truthy(u.passwordHash) then LoginRefused(401, GoogleAccountMessage)
        else
          match u.passwordHash
          case None => assert u.provider == Local; LoginRefused(500, LoginFailedMessage)
          case Some(h) => if compare(password, h) then Accepted(u) else LoginRefused(401, WrongCredentialsMessage)
  }

  /** An unknown email and a wrong password get the same answer, so the answer does not reveal which emails exist. */
  lemma WrongPasswordLooksLikeUnknownEmail(email: string, password: string, u: User, compare: PasswordCheck)
    requires email != "" && password != ""
    requires u.passwordHash.Some? && !(u.provider == Google && !Truthy(u.passwordHash))
    requires !compare(password, u.passwordHash.value)
    ensures LoginDecision(email, password, Some(u), compare) == LoginDecision(email, password, None, compare)
  {
  }

  /**
   * The user a successful signup adds can log in with the same password,
   * given that bcrypt accepts a password against its own hash.
   */
  lemma SignedUpUserCanLogIn(db: Database, u: User, password: string, compare: PasswordCheck)
    requires db.Valid() && u in db.users
    requires u.email != "" && password != "" && u.provider == Local
    requires u.passwordHash.Some? && compare(password, u.passwordHash.value)
    ensures LoginDecision(u.email, password, db.FindUserByEmail(u.email), compare) == Accepted(u)
  {
    db.EmailIdentifiesUser(u.email);
  }

  /** The user object of a login response for a stored user. */
  function ViewOf(u: User): UserView {
    UserView(u.id, u.email, u.name, u.picture, u.provider)
  }

  /**
   * POST /login: the users table is never changed; an accepted login gets a
   * seven-day token with the user's id, email and name, and one LOGIN log.
   */
  method Login(db: Database, email: string, password: string, compare: PasswordCheck, ip: JsonValue, now: int)
    returns (reply: Reply)
    requires db.Valid()
    modifies db
    ensures db.Valid()
    ensures db.users == old(db.users) && db.predictions == old(db.predictions)
    ensures db.nextUserId == old(db.nextUserId) && db.nextPredictionId == old(db.nextPredictionId)
    ensures var step := LoginDecision(email, password, old(db.FindUserByEmail(email)), compare);
      && (step.LoginRefused? ==>
           reply == Rejected(step.status, step.message)
           && db.history == old(db.history) && db.nextHistoryId == old(db.nextHistoryId))
      && (step.Accepted? ==>
           var u := step.user;
           && reply == LoggedIn(ViewOf(u), Token(Claims(u.id, u.email, u.name), TokenLifetimeDays))
           && db.history == old(db.history) + [HistoryEntry(old(db.nextHistoryId), u.id, "LOGIN",
                                                             Stringify([Member("ip", ip)]), now)]
           && db.nextHistoryId == old(db.nextHistoryId) + 1)
  {
    var found := if email == "" then None else db.FindUserByEmail(email);
    var step := LoginDecision(email, password, found, compare);
    if step.LoginRefused? {
      return Rejected(step.status, step.message);
    }
    var u := step.user;
    assert u in db.users;
    var token := Token(Claims(u.id, u.email, u.name), TokenLifetimeDays);
    var logged := db.CreateHistoryLog(u.id, "LOGIN", Some([Member("ip", ip)]), now);
    if logged.None? {
      return Rejected(500, LoginFailedMessage);
    }
    reply := LoggedIn(ViewOf(u), token);
  }

  // ---------------------------------------------------------------------
  // Google login
  // ---------------------------------------------------------------------

  /** The users table after the find-or-link-or-create step, and the account it yields (None when a query throws). */
  datatype Resolution = Resolution(users: seq<User>, account: Option<Account>)

  /** Whether the step creates a user: neither the google id nor the email is known. */
  predicate CreatesUser(us: seq<User>, p: GooglePayload) {
    IndexOfGoogleId(us, p.sub).None? && IndexOfEmail(us, p.email).None?
  }

  /**
   * The find-or-link-or-create step: a user holding the google id is taken
   * as it is; else the row with the payload's email gets the Google name,
   * id and picture; else a 'google' user is created. Only the last adds a row.
   */
  function Resolve(us: seq<User>, next: int, p: GooglePayload, now: int): (r: Resolution)
    ensures IndexOfGoogleId(us, p.sub).Some? ==>
      r == Resolution(us, Some(AccountOf(us[IndexOfGoogleId(us, p.sub).value])))
    ensures IndexOfGoogleId(us, p.sub).None? && IndexOfEmail(us, p.email).Some? ==>
      var i := IndexOfEmail(us, p.email).value;
      |r.users| == |us| && (r.account.Some? ==> r.users == us[i := Linked(us[i], p.name, p.sub, p.picture, now)])
    ensures |r.users| == |us| + 1 <==> CreatesUser(us, p) && r.account.Some?
    ensures |r.users| <= |us| + 1
    ensures r.account.None? ==> r.users == us
    ensures CreatesUser(us, p) && r.account.Some? ==> r.users == us + [GoogleUser(next, p.email, p.name, p.sub, p.picture, now)]
    ensures r.account.Some? ==> r.account.value.email == p.email || r.users == us
  {
    match IndexOfGoogleId(us, p.sub)
    case Some(i) => Resolution(us, Some(AccountOf(us[i])))
    case None =>
      match IndexOfEmail(us, p.email)
      case Some(i) =>
        if LinkAllowed(us, i, p.name, p.sub, p.picture) then
          var u := Linked(us[i], p.name, p.sub, p.picture, now);
          Resolution(us[i := u], Some(AccountOf(u)))
        else Resolution(us, None)
      case None =>
        if GoogleInsertAllowed(us, p.email, p.name, p.sub, p.picture) then
          var u := GoogleUser(next, p.email, p.name, p.sub, p.picture, now);
          Resolution(us + [u], Some(AccountOf(u)))
        else Resolution(us, None)
  }

  /**
   * After the step, the google id finds the account it yielded, whose id is
   * a user's id: a second Google login with the same payload takes that user
   * unchanged.
   */
  lemma {:induction false} ResolvedAccountIsFound(us: seq<User>, next: int, p: GooglePayload, now: int)
    requires Resolve(us, next, p, now).account.Some?
    ensures var r := Resolve(us, next, p, now);
      && IndexOfGoogleId(r.users, p.sub).Some?
      && AccountOf(r.users[IndexOfGoogleId(r.users, p.sub).value]) == r.account.value
      && r.account.value.id in IdsOf(r.users)
  {
    var r := Resolve(us, next, p, now);
    match IndexOfGoogleId(us, p.sub)
    case Some(i) =>
      assert us[i] in us;
    case None =>
      match IndexOfEmail(us, p.email)
      case Some(i) =>
        var u := Linked(us[i], p.name, p.sub, p.picture, now);
        assert r.users == us[i := u];
        assert r.users[i].googleId == Some(p.sub);
        assert forall j :: 0 <= j < i ==> r.users[j] == us[j];
        assert IndexOfGoogleId(r.users, p.sub) == Some(i);
        assert r.users[i] in r.users;
      case None =>
        var u := GoogleUser(next, p.email, p.name, p.sub, p.picture, now);
        assert r.users == us + [u];
        assert r.users[|us|] == u && u.googleId == Some(p.sub);
        assert forall j :: 0 <= j < |us| ==> r.users[j] == us[j] && us[j].googleId != Some(p.sub);
        assert IndexOfGoogleId(r.users, p.sub) == Some(|us|);
        assert r.users[|us|] in r.users;
  }

  /** A second Google login with the same payload changes no user and yields the same account. */
  lemma ResolveIsIdempotent(us: seq<User>, next: int, next2: int, p: GooglePayload, now: int, now2: int)
    requires Resolve(us, next, p, now).account.Some?
    ensures var r := Resolve(us, next, p, now);
      Resolve(r.users, next2, p, now2) == r
  {
    ResolvedAccountIsFound(us, next, p, now);
  }

  /** The find-or-link-or-create step of POST /google (lines 150-163) on the database. */
  method ResolveGoogleUser(db: Database, p: GooglePayload, now: int) returns (account: Option<Account>)
    requires db.Valid()
    modifies db
    ensures db.Valid()
    ensures Resolution(db.users, account) == Resolve(old(db.users), old(db.nextUserId), p, now)
    ensures db.nextUserId == old(db.nextUserId) + (if CreatesUser(old(db.users), p) then 1 else 0)
    ensures db.predictions == old(db.predictions) && db.history == old(db.history)
    ensures db.nextPredictionId == old(db.nextPredictionId) && db.nextHistoryId == old(db.nextHistoryId)
  {
    var byGoogleId := db.FindUserByGoogleId(p.sub);
    if byGoogleId.Some? {
      return Some(AccountOf(byGoogleId.value));
    }
    var byEmail := db.FindUserByEmail(p.email);
    if byEmail.Some? {
      var linked := db.UpdateGoogleUser(p.email, p.name, p.sub, p.picture, now);
      account := if linked.Done? then Some(linked.value) else None;
    } else {
      account := db.CreateGoogleUser(p.email, p.name, p.sub, p.picture, now);
    }
  }

  /**
   * POST /google: a missing credential is a 400; every later failure,
   * verification included, is the 401 of the catch block. The token carries
   * the stored user's id, email and name; the answer's picture is the stored
   * one, or the Google one when the stored one is empty.
   */
  method GoogleLogin(db: Database, credential: string, verifyGoogle: GoogleVerifier, ip: JsonValue, now: int)
    returns (reply: Reply)
    requires db.Valid()
    modifies db
    ensures db.Valid()
    ensures db.predictions == old(db.predictions) && db.nextPredictionId == old(db.nextPredictionId)
    ensures credential == "" ==> reply == Rejected(400, MissingCredentialMessage) && unchanged(db)
    ensures credential != "" && verifyGoogle(credential).None? ==>
      reply == Rejected(401, GoogleFailedMessage) && unchanged(db)
    ensures credential != "" && verifyGoogle(credential).Some? ==>
      var p := verifyGoogle(credential).value;
      var r := Resolve(old(db.users), old(db.nextUserId), p, now);
      && db.users == r.users
      && db.nextUserId == old(db.nextUserId) + (if CreatesUser(old(db.users), p) then 1 else 0)
      && (r.account.None? ==>
            reply == Rejected(401, GoogleFailedMessage)
            && db.history == old(db.history) && db.nextHistoryId == old(db.nextHistoryId))
      && (r.account.Some? ==>
            var a := r.account.value;
            && reply == LoggedIn(UserView(a.id, a.email, a.name, PictureOr(a.picture, p.picture), a.provider), TokenFor(a))
            && db.history == old(db.history) + [HistoryEntry(old(db.nextHistoryId), a.id, "LOGIN_GOOGLE",
                                                              Stringify([Member("ip", ip)]), now)]
            && db.nextHistoryId == old(db.nextHistoryId) + 1)
  {
    if credential == "" {
      return Rejected(400, MissingCredentialMessage);
    }
    var payload := verifyGoogle(credential);
    if payload.None? {
      return Rejected(401, GoogleFailedMessage);
    }
    var p := payload.value;
    ghost var before := db.users;
    ghost var next := db.nextUserId;
    var account := ResolveGoogleUser(db, p, now);
    if account.None? {
      return Rejected(401, GoogleFailedMessage);
    }
    var a := account.value;
    ResolvedAccountIsFound(before, next, p, now);
    var token := TokenFor(a);
    var logged := db.CreateHistoryLog(a.id, "LOGIN_GOOGLE", Some([Member("ip", ip)]), now);
    if logged.None? {
      return Rejected(401, GoogleFailedMessage);
    }
    reply := LoggedIn(UserView(a.id, a.email, a.name, PictureOr(a.picture, p.picture), a.provider), token);
  }

  // ---------------------------------------------------------------------
  // Logout
  // ---------------------------------------------------------------------

  /**
   * POST /logout: always "Logout berhasil". A well-formed header whose token
   * verifies writes a LOGOUT log for the token's user id, unless that insert
   * fails; a missing, malformed or invalid token writes nothing.
   */
  method Logout(db: Database, header: Option<string>, verify: Verifier, ip: JsonValue, now: int)
    returns (reply: Reply)
    requires db.Valid()
    modifies db
    ensures db.Valid()
    ensures reply == LoggedOut(LogoutMessage)
    ensures db.users == old(db.users) && db.predictions == old(db.predictions)
    ensures db.nextUserId == old(db.nextUserId) && db.nextPredictionId == old(db.nextPredictionId)
    ensures var claims := OptionalAuth(header, verify);
      && db.nextHistoryId == old(db.nextHistoryId) + (if claims.Some? then 1 else 0)
      && if claims.Some? && claims.value.userId in IdsOf(old(db.users)) then
           db.history == old(db.history) + [HistoryEntry(old(db.nextHistoryId), claims.value.userId, "LOGOUT",
                                                          Stringify([Member("ip", ip)]), now)]
         else
           db.history == old(db.history)
  {
    if WellFormed(header) {
      var decoded := verify(TokenOf(header.value));
      if decoded.Some? {
        var _ := db.CreateHistoryLog(decoded.value.userId, "LOGOUT", Some([Member("ip", ip)]), now);
      }
    }
    reply := LoggedOut(LogoutMessage);
  }
}
