/**
 * The authentication decisions of the server: the bearer-token check every
 * protected route runs first, POST /auth/login and POST /auth/forgot-password.
 * Token signing and verification, password hashing, the random reset token,
 * the clock and the mail service are parameters.
 */
module Auth {
  import opened Wrappers
  import Seqs
  import Text
  import Schema
  import opened Tables
  import Mutations

  // ------------------------------------------------------------ bearer token

  datatype AuthResult = Unauthorized(message: string) | Authenticated(caller: Mutations.Caller)

  /**
   * The token check in front of the protected routes: no header (or an empty
   * one) is "No token provided"; a header whose second blank-separated word is
   * missing or empty is "Token missing"; a token `verify` rejects is
   * "Invalid token". Whatever precedes the first blank is not looked at.
   */
  function Authenticate(header: Option<string>, verify: string -> Option<Mutations.Caller>): (r: AuthResult)
    ensures r.Authenticated? <==>
      header.Some? && header.value != "" && |Text.Split(header.value, ' ')| >= 2 &&
      Text.Split(header.value, ' ')[1] != "" && verify(Text.Split(header.value, ' ')[1]).Some?
    ensures r.Authenticated? ==> Some(r.caller) == verify(Text.Split(header.value, ' ')[1])
    ensures r == Unauthorized("No token provided") <==> header.None? || header.value == ""
    ensures r == Unauthorized("Token missing") <==>
      header.Some? && header.value != "" &&
      (|Text.Split(header.value, ' ')| < 2 || Text.Split(header.value, ' ')[1] == "")
    ensures r == Unauthorized("Invalid token") <==>
      header.Some? && header.value != "" && |Text.Split(header.value, ' ')| >= 2 &&
      Text.Split(header.value, ' ')[1] != "" && verify(Text.Split(header.value, ' ')[1]).None?
  {
    if header.None? || header.value == "" then Unauthorized("No token provided")
    else
      var words := Text.Split(header.value, ' ');
      if |words| < 2 || words[1] == "" then Unauthorized("Token missing")
      else
        match verify(words[1])
        case None => Unauthorized("Invalid token")
        case Some(c) => Authenticated(c)
  }

  /** "<scheme> <token>" splits into the scheme and the token when neither holds a blank. */
  lemma SplitSchemeToken(scheme: string, token: string)
    requires ' ' !in scheme && ' ' !in token
    ensures Text.Split(scheme + " " + token, ' ') == [scheme, token]
  {
    assert scheme + " " + token == scheme + [' '] + token;
    Text.SplitAfterPiece(scheme, token, ' ');
    Text.SplitWithoutSeparator(token, ' ');
  }

  /**
   * A token the verifier accepts, sent as "Bearer <token>", lets the caller
   * in with the claims the verifier decodes, and so does any other scheme word.
   */
  lemma BearerAccepted(scheme: string, token: string, verify: string -> Option<Mutations.Caller>, c: Mutations.Caller)
    requires ' ' !in scheme && ' ' !in token && token != ""
    requires verify(token) == Some(c)
    ensures Authenticate(Some(scheme + " " + token), verify) == Authenticated(c)
  {
    SplitSchemeToken(scheme, token);
  }

  /** A bare token without a scheme in front is never accepted. */
  lemma BareTokenMissing(token: string, verify: string -> Option<Mutations.Caller>)
    requires ' ' !in token && token != ""
    ensures Authenticate(Some(token), verify) == Unauthorized("Token missing")
  {
    Text.SplitWithoutSeparator(token, ' ');
  }

  // ------------------------------------------------------------ users by email

  /** JavaScript truthiness of a decoded JSON value; an absent key is undefined, which is falsy. */
  predicate Truthy(v: Option<Schema.Json>) {
    v.Some? && Schema.Truthy(v.value)
  }

  function EmailIs(email: Schema.Json): User -> bool {
    (u: User) => Schema.JStr(u.email) == email
  }

  /** `SELECT * FROM users WHERE email = $1`, first row. */
  function UserByEmail(users: seq<User>, email: Schema.Json): (r: Option<User>)
    ensures r.Some? ==> r.value in users && email == Schema.JStr(r.value.email)
    ensures r.None? <==> forall u :: u in users ==> email != Schema.JStr(u.email)
  {
    var hits := Seqs.Filter(users, EmailIs(email));
    Seqs.FilterMembers(users, EmailIs(email));
    if hits == [] then None
    else
      assert hits[0] in hits;
      Some(hits[0])
  }

  function Field(body: Schema.Body, key: string): Option<Schema.Json> {
    if key in body then Some(body[key]) else None
  }

  // ------------------------------------------------------------------- login

  /** A user row as the login answer returns it: every column but password_hash. */
  datatype PublicUser = PublicUser(
    id: string, name: string, email: string, role: string,
    reset_token: Option<string>, reset_expires_at: Option<int>,
    created_at: int, updated_at: int)

  function Public(u: User): (p: PublicUser)
    ensures p.id == u.id && p.email == u.email && p.role == u.role && p.name == u.name
  {
    PublicUser(u.id, u.name, u.email, u.role, u.reset_token, u.reset_expires_at, u.created_at, u.updated_at)
  }

  /** The claims the login token carries. */
  function Claims(u: User): Mutations.Caller {
    Mutations.Caller(u.id, u.email, u.role)
  }

  datatype LoginResult = LoginRejected(message: string) | LoginFailed | LoggedIn(token: string, user: PublicUser)

  const InvalidCredentials := "Invalid credentials"

  /**
   * POST /auth/login. `compare` stands for bcrypt's comparison of a password
   * with a stored hash; it fails (500) on a password that is not a string.
   * `sign` stands for signing the claims into a token.
   */
  function Login(db: Db, body: Schema.Body, compare: (string, string) -> bool, sign: Mutations.Caller -> string)
    : (r: LoginResult)
    ensures r == LoginRejected("Email and password are required") <==>
      !Truthy(Field(body, "email")) || !Truthy(Field(body, "password"))
    ensures r.LoggedIn? <==>
      && Truthy(Field(body, "email")) && "password" in body && body["password"].JStr?
      && body["password"].s != ""
      && UserByEmail(db.users, body["email"]).Some?
      && compare(body["password"].s, UserByEmail(db.users, body["email"]).value.password_hash)
    ensures r.LoggedIn? ==> var u := UserByEmail(db.users, body["email"]).value;
      r.user == Public(u) && r.token == sign(Claims(u))
  {
    var email, password := Field(body, "email"), Field(body, "password");
    if !Truthy(email) || !Truthy(password) then LoginRejected("Email and password are required")
    else
      match UserByEmail(db.users, email.value)
      case None => LoginRejected(InvalidCredentials)
      case Some(u) =>
        if !password.value.JStr? then LoginFailed
        else if !compare(password.value.s, u.password_hash) then LoginRejected(InvalidCredentials)
        else LoggedIn(sign(Claims(u)), Public(u))
  }

  /**
   * An unknown email and a wrong password get the same answer, so the login
   * route does not tell which emails are registered.
   */
  lemma LoginDoesNotRevealAccounts(db: Db, email: string, other: string, password: string,
                                   compare: (string, string) -> bool, sign: Mutations.Caller -> string)
    requires email != "" && other != "" && password != ""
    requires forall u :: u in db.users ==> u.email != other
    requires UserByEmail(db.users, Schema.JStr(email)).Some?
    requires !compare(password, UserByEmail(db.users, Schema.JStr(email)).value.password_hash)
    ensures Login(db, map["email" := Schema.JStr(email), "password" := Schema.JStr(password)], compare, sign)
         == Login(db, map["email" := Schema.JStr(other), "password" := Schema.JStr(password)], compare, sign)
         == LoginRejected(InvalidCredentials)
  {
  }

  /**
   * A login token, once verified, authenticates the user it was issued to
   * with that user's id, email and role: login and the token check agree.
   */
  lemma LoginTokenAuthenticates(db: Db, body: Schema.Body, compare: (string, string) -> bool,
                                sign: Mutations.Caller -> string, verify: string -> Option<Mutations.Caller>)
    requires Login(db, body, compare, sign).LoggedIn?
    requires forall c :: verify(sign(c)) == Some(c) && sign(c) != "" && ' ' !in sign(c)
    ensures var r := Login(db, body, compare, sign);
      Authenticate(Some("Bearer " + r.token), verify)
        == Authenticated(Mutations.Caller(r.user.id, r.user.email, r.user.role))
  {
    var r := Login(db, body, compare, sign);
    var u := UserByEmail(db.users, body["email"]).value;
    assert r.token == sign(Claims(u)) && r.user == Public(u);
    assert verify(r.token) == Some(Claims(u)) && r.token != "" && ' ' !in r.token;
    BearerAccepted("Bearer", r.token, verify, Claims(u));
    assert "Bearer" + " " + r.token == "Bearer " + r.token;
  }

  // --------------------------------------------------------- forgot password

  datatype ForgotResult = ForgotRejected(message: string) | ForgotFailed | ForgotAnswered(message: string)

  const UnknownEmailAnswer := "If a user with that email exists, reset instructions have been sent."
  const KnownEmailAnswer := "Password reset instructions sent"

  /** A reset is valid for one hour. */
  const ResetLifetime := 3600000

  /** The reset columns the route writes, in milliseconds since the epoch. */
  function WithReset(u: User, token: string, now: int): (v: User)
    ensures v.id == u.id && v.email == u.email && v.password_hash == u.password_hash
    ensures v.reset_token == Some(token) && v.reset_expires_at == Some(now + ResetLifetime)
    ensures v.updated_at == now
  {
    u.(reset_token := Some(token), reset_expires_at := Some(now + ResetLifetime), updated_at := now)
  }

  function UserIdIs(id: string): User -> bool {
    (u: User) => u.id == id
  }

  function ResetTo(token: string, now: int): User -> Option<User> {
    (u: User) => Some(WithReset(u, token, now))
  }

  /** `UPDATE users SET reset_token, reset_expires_at, updated_at WHERE id = user.id` */
  function StoreReset(db: Db, id: string, token: string, now: int): (db2: Db)
    ensures db2 == db.(users := db2.users) && |db2.users| == |db.users|
    ensures forall i :: 0 <= i < |db.users| ==>
      db2.users[i] == if db.users[i].id == id then WithReset(db.users[i], token, now) else db.users[i]
  {
    var rows := UpdateWhere(db.users, UserIdIs(id), ResetTo(token, now));
    UpdateWhereTotal(db.users, UserIdIs(id), ResetTo(token, now));
    db.(users := rows.value)
  }

  /**
   * POST /auth/forgot-password as written: an unknown email is told
   * UnknownEmailAnswer, a known one gets a reset token and KnownEmailAnswer.
   * `sent` is whether the mail service accepted the message; when it did not,
   * the reset is already stored and the answer is 500.
   */
  function ForgotPasswordAsWritten(db: Db, body: Schema.Body, token: string, now: int, sent: bool)
    : (r: (Db, ForgotResult))
    ensures r.1 == ForgotRejected("Email is required") <==> !Truthy(Field(body, "email"))
    ensures Truthy(Field(body, "email")) && UserByEmail(db.users, body["email"]).None? ==>
      r == (db, ForgotAnswered(UnknownEmailAnswer))
    ensures Truthy(Field(body, "email")) && UserByEmail(db.users, body["email"]).Some? ==>
      r.0 == StoreReset(db, UserByEmail(db.users, body["email"]).value.id, token, now) &&
      r.1 == if sent then ForgotAnswered(KnownEmailAnswer) else ForgotFailed
    ensures !Truthy(Field(body, "email")) ==> r.0 == db
  {
    var email := Field(body, "email");
    if !Truthy(email) then (db, ForgotRejected("Email is required"))
    else
      match UserByEmail(db.users, email.value)
      case None => (db, ForgotAnswered(UnknownEmailAnswer))
      case Some(u) =>
        var db2 := StoreReset(db, u.id, token, now);
        (db2, if sent then ForgotAnswered(KnownEmailAnswer) else ForgotFailed)
  }

  /** As written, the two answers differ, so the route tells whether an email is registered. */
  lemma ForgotPasswordRevealsAccounts(u: User, other: string, token: string, now: int)
    requires u.email != "" && other != u.email && other != ""
    ensures var db := Db([u], [], [], []);
      ForgotPasswordAsWritten(db, map["email" := Schema.JStr(u.email)], token, now, true).1
        != ForgotPasswordAsWritten(db, map["email" := Schema.JStr(other)], token, now, true).1
  {
    var db := Db([u], [], [], []);
    assert UserByEmail(db.users, Schema.JStr(u.email)).Some? by {
      assert u in db.users;
    }
  }

  /**
   * POST /auth/forgot-password answering a known and an unknown email alike,
   * as the route's own comment intends; it is otherwise the route as written.
   */
  function ForgotPassword(db: Db, body: Schema.Body, token: string, now: int, sent: bool)
    : (r: (Db, ForgotResult))
    ensures r.1 == ForgotRejected("Email is required") <==> !Truthy(Field(body, "email"))
    ensures Truthy(Field(body, "email")) && UserByEmail(db.users, body["email"]).None? ==>
      r == (db, ForgotAnswered(UnknownEmailAnswer))
    ensures Truthy(Field(body, "email")) && UserByEmail(db.users, body["email"]).Some? ==>
      r.0 == StoreReset(db, UserByEmail(db.users, body["email"]).value.id, token, now) &&
      r.1 == if sent then ForgotAnswered(UnknownEmailAnswer) else ForgotFailed
    ensures !Truthy(Field(body, "email")) ==> r.0 == db
  {
    var email := Field(body, "email");
    if !Truthy(email) then (db, ForgotRejected("Email is required"))
    else
      match UserByEmail(db.users, email.value)
      case None => (db, ForgotAnswered(UnknownEmailAnswer))
      case Some(u) =>
        var db2 := StoreReset(db, u.id, token, now);
        (db2, if sent then ForgotAnswered(UnknownEmailAnswer) else ForgotFailed)
  }

  /** Once the mail is sent, every non-empty email gets the same answer. */
  lemma ForgotPasswordUniform(db: Db, b1: Schema.Body, b2: Schema.Body, t1: string, t2: string, now: int)
    requires Truthy(Field(b1, "email")) && Truthy(Field(b2, "email"))
    ensures ForgotPassword(db, b1, t1, now, true).1 == ForgotPassword(db, b2, t2, now, true).1
  {
  }

  /**
   * A reset for a registered email gives that user, and only that user, the
   * new token valid for one hour; nothing else in the database changes.
   */
  lemma ForgotPasswordResets(db: Db, body: Schema.Body, token: string, now: int, sent: bool)
    requires Valid(db)
    requires Truthy(Field(body, "email")) && UserByEmail(db.users, body["email"]).Some?
    ensures var u := UserByEmail(db.users, body["email"]).value;
      var db2 := ForgotPassword(db, body, token, now, sent).0;
      && db2.properties == db.properties && db2.images == db.images && db2.documents == db.documents
      && (forall v :: v in db2.users && v.id == u.id ==> v == WithReset(u, token, now))
      && (forall v :: v in db.users && v.id != u.id ==> v in db2.users)
      && WithReset(u, token, now) in db2.users
  {
    var u := UserByEmail(db.users, body["email"]).value;
    var db2 := ForgotPassword(db, body, token, now, sent).0;
    assert db2 == StoreReset(db, u.id, token, now);
    forall v | v in db2.users && v.id == u.id ensures v == WithReset(u, token, now) {
      var i :| 0 <= i < |db2.users| && db2.users[i] == v;
      var k :| 0 <= k < |db.users| && db.users[k] == u;
      assert db.users[i].id == u.id;
      assert i == k;
    }
    forall v | v in db.users && v.id != u.id ensures v in db2.users {
      var i :| 0 <= i < |db.users| && db.users[i] == v;
      assert db2.users[i] == v;
    }
    var k :| 0 <= k < |db.users| && db.users[k] == u;
    assert db2.users[k] == WithReset(u, token, now);
  }
}
