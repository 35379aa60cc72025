/**
 * server/routes/auth.js: registration, login and the password-reset flow of
 * the Node server.
 *
 * bcrypt, `jsonwebtoken` and `crypto.randomBytes` are not interpreted: a
 * `Bcrypt` value supplies hashing and comparison, a `Signer` turns claims
 * into a token, and the salt, the reset token and the clock are parameters.
 * The clock `nowMs` is `Date.now()` in milliseconds; a token's `iat` is that
 * time in whole seconds. Each handler's statements run on their own, without
 * a transaction.
 */
module NodeAuth {
  import opened Wrappers
  import Tables
  import opened NodeDb

  const UserExists: string := "User already exists"
  const InvalidCredentials: string := "Invalid credentials"
  const UserNotFound: string := "User not found"
  const InvalidToken: string := "Invalid or expired token"
  const ResetSent: string := "Password reset link sent (check console for token)"
  const PasswordUpdated: string := "Password updated successfully"

  /** `expiresIn: '24h'`, in seconds (the Rust services issue seven-day tokens). */
  const SessionLifetime: int := 24 * 60 * 60
  /** A reset token is good for one hour, in milliseconds. */
  const ResetLifetime: int := 3600000

  /** `bcrypt.hash(password, salt)` and `bcrypt.compare(password, hash)`. */
  datatype Bcrypt = Bcrypt(hash: (string, string) -> string, compare: (string, string) -> bool)

  /** bcrypt's promise: a password matches any hash made from it. */
  ghost predicate Sound(h: Bcrypt)
  {
    forall password, salt :: h.compare(password, h.hash(password, salt))
  }

  /** The payload `jwt.sign` receives, with the `iat` and `exp` it adds. */
  datatype SessionClaims = SessionClaims(id: int, iat: int, exp: int)

  /** `jwt.sign(claims, secret)`. */
  type Signer = (SessionClaims, string) -> string

  /** `process.env.JWT_SECRET || 'secret'`. */
  function Secret(env: Option<string>): string
  {
    TextOr(env, "secret")
  }

  /** The token both register and login answer with: `{ id }`, expiring a day after issue. */
  function Issue(userId: int, env: Option<string>, nowMs: int, sign: Signer): string
  {
    var iat := nowMs / 1000;
    sign(SessionClaims(userId, iat, iat + SessionLifetime), Secret(env))
  }

  /** The `{ token, user: { id, email } }` body of a successful register or login. */
  datatype Session = Session(token: string, userId: int, email: string)

  /** `SELECT * FROM users WHERE email = $1`, its first row if any. */
  function FindByEmail(users: map<int, User>, email: string): (r: Option<User>)
    ensures r.None? <==> forall k :: k in users ==> users[k].email != email
    ensures r.Some? ==> r.value.email == email && r.value in users.Values
  {
    var keys := set k | k in users && users[k].email == email;
    assert forall k :: k in users && users[k].email == email ==> k in keys;
    if keys == {} then None else (var k := Tables.MaxId(keys); assert users[k] in users.Values; Some(users[k]))
  }

  /** Under unique emails and ids that match their keys, the row found for an email is the one stored under its id. */
  lemma {:induction false} FoundIsKeyed(db: NodeDatabase, k: int)
    requires db.Valid() && k in db.users
    ensures FindByEmail(db.users, db.users[k].email) == Some(db.users[k])
  {
    var u := FindByEmail(db.users, db.users[k].email);
    assert u.Some?;
    var j :| j in db.users && db.users[j] == u.value;
    assert db.users[j].email == db.users[k].email;
  }

  /** Writes the new user row. */
  method CommitUser(db: NodeDatabase, row: User)
    requires db.Valid() && row.id !in db.users
    requires forall k :: k in db.users ==> db.users[k].email != row.email
    modifies db`users
    ensures db.Valid()
    ensures db.users == old(db.users)[row.id := row]
  {
    db.users := db.users[row.id := row];
  }

  /**
   * `POST /api/auth/register`. Statements: 0 look the email up (a row is a
   * 400), 1 insert the user with the hash of the password.
   */
  method Register(db: NodeDatabase, email: string, password: string, salt: string, h: Bcrypt,
                  sign: Signer, env: Option<string>, nowMs: int, fault: Option<nat>)
    returns (r: Outcome<Session>)
    requires db.Valid()
    modifies db`users
    ensures db.Valid()
    ensures r.Fail? ==> db.users == old(db.users)
    ensures Aborts(fault, 1) ==> r == Fail(500, DbError)
    ensures !Aborts(fault, 1) && old(FindByEmail(db.users, email)).Some? ==> r == Fail(400, UserExists)
    ensures r.Ok? <==> old(FindByEmail(db.users, email)).None? && !Aborts(fault, 2)
    ensures r.Ok? ==>
              (r.value.userId !in old(db.users) && r.value.email == email
               && db.users == old(db.users)[r.value.userId := User(r.value.userId, email, h.hash(password, salt))]
               && r.value.token == Issue(r.value.userId, env, nowMs, sign))
  {
    if Aborts(fault, 1) {
      return Fail(500, DbError);
    }
    if FindByEmail(db.users, email).Some? {
      return Fail(400, UserExists);
    }
    if fault == Some(1) {
      return Fail(500, DbError);
    }
    var row := User(Tables.NextId(db.users.Keys), email, h.hash(password, salt));
    CommitUser(db, row);
    r := Ok(Session(Issue(row.id, env, nowMs, sign), row.id, email));
  }

  /**
   * `POST /api/auth/login`: one lookup; an unknown email and a wrong password
   * get the same 400, so the answer does not tell which one failed.
   */
  function Login(db: NodeDatabase, email: string, password: string, h: Bcrypt, sign: Signer,
                 env: Option<string>, nowMs: int, fault: bool): (r: Outcome<Session>)
    reads db
    ensures fault ==> r == Fail(500, DbError)
    ensures !fault && r.Fail? ==> r == Fail(400, InvalidCredentials)
    ensures r.Ok? <==> !fault && FindByEmail(db.users, email).Some?
                       && h.compare(password, FindByEmail(db.users, email).value.passwordHash)
    ensures r.Ok? ==>
              (r.value.userId == FindByEmail(db.users, email).value.id && r.value.email == email
               && r.value.token == Issue(r.value.userId, env, nowMs, sign))
  {
    if fault then Fail(500, DbError)
    else
      var u := FindByEmail(db.users, email);
      if u.None? || !h.compare(password, u.value.passwordHash) then Fail(400, InvalidCredentials)
      else Ok(Session(Issue(u.value.id, env, nowMs, sign), u.value.id, u.value.email))
  }

  /**
   * A user just registered can log in with the same email and password, and
   * gets a token for the id register handed out.
   */
  lemma {:induction false} LoginAfterRegister(db: NodeDatabase, id: int, email: string, password: string, salt: string,
                                              h: Bcrypt, sign: Signer, env: Option<string>, nowMs: int)
    requires db.Valid() && Sound(h)
    requires id in db.users && db.users[id] == User(id, email, h.hash(password, salt))
    ensures Login(db, email, password, h, sign, env, nowMs, false) == Ok(Session(Issue(id, env, nowMs, sign), id, email))
  {
    FoundIsKeyed(db, id);
    assert h.compare(password, h.hash(password, salt));
  }

  /** A password whose hash does not match fails exactly as an unknown email does. */
  lemma WrongPasswordLooksUnknown(db: NodeDatabase, email: string, unknown: string, password: string, h: Bcrypt,
                                  sign: Signer, env: Option<string>, nowMs: int)
    requires FindByEmail(db.users, email).Some? && !h.compare(password, FindByEmail(db.users, email).value.passwordHash)
    requires FindByEmail(db.users, unknown).None?
    ensures Login(db, email, password, h, sign, env, nowMs, false) == Login(db, unknown, password, h, sign, env, nowMs, false)
  {
  }

  // ---------------------------------------------------------------------------
  // Password resets.

  /** The ids `password_resets`' serial column has handed out. */
  function ResetIds(rows: seq<PasswordReset>): set<int>
  {
    set x | x in rows :: x.id
  }

  /** A row `reset-password` accepts for `token` at time `nowMs`. */
  predicate Accepts(x: PasswordReset, token: string, nowMs: int)
  {
    x.token == token && x.expiresAt > nowMs
  }

  /**
   * `SELECT * FROM password_resets WHERE token = $1 AND expires_at > NOW()
   * ORDER BY created_at DESC LIMIT 1`: the last accepted row in table order,
   * which is creation order.
   */
  function LatestReset(rows: seq<PasswordReset>, token: string, nowMs: int): (r: Option<nat>)
    ensures r.None? <==> forall i :: 0 <= i < |rows| ==> !Accepts(rows[i], token, nowMs)
    ensures r.Some? ==>
              (r.value < |rows| && Accepts(rows[r.value], token, nowMs)
               && forall i :: r.value < i < |rows| ==> !Accepts(rows[i], token, nowMs))
  {
    if rows == [] then None
    else if Accepts(rows[|rows| - 1], token, nowMs) then Some(|rows| - 1)
    else LatestReset(rows[..|rows| - 1], token, nowMs)
  }

  /** `DELETE FROM password_resets WHERE id = $1`. */
  function RemoveReset(rows: seq<PasswordReset>, id: int): (r: seq<PasswordReset>)
    ensures forall x :: x in r <==> x in rows && x.id != id
    ensures |r| <= |rows|
  {
    if rows == [] then []
    else (if rows[0].id != id then [rows[0]] else []) + RemoveReset(rows[1..], id)
  }

  /** `UPDATE users SET password_hash = $1 WHERE id = $2`: no row changes when the id is gone. */
  function Rehashed(users: map<int, User>, id: int, hash: string): (r: map<int, User>)
    ensures r.Keys == users.Keys
    ensures forall k :: k in users ==> r[k] == if k == id then users[k].(passwordHash := hash) else users[k]
  {
    if id in users then users[id := users[id].(passwordHash := hash)] else users
  }

  /**
   * `POST /api/auth/forgot-password`. Statements: 0 look the email up (none is
   * a 404), 1 store `token` for the user, expiring an hour from now.
   */
  method ForgotPassword(db: NodeDatabase, email: string, token: string, nowMs: int, fault: Option<nat>)
    returns (r: Outcome<string>)
    requires db.Valid()
    modifies db`resets
    ensures db.Valid()
    ensures r.Fail? ==> db.resets == old(db.resets)
    ensures Aborts(fault, 1) ==> r == Fail(500, DbError)
    ensures !Aborts(fault, 1) && old(FindByEmail(db.users, email)).None? ==> r == Fail(404, UserNotFound)
    ensures r.Ok? <==> old(FindByEmail(db.users, email)).Some? && !Aborts(fault, 2)
    ensures r.Ok? ==>
              (r.value == ResetSent
               && db.resets == old(db.resets)
                    + [PasswordReset(Tables.NextId(ResetIds(old(db.resets))), old(FindByEmail(db.users, email)).value.id,
                                     token, nowMs + ResetLifetime)])
  {
    if Aborts(fault, 1) {
      return Fail(500, DbError);
    }
    var u := FindByEmail(db.users, email);
    if u.None? {
      return Fail(404, UserNotFound);
    }
    if fault == Some(1) {
      return Fail(500, DbError);
    }
    var row := PasswordReset(Tables.NextId(ResetIds(db.resets)), u.value.id, token, nowMs + ResetLifetime);
    db.resets := db.resets + [row];
    r := Ok(ResetSent);
  }

  /** A freshly stored token is the one `reset-password` picks, up to one hour later and not after. */
  lemma {:induction false} FreshTokenAcceptedForAnHour(rows: seq<PasswordReset>, row: PasswordReset, issuedMs: int, nowMs: int)
    requires row.expiresAt == issuedMs + ResetLifetime
    ensures nowMs < issuedMs + ResetLifetime ==> LatestReset(rows + [row], row.token, nowMs) == Some(|rows|)
    ensures nowMs >= issuedMs + ResetLifetime && (forall x :: x in rows ==> !Accepts(x, row.token, nowMs)) ==>
              LatestReset(rows + [row], row.token, nowMs).None?
  {
    var all := rows + [row];
    assert all[|all| - 1] == row;
    if nowMs >= issuedMs + ResetLifetime && (forall x :: x in rows ==> !Accepts(x, row.token, nowMs)) {
      assert forall i :: 0 <= i < |all| ==> all[i] in rows || all[i] == row;
    }
  }

  /** Stores a new password hash on user `id`. */
  method StorePassword(db: NodeDatabase, id: int, hash: string)
    requires db.Valid()
    modifies db`users
    ensures db.Valid()
    ensures db.users == Rehashed(old(db.users), id, hash)
  {
    var users := Rehashed(db.users, id, hash);
    assert forall a, b :: a in users && b in users && users[a].email == users[b].email ==> a == b;
    db.users := users;
  }

  /** Deletes the reset row `id`. */
  method ConsumeReset(db: NodeDatabase, id: int)
    requires db.Valid()
    modifies db`resets
    ensures db.Valid()
    ensures db.resets == RemoveReset(old(db.resets), id)
  {
    db.resets := RemoveReset(db.resets, id);
  }

  /**
   * `POST /api/auth/reset-password`. Statements: 0 find the latest unexpired
   * row for the token (none is a 400), 1 store the hash of the new password on
   * its user, 2 delete that row. Without a transaction, a failure at 2 keeps
   * the new password and leaves the token usable.
   */
  method ResetPassword(db: NodeDatabase, token: string, newPassword: string, salt: string, h: Bcrypt,
                       nowMs: int, fault: Option<nat>)
    returns (r: Outcome<string>)
    requires db.Valid()
    modifies db`users, db`resets
    ensures db.Valid()
    ensures Aborts(fault, 1) ==> r == Fail(500, DbError) && db.users == old(db.users) && db.resets == old(db.resets)
    ensures !Aborts(fault, 1) && old(LatestReset(db.resets, token, nowMs)).None? ==>
              r == Fail(400, InvalidToken) && db.users == old(db.users) && db.resets == old(db.resets)
    ensures old(LatestReset(db.resets, token, nowMs)).Some? ==>
              (var used := old(db.resets[LatestReset(db.resets, token, nowMs).value]);
               (fault == Some(1) ==> r == Fail(500, DbError) && db.users == old(db.users) && db.resets == old(db.resets))
               && (fault == Some(2) ==>
                     r == Fail(500, DbError) && db.resets == old(db.resets)
                     && db.users == Rehashed(old(db.users), used.userId, h.hash(newPassword, salt)))
               && (!Aborts(fault, 3) ==>
                     r == Ok(PasswordUpdated) && db.resets == RemoveReset(old(db.resets), used.id)
                     && db.users == Rehashed(old(db.users), used.userId, h.hash(newPassword, salt))))
  {
    if Aborts(fault, 1) {
      return Fail(500, DbError);
    }
    var found := LatestReset(db.resets, token, nowMs);
    if found.None? {
      return Fail(400, InvalidToken);
    }
    var used := db.resets[found.value];
    if fault == Some(1) {
      return Fail(500, DbError);
    }
    StorePassword(db, used.userId, h.hash(newPassword, salt));
    if fault == Some(2) {
      return Fail(500, DbError);
    }
    ConsumeReset(db, used.id);
    r := Ok(PasswordUpdated);
  }

  /**
   * A token works once: when the row a reset used is the only accepted row for
   * its token, the same token is rejected after the reset has deleted it.
   */
  lemma {:induction false} TokenWorksOnce(rows: seq<PasswordReset>, token: string, nowMs: int, laterMs: int)
    requires LatestReset(rows, token, nowMs).Some?
    requires forall x :: x in rows && x.token == token ==> x.id == rows[LatestReset(rows, token, nowMs).value].id
    ensures LatestReset(RemoveReset(rows, rows[LatestReset(rows, token, nowMs).value].id), token, laterMs).None?
  {
    var id := rows[LatestReset(rows, token, nowMs).value].id;
    var rest := RemoveReset(rows, id);
    forall i | 0 <= i < |rest|
      ensures !Accepts(rest[i], token, laterMs)
    {
      assert rest[i] in rest;
    }
  }

  /** After a completed reset, logging in with the new password succeeds for the token's user. */
  lemma {:induction false} LoginAfterReset(db: NodeDatabase, id: int, newPassword: string, salt: string,
                                           h: Bcrypt, sign: Signer, env: Option<string>, nowMs: int)
    requires db.Valid() && Sound(h) && id in db.users && db.users[id].passwordHash == h.hash(newPassword, salt)
    ensures Login(db, db.users[id].email, newPassword, h, sign, env, nowMs, false).Ok?
    ensures Login(db, db.users[id].email, newPassword, h, sign, env, nowMs, false).value.userId == id
  {
    FoundIsKeyed(db, id);
    assert h.compare(newPassword, h.hash(newPassword, salt));
  }
}
