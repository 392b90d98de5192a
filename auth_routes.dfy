/**
 * `/auth`: login, register, logout and the current user. The body validator runs before each
 * handler, so a body failing its schema is answered 400 before anything else.
 */
module AuthRoutes {
  import opened Wrappers
  import opened Json
  import opened Store
  import opened Http
  import opened Session
  import opened Schemas
  import opened Middleware

  const LoginForbidden := "このメールアドレスでのログインは許可されていません"
  const BadCredentials := "メールアドレスまたはパスワードが正しくありません"
  const RegisterForbidden := "このメールアドレスでの登録は許可されていません"
  const EmailTaken := "このメールアドレスは既に登録されています"

  /**
   * `POST /auth/login`. Order: schema (400), allow-list (403), then one 401 for an unknown
   * email and a wrong password alike; on success a session for `{userId, email}` of the stored
   * user and a body with its public fields only.
   */
  method Login(db: Database, cfg: Config, ex: Exchange) returns (resp: Response)
    requires db.Valid()
    modifies ex
    ensures ex.user == old(ex.user) && ex.groupId == old(ex.groupId)
    ensures Validate(ex.body, ParseLogin).None? ==> resp == Rejected && ex.setCookies == old(ex.setCookies)
    ensures Validate(ex.body, ParseLogin).Some? ==>
      var req := Validate(ex.body, ParseLogin).value;
      var found := UserByEmail(db.users, req.email);
      if !IsEmailAllowed(cfg.env, req.email) then
        resp == Fail(403, LoginForbidden) && ex.setCookies == old(ex.setCookies)
      else if found.None? || !VerifyPassword(cfg.hasher, req.password, db.users[found.value].passwordHash) then
        resp == Fail(401, BadCredentials) && ex.setCookies == old(ex.setCookies)
      else
        var u := db.users[found.value];
        resp == Ok(Some(UserData(ViewOf(u)))) &&
        ex.setCookies == old(ex.setCookies) + [SessionCookie(cfg, SessionData(u.id, u.email))]
  {
    var req := Validate(ex.body, ParseLogin);
    if req.None? {
      return Rejected;
    }
    resp := LoginAs(db, cfg, ex, req.value);
  }

  /** The part of `POST /auth/login` after the body validator, for the validated request `req`. */
  method LoginAs(db: Database, cfg: Config, ex: Exchange, req: LoginRequest) returns (resp: Response)
    requires db.Valid()
    modifies ex
    ensures ex.user == old(ex.user) && ex.groupId == old(ex.groupId)
    ensures
      var found := UserByEmail(db.users, req.email);
      if !IsEmailAllowed(cfg.env, req.email) then
        resp == Fail(403, LoginForbidden) && ex.setCookies == old(ex.setCookies)
      else if found.None? || !VerifyPassword(cfg.hasher, req.password, db.users[found.value].passwordHash) then
        resp == Fail(401, BadCredentials) && ex.setCookies == old(ex.setCookies)
      else
        var u := db.users[found.value];
        resp == Ok(Some(UserData(ViewOf(u)))) &&
        ex.setCookies == old(ex.setCookies) + [SessionCookie(cfg, SessionData(u.id, u.email))]
  {
    if !IsEmailAllowed(cfg.env, req.email) {
      return Fail(403, LoginForbidden);
    }
    var found := UserByEmail(db.users, req.email);
    if found.None? || !VerifyPassword(cfg.hasher, req.password, db.users[found.value].passwordHash) {
      return Fail(401, BadCredentials);
    }
    var user := db.users[found.value];
    SetSessionCookie(ex, cfg, SessionData(user.id, user.email));
    resp := Ok(Some(UserData(ViewOf(user))));
  }

  /**
   * `POST /auth/register`. Order: schema (400), allow-list (403), an email already stored (400);
   * then exactly one user is added, under the fresh id the store assigns, with the bcrypt hash of
   * the password and `name || null`, and a session is issued for it.
   */
  method Register(db: Database, cfg: Config, ex: Exchange, newId: string, salt: string) returns (resp: Response)
    requires db.Valid()
    requires newId !in db.users
    modifies db, ex
    ensures db.Valid()
    ensures db.groups == old(db.groups) && db.members == old(db.members) && db.pins == old(db.pins)
    ensures ex.user == old(ex.user) && ex.groupId == old(ex.groupId)
    ensures Validate(ex.body, ParseRegister).None? ==>
      resp == Rejected && db.users == old(db.users) && ex.setCookies == old(ex.setCookies)
    ensures Validate(ex.body, ParseRegister).Some? ==>
      var req := Validate(ex.body, ParseRegister).value;
      if !IsEmailAllowed(cfg.env, req.email) then
        resp == Fail(403, RegisterForbidden) && db.users == old(db.users) && ex.setCookies == old(ex.setCookies)
      else if UserByEmail(old(db.users), req.email).Some? then
        resp == Fail(400, EmailTaken) && db.users == old(db.users) && ex.setCookies == old(ex.setCookies)
      else
        var u := User(newId, req.email, OrNull(req.name), HashPassword(cfg.hasher, req.password, salt));
        db.users == old(db.users)[newId := u] &&
        resp == Ok(Some(UserData(ViewOf(u)))) &&
        ex.setCookies == old(ex.setCookies) + [SessionCookie(cfg, SessionData(newId, req.email))]
  {
    var req := Validate(ex.body, ParseRegister);
    if req.None? {
      return Rejected;
    }
    resp := RegisterAs(db, cfg, ex, newId, salt, req.value);
  }

  /** The part of `POST /auth/register` after the body validator, for the validated request `req`. */
  method RegisterAs(db: Database, cfg: Config, ex: Exchange, newId: string, salt: string, req: RegisterRequest)
    returns (resp: Response)
    requires db.Valid()
    requires newId !in db.users
    modifies db, ex
    ensures db.Valid()
    ensures db.groups == old(db.groups) && db.members == old(db.members) && db.pins == old(db.pins)
    ensures ex.user == old(ex.user) && ex.groupId == old(ex.groupId)
    ensures
      if !IsEmailAllowed(cfg.env, req.email) then
        resp == Fail(403, RegisterForbidden) && db.users == old(db.users) && ex.setCookies == old(ex.setCookies)
      else if UserByEmail(old(db.users), req.email).Some? then
        resp == Fail(400, EmailTaken) && db.users == old(db.users) && ex.setCookies == old(ex.setCookies)
      else
        var u := User(newId, req.email, OrNull(req.name), HashPassword(cfg.hasher, req.password, salt));
        db.users == old(db.users)[newId := u] &&
        resp == Ok(Some(UserData(ViewOf(u)))) &&
        ex.setCookies == old(ex.setCookies) + [SessionCookie(cfg, SessionData(newId, req.email))]
  {
    if !IsEmailAllowed(cfg.env, req.email) {
      return Fail(403, RegisterForbidden);
    }
    var existing := UserByEmail(db.users, req.email);
    if existing.Some? {
      return Fail(400, EmailTaken);
    }
    var hashed := HashPassword(cfg.hasher, req.password, salt);
    var user := User(newId, req.email, OrNull(req.name), hashed);
    AddUserPreserves(db.users, db.groups, db.members, db.pins, user);
    db.users := db.users[newId := user];
    SetSessionCookie(ex, cfg, SessionData(user.id, user.email));
    resp := Ok(Some(UserData(ViewOf(user))));
  }

  /** The name a validated registration stores is the one it sent: the schema already refuses `""`. */
  lemma RegisteredNameIsSentName(body: Json)
    requires ParseRegister(body).Some?
    ensures OrNull(ParseRegister(body).value.name) == ParseRegister(body).value.name
  {
  }

  /** `POST /auth/logout`: always succeeds and clears the session cookie. */
  method Logout(cfg: Config, ex: Exchange) returns (resp: Response)
    modifies ex
    ensures resp == Ok(None)
    ensures ex.setCookies == old(ex.setCookies) + [ClearedCookie(cfg.env)]
    ensures ex.user == old(ex.user) && ex.groupId == old(ex.groupId)
  {
    ClearSessionCookie(ex, cfg.env);
    resp := Ok(None);
  }

  /** `GET /auth/me`: the gate's answer, or the caller's public fields. */
  function Me(db: Database, cfg: Config, cookies: map<string, string>): (r: Response)
    requires db.Valid()
    reads db
    ensures AuthGate(cfg, db.users, cookies).Reject? ==> r == AuthGate(cfg, db.users, cookies).response
    ensures AuthGate(cfg, db.users, cookies).Continue? ==>
      var id := AuthGate(cfg, db.users, cookies).value.id;
      r.status == 200 && r.body.Success? && r.body.data.Some? && r.body.data.value.UserData? &&
      r.body.data.value.user.id == id && r.body.data.value.user.email == db.users[id].email &&
      r.body.data.value.user.name == db.users[id].name
  {
    match AuthGate(cfg, db.users, cookies)
    case Reject(rejection) => rejection
    case Continue(user) => Ok(Some(UserData(ViewOf(db.users[user.id]))))
  }

  /** A request carrying the cookie a login for a still-stored user issued is answered with that user. */
  lemma MeAfterLogin(db: Database, cfg: Config, cookies: map<string, string>, u: User)
    requires Lawful(cfg.prims)
    requires db.Valid()
    requires u.id in db.users && db.users[u.id] == u
    requires SessionCookieName in cookies && cookies[SessionCookieName] == SessionCookie(cfg, SessionData(u.id, u.email)).value
    ensures Me(db, cfg, cookies) == Ok(Some(UserData(ViewOf(u))))
  {
    IssuedSessionAuthenticates(cfg, db.users, cookies, SessionData(u.id, u.email));
  }
}
