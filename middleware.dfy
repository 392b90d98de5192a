/**
 * The two request gates: `requireAuth` (a verified session naming an existing user) and
 * `requireGroupMember` (a `groupId` path parameter the caller is a member of). Each is a pure
 * decision, `AuthGate` / `MemberGate`, and a method that applies it to the request context.
 */
module Middleware {
  import opened Wrappers
  import opened Json
  import opened Store
  import opened Http
  import opened Session

  const AuthRequired := "認証が必要です"
  const UserNotFound := "ユーザーが見つかりません"
  const GroupIdRequired := "グループIDが必要です"
  const NoGroupAccess := "このグループにアクセスする権限がありません"

  /** A gate either answers the request itself or lets it through with what it established. */
  datatype Gate<T> = Reject(response: Response) | Continue(value: T)

  /**
   * `requireAuth`. A missing, unverifiable or falsy session gives 401; a session whose `userId`
   * names no user gives 401; a `userId` that is not a string makes the store lookup throw, which
   * the framework answers with a 500. The context user is read from the user table.
   */
  function AuthGate(cfg: Config, users: Users, cookies: map<string, string>): (g: Gate<AuthUser>)
    ensures g == Reject(Fail(401, AuthRequired)) <==>
      (GetSessionFromCookie(cfg, cookies).None? || Falsy(GetSessionFromCookie(cfg, cookies).value))
    ensures g.Continue? <==> (GetSessionFromCookie(cfg, cookies).Some? &&
      !Falsy(GetSessionFromCookie(cfg, cookies).value) &&
      StringField(GetSessionFromCookie(cfg, cookies).value, "userId").Some? &&
      StringField(GetSessionFromCookie(cfg, cookies).value, "userId").value in users)
    ensures g.Continue? ==> (g.value.id in users && g.value.email == users[g.value.id].email &&
      StringField(GetSessionFromCookie(cfg, cookies).value, "userId") == Some(g.value.id))
    ensures g.Reject? ==> g.response.status in {401, 500}
  {
    match GetSessionFromCookie(cfg, cookies)
    case None => Reject(Fail(401, AuthRequired))
    case Some(session) =>
      if Falsy(session) then Reject(Fail(401, AuthRequired))
      else
        match Field(session, "userId")
        case Some(JString(id)) =>
          if id in users then Continue(AuthUser(id, users[id].email)) else Reject(Fail(401, UserNotFound))
        case _ => Reject(Response(500, InternalError))
  }

  /**
   * `requireGroupMember`. A missing or empty `groupId` gives 400 before any lookup; no
   * (user, group) membership gives 403; otherwise the group id is established.
   */
  function MemberGate(members: Members, user: AuthUser, params: map<string, string>): (g: Gate<string>)
    ensures g == Reject(Fail(400, GroupIdRequired)) <==> ("groupId" !in params || params["groupId"] == "")
    ensures g.Continue? <==> ("groupId" in params && params["groupId"] != "" && (user.id, params["groupId"]) in members)
    ensures g.Continue? ==> g.value == params["groupId"]
    ensures g.Reject? ==> g.response.status in {400, 403}
  {
    if "groupId" !in params || params["groupId"] == "" then Reject(Fail(400, GroupIdRequired))
    else if (user.id, params["groupId"]) !in members then Reject(Fail(403, NoGroupAccess))
    else Continue(params["groupId"])
  }

  /** The session a login issued lets its user through, with the email stored now rather than the one in the token. */
  lemma IssuedSessionAuthenticates(cfg: Config, users: Users, cookies: map<string, string>, s: SessionData)
    requires Lawful(cfg.prims)
    requires SessionCookieName in cookies && cookies[SessionCookieName] == SessionCookie(cfg, s).value
    requires s.userId in users
    ensures AuthGate(cfg, users, cookies) == Continue(AuthUser(s.userId, users[s.userId].email))
  {
    IssuedCookieReadsBack(cfg, s, cookies);
  }

  /** A valid session for a user that no longer exists is refused with 401. */
  lemma DeletedUserRejected(cfg: Config, users: Users, cookies: map<string, string>, s: SessionData)
    requires Lawful(cfg.prims)
    requires SessionCookieName in cookies && cookies[SessionCookieName] == SessionCookie(cfg, s).value
    requires s.userId !in users
    ensures AuthGate(cfg, users, cookies) == Reject(Fail(401, UserNotFound))
  {
    IssuedCookieReadsBack(cfg, s, cookies);
  }

  /** The missing-groupId answer does not depend on the membership table at all. */
  lemma MissingGroupIdIgnoresMembers(m1: Members, m2: Members, user: AuthUser, params: map<string, string>)
    requires "groupId" !in params || params["groupId"] == ""
    ensures MemberGate(m1, user, params) == MemberGate(m2, user, params)
  {
  }

  /** Applies `AuthGate`; on a rejection the context is left as it was, otherwise `user` is set. */
  method RequireAuth(db: Database, cfg: Config, ex: Exchange) returns (rejection: Option<Response>)
    modifies ex
    ensures AuthGate(cfg, db.users, ex.cookies).Reject? ==>
      rejection == Some(AuthGate(cfg, db.users, ex.cookies).response) && ex.user == old(ex.user)
    ensures AuthGate(cfg, db.users, ex.cookies).Continue? ==>
      rejection == None && ex.user == Some(AuthGate(cfg, db.users, ex.cookies).value)
    ensures ex.setCookies == old(ex.setCookies) && ex.groupId == old(ex.groupId)
  {
    match AuthGate(cfg, db.users, ex.cookies)
    case Reject(r) =>
      rejection := Some(r);
    case Continue(u) =>
      ex.user := Some(u);
      rejection := None;
  }

  /** Applies `MemberGate` after `requireAuth`; on a rejection the context is left as it was, otherwise `groupId` is set. */
  method RequireGroupMember(db: Database, ex: Exchange) returns (rejection: Option<Response>)
    requires ex.user.Some?
    modifies ex
    ensures ex.setCookies == old(ex.setCookies) && ex.user == old(ex.user)
    ensures MemberGate(db.members, ex.user.value, ex.params).Reject? ==>
      rejection == Some(MemberGate(db.members, ex.user.value, ex.params).response) && ex.groupId == old(ex.groupId)
    ensures MemberGate(db.members, ex.user.value, ex.params).Continue? ==>
      rejection == None && ex.groupId == Some(MemberGate(db.members, ex.user.value, ex.params).value)
  {
    match MemberGate(db.members, ex.user.value, ex.params)
    case Reject(r) =>
      rejection := Some(r);
    case Continue(g) =>
      ex.groupId := Some(g);
      rejection := None;
  }
}
