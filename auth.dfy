/**
 * The access gates of src/lib/auth.ts. The session that `auth()` resolves
 * and the stored users (id to role) are parameters; a callback is the
 * response it would produce, and a gate either returns that response (the
 * callback ran) or an error response of its own (it did not).
 */
module Auth {
  import opened Wrappers

  const ADMIN := "admin"

  datatype SessionUser = SessionUser(id: string)

  datatype Session = Session(user: Option<SessionUser>)

  /** Stored users: id to role. */
  type Users = map<string, string>

  datatype Gated<R> = Denied(status: int, error: string) | Ran(response: R)

  /** `session?.user` */
  function SignedIn(session: Option<Session>): Option<SessionUser> {
    if session.Some? then session.value.user else None
  }

  /** `user?.role` for the user stored under `id` */
  function StoredRole(users: Users, id: string): Option<string> {
    if id in users then Some(users[id]) else None
  }

  /** `hasRole(role)`: `session?.user?.id` must be a non-empty string. */
  function HasRole(session: Option<Session>, users: Users, role: string): (b: bool)
    ensures b <==> exists u :: SignedIn(session) == Some(u) && u.id != "" && u.id in users && users[u.id] == role
  {
    var user := SignedIn(session);
    if user.None? || user.value.id == "" then false
    else StoredRole(users, user.value.id) == Some(role)
  }

  /** `withAuth(request, callback)` */
  function WithAuth<R>(session: Option<Session>, callback: R): (r: Gated<R>)
    ensures r.Ran? <==> SignedIn(session).Some?
    ensures r.Ran? ==> r.response == callback
    ensures r.Denied? ==> r == Denied(401, "Unauthorized")
  {
    if SignedIn(session).None? then Denied(401, "Unauthorized") else Ran(callback)
  }

  /** `withRole(request, role, callback)` */
  function WithRole<R>(session: Option<Session>, users: Users, role: string, callback: R): (r: Gated<R>)
    ensures SignedIn(session).None? ==> r == Denied(401, "Unauthorized")
    ensures SignedIn(session).Some? && (SignedIn(session).value.id !in users ||
                                        users[SignedIn(session).value.id] != role) ==>
              r == Denied(403, "Forbidden")
    ensures r.Ran? <==> exists u :: SignedIn(session) == Some(u) && u.id in users && users[u.id] == role
    ensures r.Ran? ==> r.response == callback
  {
    var user := SignedIn(session);
    if user.None? then Denied(401, "Unauthorized")
    else if StoredRole(users, user.value.id) != Some(role) then Denied(403, "Forbidden")
    else Ran(callback)
  }

  /** `withAdmin(request, callback)` */
  function WithAdmin<R>(session: Option<Session>, users: Users, callback: R): (r: Gated<R>)
    ensures r == WithRole(session, users, ADMIN, callback)
  {
    WithRole(session, users, ADMIN, callback)
  }

  /** `isAdmin()` */
  function IsAdmin(session: Option<Session>, users: Users): (b: bool)
    ensures b == HasRole(session, users, ADMIN)
  {
    HasRole(session, users, ADMIN)
  }

  datatype AdminCheck = AdminCheck(isAllowed: bool, userId: Option<string>)

  /** `requireAdmin()` */
  function RequireAdmin(session: Option<Session>, users: Users): (r: AdminCheck)
    ensures r.isAllowed <==> exists u :: SignedIn(session) == Some(u) && u.id in users && users[u.id] == ADMIN
    ensures r.userId.Some? <==> r.isAllowed
    ensures r.isAllowed ==> r.userId == Some(SignedIn(session).value.id)
  {
    var user := SignedIn(session);
    if user.None? then AdminCheck(false, None)
    else if StoredRole(users, user.value.id) != Some(ADMIN) then AdminCheck(false, None)
    else AdminCheck(true, Some(user.value.id))
  }

  /**
   * For a session whose user id is non-empty, the three admin checks agree:
   * isAdmin holds iff requireAdmin allows iff withAdmin runs its callback.
   */
  lemma AdminChecksAgree<R>(session: Option<Session>, users: Users, callback: R)
    requires SignedIn(session).Some? ==> SignedIn(session).value.id != ""
    ensures IsAdmin(session, users) == RequireAdmin(session, users).isAllowed
    ensures RequireAdmin(session, users).isAllowed == WithAdmin(session, users, callback).Ran?
  {
  }

  /**
   * With an empty user id they part: hasRole treats "" as no user, while
   * withRole and requireAdmin look it up like any other id.
   */
  lemma EmptyIdSeparatesChecks<R>(callback: R)
    ensures var session := Some(Session(Some(SessionUser(""))));
            var users := map["" := ADMIN];
            && !IsAdmin(session, users)
            && RequireAdmin(session, users).isAllowed
            && WithAdmin(session, users, callback) == Ran(callback)
  {
  }
}
