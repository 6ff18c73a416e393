/**
 * The Auth0 management client of src/lib/auth0.ts: the module-level cache of
 * the management-API token, and the checks made on the answers to the
 * user-lookup and user-creation requests. HTTP exchanges are parameters: the
 * token endpoint's answer (None when it is not ok) and the reply of the
 * users endpoint.
 */
module Auth0 {
  import opened Wrappers

  const CONNECTION := "Username-Password-Authentication"

  /** JSON values, as far as the result checks look at them. */
  datatype Json =
    | JArray(items: seq<Json>)
    | JObject(fields: seq<(string, Json)>)
    | JString(text: string)
    | JNumber(number: int)
    | JBool(flag: bool)
    | JNull

  datatype HttpReply = HttpReply(ok: bool, body: Json)

  /** The body of a successful client-credentials grant; `expiresIn` is in seconds. */
  datatype TokenReply = TokenReply(accessToken: string, expiresIn: int, tokenType: string)

  /** The values of `cachedToken` and `tokenExpiresAt` (milliseconds). */
  datatype Cache = Cache(cachedToken: Option<TokenReply>, tokenExpiresAt: int)

  datatype Auth0Error =
    | TokenFailed            // "Failed to get Auth0 management token"
    | LookupFailed           // "Failed to check user existence"
    | CreateFailed(details: Json)  // "Failed to create Auth0 user: " + the error body

  /** What one call of getManagementToken leaves behind and returns, and whether it asked the token endpoint. */
  datatype TokenFetch = TokenFetch(cache: Cache, token: Result<string, Auth0Error>, requested: bool)

  /**
   * `getManagementToken` at time `now`: reuse the cached token while its
   * deadline lies strictly after `now`, else ask the token endpoint and keep
   * its answer until 95% of its lifetime (`expires_in * 0.95 * 1000` ms) has
   * run out, counted from the `now` read before the request.
   */
  function FetchToken(c: Cache, now: int, reply: Option<TokenReply>): (f: TokenFetch)
    ensures f.requested <==> c.cachedToken.None? || c.tokenExpiresAt <= now
    ensures !f.requested ==> f == TokenFetch(c, Ok(c.cachedToken.value.accessToken), false)
    ensures f.requested && reply.None? ==> f.cache == c && f.token == Err(TokenFailed)
    ensures f.requested && reply.Some? ==>
              && f.cache == Cache(reply, now + reply.value.expiresIn * 950)
              && f.token == Ok(reply.value.accessToken)
  {
    if c.cachedToken.Some? && c.tokenExpiresAt > now then
      TokenFetch(c, Ok(c.cachedToken.value.accessToken), false)
    else
      match reply
      case None => TokenFetch(c, Err(TokenFailed), true)
      case Some(data) => TokenFetch(Cache(Some(data), now + data.expiresIn * 950), Ok(data.accessToken), true)
  }

  /**
   * After a refresh at `t0`, the new token is handed out without a request
   * at every instant strictly before its deadline, and from the deadline on
   * the next call asks again.
   */
  lemma RefreshedTokenIsReusedUntilDeadline(
    c: Cache, t0: int, data: TokenReply, t1: int, reply: Option<TokenReply>)
    requires FetchToken(c, t0, Some(data)).requested
    ensures var c1 := FetchToken(c, t0, Some(data)).cache;
            && (t1 < t0 + data.expiresIn * 950 ==>
                  FetchToken(c1, t1, reply) == TokenFetch(c1, Ok(data.accessToken), false))
            && (t1 >= t0 + data.expiresIn * 950 ==> FetchToken(c1, t1, reply).requested)
  {
  }

  /** A failed refresh changes nothing, so the next call asks again. */
  lemma FailedRefreshIsRetried(c: Cache, now: int, later: int, reply: Option<TokenReply>)
    requires FetchToken(c, now, None).requested
    requires later >= now
    ensures FetchToken(FetchToken(c, now, None).cache, later, reply).requested
  {
  }

  /** `userExistsByEmail`'s check of the users-by-email reply. */
  function UserExistsResult(reply: HttpReply): (r: Result<bool, Auth0Error>)
    ensures r.Err? <==> !reply.ok
    ensures r.Err? ==> r.error == LookupFailed
    ensures r == Ok(true) <==> reply.ok && reply.body.JArray? && |reply.body.items| > 0
  {
    if !reply.ok then Err(LookupFailed)
    else Ok(match reply.body case JArray(items) => |items| > 0 case _ => false)
  }

  /** The body `createAuth0User` posts. */
  datatype NewUser = NewUser(email: string, connection: string, emailVerified: bool, roles: seq<string>)

  function NewUserBody(email: string, role: string): (b: NewUser)
    ensures b.email == email && b.emailVerified && b.roles == [role]
    ensures b.connection == CONNECTION
  {
    NewUser(email, CONNECTION, true, [role])
  }

  /** `createAuth0User`'s check of the reply: a non-ok reply throws with its body. */
  function CreateUserResult(reply: HttpReply): (r: Result<Json, Auth0Error>)
    ensures r.Ok? <==> reply.ok
    ensures r.Ok? ==> r.value == reply.body
    ensures r.Err? ==> r.error == CreateFailed(reply.body)
  {
    if reply.ok then Ok(reply.body) else Err(CreateFailed(reply.body))
  }

  /** A request sent to the management API, with the bearer token it carries. */
  datatype Request =
    | LookupByEmail(email: string, bearer: string)
    | CreateUser(body: NewUser, bearer: string)

  /** The module state of src/lib/auth0.ts and the functions that use it. */
  class ManagementClient {
    var cachedToken: Option<TokenReply>
    var tokenExpiresAt: int

    function CacheState(): Cache
      reads this
    {
      Cache(cachedToken, tokenExpiresAt)
    }

    constructor ()
      ensures CacheState() == Cache(None, 0)
    {
      cachedToken := None;
      tokenExpiresAt := 0;
    }

    method GetManagementToken(now: int, reply: Option<TokenReply>)
      returns (token: Result<string, Auth0Error>, requested: bool)
      modifies this
      ensures TokenFetch(CacheState(), token, requested) == FetchToken(old(CacheState()), now, reply)
    {
      if cachedToken.Some? && tokenExpiresAt > now {
        return Ok(cachedToken.value.accessToken), false;
      }
      requested := true;
      if reply.None? {
        return Err(TokenFailed), requested;
      }
      var data := reply.value;
      cachedToken := Some(data);
      tokenExpiresAt := now + data.expiresIn * 950;
      token := Ok(data.accessToken);
    }

    method UserExistsByEmail(email: string, now: int, tokenReply: Option<TokenReply>, reply: HttpReply)
      returns (r: Result<bool, Auth0Error>, sent: Option<Request>)
      modifies this
      ensures var f := FetchToken(old(CacheState()), now, tokenReply);
              && CacheState() == f.cache
              && (f.token.Err? ==> r == Err(TokenFailed) && sent == None)
              && (f.token.Ok? ==> r == UserExistsResult(reply) && sent == Some(LookupByEmail(email, f.token.value)))
    {
      var token, _ := GetManagementToken(now, tokenReply);
      if token.Err? {
        return Err(token.error), None;
      }
      sent := Some(LookupByEmail(email, token.value));
      r := UserExistsResult(reply);
    }

    method CreateAuth0User(email: string, role: string, now: int, tokenReply: Option<TokenReply>, reply: HttpReply)
      returns (r: Result<Json, Auth0Error>, sent: Option<Request>)
      modifies this
      ensures var f := FetchToken(old(CacheState()), now, tokenReply);
              && CacheState() == f.cache
              && (f.token.Err? ==> r == Err(TokenFailed) && sent == None)
              && (f.token.Ok? ==> r == CreateUserResult(reply) &&
                                  sent == Some(CreateUser(NewUserBody(email, role), f.token.value)))
    {
      var token, _ := GetManagementToken(now, tokenReply);
      if token.Err? {
        return Err(token.error), None;
      }
      sent := Some(CreateUser(NewUserBody(email, role), token.value));
      r := CreateUserResult(reply);
    }
  }
}
