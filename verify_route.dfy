/**
 * The public endpoint GET /api/invitations/verify of
 * src/app/api/invitations/verify/route.ts: it validates the `token` query
 * parameter and answers with the invitee's address and role only.
 */
module VerifyRoute {
  import opened Wrappers
  import opened Invitations

  const MSG_TOKEN_REQUIRED := "Token is required"

  /** The JSON body; an absent key is None. No other key can be sent. */
  datatype Body = Body(valid: bool, message: Option<string>, email: Option<string>, role: Option<string>)

  datatype Response = Response(status: int, body: Body)

  /** `GET(request)`, where `token` is `searchParams.get('token')`. */
  function Get(token: Option<string>, table: Table, now: Time): (r: Response)
    // a missing or empty token is refused before validation
    ensures token.None? || token.value == "" ==>
              r == Response(400, Body(false, Some(MSG_TOKEN_REQUIRED), None, None))
    // a token that does not validate: 400 with the validator's message
    ensures token.Some? && token.value != "" && Validate(table, token.value, now).Invalid? ==>
              r == Response(400, Body(false, Some(Validate(table, token.value, now).message), None, None))
    ensures r.body.valid <==>
              token.Some? && token.value != "" && token.value in table && Redeemable(table[token.value], now)
    // a valid token: 200 with the stored address and role and nothing else
    ensures r.body.valid ==>
              && r.status == 200
              && r.body == Body(true, None, Some(table[token.value].email), Some(table[token.value].role))
    ensures !r.body.valid ==> r.status == 400 && r.body.email.None? && r.body.role.None?
  {
    if token.None? || token.value == "" then
      Response(400, Body(false, Some(MSG_TOKEN_REQUIRED), None, None))
    else
      match Validate(table, token.value, now)
      case Invalid(message) => Response(400, Body(false, Some(message), None, None))
      case Valid(invitation) => Response(200, Body(true, None, Some(invitation.email), Some(invitation.role)))
  }
}
