/**
 * The invitation workflow end to end: an administrator invites an address,
 * the public endpoint confirms the token, the invitee accepts it once, and
 * what every later attempt sees.
 */
module Scenarios {
  import Hex
  import opened Wrappers
  import opened Invitations
  import VerifyRoute

  /**
   * Invite, verify, accept, accept again: the endpoint shows the invited
   * address and role, the first acceptance succeeds, the second reports
   * "already used", and the endpoint then refuses the token with that message.
   */
  lemma InviteVerifyAcceptReplay(
    s: Store, appUrl: string, email: Email, role: Role, admin: string,
    random: seq<Hex.byte>, now: Time, mailSent: bool, later: Time, last: Time,
    call: Auth0Call, updateOk: bool)
    requires s.Valid() && |random| == 32
    requires email !in s.localUsers && email !in s.auth0Users
    requires GenerateInvitationToken(random) !in s.invitations
    requires now <= later <= now + TWO_DAYS_MS
    ensures var token := GenerateInvitationToken(random);
            var created := Create(s, appUrl, email, role, admin, random, now, true, mailSent);
            var first := Accept(created.after, token, later, Completes, true);
            var second := Accept(first.after, token, last, call, updateOk);
            && created.result.Stored?
            && VerifyRoute.Get(Some(token), created.after.invitations, later) ==
                 VerifyRoute.Response(200, VerifyRoute.Body(true, None, Some(email), Some(role)))
            && first.result == AcceptResult(true, MSG_ACCEPTED)
            && second == Step(first.after, AcceptResult(false, MSG_USED))
            && VerifyRoute.Get(Some(token), second.after.invitations, last) ==
                 VerifyRoute.Response(400, VerifyRoute.Body(false, Some(MSG_USED), None, None))
  {
  }

  /**
   * Once an invitation has been accepted, Auth0 holds the account, so a new
   * invitation to the same address is refused and the store is unchanged.
   */
  lemma NoReinviteAfterAccept(
    s: Store, token: Token, now: Time, appUrl: string, role: Role, admin: string,
    random: seq<Hex.byte>, later: Time, mailSent: bool)
    requires s.Valid() && |random| == 32
    requires Accept(s, token, now, Completes, true).result.success
    ensures var s1 := Accept(s, token, now, Completes, true).after;
            var email := s.invitations[token].email;
            email !in s1.localUsers ==>
              Create(s1, appUrl, email, role, admin, random, later, true, mailSent) == Step(s1, Threw(Auth0UserExists))
  {
  }
}
