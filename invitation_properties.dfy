/**
 * Properties of the invitation lifecycle that relate several operations:
 * what validation says after an invitation is created, re-issued, accepted,
 * or after an acceptance failed half-way.
 */
module InvitationProperties {
  import Hex
  import opened Invitations

  /** A fresh invitation validates, with its address and role, up to and including its expiry instant. */
  lemma ValidAfterCreate(
    s: Store, appUrl: string, email: Email, role: Role, invitedBy: string,
    random: seq<Hex.byte>, now: Time, auth0Up: bool, mailSent: bool, later: Time)
    requires s.Valid() && |random| == 32
    requires Create(s, appUrl, email, role, invitedBy, random, now, auth0Up, mailSent).result.Stored?
    ensures var after := Create(s, appUrl, email, role, invitedBy, random, now, auth0Up, mailSent).after;
            var v := Validate(after.invitations, GenerateInvitationToken(random), later);
            && (later <= now + TWO_DAYS_MS ==>
                  v.Valid? && v.invitation.email == email && v.invitation.role == role &&
                  v.invitation.invitedBy == invitedBy)
            && (later > now + TWO_DAYS_MS ==> v == Invalid(MSG_EXPIRED))
  {
  }

  /**
   * Re-inviting an address wipes its earlier invitations, used or not: each
   * of their tokens now validates as unknown, whatever the time.
   */
  lemma ReinviteInvalidatesOldTokens(
    s: Store, appUrl: string, email: Email, role: Role, invitedBy: string,
    random: seq<Hex.byte>, now: Time, auth0Up: bool, mailSent: bool, earlier: Token, later: Time)
    requires s.Valid() && |random| == 32
    requires Create(s, appUrl, email, role, invitedBy, random, now, auth0Up, mailSent).result.Stored?
    requires earlier in s.invitations && s.invitations[earlier].email == email
    requires earlier != GenerateInvitationToken(random)
    ensures Validate(Create(s, appUrl, email, role, invitedBy, random, now, auth0Up, mailSent).after.invitations,
                     earlier, later) == Invalid(MSG_INVALID)
  {
  }

  /** Two invitations to one address in a row: the first token is dead once the second is stored. */
  lemma SecondInviteSupersedesFirst(
    s: Store, appUrl: string, email: Email, role1: Role, role2: Role, admin: string,
    random1: seq<Hex.byte>, random2: seq<Hex.byte>, now1: Time, now2: Time, later: Time)
    requires s.Valid() && |random1| == 32 && |random2| == 32
    requires random1 != random2
    requires GenerateInvitationToken(random2) !in s.invitations
    requires Create(s, appUrl, email, role1, admin, random1, now1, true, true).result.Stored?
    ensures var s1 := Create(s, appUrl, email, role1, admin, random1, now1, true, true).after;
            var s2 := Create(s1, appUrl, email, role2, admin, random2, now2, true, true);
            s2.result.Stored? && Validate(s2.after.invitations, GenerateInvitationToken(random1), later) == Invalid(MSG_INVALID)
  {
    var s1 := Create(s, appUrl, email, role1, admin, random1, now1, true, true).after;
    var t1 := GenerateInvitationToken(random1);
    var t2 := GenerateInvitationToken(random2);
    assert t1 != t2 by {
      if t1 == t2 {
        Hex.EncodeInjective(random1, random2);
      }
    }
    ReinviteInvalidatesOldTokens(s1, appUrl, email, role2, admin, random2, now2, true, true, t1, later);
  }

  /** A token that was accepted reports "already used" to every later attempt, which changes nothing. */
  lemma AcceptIsNotRepeatable(
    s: Store, token: Token, now: Time, call: Auth0Call, updateOk: bool,
    later: Time, call2: Auth0Call, updateOk2: bool)
    requires s.Valid()
    requires Accept(s, token, now, call, updateOk).result.success
    ensures var s1 := Accept(s, token, now, call, updateOk).after;
            Accept(s1, token, later, call2, updateOk2) == Step(s1, AcceptResult(false, MSG_USED))
  {
  }

  /**
   * An acceptance that fails after validation leaves the token exactly as
   * redeemable as before, so a retry goes through createAuth0User again.
   */
  lemma FailedAcceptKeepsToken(s: Store, token: Token, now: Time, call: Auth0Call, updateOk: bool, later: Time)
    requires s.Valid()
    requires Validate(s.invitations, token, now).Valid?
    requires !Accept(s, token, now, call, updateOk).result.success
    ensures Validate(Accept(s, token, now, call, updateOk).after.invitations, token, later) ==
            Validate(s.invitations, token, later)
  {
  }

  /**
   * Once the database connection holds the invitee's account while the
   * invitation is still unused, no acceptance of that token can succeed
   * again and none changes the store: there is no existence check that would
   * let a retry through.
   */
  lemma AccountWithoutUsedFlagBlocksAccept(s: Store, token: Token, now: Time, call: Auth0Call, updateOk: bool)
    requires s.Valid()
    requires token in s.invitations && s.invitations[token].email in s.databaseUsers
    ensures !Accept(s, token, now, call, updateOk).result.success
    ensures Accept(s, token, now, call, updateOk).after == s
  {
  }

  /**
   * An account for the address in another connection (a social login, say)
   * does not stand in the way: the lookup of createInvitation sees it, but
   * account creation in the database connection still goes through, and the
   * acceptance succeeds.
   */
  lemma OtherConnectionAccountAllowsAccept(s: Store, token: Token, now: Time)
    requires s.Valid()
    requires Validate(s.invitations, token, now).Valid?
    requires s.invitations[token].email in s.auth0Users - s.databaseUsers
    ensures var r := Accept(s, token, now, Completes, true);
            r.result.success && r.after.auth0Users == s.auth0Users
  {
  }

  /**
   * The half-way failures of acceptance (the account was created but the call
   * threw, or the `used` update threw) strand the invitation: it stays unused
   * and every later acceptance of it fails.
   */
  lemma PartialFailureStrandsInvitation(
    s: Store, token: Token, now: Time, call: Auth0Call, updateOk: bool,
    later: Time, call2: Auth0Call, updateOk2: bool)
    requires s.Valid()
    requires Validate(s.invitations, token, now).Valid?
    requires s.invitations[token].email !in s.databaseUsers
    requires call == FailsAfterCreating || (call == Completes && !updateOk)
    ensures var s1 := Accept(s, token, now, call, updateOk).after;
            && !s1.invitations[token].used
            && !Accept(s1, token, later, call2, updateOk2).result.success
  {
  }

  /** After a cancellation the record's token is unknown to validation. */
  lemma CancelledTokenIsInvalid(s: Store, token: Token, now: Time)
    requires s.Valid() && token in s.invitations
    ensures var r := Cancel(s, s.invitations[token].id);
            r.result == Cancelled && Validate(r.after.invitations, token, now) == Invalid(MSG_INVALID)
  {
  }

  /** No two records of a consistent store for the same address can both be redeemable. */
  lemma AtMostOneRedeemablePerEmail(s: Store, t1: Token, t2: Token, now: Time)
    requires s.Valid()
    requires Validate(s.invitations, t1, now).Valid? && Validate(s.invitations, t2, now).Valid?
    requires s.invitations[t1].email == s.invitations[t2].email
    ensures t1 == t2
  {
  }
}
