/**
 * The invitation lifecycle of src/lib/invitations.ts.
 *
 * The invitation table is a map from token to record (the token column is
 * unique and is the lookup key of validation). The local user table and the
 * Auth0 tenant enter only as the sets of e-mail addresses they hold; for the
 * tenant these are two sets, every account that the users-by-email lookup
 * reports (any connection) and the accounts of the
 * Username-Password-Authentication database connection, the only connection
 * in which account creation refuses a duplicate address. The clock
 * is a parameter `now` in milliseconds, the random bytes of a new token are a
 * parameter. The Auth0 calls, the mailer and the `used` update each take a
 * parameter saying how they went.
 *
 * Each operation is defined once as a function on a `Store` value (the
 * specification) and once as a method of `InvitationService` that changes
 * its fields step by step in the order of the source; each method is proved
 * to end in the state and with the result of its function.
 */
module Invitations {
  import Hex
  import opened Wrappers

  type Email = string
  type Role = string
  type Token = string
  type Time = int  // milliseconds since the epoch

  /** `addDays(new Date(), 2)`, as a fixed offset. */
  const TWO_DAYS_MS: int := 2 * 24 * 60 * 60 * 1000

  const MSG_INVALID := "Invalid invitation token"
  const MSG_USED := "Invitation has already been used"
  const MSG_EXPIRED := "Invitation has expired"
  const MSG_ACCEPTED := "Invitation accepted successfully. Please check your email to set your password."
  const MSG_ACCEPT_FAILED := "An error occurred while accepting the invitation."

  datatype Invitation = Invitation(
    id: nat,
    email: Email,
    token: Token,
    role: Role,
    invitedBy: string,
    expires: Time,
    used: bool,
    createdAt: Time)

  type Table = map<Token, Invitation>

  /** A token as generateInvitationToken renders it: 32 bytes in lowercase hex. */
  predicate IsToken(t: string) {
    |t| == 64 && Hex.AllDigits(t)
  }

  /** `generateInvitationToken`: `randomBytes(32).toString('hex')`. */
  function GenerateInvitationToken(random: seq<Hex.byte>): (t: Token)
    requires |random| == 32
    ensures IsToken(t)
  {
    Hex.Encode(random)
  }

  /** `isPast(expires)`: strictly before now. */
  predicate IsPast(expires: Time, now: Time) {
    expires < now
  }

  /** An invitation can be redeemed while it is unused and `now` has not passed its expiry. */
  predicate Redeemable(inv: Invitation, now: Time) {
    !inv.used && now <= inv.expires
  }

  datatype Validation = Invalid(message: string) | Valid(invitation: Invitation)

  /** `validateInvitationToken`: a read-only classifier, first matching case wins. */
  function Validate(table: Table, token: Token, now: Time): (v: Validation)
    ensures token !in table ==> v == Invalid(MSG_INVALID)
    ensures token in table && table[token].used ==> v == Invalid(MSG_USED)
    ensures token in table && !table[token].used && now > table[token].expires ==> v == Invalid(MSG_EXPIRED)
    ensures v.Valid? <==> token in table && Redeemable(table[token], now)
    ensures v.Valid? ==> v.invitation == table[token]
  {
    if token !in table then Invalid(MSG_INVALID)
    else if table[token].used then Invalid(MSG_USED)
    else if IsPast(table[token].expires, now) then Invalid(MSG_EXPIRED)
    else Valid(table[token])
  }

  /** Everything the invitation workflow reads and writes. */
  datatype Store = Store(
    invitations: Table,
    localUsers: set<Email>,
    auth0Users: set<Email>,      // every account users-by-email reports
    databaseUsers: set<Email>,   // the accounts of the database connection
    nextId: nat)
  {
    /**
     * Every record is filed under its own token, which is a 64-digit hex
     * string; ids are below `nextId` and distinct; no two records share an
     * e-mail address; and the database connection's accounts are among the
     * accounts Auth0 reports.
     */
    ghost predicate Valid() {
      && databaseUsers <= auth0Users
      && (forall k :: k in invitations ==>
            invitations[k].token == k && IsToken(k) && invitations[k].id < nextId)
      && (forall k1, k2 :: k1 in invitations && k2 in invitations ==>
            invitations[k1].id == invitations[k2].id ==> k1 == k2)
      && (forall k1, k2 :: k1 in invitations && k2 in invitations ==>
            invitations[k1].email == invitations[k2].email ==> k1 == k2)
    }
  }

  datatype Step<R> = Step(after: Store, result: R)

  // ---------------------------------------------------------------------
  // The table operations of Prisma used by the lifecycle
  // ---------------------------------------------------------------------

  /** `invitation.deleteMany({ where: { email } })` */
  function DeleteByEmail(table: Table, email: Email): Table {
    map k | k in table && table[k].email != email :: table[k]
  }

  /** `invitation.update({ where: { id }, data: { used: true } })` */
  function MarkUsed(table: Table, id: nat): Table {
    map k | k in table :: if table[k].id == id then table[k].(used := true) else table[k]
  }

  /** `invitation.delete({ where: { id } })` when the record exists */
  function DeleteById(table: Table, id: nat): Table {
    map k | k in table && table[k].id != id :: table[k]
  }

  predicate HasId(table: Table, id: nat) {
    exists k :: k in table && table[k].id == id
  }

  // ---------------------------------------------------------------------
  // createInvitation
  // ---------------------------------------------------------------------

  datatype CreateError =
    | LocalUserExists      // "User with this email already exists"
    | Auth0UserExists      // "User with this email already exists in Auth0"
    | Auth0Unavailable     // userExistsByEmail threw
    | TokenNotUnique       // the insert broke the token's uniqueness

  datatype Mail = Mail(to: Email, inviteUrl: string, role: Role)

  /**
   * How createInvitation ended: it threw before an invitation was stored, or
   * it stored one and handed `mail` to the mailer, which delivered it or threw.
   */
  datatype CreateOutcome = Threw(error: CreateError) | Stored(mail: Mail, delivered: bool)
  {
    /** The caller sees a rejected promise. */
    predicate Rejected() {
      Threw? || !delivered
    }
  }

  /** The link mailed to the invitee. */
  function InviteUrl(appUrl: string, token: Token): string {
    appUrl + "/invite?token=" + token
  }

  /** `createInvitation(email, role, invitedBy)`. */
  function Create(
    s: Store, appUrl: string, email: Email, role: Role, invitedBy: string,
    random: seq<Hex.byte>, now: Time, auth0Up: bool, mailSent: bool): (r: Step<CreateOutcome>)
    requires s.Valid() && |random| == 32
    ensures r.after.Valid()
    ensures r.after.localUsers == s.localUsers && r.after.auth0Users == s.auth0Users &&
            r.after.databaseUsers == s.databaseUsers
    // the duplicate checks throw before anything is written
    ensures email in s.localUsers ==> r == Step(s, Threw(LocalUserExists))
    ensures email !in s.localUsers && !auth0Up ==> r == Step(s, Threw(Auth0Unavailable))
    ensures email !in s.localUsers && auth0Up && email in s.auth0Users ==>
              r == Step(s, Threw(Auth0UserExists))
    // once past them every earlier record for the address is gone, and nothing else is touched
    ensures r.result != Threw(LocalUserExists) && r.result != Threw(Auth0Unavailable) &&
            r.result != Threw(Auth0UserExists) ==>
              forall k :: k in s.invitations ==>
                ((k in r.after.invitations && r.after.invitations[k] == s.invitations[k]) <==>
                 s.invitations[k].email != email)
    ensures r.result == Threw(TokenNotUnique) ==>
              r.after.invitations == DeleteByEmail(s.invitations, email) && r.after.nextId == s.nextId
    ensures r.result.Stored? <==>
              email !in s.localUsers && auth0Up && email !in s.auth0Users &&
              GenerateInvitationToken(random) !in DeleteByEmail(s.invitations, email)
    // a stored invitation is the only one for its address and carries a fresh token
    ensures r.result.Stored? ==>
              var token := GenerateInvitationToken(random);
              && token in r.after.invitations
              && r.after.invitations[token] ==
                   Invitation(s.nextId, email, token, role, invitedBy, now + TWO_DAYS_MS, false, now)
              && (forall k :: k in r.after.invitations && r.after.invitations[k].email == email ==> k == token)
              && r.after.invitations.Keys == DeleteByEmail(s.invitations, email).Keys + {token}
              && r.after.nextId == s.nextId + 1
              && r.result.mail == Mail(email, InviteUrl(appUrl, token), role)
              && r.result.delivered == mailSent
    // the caller's promise rejects on every throw, and after storing iff the mail failed
    ensures r.result.Threw? ==> r.result.Rejected()
    ensures r.result.Stored? ==> (r.result.Rejected() <==> !mailSent)
  {
    if email in s.localUsers then Step(s, Threw(LocalUserExists))
    else if !auth0Up then Step(s, Threw(Auth0Unavailable))
    else if email in s.auth0Users then Step(s, Threw(Auth0UserExists))
    else
      var cleared := DeleteByEmail(s.invitations, email);
      var token := GenerateInvitationToken(random);
      if token in cleared then Step(s.(invitations := cleared), Threw(TokenNotUnique))
      else
        var inv := Invitation(s.nextId, email, token, role, invitedBy, now + TWO_DAYS_MS, false, now);
        var after := s.(invitations := cleared[token := inv], nextId := s.nextId + 1);
        Step(after, Stored(Mail(email, InviteUrl(appUrl, token), role), mailSent))
  }

  // ---------------------------------------------------------------------
  // acceptInvitation
  // ---------------------------------------------------------------------

  /**
   * How the call to createAuth0User goes: it completes; it throws before the
   * account exists (no management token, a refused request); or it throws
   * after Auth0 created the account (the response was lost). Creation is in
   * the database connection, which refuses a second account for an address it
   * already holds, whatever this says; an account of the same address in
   * another connection (a social login) does not stop it.
   */
  datatype Auth0Call = Completes | FailsBeforeCreating | FailsAfterCreating

  datatype AcceptResult = AcceptResult(success: bool, message: string)

  /** On a store whose ids are distinct, marking the id of a record used touches that record alone. */
  lemma MarkUsedOnly(table: Table, token: Token)
    requires token in table
    requires forall k :: k in table && table[k].id == table[token].id ==> k == token
    ensures MarkUsed(table, table[token].id) == table[token := table[token].(used := true)]
  {
  }

  /** `acceptInvitation(token)`. */
  function Accept(s: Store, token: Token, now: Time, call: Auth0Call, updateOk: bool): (r: Step<AcceptResult>)
    requires s.Valid()
    ensures r.after.Valid()
    // no local user is created and no id is handed out
    ensures r.after.localUsers == s.localUsers && r.after.nextId == s.nextId
    // a token that does not validate: the validator's message, no Auth0 call, no write
    ensures !Validate(s.invitations, token, now).Valid? ==>
              r == Step(s, AcceptResult(false, Validate(s.invitations, token, now).message))
    ensures r.result.success <==>
              && Validate(s.invitations, token, now).Valid?
              && call == Completes
              && s.invitations[token].email !in s.databaseUsers
              && updateOk
    // success: that invitation alone flips to used, and Auth0 holds the account
    ensures r.result.success ==>
              && token in s.invitations
              && r.after.invitations == s.invitations[token := s.invitations[token].(used := true)]
              && r.after.auth0Users == s.auth0Users + {s.invitations[token].email}
              && r.after.databaseUsers == s.databaseUsers + {s.invitations[token].email}
              && r.result.message == MSG_ACCEPTED
    // any failure leaves the table as it was, so the invitation stays unused
    ensures !r.result.success ==> r.after.invitations == s.invitations
    ensures Validate(s.invitations, token, now).Valid? && !r.result.success ==>
              r.result.message == MSG_ACCEPT_FAILED
    // after validation, Auth0 gains the invitee's account exactly when the call gets as far as
    // creating it and the database connection does not hold the address yet, whatever follows
    ensures Validate(s.invitations, token, now).Valid? ==>
              var email := s.invitations[token].email;
              var created := call != FailsBeforeCreating && email !in s.databaseUsers;
              && r.after.databaseUsers == (if created then s.databaseUsers + {email} else s.databaseUsers)
              && r.after.auth0Users == (if created then s.auth0Users + {email} else s.auth0Users)
  {
    var v := Validate(s.invitations, token, now);
    if v.Invalid? then Step(s, AcceptResult(false, v.message))
    else
      var inv := v.invitation;
      var created := call != FailsBeforeCreating && inv.email !in s.databaseUsers;
      var s1 := if created then
                  s.(auth0Users := s.auth0Users + {inv.email}, databaseUsers := s.databaseUsers + {inv.email})
                else s;
      if call != Completes || inv.email in s.databaseUsers || !updateOk then
        Step(s1, AcceptResult(false, MSG_ACCEPT_FAILED))
      else
        MarkUsedOnly(s.invitations, token);
        Step(s1.(invitations := MarkUsed(s1.invitations, inv.id)), AcceptResult(true, MSG_ACCEPTED))
  }

  // ---------------------------------------------------------------------
  // cancelInvitation
  // ---------------------------------------------------------------------

  /** `cancelInvitation(id)`: Prisma's delete throws when no record has the id. */
  datatype CancelOutcome = Cancelled | RecordNotFound

  function Cancel(s: Store, id: nat): (r: Step<CancelOutcome>)
    requires s.Valid()
    ensures r.after.Valid()
    ensures r.result == Cancelled <==> HasId(s.invitations, id)
    ensures r.result == RecordNotFound ==> r.after == s
    ensures forall k :: k in s.invitations && s.invitations[k].id == id ==>
              r.after == s.(invitations := s.invitations - {k})
  {
    if HasId(s.invitations, id) then
      Step(s.(invitations := DeleteById(s.invitations, id)), Cancelled)
    else
      Step(s, RecordNotFound)
  }

  // ---------------------------------------------------------------------
  // The service: the same operations, as updates of its fields
  // ---------------------------------------------------------------------

  class InvitationService {
    var invitations: Table
    var localUsers: set<Email>
    var auth0Users: set<Email>
    var databaseUsers: set<Email>
    var nextId: nat
    const appUrl: string

    function State(): Store
      reads this
    {
      Store(invitations, localUsers, auth0Users, databaseUsers, nextId)
    }

    ghost predicate Valid()
      reads this
    {
      State().Valid()
    }

    constructor (appUrl: string, localUsers: set<Email>, auth0Users: set<Email>, databaseUsers: set<Email>)
      requires databaseUsers <= auth0Users
      ensures Valid()
      ensures this.appUrl == appUrl
      ensures State() == Store(map[], localUsers, auth0Users, databaseUsers, 0)
    {
      this.appUrl := appUrl;
      this.invitations := map[];
      this.localUsers := localUsers;
      this.auth0Users := auth0Users;
      this.databaseUsers := databaseUsers;
      this.nextId := 0;
    }

    method CreateInvitation(
      email: Email, role: Role, invitedBy: string,
      random: seq<Hex.byte>, now: Time, auth0Up: bool, mailSent: bool)
      returns (r: CreateOutcome)
      requires Valid() && |random| == 32
      modifies this
      ensures Valid()
      ensures Step(State(), r) ==
                Create(old(State()), appUrl, email, role, invitedBy, random, now, auth0Up, mailSent)
    {
      if email in localUsers {
        return Threw(LocalUserExists);
      }
      if !auth0Up {
        return Threw(Auth0Unavailable);
      }
      if email in auth0Users {
        return Threw(Auth0UserExists);
      }
      invitations := DeleteByEmail(invitations, email);
      var token := GenerateInvitationToken(random);
      if token in invitations {
        return Threw(TokenNotUnique);
      }
      invitations := invitations[token := Invitation(nextId, email, token, role, invitedBy,
                                                     now + TWO_DAYS_MS, false, now)];
      nextId := nextId + 1;
      var inviteUrl := InviteUrl(appUrl, token);
      r := Stored(Mail(email, inviteUrl, role), mailSent);
    }

    method AcceptInvitation(token: Token, now: Time, call: Auth0Call, updateOk: bool)
      returns (r: AcceptResult)
      requires Valid()
      modifies this
      ensures Valid()
      ensures Step(State(), r) == Accept(old(State()), token, now, call, updateOk)
    {
      var validation := Validate(invitations, token, now);
      if validation.Invalid? {
        return AcceptResult(false, validation.message);
      }
      var invitation := validation.invitation;
      // createAuth0User
      if call == FailsBeforeCreating || invitation.email in databaseUsers {
        return AcceptResult(false, MSG_ACCEPT_FAILED);
      }
      auth0Users := auth0Users + {invitation.email};
      databaseUsers := databaseUsers + {invitation.email};
      if call == FailsAfterCreating {
        return AcceptResult(false, MSG_ACCEPT_FAILED);
      }
      // mark the invitation used
      if !updateOk {
        return AcceptResult(false, MSG_ACCEPT_FAILED);
      }
      invitations := MarkUsed(invitations, invitation.id);
      r := AcceptResult(true, MSG_ACCEPTED);
    }

    method CancelInvitation(id: nat) returns (r: CancelOutcome)
      requires Valid()
      modifies this
      ensures Valid()
      ensures Step(State(), r) == Cancel(old(State()), id)
    {
      if !HasId(invitations, id) {
        return RecordNotFound;
      }
      invitations := DeleteById(invitations, id);
      r := Cancelled;
    }
  }
}
