# Invitation workflow of next-starter, modelled in Dafny

This project models the admin-invitation workflow of the next-starter
application:

- An administrator invites an e-mail address with a role. The application
  refuses the address if a local user or an Auth0 account already has it.
  Otherwise it deletes every earlier invitation for the address, stores a new
  one with a 64-digit hex token valid for two days, and mails the link
  `APP_URL/invite?token=…`.
- The token is then validated, and accepted once. Accepting creates the Auth0
  account and marks the invitation used.
- An administrator can also cancel an invitation.

Around that lifecycle the project models four smaller cores:

- the cache of the Auth0 management-API token;
- the role gates that protect the admin routes;
- the public verify endpoint;
- the status badge and link shortening of the admin invitation table.

Files (one module each):

- `invitations.dfy` (`Invitations`): the data, `Validate`, and the
  specification functions `Create`, `Accept` and `Cancel` over a `Store`
  value. It also holds the class `InvitationService`, whose methods update
  its fields step by step in the source's order. Each method is proved to
  end in the state, and with the result, that its function gives.
- `invitation_properties.dfy`, `scenarios.dfy`: lemmas that relate several
  operations.
- `hex.dfy`: the hex rendering of the random token bytes, with its inverse.
- `auth0.dfy`, `auth.dfy`, `verify_route.dfy`, `invitations_table.dfy`: the
  smaller cores. `wrappers.dfy` holds `Option` and `Result`.

What the environment does enters as parameters:

- the clock is `now`, in milliseconds;
- the random bytes of a token are a parameter;
- the local user table is the set of addresses it holds;
- the Auth0 tenant is two sets of addresses. `auth0Users` is every account
  the users-by-email lookup reports, in any connection. `databaseUsers` is
  the accounts of the Username-Password-Authentication database connection,
  where `createAuth0User` creates accounts. The second is part of the first;
- the Auth0 calls, the mailer and the `used` update each have a parameter
  saying how they went: the Auth0 lookup (`auth0Up`), the mailer
  (`mailSent`), account creation (`Auth0Call`), the `used` update
  (`updateOk`), and the token endpoint's and users endpoint's replies. The
  other database calls always succeed in the model (see "Left out").

The model follows the code, including where the code is simpler than such a
workflow is often described:

- An invitation whose `expires` equals `now` is still valid, because
  `isPast` is a strict comparison.
- Accepting creates no local user, uses no transaction and makes no
  existence check before creating the Auth0 account.
- Nothing raises a conflict for an existing invitation: earlier invitations
  are deleted.
- Cancelling an id that is not stored is an error, not a no-op.

The store invariant `Store.Valid` is stronger than "one active invitation per
address": in this sequential model no two stored records ever share an
address. Every record is filed under its own token, and ids are distinct.

Three facts the model assumes of the systems it talks to:

- Auth0 refuses to create a second account in the database connection for
  an address that connection already holds. An account for the address in
  another connection does not stop creation.
- Auth0 reports an address exactly as it was created, and its lookup
  matches addresses as exact strings. Addresses are compared as exact
  strings throughout the model.
- Prisma's `delete` fails when no record has the id.

From the first, the model proves the weak point of acceptance. Suppose the
Auth0 account was created but the call threw, or the `used` update threw.
Then the invitation stays unused, and every later acceptance of it fails
(`PartialFailureStrandsInvitation`).

## Model

| member | source | states |
|---|---|---|
| `Hex.Encode` | src/lib/invitations.ts:13 | the hex rendering has two characters per byte, all lowercase hex digits |
| `Hex.DecodeEncode` | src/lib/invitations.ts:13 | decoding the hex rendering gives the random bytes back |
| `Hex.EncodeInjective` | src/lib/invitations.ts:13 | distinct random byte strings give distinct tokens |
| `Invitations.GenerateInvitationToken` | src/lib/invitations.ts:12-14 | a token is 64 lowercase hex characters |
| `Invitations.Validate` | src/lib/invitations.ts:68-89 | an unknown token is "Invalid invitation token"; a used one is "Invitation has already been used" even when also expired; an unused one past its expiry is "Invitation has expired"; the result is valid, carrying the stored record, iff the record exists, is unused and `now <= expires` |
| `Invitations.Create` | src/lib/invitations.ts:19-63 | a local user or an Auth0 account for the address, or a failed Auth0 lookup, throws with the store unchanged. Past those checks, every earlier record for the address is gone and all others are untouched. If the new token is already held by another address, the insert throws after the deletion. Otherwise exactly one record for the address exists, with the new token, the given role and invitedBy, unused and expiring at now + 2 days, and the mail goes to the address with link APP_URL/invite?token=token. The promise rejects on every throw and, once the record is stored, exactly when the send fails; a failed send keeps the record. The store invariant is kept |
| `Invitations.Accept` | src/lib/invitations.ts:94-134 | a token that does not validate returns success=false with the validator's message, calls no Auth0 and writes nothing. Success happens iff the token validates, account creation completes for an address the database connection does not yet hold, and the update succeeds; then only that invitation's `used` flips to true. After validation, Auth0 gains the address exactly when the call got as far as creating the account and the database connection did not hold it, whether or not the acceptance then fails. Any other failure returns "An error occurred while accepting the invitation." and leaves the table, and so `used`, unchanged. No local user is created |
| `Invitations.MarkUsedOnly` | src/lib/invitations.ts:117-120 | the update by id touches only the record with that id when ids are distinct |
| `Invitations.Cancel` | src/lib/invitations.ts:139-143 | with a record of that id, exactly that record is removed and the rest of the store is unchanged; with none, the delete fails and nothing changes |
| `Invitations.InvitationService.CreateInvitation` | src/lib/invitations.ts:19-63 | the checks, deleteMany, insert and mail run in the source's order, and the new state and outcome are those of `Create` |
| `Invitations.InvitationService.AcceptInvitation` | src/lib/invitations.ts:94-134 | validation, then the Auth0 account, then the `used` update, with the state and result of `Accept` |
| `Invitations.InvitationService.CancelInvitation` | src/lib/invitations.ts:139-143 | the state and result of `Cancel` |
| `InvitationProperties.ValidAfterCreate` | src/lib/invitations.ts:44-56 | a new invitation validates, with its address, role and inviter, at every instant up to and including now + 2 days, and is "expired" after |
| `InvitationProperties.ReinviteInvalidatesOldTokens` | src/lib/invitations.ts:39-42 | after a re-invite every earlier token of the address, used or not, validates as "Invalid invitation token" |
| `InvitationProperties.SecondInviteSupersedesFirst` | src/lib/invitations.ts:39-56 | two invitations in a row to one address: the second is stored and the first token is invalid |
| `InvitationProperties.AcceptIsNotRepeatable` | src/lib/invitations.ts:77-79 | after a successful acceptance every later acceptance returns "Invitation has already been used" and changes nothing |
| `InvitationProperties.FailedAcceptKeepsToken` | src/lib/invitations.ts:112-133 | an acceptance that fails after validation leaves the token's validation unchanged, so a retry reaches createAuth0User again |
| `InvitationProperties.AccountWithoutUsedFlagBlocksAccept` | src/lib/invitations.ts:112-133 | while the database connection holds the address and the invitation is unused, no acceptance succeeds and none changes the store |
| `InvitationProperties.OtherConnectionAccountAllowsAccept` | src/lib/invitations.ts:112-133 | an address Auth0 holds only in another connection does not block acceptance: with account creation and the update going through, it succeeds |
| `InvitationProperties.PartialFailureStrandsInvitation` | src/lib/invitations.ts:112-133 | if the account was created but the call or the `used` update threw, the invitation stays unused and every later acceptance fails |
| `InvitationProperties.CancelledTokenIsInvalid` | src/lib/invitations.ts:139-143 | cancelling a record by its id succeeds and its token then validates as "Invalid invitation token" |
| `InvitationProperties.AtMostOneRedeemablePerEmail` | src/lib/invitations.ts:39-56 | in a consistent store two valid tokens for one address are the same token |
| `Scenarios.InviteVerifyAcceptReplay` | src/lib/invitations.ts:19-134 | invite a new address, then the verify endpoint answers 200 with its address and role, the first acceptance succeeds, the second returns "already used", and the endpoint then answers 400 with that message |
| `Scenarios.NoReinviteAfterAccept` | src/lib/invitations.ts:34-37 | once accepted, a new invitation to the same address is refused because Auth0 holds the account |
| `Auth0.FetchToken` | src/lib/auth0.ts:24-52 | a request is made iff there is no cached token or `tokenExpiresAt <= now`. Without a request the cached access_token is returned and nothing changes. A non-ok reply fails with the cache unchanged. A good reply is cached until now + expires_in × 950 ms and its token returned |
| `Auth0.RefreshedTokenIsReusedUntilDeadline` | src/lib/auth0.ts:26-51 | after a refresh at t0 the token is reused without a request strictly before t0 + expires_in × 950, and a request is made from that instant on |
| `Auth0.FailedRefreshIsRetried` | src/lib/auth0.ts:43-45 | after a failed refresh the next call asks the token endpoint again |
| `Auth0.UserExistsResult` | src/lib/auth0.ts:105-110 | a non-ok reply throws; otherwise the answer is true iff the body is a non-empty array |
| `Auth0.NewUserBody` | src/lib/auth0.ts:70-77 | the created account has the address, connection Username-Password-Authentication, email_verified true and app_metadata.roles = [role] |
| `Auth0.CreateUserResult` | src/lib/auth0.ts:80-85 | a non-ok reply throws with its body; an ok one returns the body |
| `Auth0.ManagementClient.constructor` | src/lib/auth0.ts:18-19 | the cache starts with no token and deadline 0 |
| `Auth0.ManagementClient.GetManagementToken` | src/lib/auth0.ts:24-52 | updates `cachedToken` and `tokenExpiresAt` and returns as `FetchToken` says |
| `Auth0.ManagementClient.UserExistsByEmail` | src/lib/auth0.ts:91-111 | a token failure throws before any lookup; otherwise the lookup carries the bearer token and the answer is `UserExistsResult` |
| `Auth0.ManagementClient.CreateAuth0User` | src/lib/auth0.ts:57-86 | a token failure throws before any request; otherwise it posts `NewUserBody` with the bearer token and the answer is `CreateUserResult` |
| `Auth.HasRole` | src/lib/auth.ts:9-22 | false without a session user id (empty counts as none); otherwise true iff the stored user exists with exactly that role |
| `Auth.WithAuth` | src/lib/auth.ts:27-38 | the callback's response iff the session has a user, else 401 Unauthorized |
| `Auth.WithRole` | src/lib/auth.ts:43-64 | no session user gives 401 Unauthorized; a missing stored user or another role gives 403 Forbidden; otherwise exactly the callback's response |
| `Auth.WithAdmin` | src/lib/auth.ts:69-74 | is `WithRole` with role admin |
| `Auth.IsAdmin` | src/lib/auth.ts:79-81 | is `HasRole` with role admin |
| `Auth.RequireAdmin` | src/lib/auth.ts:87-110 | allowed iff there is a session user whose stored role is admin; userId is present only when allowed, and then it is that user's id |
| `Auth.AdminChecksAgree` | src/lib/auth.ts:79-110 | for a non-empty session user id, isAdmin, requireAdmin and withAdmin make the same decision |
| `Auth.EmptyIdSeparatesChecks` | src/lib/auth.ts:9-22 | with an empty session user id stored as admin, isAdmin is false while requireAdmin and withAdmin allow |
| `VerifyRoute.Get` | src/app/api/invitations/verify/route.ts:5-33 | a missing or empty token gives 400 "Token is required"; a token that does not validate gives 400 with the validator's message; a valid one gives 200 with exactly valid, the stored address and role, and no other field |
| `InvitationsTable.StatusBadge` | src/components/admin/invitations-table.tsx:118-129 | a used invitation is 使用済み regardless of expiry; an unused one with `expires < now` is 期限切れ; 有効 iff unused and `now <= expires` |
| `InvitationsTable.ShortUrl` | src/components/admin/invitations-table.tsx:181-183 | a link longer than 30 characters shows its first 15, "..." and its last 15, 33 in all; a shorter one is shown unchanged |
| `InvitationsTable.Actions` | src/components/admin/invitations-table.tsx:166-194 | the copy-link and delete buttons are disabled iff the invitation is used |
| `InvitationsTable.BadgeAgreesWithValidation` | src/components/admin/invitations-table.tsx:118-129 | the badge of a stored invitation matches validation at the same instant: 有効 iff valid, 使用済み iff "already used", 期限切れ iff "expired" |
| `InvitationsTable.InviteLinkIsShortened` | src/components/admin/invitations-table.tsx:181-183 | every invite link is longer than 30 characters, so its shown tail is the last 15 digits of the token |

## Left out

- Concurrency: the model is sequential. Concurrent accepts or re-invites can
  interleave in the source, which has no transaction or lock. Nothing here
  claims exactly-once under races, and the one-record-per-address invariant
  holds only for sequential runs.
- The database, Auth0 HTTP calls and SendGrid are not modelled beyond their
  outcome. Database failures other than the `used` update and the token's
  uniqueness are not modelled. These are `user.findUnique` and `deleteMany`
  in `createInvitation`, other insert errors, and the lookup in
  `validateInvitationToken`. That lookup runs before the `try` of
  `acceptInvitation`, so its failure rejects the promise instead of
  returning the generic failure message; the model has no such path.
- Scenarios.NoReinviteAfterAccept: Auth0 stores a database-connection
  address in lower case, and this is not modelled. The lemma holds only for
  addresses Auth0 keeps unchanged. For a mixed-case address such as
  "John@example.com", the source's case-sensitive lookup would miss the
  stored account, so the re-invite would be stored and its acceptance would
  then fail on the duplicate.
- Invitation ids are strings that Prisma assigns, and Prisma sets
  `createdAt`. In the
  model, ids are natural numbers from a counter and `createdAt` is the `now`
  of the call.
- `addDays(new Date(), 2)` is a fixed 172 800 000 ms. Calendar and
  daylight-saving effects are not modelled.
- Invitations.InvitationService: the methods take the Auth0 outcome as a
  parameter instead of going through `ManagementClient`. The token cache is
  therefore not threaded through invitation operations.
- Auth0.FetchToken: `expires_in * 0.95 * 1000` is taken as the integer
  `expires_in * 950`. Floating-point rounding is not modelled.
- The token and users URLs are built from `AUTH0_ISSUER` with its `https://`
  prefix removed. That string handling is not modelled, and neither is
  `encodeURIComponent` on the lookup address.
- Auth0.CreateUserResult: the error carries the reply body, not the text
  `JSON.stringify` would make of it.
- `assignRoleToUser` (src/lib/auth0.ts:116-141) is not used by the
  invitation workflow and is not modelled.
- Auth: the stored role is a string, not a nullable one. The session user
  always has an `id` string, which the NextAuth session callback sets.
- The fallback message "Invalid invitation" in `acceptInvitation` cannot be
  reached, because validation always gives a string message. The model
  returns the validator's message.
- InvitationsTable.ShortUrl: lengths and cuts are counted in characters
  (Unicode scalar values), not in the UTF-16 code units of JavaScript's
  `length` and `substring`. The two differ only when the link holds a
  character outside the Basic Multilingual Plane, where JavaScript may also
  split a surrogate pair.
- `copyInviteLink`, `handleDeleteInvitation`, React state, rendering, e-mail
  templates, server actions and pages are not modelled.
