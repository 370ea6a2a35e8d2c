# wxcode-adm protocols in Dafny

A model of the five stateful protocols inside the wxcode-adm backend, with proofs of what they keep
over whole runs. Check everything with `dafny verify dfyconfig.toml`.

## What is modelled

Every protocol follows one plan. The rows and Redis keys are a value, the *world*. A request is a
function from the world before to the rows it would commit, the keys it leaves and its answer. A
*step* adds the database session's rule: the rows survive only when the request neither raises nor
fails to commit, the Redis writes always survive. A *run* is any sequence of steps, each after any
delay. Beside the functions of the session, tenant, billing, OTP, reset and MFA protocols stands a
class that does the same work the way the services do it, with mutable fields, loops over the rows
of a query and early returns; its `Handle` method is proved to take exactly one step of the
functional model, so the theorems about runs are about the class as well. The racing workers are a
state machine only, and the dashboard, which changes nothing, is a set of methods with loops.

- **Refresh tokens and sessions** (`SessionModel`, `SessionLedger`, `SessionRuns`,
  `SessionAnswers`, `SessionLimits`, `AuthService`).
  Login, rotation, admin login and rotation, logout, the revocations, password changes and the
  authentication gate, over token rows, session rows that cascade with their token, shadow keys,
  the JTI blacklist and last-active keys. The invariant links tokens and sessions one to one and
  bounds every lifetime; on it rest single use, replay detection, single session, and the
  permanence and exactness of revocation, including what a revocation does not reach. Who passes
  the user gate and the admin gate is said exactly, over runs.
- **Tenants** (`TenantModel`, `TenantOwnership`, `Memberships`, `Invitations`, `TenantEffects`, `TenantService`).
  Workspaces, roles, removal, leaving, the two-step ownership transfer, invitations and auto-join,
  under the route guards. Exactly one Owner always, ownership moves only by consent of both sides, and every other
  membership goes back to an invitation, with the role last given.
- **Stripe events** (`BillingModel`, `WebhookRuns`, `WebhookRace`, `SubscriptionLifecycle`,
  `BillingEffects`, `BillingService`). Deliveries repeat, raise and die anywhere before the commit;
  their effects on the tables are those of each successful event once. A second machine splits check, compute and
  commit between racing workers, whose commits update single columns. On top, the status
  machine, the usage counter, and the events behind a row's plan and period.
- **MRR dashboard** (`MrrDashboard`). The nested trend loops over the prefiltered query, related to
  sums over all subscriptions; days are computed from a microsecond clock.
- **Credentials** (`OtpModel`, `OtpRuns`, `OtpService`; `ResetModel`, `ResetRuns`, `ResetEffects`, `ResetService`;
  `MfaModel`, `MfaRuns`, `MfaProvenance`, `MfaTrust`, `MfaEffects`, `MfaService`). Email
  codes with attempts and cooldown, password-reset tokens salted with the current hash, two-stage
  login with backup codes, and sign-in by a provider.

Clocks, random names (tokens, ids, hashes, backup codes), the outcome of a password or TOTP check,
and whether the final commit succeeds are inputs of a request. Random names are assumed never drawn
twice (`Admissible`), signatures verify only tokens that were handed out, and password hashes never
repeat. Times are whole microseconds, except in `ResetModel`, whose signatures count whole seconds.

## Where the code and its descriptions differ

The model follows the code in each of these, and the lemma named gives the exact condition.

- A single `accept_transfer` call does not ask whether the accepter is still a member. Alone it
  keeps one Owner iff that holds (`AcceptKeepsOneOwnerIff`; `UnguardedAcceptCanLoseTheOwner` is an
  input). The route's membership guard is what saves the property (`ExactlyOneOwner`).
- Replay of a consumed token promises a full logout, but the delete precedes the `raise` and is
  rolled back. The victim is logged out iff no token was left anyway (`ReplayLogoutIsUndone`), and a
  successor stays exchangeable (`ReplaySparesSuccessor`). The replay answer itself is always given,
  because the shadow key stays (`ReplayIsDetected`). The other deletes before a `raise` are lost as
  well: expired refresh tokens (`ExpiredTokenStays`) and expired transfers (`ExpiredTransferStays`).
- `refresh` means to carry the session row over, but the cascade has removed it already, so the row
  is created anew; both branches re-establish the same link (`RelinkEitherBranch`).
- A bulk revocation blacklists what the session rows record, and rotation replaces the recorded
  access token. Exactly the tokens not on record survive (`SurvivesRevocationIff`;
  `RotatedTokenSurvivesRevocation` is an input).
- `invite_user` names two refusals, a member and an active invitation. An address whose invitation
  expired or was accepted passes both checks and then hits the unique key on (email, tenant), modelled as a
  server error, exactly when `InviteHitsUniqueKeyIff` says (`StaleAddressCannotBeReinvited` is an input).
- `accept_invitation` still admits an invitation at its exact expiry instant, auto-join does not
  (`AcceptAgreesIff`).
- `invoice.paid` leaves a canceled subscription alone, but a failed payment makes it PAST_DUE first
  and a paid invoice after that makes it ACTIVE (`CanceledLeavesIff`, `FailedPaymentReopensCanceled`).
- A completed checkout without a subscription id would break the tie between FREE and a missing
  subscription id (`CheckoutKeepsLinkIff`).
- Changing the address of a verified account sends a code without looking at the cooldown, so the
  cooldown alone bounds the guesses iff no address is changed (`PlainBoundIff`;
  `ChangeOfAddressBuysGuesses` is an input). With a term for the changes the bound holds of all runs
  and is attained (`GuessBound`, `GuessBoundIsTight`).
- Sign-in by a linked provider identity issues tokens without a second factor, and so does
  confirming a link, even for an account with MFA in an enforcing tenant (`IssuesIff` and
  `WherePairsComeFrom`; `ProviderSkipsEnforcedMfa` is an input).
- The last-code key is described as preventing reuse of a TOTP code; it holds one code for a minute, so
  a code is refused iff it is the one this user spent last, less than a minute before (`ReplayedIff`).
- `revoke_trusted_devices` is described as called on a password reset and when all sessions are
  revoked; nothing calls it, and disabling MFA leaves device rows. A device is trusted iff an MFA
  login asked for it within thirty days (`TrustedIff`; `OldTrustSkipsNewEnrolment` is an input).
- A forced reset shuts the user endpoints (`ForcedResetShutsOut`), but `require_admin` does not read
  the flag and admin tokens have no session row. Only expiry and its own logout stop an admin token
  (`AdminTokenStopsIff`; `ForcedResetSparesAdminToken` is an input).
- Two different events about one subscription are not serialised. A commit has its handler's effect
  if what the handler read is still so (`UndisturbedCommit`); for a paid invoice `StaleInvoiceIff` is
  exact, and `RacingInvoiceRevivesCanceled` is an input where a canceled subscription comes back.
- The account model speaks of one provider per account; the code refuses only a second identity of the
  same provider (`LinkingIssuesIff`; `SecondProviderIsLinked` is an input).

## Model

| member | source | states |
|---|---|---|
| `SessionLedger.StartIsSound` | backend/src/wxcode_adm/auth/seed.py:37-55 | the system as seeded, active superusers and no tokens, satisfies the ledger invariant |
| `SessionLedger.RelinkEitherBranch` | backend/src/wxcode_adm/auth/service.py:633-661 | whether or not the database cascaded, the tail of `refresh` leaves exactly one session on the new token, with the right user and JTI, none on the spent token, every other session untouched, and one more session only when the old one was gone |
| `SessionLedger.IssueKeeps` | backend/src/wxcode_adm/auth/service.py:908-947 | issuing a pair (after displacing every earlier token of the account) keeps the token/session ledger |
| `SessionLedger.RefreshKeeps` | backend/src/wxcode_adm/auth/service.py:592-661 | a successful rotation keeps the ledger |
| `SessionLedger.AdminRefreshKeeps` | backend/src/wxcode_adm/admin/service.py:135-196 | admin rotation keeps the ledger although it creates no session |
| `SessionLedger.AdminLoginKeeps` | backend/src/wxcode_adm/admin/service.py:71-132 | admin login keeps the ledger; only superusers may accumulate tokens |
| `SessionLedger.QuietKeeps` | backend/src/wxcode_adm/auth/models.py:282-291 | every request that mints nothing only deletes tokens (sessions cascading) and edits account flags, and keeps the ledger |
| `SessionLedger.RollbackKeeps` | backend/src/wxcode_adm/dependencies.py:43-49 | a request that raised or failed to commit keeps the ledger: rows restored, Redis and used-up names not |
| `SessionLedger.StepKeepsLedger` | backend/src/wxcode_adm/auth/service.py:592-661 | every request, in every outcome, keeps: each session points to an existing token of the same user; no two sessions share a token or JTI; a token has a session iff the admin path did not issue it; an ordinary account holds at most one token |
| `SessionLedger.LedgerHoldsInEveryRun` | backend/src/wxcode_adm/auth/models.py:282-295 | the ledger holds in every state of every run |
| `SessionLedger.SingleSessionInEveryRun` | backend/src/wxcode_adm/auth/service.py:908-947 | from the seeded start, after any requests, a user who is not a seeded superuser has at most one refresh token, and each non-admin token has exactly one session, of its own user |
| `SessionRuns.NoTokenExchangedTwice` | backend/src/wxcode_adm/auth/service.py:592-620 | no refresh token is exchanged for a pair twice in any run, across `refresh` and `admin_refresh` |
| `SessionRuns.DeadForever` | backend/src/wxcode_adm/auth/service.py:395-413 | a token string once removed from the table never returns, and its shadow key is never rewritten |
| `SessionRuns.ShadowsOfDeadStay` | backend/src/wxcode_adm/auth/service.py:395-413 | shadow keys are written only for rows that are in the table |
| `SessionRuns.RetiringLeavesShadow` | backend/src/wxcode_adm/auth/service.py:601-609 | consuming or displacing a token removes its row, leaves a shadow key of its user, and that key outlasts the token |
| `SessionRuns.RetiredAnswers` | backend/src/wxcode_adm/auth/service.py:416-437 | how such a token is answered at any later instant, at either endpoint |
| `SessionRuns.ReplayIsDetected` | backend/src/wxcode_adm/auth/service.py:416-437 | a token consumed by `refresh` or displaced by a login answers ReplayDetected at every time before its own expiry and for the whole shadow TTL, InvalidToken from then on, never a pair; at the admin endpoint always InvalidToken |
| `SessionRuns.BlacklistIsExact` | backend/src/wxcode_adm/auth/service.py:361-377 | the blacklist after any request is the old one plus exactly the JTIs that request handed to `blacklist_jti`, each with the full access-token lifetime, even when its SQL was lost |
| `SessionRuns.OutlivedStep` | backend/src/wxcode_adm/auth/service.py:361-377 | a JTI being blacklisted, or blacklisted before, has an entry that outlasts its token after any request |
| `SessionRuns.OutlivedForever` | backend/src/wxcode_adm/auth/jwt.py:39-46 | a blacklist entry that outlasts its token keeps outlasting it, whatever else happens |
| `SessionRuns.BlacklistOutlivesToken` | backend/src/wxcode_adm/auth/dependencies.py:93-104 | once `blacklist_jti` ran for an issued access token, `get_current_user` refuses it at every later instant of every run |
| `SessionRuns.RevokeMembersIsExact` | backend/src/wxcode_adm/admin/service.py:450-470 | suspension deletes all and only the members' tokens and sessions, blacklists all and only their recorded JTIs, and touches no account |
| `SessionRuns.ForceResetIsExact` | backend/src/wxcode_adm/admin/service.py:909-921 | forced reset does the same for one user and sets exactly that user's flag |
| `SessionRuns.ResetFlagIff` | backend/src/wxcode_adm/admin/service.py:905-910 | the forced-reset flag is set by a committed forced reset, cleared by a committed password reset, and by no other request |
| `SessionRuns.ForcedResetShutsOut` | backend/src/wxcode_adm/auth/dependencies.py:117-123 | after a committed forced reset no access token, old or new, gets the user past `get_current_user` in any run in which that user's reset is not completed |
| `SessionRuns.EnforceMfaIsExact` | backend/src/wxcode_adm/tenants/service.py:1069-1091 | enforcement deletes all and only the tokens and sessions of the members without MFA; no key changes; members still holding tokens have MFA |
| `SessionRuns.RecordedPairsStayShut` | backend/src/wxcode_adm/admin/service.py:450-470 | after a committed bulk revocation neither half of a pair on record for a member is ever accepted again |
| `SessionRuns.KeptSessions` | backend/src/wxcode_adm/users/service.py:265-293 | keeping the current session leaves exactly it, and everybody else's sessions |
| `SessionRuns.KeptTokens` | backend/src/wxcode_adm/users/service.py:265-293 | the tokens left are exactly those of the kept sessions |
| `SessionRuns.KeptCount` | backend/src/wxcode_adm/users/service.py:486-499 | at most one session is kept and the others number sessions minus kept |
| `SessionRuns.RevokeOthersIsExact` | backend/src/wxcode_adm/users/service.py:458-527 | exactly the current session and its token remain, exactly the other recorded JTIs are blacklisted, and `revoked_count` equals sessions before minus sessions after |
| `SessionRuns.ChangePasswordIsExact` | backend/src/wxcode_adm/users/service.py:233-293 | a password change has the same effect on rows and blacklist; without a current JTI nothing is kept |
| `SessionLimits.ReplayLogoutIsUndone` | backend/src/wxcode_adm/auth/service.py:428-434 | the logout on replay deletes all tokens of the victim and the rollback restores them: the request only lets time pass, and the victim is logged out iff no token was left before |
| `SessionLimits.ReplaySparesSuccessor` | backend/src/wxcode_adm/auth/service.py:586-620 | after a rotation, the spent token is answered with ReplayDetected, and its successor is still exchanged for a new pair afterwards |
| `SessionLimits.ExpiredTokenStays` | backend/src/wxcode_adm/auth/service.py:597-599 | an expired token shown to either refresh endpoint is still in the table afterwards; only time has passed |
| `SessionLimits.SurvivesRevocationIff` | backend/src/wxcode_adm/admin/service.py:456-470 | after a bulk revocation an access token is welcome iff it would have been at that time without it and no session row of a member records it |
| `SessionLimits.RotatedTokenSurvivesRevocation` | backend/src/wxcode_adm/auth/service.py:608-661 | an access token replaced by a rotation is on record for nobody, so a bulk revocation right after does not stop it |
| `SessionLimits.RegularInEveryRun` | backend/src/wxcode_adm/auth/service.py:932-947 | session rows record access tokens of the user endpoints only, in every run |
| `SessionLimits.AdminTokenStopsIff` | backend/src/wxcode_adm/admin/dependencies.py:77-107 | in every run an admin access token is welcome at the admin gate iff it has not expired and no admin logout presented it, whatever resets, suspensions and revocations the run holds |
| `SessionLimits.LoggedOutIsRefused` | backend/src/wxcode_adm/admin/service.py:199-230 | an admin token that was logged out is refused at every later instant |
| `SessionLimits.ForcedResetSparesAdminToken` | backend/src/wxcode_adm/admin/service.py:905-921 | after a forced reset of a superuser the flag is set and the admin token is still welcome |
| `SessionAnswers.AccessTokenWelcomeIff` | backend/src/wxcode_adm/auth/dependencies.py:93-122 | in every run an access token of an active account passes the user gate iff it has not expired, no request of the run condemned it, and no forced reset of the account is open at that moment |
| `SessionAnswers.NewPairWorks` | backend/src/wxcode_adm/auth/service.py:908-949 | the access token a login or a rotation just handed to an active account passes the gate for a day less a second, iff no forced reset is open |
| `SessionAnswers.GateAdmitsOnly` | backend/src/wxcode_adm/auth/dependencies.py:93-122 | whoever passes the user gate holds an unexpired, unlisted user token of an active account without a forced reset |
| `SessionAnswers.AdminGateAdmitsOnly` | backend/src/wxcode_adm/admin/dependencies.py:77-107 | whoever passes the admin gate holds an unexpired, unlisted admin token of an active superuser |
| `SessionAnswers.BlacklistIssuedInEveryRun` | backend/src/wxcode_adm/auth/service.py:361-377 | in every run only access tokens that were handed out are ever blacklisted, so a fresh one never is |
| `SessionAnswers.NewPairIff` | backend/src/wxcode_adm/auth/service.py:563-661 | a pair is handed out exactly by a login of a known account, a superuser's correct admin login, or the exchange of an unexpired stored token |
| `SessionAnswers.RefusedExchange` | backend/src/wxcode_adm/auth/service.py:592-604 | a refused exchange answers replay iff the token is gone with a live shadow key, invalid iff gone without one, expired iff stored and expired |
| `SessionAnswers.PairBelongs` | backend/src/wxcode_adm/auth/service.py:606-661 | both halves of a new pair belong to the account logging in or the one the exchanged token was handed out to, with the promised lifetimes and audience, and a session of it records both |
| `SessionAnswers.MintDisplaces` | backend/src/wxcode_adm/auth/service.py:908-915 | a login displaces exactly the account's tokens, a rotation exactly the exchanged one, an admin login none, each with its sessions and nothing else |
| `SessionAnswers.ShadowsAreExact` | backend/src/wxcode_adm/auth/service.py:395-413 | a login writes a shadow key for each token it displaces, a rotation for the one it consumes, and no other |
| `SessionAnswers.LastActiveIsExact` | backend/src/wxcode_adm/auth/dependencies.py:124-131 | the last-active key is written exactly for the token that was let in |
| `SessionAnswers.AdminLogoutIsExact` | backend/src/wxcode_adm/admin/router.py:151-177 | admin logout is done iff the presented token passes the admin gate, and then removes exactly the named refresh token |
| `SessionAnswers.ResetPasswordIsExact` | backend/src/wxcode_adm/auth/service.py:816-825 | a password reset removes exactly the account's tokens with their sessions and clears exactly its reset flag |
| `SessionAnswers.RevokeSessionIsExact` | backend/src/wxcode_adm/users/service.py:401-451 | only somebody's own session other than the current one can be revoked; then exactly it goes and its access token is blacklisted |
| `SessionAnswers.WrongPasswordChangesNothing` | backend/src/wxcode_adm/users/service.py:227-230 | a password change with a wrong current password is refused and changes nothing |
| `AuthService.AuthBackend.WriteShadowKeysBulk` | backend/src/wxcode_adm/auth/service.py:404-413 | the loop writes one shadow key per listed token and changes no other key |
| `AuthService.AuthBackend.BlacklistSessions` | backend/src/wxcode_adm/admin/service.py:457-465 | the loop blacklists exactly the JTIs of the listed session rows |
| `AuthService.AuthBackend.RevokeAllOtherSessions` | backend/src/wxcode_adm/users/service.py:486-527 | loop over the other sessions and conditional delete equal the keep-current specification |
| `AuthService.AuthBackend.Handle` | backend/src/wxcode_adm/dependencies.py:43-49 | one whole request, with commit or rollback, is one step of the session protocol |
| `TenantOwnership.ChangeRoleSparesOwner` | backend/src/wxcode_adm/tenants/service.py:298-319 | `change_role` never succeeds on an Owner's row and never grants Owner |
| `TenantOwnership.AcceptMovesOwnership` | backend/src/wxcode_adm/tenants/service.py:560-585 | after a completed transfer the accepter, if a member, is the only Owner, and the members are the same users |
| `TenantOwnership.AcceptKeepsOneOwnerIff` | backend/src/wxcode_adm/tenants/service.py:517-585 | the service call alone keeps exactly one Owner if and only if the accepter is a member |
| `TenantOwnership.UnguardedAcceptCanLoseTheOwner` | backend/src/wxcode_adm/tenants/router.py:417-428 | a concrete sound tenant in which the unguarded call would leave no Owner |
| `TenantOwnership.OnlyAcceptMovesOwnership` | backend/src/wxcode_adm/tenants/service.py:249-514 | every other tenant request leaves the set of Owners unchanged |
| `TenantOwnership.ServiceKeepsSound` | backend/src/wxcode_adm/tenants/service.py:249-585 | each tenant request keeps the invariant: one Owner, a pending transfer from that Owner to somebody else, no Owner invitation |
| `TenantOwnership.JoinKeepsSound` | backend/src/wxcode_adm/tenants/service.py:852-863 | taking up an invitation keeps the invariant and all Owners |
| `TenantOwnership.StepKeepsSound` | backend/src/wxcode_adm/tenants/schemas.py:54-86 | every request of every kind keeps the invariant in every tenant |
| `TenantOwnership.SoundInEveryRun` | backend/src/wxcode_adm/tenants/service.py:143-585 | the invariant holds in every state of every run |
| `TenantOwnership.ExactlyOneOwner` | backend/src/wxcode_adm/tenants/service.py:143-198 | from the empty system, after any sequence of requests, each tenant has exactly one Owner |
| `TenantOwnership.ExpiredTransferStays` | backend/src/wxcode_adm/tenants/service.py:553-558 | accepting an expired transfer raises after deleting it: the transfer stays pending and no row changes |
| `TenantOwnership.OwnersStay` | backend/src/wxcode_adm/tenants/service.py:249-585 | a request other than a completed transfer of this tenant changes none of its Owners |
| `TenantOwnership.OwnerMovesOnlyByAccept` | backend/src/wxcode_adm/tenants/service.py:517-585 | ownership moves from a to b only when b accepts an unexpired pending transfer from a to b |
| `TenantOwnership.TransferWasProposed` | backend/src/wxcode_adm/tenants/service.py:435-514 | every pending transfer was proposed in the run by the user it names, then Owner, and expires a week later |
| `TenantOwnership.OwnershipMovesByConsent` | backend/src/wxcode_adm/tenants/service.py:435-585 | when ownership moves, the new Owner accepted and the old Owner had proposed it within the week before |
| `Memberships.MemberAppears` | backend/src/wxcode_adm/tenants/service.py:852-863 | a new membership is that of a workspace's creator, or takes up a pending invitation to the user's own address exactly as offered |
| `Memberships.RowStays` | backend/src/wxcode_adm/tenants/service.py:321-326 | a member's role and billing access change only by a role change of an Admin or the Owner, or by a transfer from or to that member |
| `Memberships.InvitationWasSent` | backend/src/wxcode_adm/tenants/service.py:704-750 | every invitation was sent, with this offer, by a member who was Admin or Owner at that moment |
| `Memberships.MembershipStems` | backend/src/wxcode_adm/tenants/service.py:143-198 | in every run each membership goes back to founding the workspace or to taking up such an invitation, and has lasted ever since |
| `Memberships.RoleIsGranted` | backend/src/wxcode_adm/tenants/service.py:249-326 | from then on the role is the one founded with or offered until a role change or a transfer |
| `TenantEffects.RoleIsLastGiven` | backend/src/wxcode_adm/tenants/service.py:249-326 | in every run a member's role is the one given by the last request that made the user a member or changed the row |
| `TenantEffects.ChangeRoleIsExact` | backend/src/wxcode_adm/tenants/service.py:284-326 | a role change is done iff the target is a member and not the Owner; then exactly the target's role, and billing access if given, change; with the answer to each refusal |
| `TenantEffects.RemoveMemberIsExact` | backend/src/wxcode_adm/tenants/service.py:355-380 | a removal is done iff the target is another member and not the Owner, and then removes exactly that membership |
| `TenantEffects.LeaveIsExact` | backend/src/wxcode_adm/tenants/service.py:400-415 | leaving is done iff the member is not the Owner, and then ends exactly that membership |
| `TenantEffects.InitiateTransferIsExact` | backend/src/wxcode_adm/tenants/service.py:470-514 | a transfer is proposed iff to another member with none pending, and then waits a week with nothing else changed |
| `TenantEffects.AcceptTransferIsExact` | backend/src/wxcode_adm/tenants/service.py:539-585 | a transfer is completed iff it names the accepter and has not expired; then exactly the two roles are exchanged and the proposal goes |
| `TenantEffects.InviteIsExact` | backend/src/wxcode_adm/tenants/service.py:704-750 | an invitation is sent iff the address is no member's and has no row; then exactly it is added, as offered, for a week |
| `TenantEffects.CancelInvitationIsExact` | backend/src/wxcode_adm/tenants/service.py:1011-1031 | an invitation is cancelled iff it is there and not accepted, and then exactly it goes |
| `TenantEffects.RefusedAtTheRoute` | backend/src/wxcode_adm/tenants/dependencies.py:71-155 | whoever lacks verification, membership or one of the roles is refused with the answer of the first guard that fails |
| `TenantEffects.CreateWorkspaceIsExact` | backend/src/wxcode_adm/tenants/service.py:168-198 | a workspace is created iff user verified, a slug candidate and a free plan exist; it is new, its slug unique, its creator the only member |
| `TenantEffects.RefusedForBodyIff` | backend/src/wxcode_adm/tenants/schemas.py:54-86 | a body is refused iff it would make somebody Owner without a transfer |
| `TenantEffects.OnlyDoneChangesRows` | backend/src/wxcode_adm/dependencies.py:43-49 | a request that is not committed or not done changes no row |
| `TenantEffects.CandidateIs` | backend/src/wxcode_adm/tenants/service.py:117-126 | the ten slugs tried for a name, with `workspace` for an empty one |
| `TenantEffects.FreeSlug` | backend/src/wxcode_adm/tenants/service.py:96-140 | the slug is the first candidate not taken; there is none iff all ten are |
| `TenantEffects.AcceptInvitationIsExact` | backend/src/wxcode_adm/tenants/service.py:800-869 | taking up an invitation is done iff the verified holder of its address presents the current token of a pending row as a non-member; then exactly that membership and row change |
| `Invitations.AutoJoinIsExact` | backend/src/wxcode_adm/tenants/service.py:898-963 | the clauses that spell out the auto-join (memberships for exactly the pending unexpired invitations in tenants not yet joined, with their role, billing access and inviter; exactly those marked accepted; every other row as it was) hold of a result iff it is the one the model computes |
| `Invitations.InviteHitsUniqueKeyIff` | backend/src/wxcode_adm/tenants/service.py:710-750 | inviting fails on the unique (email, tenant) key iff the address is no member's and its row is no longer active; it succeeds iff there is neither member nor row |
| `Invitations.StaleAddressCannotBeReinvited` | backend/src/wxcode_adm/tenants/models.py:244-250 | two tenants where that happens: an expired invitation, and an accepted one whose taker left |
| `Invitations.StampNeverExpiresFirst` | backend/src/wxcode_adm/tenants/service.py:640-662 | the whole-second age check on the signed token never refuses what the row's own expiry allows |
| `Invitations.AcceptAgreesIff` | backend/src/wxcode_adm/tenants/service.py:809-863 | accepting one pending invitation agrees with auto-joining by it if and only if the row does not expire at this very instant (or the user is a member already) |
| `Invitations.AutoJoinIsIteratedAccept` | backend/src/wxcode_adm/tenants/service.py:898-963 | auto-joining equals accepting all pending invitations one by one, in any order, when none expires at this instant |
| `Invitations.AcceptRest` | backend/src/wxcode_adm/tenants/service.py:911-946 | the inductive step of that equality, from any set of invitations already considered |
| `TenantService.GenerateUniqueSlug` | backend/src/wxcode_adm/tenants/service.py:117-135 | the loop returns the first of the ten candidates that is free, and fails iff all ten are taken |
| `TenantService.TenantBackend.JoinEach` | backend/src/wxcode_adm/tenants/service.py:911-957 | the loop over pending rows equals the tenant-by-tenant specification restricted to those rows |
| `TenantService.TenantBackend.AutoJoinPendingInvitations` | backend/src/wxcode_adm/tenants/service.py:872-963 | the loop leaves tables that satisfy those clauses, and returns exactly the tenants in which the user became a member |
| `TenantService.TenantBackend.Handle` | backend/src/wxcode_adm/dependencies.py:43-49 | one whole request, with commit or rollback, is one step of the tenant model |
| `WebhookRuns.ExactlyOnce` | backend/src/wxcode_adm/billing/service.py:656-703 | for every list of deliveries with duplicates, raises and deaths at any point, mixed with usage and enrolment: the tables are the plain replay of the attempts that took effect, whose event ids are pairwise distinct and exactly the ones added to the log; the blacklist only grows |
| `WebhookRuns.RedeliveryIsInvisible` | backend/src/wxcode_adm/billing/service.py:670-676 | removing a redelivery of a logged event anywhere in a run changes nothing |
| `WebhookRuns.FailedAttemptLeavesNoRows` | backend/src/wxcode_adm/billing/service.py:700-703 | removing an attempt that did not commit leaves the same tables and log at the end; at most the blacklist shrinks |
| `WebhookRuns.BlacklistIsNotRead` | backend/src/wxcode_adm/billing/service.py:893-901 | tables and log never depend on the blacklist |
| `WebhookRace.LogMatchesInEveryRun` | backend/src/wxcode_adm/billing/models.py:206-211 | under any interleaving of check, compute, commit and crash, the log is the initial one plus the commits, none twice |
| `WebhookRace.TablesChangeOnlyAtCommit` | backend/src/wxcode_adm/billing/service.py:692-703 | no step but an effective commit touches tables or log |
| `WebhookRace.CommitsAtMostOnce` | backend/src/wxcode_adm/billing/service.py:670-698 | two commits that touch the tables belong to different Stripe events, for any number of workers |
| `WebhookRace.EachEventTakesEffectOnce` | backend/src/wxcode_adm/billing/service.py:656-703 | under any interleaving the tables are the committed column updates and token deletes, one commit after the other and nothing else, and no event id is among them twice |
| `WebhookRace.CommitWasComputed` | backend/src/wxcode_adm/billing/service.py:670-698 | in every run from idle workers, what an effective commit writes is what its own worker computed for its own event, from the tables of an earlier moment, after finding the event unlogged before that |
| `WebhookRace.UndisturbedCommit` | backend/src/wxcode_adm/billing/service.py:679-698 | if what the handler read is still so at the commit, in particular if nothing was committed in between, the commit has the effect of the handler on the tables it finds |
| `WebhookRace.UndividedAttempt` | backend/src/wxcode_adm/billing/service.py:656-703 | check, computation and commit without interruption are one attempt of the webhook model |
| `WebhookRace.StaleInvoiceIff` | backend/src/wxcode_adm/billing/service.py:824-846 | a paid invoice computed on an outdated row gives what the handler would give now iff its view of PAST_DUE is not outdated |
| `WebhookRace.RacingInvoiceRevivesCanceled` | backend/src/wxcode_adm/billing/service.py:800-846 | for every PAST_DUE subscription a deletion racing a paid invoice ends in ACTIVE, which no order of the two handlers yields |
| `SubscriptionLifecycle.FreeExactlyWhenUnlinked` | backend/src/wxcode_adm/billing/service.py:426-432 | over any run whose checkouts carry a subscription id, status is FREE exactly when no Stripe subscription is recorded |
| `SubscriptionLifecycle.CheckoutKeepsLinkIff` | backend/src/wxcode_adm/billing/service.py:706-738 | a completed checkout keeps that link if and only if it carries a subscription id |
| `SubscriptionLifecycle.FreeIsNeverReentered` | backend/src/wxcode_adm/billing/service.py:706-877 | no run brings a subscription back to FREE |
| `SubscriptionLifecycle.CanceledLeavesIff` | backend/src/wxcode_adm/billing/service.py:741-846 | a canceled row leaves that status iff it is addressed by a checkout, a reviving status update or a failed payment; never by `invoice.paid` |
| `SubscriptionLifecycle.CanceledStays` | backend/src/wxcode_adm/billing/service.py:800-846 | over any run without those events a canceled subscription stays canceled |
| `SubscriptionLifecycle.CounterStep` | backend/src/wxcode_adm/billing/service.py:778-792 | one step either rolls the period and zeroes the counter or adds exactly the usage it reports |
| `SubscriptionLifecycle.FailedPaymentReopensCanceled` | backend/src/wxcode_adm/billing/service.py:824-877 | for every canceled, addressed row, a failed payment followed by a paid invoice ends in ACTIVE |
| `SubscriptionLifecycle.CounterIsUsageSinceRoll` | backend/src/wxcode_adm/billing/service.py:778-792 | in every run `tokens_used_this_period` equals the usage since the row was created or its period start last changed |
| `BillingEffects.PlanIsLastBought` | backend/src/wxcode_adm/billing/service.py:733-737 | in every run a row's plan and subscription id are those of the last checkout for its tenant that took effect, or of its enrolment when there was none |
| `BillingEffects.PeriodEndIsLastSent` | backend/src/wxcode_adm/billing/service.py:794-797 | in every run a row's period end is the one the last effective update carrying one sent, and there is none iff there was no such update |
| `BillingEffects.CheckoutIsExact` | backend/src/wxcode_adm/billing/service.py:733-737 | a completed checkout sets the bought plan, the named subscription and ACTIVE, and nothing else |
| `BillingEffects.StripeStatusMeans` | backend/src/wxcode_adm/billing/service.py:762-776 | what each Stripe status leads to, and that any other leaves the status |
| `BillingEffects.UpdateIsExact` | backend/src/wxcode_adm/billing/service.py:762-797 | an update sets the status and the period ends it carries, and zeroes the usage iff the start changes |
| `BillingEffects.StatusEventsAreExact` | backend/src/wxcode_adm/billing/service.py:800-877 | deletion, payment and failure change the status only: to CANCELED, from PAST_DUE to ACTIVE, to PAST_DUE |
| `BillingEffects.OthersAreSpared` | backend/src/wxcode_adm/billing/service.py:706-877 | rows an event does not address, plans, memberships and accounts stay; only a failed payment touches tokens |
| `BillingEffects.LockedOutIff` | backend/src/wxcode_adm/billing/service.py:883-911 | a failed payment locks out exactly the members of the tenants that hold the subscription |
| `BillingEffects.BlacklistedIff` | backend/src/wxcode_adm/billing/service.py:898-911 | an effective failed payment blacklists exactly the JTIs recorded for the locked-out, an attempt that died some of them, any other event none |
| `BillingEffects.RaisesIff` | backend/src/wxcode_adm/billing/service.py:706-760 | a handler raises exactly on malformed ids, a checkout of a missing plan, or a subscription id of two rows |
| `BillingService.PaymentFailedRevokesMembers` | backend/src/wxcode_adm/billing/service.py:883-911 | the payment-failed lockout is the session protocol's bulk revocation of the tenant's members |
| `BillingService.BillingWorker.RevokeMembers` | backend/src/wxcode_adm/billing/service.py:893-911 | the blacklist loop and the row-by-row deletes; dying inside the loop leaves the rows and a part of the keys |
| `BillingService.BillingWorker.DeleteOneByOne` | backend/src/wxcode_adm/billing/service.py:901-911 | deleting the loaded tokens one by one, each with its session, equals one bulk delete |
| `BillingService.BillingWorker.Handle` | backend/src/wxcode_adm/billing/service.py:656-703 | one job, whether an event, reported usage or a new workspace, is one step of the billing model |
| `MrrDashboard.PrefilterIsLossless` | backend/src/wxcode_adm/admin/service.py:1344-1395 | each trend figure over the prefiltered rows equals the figure over all subscriptions, for every clock value and every subscription set |
| `MrrDashboard.LeftOutIsInactive` | backend/src/wxcode_adm/admin/service.py:1344-1354 | a row outside the query was active at none of the thirty day-ends |
| `MrrDashboard.TotalsBalance` | backend/src/wxcode_adm/admin/service.py:1363-1387 | between any two instants the change equals counted starts minus counted cancellations |
| `MrrDashboard.TrendConserves` | backend/src/wxcode_adm/admin/service.py:1357-1395 | between any two trend days the change in active count and in MRR is exactly starts minus cancellations |
| `MrrDashboard.CanceledAreEnded` | backend/src/wxcode_adm/admin/service.py:1328-1340 | when no timestamp lies after now, the cancellations behind the churn rate are those the trend counts in the thirty days up to now |
| `MrrDashboard.TrendDays` | backend/src/wxcode_adm/admin/service.py:1342-1390 | the points carry consecutive dates ending today, and each figure is that of the last microsecond of its date |
| `MrrDashboard.HeadlineDifference` | backend/src/wxcode_adm/admin/service.py:1316-1317 | a trend figure differs from the headline by exactly the future-dated active rows and the later cancellations |
| `MrrDashboard.LastPointIsHeadline` | backend/src/wxcode_adm/admin/service.py:1308-1395 | the last point equals the headline iff those two balance; in particular when no timestamp lies after now |
| `MrrDashboard.CountPlans` | backend/src/wxcode_adm/admin/service.py:1319-1326 | the loop counts each plan's active subscriptions, and the counts add up to the active count |
| `MrrDashboard.DayTotals` | backend/src/wxcode_adm/admin/service.py:1361-1387 | one day's inner loop computes count and MRR of the rows active at that day-end |
| `MrrDashboard.ComputeTrend` | backend/src/wxcode_adm/admin/service.py:1357-1395 | thirty points, oldest first, each correct over all subscriptions although computed from the query |
| `MrrDashboard.SumFees` | backend/src/wxcode_adm/admin/service.py:1316-1317 | the MRR headline is the sum of fees of the active rows |
| `MrrDashboard.ChurnRate` | backend/src/wxcode_adm/admin/service.py:1338-1340 | churn times (active + canceled) is canceled, and lies between 0 and 1, also when both are zero |
| `MrrDashboard.ComputeMrrDashboard` | backend/src/wxcode_adm/admin/service.py:1286-1405 | headline, plan counts, churn and trend are those of all subscriptions, the plan counts add up to the headline, and the churn rate counts the cancellations the trend counts in the last thirty days |
| `OtpRuns.SoundInEveryRun` | backend/src/wxcode_adm/auth/service.py:122-179 | in every run a stored code has a counter of its own lifetime counting 0 to 2 failures |
| `OtpRuns.GuessesWithinCredit` | backend/src/wxcode_adm/auth/service.py:146-179 | wrong guesses never exceed what the account can still spend, plus three per resend and two per change of address |
| `OtpRuns.LiveCodeCountsFailures` | backend/src/wxcode_adm/auth/service.py:170-179 | while no new code is sent, a code that is still live has counted every wrong guess |
| `OtpRuns.ResendsAreSpaced` | backend/src/wxcode_adm/auth/service.py:182-189 | resends that are not refused lie a cooldown apart |
| `OtpRuns.AcceptedAtMostOnceEach` | backend/src/wxcode_adm/auth/service.py:161-168 | acceptances never exceed the codes sent by signup, resends and changes of address that took effect |
| `OtpRuns.AcceptedCodeIsGone` | backend/src/wxcode_adm/auth/service.py:161-168 | after an acceptance nothing is accepted and nothing can be guessed at until a resend or a change of address |
| `OtpRuns.GuessBound` | backend/src/wxcode_adm/auth/service.py:303-317 | from signup, over any run lasting T, at most 3 * (T/60s + 1) wrong codes are compared with a live one, plus 2 per change of address |
| `OtpRuns.ChangeOfAddressBuysGuesses` | backend/src/wxcode_adm/users/router.py:67-74 | two wrong codes and the right one, another address, three wrong codes: five wrong guesses in no time |
| `OtpRuns.GuessBoundIsTight` | backend/src/wxcode_adm/users/service.py:75-92 | for every number of cooldowns waited and of changes of address there is a run that attains the bound |
| `OtpRuns.PlainBoundIff` | backend/src/wxcode_adm/auth/service.py:303-317 | the bound by the cooldown alone holds of all runs with a given number of changes of address iff that number is zero |
| `OtpRuns.ThirdFailureKillsCode` | backend/src/wxcode_adm/auth/service.py:170-179 | in any run without a new code, however spaced, a code is dead once as many wrong guesses were made as it had left, three at most |
| `OtpRuns.AcceptedIff` | backend/src/wxcode_adm/auth/service.py:146-179 | whatever was submitted since a code was sent, a submission is accepted iff it is that code, within ten minutes, after fewer than three wrong guesses and no acceptance |
| `OtpRuns.SentIff` | backend/src/wxcode_adm/auth/service.py:303-317 | a resend sends a code iff the account is unverified and a minute has passed since the last one; every sent code starts afresh |
| `OtpService.OtpAccount.Handle` | backend/src/wxcode_adm/auth/service.py:242-324 | one request of the account, an address change only when it is verified, is one step of the model |
| `ResetRuns.SoundInEveryRun` | backend/src/wxcode_adm/auth/models.py:44-56 | addresses stay unique and each stored hash and issued salt belongs to one account |
| `ResetRuns.AcceptedIff` | backend/src/wxcode_adm/auth/service.py:799-817 | an issued token is accepted iff the account its salt came from still has that address and that hash and a day has not passed; it then changes exactly that account |
| `ResetRuns.ResetsOnlyItsAccount` | backend/src/wxcode_adm/auth/service.py:693-750 | over any run, with address changes and reuse of freed addresses, a token resets only the account it was issued for |
| `ResetRuns.IssuedIsOwned` | backend/src/wxcode_adm/auth/service.py:753-784 | a token handed out for an account carries a salt of that account |
| `ResetRuns.PasswordChangeSpends` | backend/src/wxcode_adm/auth/service.py:816-817 | setting a password spends every salt the account had before |
| `ResetRuns.SpentForever` | backend/src/wxcode_adm/auth/service.py:693-710 | a salt an account has moved away from never becomes current again |
| `ResetRuns.EarlierTokensAreDead` | backend/src/wxcode_adm/users/service.py:233 | after a successful reset or password change no earlier token of that account is ever accepted |
| `ResetEffects.GoodIff` | backend/src/wxcode_adm/auth/service.py:787-825 | over any run a token handed out is good exactly as long as no password was set for its account, the account has the address it was mailed to, and a day has not passed |
| `ResetEffects.ChangePasswordIsExact` | backend/src/wxcode_adm/users/service.py:225-240 | a password change needs a verified account with a password, and that password; then exactly the hash is replaced, otherwise accounts stay as they were |
| `ResetEffects.PasswordStep` | backend/src/wxcode_adm/auth/service.py:787-825 | whatever the request, an account's password is the one a reset, change or sign-up of that account sets, or the one it was |
| `ResetEffects.AddressStep` | backend/src/wxcode_adm/auth/service.py:242-280 | whatever the request, an account stays, its address changes only by its own change of address, and its verified flag only by that and by verification |
| `ResetEffects.IssuedIff` | backend/src/wxcode_adm/auth/service.py:753-784 | a token is issued exactly for the account with the address, or the one forced to reset, with its address and salt of that moment |
| `ResetService.PasswordAccounts.Handle` | backend/src/wxcode_adm/dependencies.py:43-49 | one request is one step of the reset model, and leaves addresses unique |
| `MfaModel.FirstMatch` | backend/src/wxcode_adm/auth/service.py:1745-1750 | the first unredeemed row that verifies the code |
| `MfaRuns.DisplayStripsToRaw` | backend/src/wxcode_adm/auth/service.py:1418-1426 | what is hashed at enrolment and what a displayed code strips to are the same text, dashes in the raw text or not |
| `MfaRuns.StripIsExact` | backend/src/wxcode_adm/auth/service.py:1735 | stripping takes away all dashes and nothing else |
| `MfaRuns.RedeemIsExact` | backend/src/wxcode_adm/auth/service.py:1735-1753 | a backup code succeeds iff an unredeemed row verifies it, and then uses up exactly one row, one that verifies it |
| `MfaRuns.DisplayedCodeVerifies` | backend/src/wxcode_adm/auth/service.py:1402-1428 | at any time after an enrolment until MFA is disabled, each displayed code no login has used yet logs the holder of a live pending token in, dashes in the raw text or not, and leaves nine minus the backup-code logins so far |
| `MfaRuns.AtMostOneIssue` | backend/src/wxcode_adm/auth/service.py:1688-1761 | each pending token yields at most one token issue in any run |
| `MfaRuns.SetupTokenIssuesNothing` | backend/src/wxcode_adm/auth/service.py:1688-1707 | a setup-required token yields none |
| `MfaRuns.UselessForever` | backend/src/wxcode_adm/auth/service.py:1688-1756 | a consumed or setup-required token stays without effect |
| `MfaRuns.LoginIssuesIff` | backend/src/wxcode_adm/auth/service.py:476-560 | for every account a login yields tokens iff the password is right, the account active and verified, and no enforcing tenant and no MFA or a trusted device |
| `MfaRuns.CodesStep` | backend/src/wxcode_adm/auth/service.py:1735-1753 | one request uses up a backup code exactly when it is a backup-code login of that user, and then one that verifies the submitted text |
| `MfaRuns.CodesLeft` | backend/src/wxcode_adm/auth/service.py:1735-1753 | as long as MFA is not disabled, unused codes fall by one per backup-code login, and those with a given text by one per login with that text |
| `MfaRuns.TenMinusBackupLogins` | backend/src/wxcode_adm/auth/service.py:1544-1563 | from enrolment until MFA is disabled, unused codes number ten minus the backup-code logins |
| `MfaRuns.BackupCodeAcceptedIff` | backend/src/wxcode_adm/auth/service.py:1734-1753 | in every run after an enrolment, a submitted code that is no valid TOTP code is accepted iff fewer logins used its text than the generated codes contain it |
| `MfaProvenance.IssuesIff` | backend/src/wxcode_adm/auth/service.py:476-560 | tokens of any account are issued by exactly six kinds of request: a second factor against a pending token, a trusted device with the password, a linked identity, a new link, the password of an account without MFA, or the identity that creates the account |
| `MfaProvenance.LinkingIssuesIff` | backend/src/wxcode_adm/auth/service.py:1356-1391 | confirming a link issues tokens iff password and link token are good, the identity is free and the account has none of that provider |
| `MfaProvenance.SecondProviderIsLinked` | backend/src/wxcode_adm/auth/models.py:169-180 | an account with one provider gets a second one linked |
| `MfaProvenance.PendingWasHeld` | backend/src/wxcode_adm/auth/service.py:538-544 | a pending token stems from an earlier login of that user with the correct password, less than five minutes old |
| `MfaProvenance.DeviceWasTrusted` | backend/src/wxcode_adm/auth/service.py:1783-1785 | a trusted device stems from an earlier MFA login of that user that asked for it, at most thirty days old |
| `MfaProvenance.IdentityWasTied` | backend/src/wxcode_adm/auth/service.py:1274-1290 | a linked identity was tied to the account by creating it or by a link confirmed with its password |
| `MfaProvenance.LinkWasAsked` | backend/src/wxcode_adm/auth/service.py:1242-1256 | a link that waits for its password stems from a sign-in by that identity with that account's address, less than five minutes old |
| `MfaProvenance.WherePairsComeFrom` | backend/src/wxcode_adm/auth/service.py:1211-1226 | in every run from the empty system each pair of any account comes from one of those six, with the earlier request behind it |
| `MfaTrust.ProviderSkipsEnforcedMfa` | backend/src/wxcode_adm/auth/service.py:1211-1226 | a run from the empty system after which an account with MFA enabled in an enforcing tenant gets tokens by provider sign-in |
| `MfaTrust.TrustedIff` | backend/src/wxcode_adm/auth/service.py:1822-1859 | in every run a device is trusted iff an MFA login of that user asked for it within the thirty days before, whatever was disabled, enrolled, reset or revoked since |
| `MfaTrust.OldTrustSkipsNewEnrolment` | backend/src/wxcode_adm/auth/service.py:1629-1642 | a device trusted before still skips the second factor after MFA was disabled, the password reset and MFA enrolled again |
| `MfaEffects.WrongPasswordIsRefused` | backend/src/wxcode_adm/auth/service.py:485-486 | for every account a login with a wrong password is refused as such and writes nothing |
| `MfaEffects.LoginAnswersIff` | backend/src/wxcode_adm/auth/service.py:476-560 | each answer of a login, for every account, iff its condition |
| `MfaEffects.LoginIsExact` | backend/src/wxcode_adm/auth/service.py:505-544 | a login writes at most the pending entry of its own account, exactly when the password is right and more is needed, and no account save for a device row looked up after its time |
| `MfaEffects.VerifyAnswersIff` | backend/src/wxcode_adm/auth/service.py:1688-1753 | each answer of the second stage iff its condition |
| `MfaEffects.VerifySpends` | backend/src/wxcode_adm/auth/service.py:1729-1756 | an accepted second factor spends the pending token and, if a TOTP code, becomes the last one accepted; no other key is written |
| `MfaEffects.VerifyIsExact` | backend/src/wxcode_adm/auth/service.py:1735-1786 | committed, it uses up the backup code and trusts the device if asked, and changes no other account |
| `MfaEffects.ReplayedIff` | backend/src/wxcode_adm/auth/service.py:1713-1732 | in every run a TOTP code is refused as a replay iff it is the code this user spent last, less than a minute before |
| `MfaEffects.FlagIff` | backend/src/wxcode_adm/auth/service.py:1500-1646 | in every run an account has MFA enabled, a verified address, an enforcing tenant, iff a request turned that on and none turned it off since |
| `MfaEffects.ConfirmIsExact` | backend/src/wxcode_adm/auth/service.py:1500-1569 | enrolment completes iff begun, verified and with a valid TOTP code, and stores ten unused rows for the ten codes shown |
| `MfaEffects.DisableIsExact` | backend/src/wxcode_adm/auth/service.py:1572-1646 | MFA is disabled iff a second factor is shown, and then exactly secret, codes and flag go |
| `MfaEffects.SignInAnswersIff` | backend/src/wxcode_adm/auth/service.py:1210-1260 | each answer of a sign-in by provider iff its condition |
| `MfaEffects.SignInIsExact` | backend/src/wxcode_adm/auth/service.py:1210-1325 | a sign-in by an unknown identity creates an unverified account without MFA, or asks for a link; a known one writes nothing |
| `MfaEffects.IdentitiesInEveryRun` | backend/src/wxcode_adm/auth/models.py:169-180 | in every run from the empty system an account has at most one identity of each provider, and no identity changes hands |
| `MfaEffects.LinkTakenIff` | backend/src/wxcode_adm/auth/models.py:169-180 | a link is refused exactly when it would move an identity or break the unique keys |
| `MfaEffects.LinkingIsExact` | backend/src/wxcode_adm/auth/service.py:1356-1391 | confirming a link spends it once the password is right and adds exactly its identity iff tokens are issued |
| `MfaEffects.RefusedWritesNothing` | backend/src/wxcode_adm/auth/service.py:445-560 | a refused request writes no row and no key, except that a link already taken spends its token |
| `MfaService.GenerateBackupCodes` | backend/src/wxcode_adm/auth/service.py:1402-1428 | the loop yields matching displayed codes and stored rows |
| `MfaService.MfaBackend.UseBackupCode` | backend/src/wxcode_adm/auth/service.py:1735-1753 | the loop marks the first unredeemed row that verifies, or none |
| `MfaService.MfaBackend.Handle` | backend/src/wxcode_adm/dependencies.py:43-49 | one request, with commit or rollback, is one step of the MFA model |

## Left out

- `blacklist_access_token` and the blacklist part of user logout: it decodes tokens without the audience they carry, so it blacklists nothing; only the row deletion of logout is modelled.
- Cryptography: password hashing, JWT and reset signatures, TOTP arithmetic and random draws are ideal, as described above.
- TOTP codes: whether a code is valid now is an input, so the window of accepted codes and code reuse across it are not modelled beyond the last-code key.
- Email jobs, Stripe API calls, audit rows, user-agent parsing, geolocation and avatar upload: no bearing on the protocols.
- Request rate limits per client address (60 a minute, 5 on resend and login): they only refuse more requests, so long runs that attain `GuessBound` take several addresses.
- Authentication of a request and, in the session model, the verified address most routes demand: runs are over all requests, with or without it.
- Guards for blocked members and suspended or deleted tenants, and the member cap at invite time: they only refuse more requests.
- wxcode redirect codes, and in the session model the provider sign-in that leads to a token issue: only the issue itself is modelled there.
- Whether an account has a password, in `MfaModel`: an input of the provider sign-in and of the password check.
- Plan administration (including `delete_plan`), listing, searching and tenant configuration: single-branch or library-bound.
- Isolation anomalies between requests: requests are serialised, except for webhook workers in `WebhookRace`.
- Rows are named by their unique random strings: a refresh token's id and its token string are one name, as are a trusted device's.
- Backup-code rows are scanned in insertion order, one of the orders the query may return them in.
- Membership lists handed to the bulk revocations in `SessionModel` are inputs of the request.
- Digits in a submitted MFA code are the ASCII ones; Python's test admits further Unicode digits.
- Redis expiry is exact here; a server rounds to its own clock.
- Failures inside one pass of the auto-join loop, which the service logs and skips: none can arise from the statements modelled.
- TenantService.TenantBackend.InviteUser: does not model the member cap at invite time, which only refuses more requests, nor the email job.
- TenantService.TenantBackend.VerifyEmail: models what follows a correct code; the code itself is the subject of `OtpModel`.
- TenantService.TenantBackend.Route: does not refuse suspended or deleted tenants or blocked members.
- BillingService.BillingWorker.RevokeMembers: keeps the blacklist as a set; the lifetimes of its entries are stated by `PaymentFailedRevokesMembers` and `BlacklistIsExact`.
- MrrDashboard.ChurnRate: states the ratio before the rounding to four decimal places.
- MrrDashboard.ComputeMrrDashboard: gives the plan counts by slug; the order of the list and the plan names are not modelled.
- OtpRuns.GuessBound: counts wrong codes compared with a live code; codes submitted when none is live are refused without comparison.
- ResetRuns.EarlierTokensAreDead: rests on hashes never repeating and on ideal signatures.
