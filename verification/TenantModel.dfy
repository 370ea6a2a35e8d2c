/**
 Tenants, memberships, ownership transfers and invitations. Each request is a function from the
 tables before to the tables it would commit.

 Membership, transfer and invitation rows all belong to one tenant by foreign key, so they are
 kept with their tenant; the unique constraints on (user, tenant), transfer.tenant and
 (email, tenant) are the keys of the maps and the Option.
 */
module TenantModel {
  import opened Clock
  import opened Wrappers

  type UserId = nat
  type TenantId = nat
  type Email = nat

  const WEEK: int := 7 * DAY

  datatype Role = Owner | Admin | Developer | Viewer {
    function Level(): nat {
      match this case Owner => 4 case Admin => 3 case Developer => 2 case Viewer => 1
    }
  }

  datatype Account = Account(email: Email, verified: bool)
  datatype Membership = Membership(role: Role, billing: bool, invitedBy: Option<UserId>)
  datatype Transfer = Transfer(from: UserId, to: UserId, expiresAt: int)
  datatype Invitation = Invitation(
    role: Role, billing: bool, invitedBy: UserId, issuedAt: int, expiresAt: int, acceptedAt: Option<int>)

  datatype Tenant = Tenant(
    slug: string,
    members: map<UserId, Membership>,
    transfer: Option<Transfer>,
    invitations: map<Email, Invitation>)

  datatype Db = Db(accounts: map<UserId, Account>, tenants: map<TenantId, Tenant>)

  /** What a bearer presents: garbage, or a signed payload with its timestamp in whole seconds. */
  datatype InviteToken = Garbage | Signed(email: Email, tenant: TenantId, stamp: int)

  datatype Outcome =
    | Done
    | SlugUnavailable
    | TenantNotFound
    | InsufficientRole
    | MemberNotFound
    | OwnerCannotSelfDemote
    | UseTransfer
    | UseLeave
    | CannotRemoveOwner
    | OwnerCannotLeave
    | CannotTransferToSelf
    | TransferAlreadyPending
    | TransferNotFound
    | AlreadyMember
    | InvitationAlreadyExists
    | InvitationNotFound
    | InvitationAlreadyAccepted
    | EmailMismatch
    | EmailTaken
    | EmailNotVerified
    | InvalidRole
    | InvalidToken
    | TokenExpired
    | ServerError

  /** The tenant a service call would leave behind, and its answer. */
  datatype Change = Change(tenant: Tenant, outcome: Outcome)
  datatype Attempt = Attempt(db: Db, outcome: Outcome)

  /** Requests made in the context of one tenant by one of its members. */
  datatype TenantOp =
    | ChangeRole(target: UserId, newRole: Role, newBilling: Option<bool>)
    | RemoveMember(target: UserId)
    | LeaveTenant
    | InitiateTransfer(to: UserId)
    | AcceptTransfer
    | GetPendingTransfer
    | InviteUser(email: Email, role: Role, billing: bool)
    | CancelInvitation(email: Email)

  datatype Op =
    | Register(user: UserId, email: Email)
    | VerifyEmail(user: UserId)
    | ChangeEmail(user: UserId, email: Email)
    | CreateWorkspace(user: UserId, tenant: TenantId, baseSlug: string, hasFreePlan: bool)
    | AcceptInvitation(user: UserId, token: InviteToken)
    | InTenant(tenant: TenantId, actor: UserId, op: TenantOp)

  // ---- Slugs ----

  function CounterText(k: nat): string
    requires 1 <= k <= 10
  {
    if k == 10 then "10" else [('0' as int + k) as char]
  }

  /** The k-th slug tried for a workspace name. */
  function Candidate(baseSlug: string, k: nat): string
    requires 1 <= k <= 10
  {
    var stem := if baseSlug == "" then "workspace" else baseSlug;
    if k == 1 then stem else stem + "-" + CounterText(k)
  }

  /** The first of the ten candidates that no tenant uses, counting from `k`. */
  function FirstFreeSlug(taken: set<string>, baseSlug: string, k: nat): Option<string>
    requires 1 <= k <= 11
    decreases 11 - k
  {
    if k == 11 then None
    else if Candidate(baseSlug, k) !in taken then Some(Candidate(baseSlug, k))
    else FirstFreeSlug(taken, baseSlug, k + 1)
  }

  function Slugs(db: Db): set<string> {
    set t | t in db.tenants :: db.tenants[t].slug
  }

  // ---- Member management ----

  function TryChangeRole(t: Tenant, actor: UserId, target: UserId, newRole: Role, billing: Option<bool>): Change
    requires actor in t.members
  {
    if target !in t.members then Change(t, MemberNotFound)
    else
      var row := t.members[target];
      if row.role == Owner && target == actor then Change(t, OwnerCannotSelfDemote)
      else if row.role == Owner && t.members[actor].role != Owner then Change(t, InsufficientRole)
      else if newRole == Owner then Change(t, UseTransfer)
      else
        var billing' := if billing.Some? then billing.value else row.billing;
        Change(t.(members := t.members[target := row.(role := newRole, billing := billing')]), Done)
  }

  function TryRemoveMember(t: Tenant, actor: UserId, target: UserId): Change {
    if target == actor then Change(t, UseLeave)
    else if target !in t.members then Change(t, MemberNotFound)
    else if t.members[target].role == Owner then Change(t, CannotRemoveOwner)
    else Change(t.(members := t.members - {target}), Done)
  }

  function TryLeave(t: Tenant, user: UserId): Change {
    if user !in t.members then Change(t, MemberNotFound)
    else if t.members[user].role == Owner then Change(t, OwnerCannotLeave)
    else Change(t.(members := t.members - {user}), Done)
  }

  // ---- Ownership transfer ----

  function TryInitiateTransfer(t: Tenant, now: int, actor: UserId, to: UserId): Change
    requires actor in t.members
  {
    if t.members[actor].role != Owner then Change(t, InsufficientRole)
    else if to == actor then Change(t, CannotTransferToSelf)
    else if to !in t.members then Change(t, MemberNotFound)
    else if t.transfer.Some? && t.transfer.value.expiresAt > now then Change(t, TransferAlreadyPending)
    else Change(t.(transfer := Some(Transfer(actor, to, now + WEEK))), Done)
  }

  function SetRole(members: map<UserId, Membership>, user: UserId, role: Role): map<UserId, Membership> {
    if user in members then members[user := members[user].(role := role)] else members
  }

  /** As written, the service does not ask whether the two users are (still) members. */
  function TryAcceptTransfer(t: Tenant, now: int, user: UserId): Change {
    if t.transfer.None? || t.transfer.value.to != user then Change(t, TransferNotFound)
    else if t.transfer.value.expiresAt < now then Change(t.(transfer := None), TokenExpired)
    else
      Change(t.(members := SetRole(SetRole(t.members, t.transfer.value.from, Admin), user, Owner),
                transfer := None), Done)
  }

  function TryGetPendingTransfer(t: Tenant, now: int): Change {
    if t.transfer.Some? && t.transfer.value.expiresAt <= now then Change(t.(transfer := None), Done)
    else Change(t, Done)
  }

  // ---- Invitations ----

  predicate EmailIsMember(accounts: map<UserId, Account>, t: Tenant, email: Email) {
    exists u :: u in accounts && accounts[u].email == email && u in t.members
  }

  function TryInvite(accounts: map<UserId, Account>, t: Tenant, now: int, actor: UserId,
                     email: Email, role: Role, billing: bool): Change {
    if EmailIsMember(accounts, t, email) then Change(t, AlreadyMember)
    else if email in t.invitations then
      var row := t.invitations[email];
      // a stale or accepted row still occupies the unique (email, tenant) key
      Change(t, if row.acceptedAt == None && row.expiresAt > now then InvitationAlreadyExists else ServerError)
    else
      Change(t.(invitations := t.invitations[email := Invitation(role, billing, actor, now, now + WEEK, None)]), Done)
  }

  function TryCancelInvitation(t: Tenant, email: Email): Change {
    if email !in t.invitations then Change(t, InvitationNotFound)
    else if t.invitations[email].acceptedAt != None then Change(t, InvitationAlreadyAccepted)
    else Change(t.(invitations := t.invitations - {email}), Done)
  }

  function Joined(row: Invitation): Membership {
    Membership(row.role, row.billing, Some(row.invitedBy))
  }

  /** The tenant after `user` took up the invitation sent to `email`. */
  function Join(t: Tenant, now: int, user: UserId, email: Email): Tenant
    requires email in t.invitations
  {
    t.(members := t.members[user := Joined(t.invitations[email])],
       invitations := t.invitations[email := t.invitations[email].(acceptedAt := Some(now))])
  }

  /** The token whose hash the invitation row stores. */
  function TokenOf(email: Email, tenant: TenantId, row: Invitation): InviteToken {
    Signed(email, tenant, row.issuedAt / SECOND)
  }

  function TryAcceptInvitation(db: Db, now: int, user: UserId, token: InviteToken): Attempt {
    if token == Garbage then Attempt(db, InvalidToken)
    else if now / SECOND - token.stamp > WEEK / SECOND then Attempt(db, TokenExpired)
    else if user !in db.accounts || token.email != db.accounts[user].email then Attempt(db, EmailMismatch)
    else if token.tenant !in db.tenants then Attempt(db, InvalidToken)
    else
      var t := db.tenants[token.tenant];
      if token.email !in t.invitations || TokenOf(token.email, token.tenant, t.invitations[token.email]) != token
      then Attempt(db, InvalidToken)
      else
        var row := t.invitations[token.email];
        if row.acceptedAt != None then Attempt(db, InvitationAlreadyAccepted)
        else if row.expiresAt < now then Attempt(db, TokenExpired)
        else if user in t.members then Attempt(db, AlreadyMember)
        else Attempt(db.(tenants := db.tenants[token.tenant := Join(t, now, user, token.email)]), Done)
  }

  /** Whether verifying `email` joins `user` to this tenant. */
  predicate AutoJoins(t: Tenant, now: int, user: UserId, email: Email) {
    && email in t.invitations && t.invitations[email].acceptedAt == None
    && t.invitations[email].expiresAt > now && user !in t.members
  }

  /** The tables after the auto-join, said tenant by tenant. */
  function AutoJoined(db: Db, now: int, user: UserId, email: Email): Db {
    db.(tenants := map t | t in db.tenants ::
      if AutoJoins(db.tenants[t], now, user, email) then Join(db.tenants[t], now, user, email) else db.tenants[t])
  }

  function TryVerifyEmail(db: Db, now: int, user: UserId): Attempt {
    if user !in db.accounts then Attempt(db, InvalidToken)
    else if db.accounts[user].verified then Attempt(db, Done)
    else
      var email := db.accounts[user].email;
      Attempt(AutoJoined(db.(accounts := db.accounts[user := Account(email, true)]), now, user, email), Done)
  }

  // ---- Requests and runs ----

  function TryCreateWorkspace(db: Db, user: UserId, tenant: TenantId, baseSlug: string, hasFreePlan: bool): Attempt {
    var slug := FirstFreeSlug(Slugs(db), baseSlug, 1);
    if user !in db.accounts || !db.accounts[user].verified then Attempt(db, EmailNotVerified)
    else if slug == None then Attempt(db, SlugUnavailable)
    else if !hasFreePlan || tenant in db.tenants then Attempt(db, ServerError)
    else Attempt(db.(tenants := db.tenants[tenant :=
                   Tenant(slug.value, map[user := Membership(Owner, true, None)], None, map[])]), Done)
  }

  predicate EmailInUse(db: Db, email: Email) {
    exists u :: u in db.accounts && db.accounts[u].email == email
  }

  /** The least role the route demands. */
  function RequiredRole(op: TenantOp): Role {
    match op
    case ChangeRole(_, _, _) => Admin
    case RemoveMember(_) => Admin
    case LeaveTenant => Viewer
    case InitiateTransfer(_) => Owner
    case AcceptTransfer => Viewer
    case GetPendingTransfer => Owner
    case InviteUser(_, _, _) => Admin
    case CancelInvitation(_) => Admin
  }

  /** The request schema admits only the roles below Owner. */
  predicate ValidBody(op: TenantOp) {
    match op
    case ChangeRole(_, newRole, _) => newRole != Owner
    case InviteUser(_, role, _) => role != Owner
    case _ => true
  }

  function TryService(accounts: map<UserId, Account>, t: Tenant, now: int, actor: UserId, op: TenantOp): Change
    requires actor in t.members
  {
    match op
    case ChangeRole(target, newRole, billing) => TryChangeRole(t, actor, target, newRole, billing)
    case RemoveMember(target) => TryRemoveMember(t, actor, target)
    case LeaveTenant => TryLeave(t, actor)
    case InitiateTransfer(to) => TryInitiateTransfer(t, now, actor, to)
    case AcceptTransfer => TryAcceptTransfer(t, now, actor)
    case GetPendingTransfer => TryGetPendingTransfer(t, now)
    case InviteUser(email, role, billing) => TryInvite(accounts, t, now, actor, email, role, billing)
    case CancelInvitation(email) => TryCancelInvitation(t, email)
  }

  /** Body validation, then the membership and role guards of the route, then the service. */
  function TryRoute(accounts: map<UserId, Account>, t: Tenant, now: int, actor: UserId, op: TenantOp): Change {
    if !ValidBody(op) then Change(t, InvalidRole)
    else if actor !in accounts || !accounts[actor].verified then Change(t, EmailNotVerified)
    else if actor !in t.members then Change(t, TenantNotFound)
    else if t.members[actor].role.Level() < RequiredRole(op).Level() then Change(t, InsufficientRole)
    else TryService(accounts, t, now, actor, op)
  }

  function Try(db: Db, now: int, op: Op): Attempt {
    match op
    case Register(user, email) =>
      if user in db.accounts || EmailInUse(db, email) then Attempt(db, EmailTaken)
      else Attempt(db.(accounts := db.accounts[user := Account(email, false)]), Done)
    case VerifyEmail(user) => TryVerifyEmail(db, now, user)
    case ChangeEmail(user, email) =>
      if user !in db.accounts || !db.accounts[user].verified then Attempt(db, EmailNotVerified)
      else if db.accounts[user].email == email then Attempt(db, Done)
      else if EmailInUse(db, email) then Attempt(db, EmailTaken)
      else Attempt(db.(accounts := db.accounts[user := Account(email, false)]), Done)
    case CreateWorkspace(user, tenant, baseSlug, hasFreePlan) =>
      TryCreateWorkspace(db, user, tenant, baseSlug, hasFreePlan)
    case AcceptInvitation(user, token) =>
      if user !in db.accounts || !db.accounts[user].verified then Attempt(db, EmailNotVerified)
      else TryAcceptInvitation(db, now, user, token)
    case InTenant(tenant, actor, inner) =>
      if tenant !in db.tenants then Attempt(db, TenantNotFound)
      else
        var c := TryRoute(db.accounts, db.tenants[tenant], now, actor, inner);
        Attempt(db.(tenants := db.tenants[tenant := c.tenant]), c.outcome)
  }

  datatype World = World(db: Db, now: int)

  /** A request arrives `delay` after the last one; `commits` is false when the final COMMIT fails. */
  datatype Request = Request(op: Op, delay: nat, commits: bool)

  function Answer(w: World, rq: Request): Outcome {
    var o := Try(w.db, w.now + rq.delay, rq.op).outcome;
    if o == Done && !rq.commits then ServerError else o
  }

  /** Only a request that answers `Done` keeps its changes. */
  function Step(w: World, rq: Request): World {
    World(if Answer(w, rq) == Done then Try(w.db, w.now + rq.delay, rq.op).db else w.db, w.now + rq.delay)
  }

  function Run(w: World, rqs: seq<Request>): World
    decreases rqs
  {
    if rqs == [] then w else Run(Step(w, rqs[0]), rqs[1..])
  }
}
