/** Which tenant requests are done, what they then change, and what they answer when they are not. */
module TenantEffects {
  import opened Clock
  import opened Wrappers
  import opened TenantModel
  import opened TenantOwnership
  import opened Memberships
  import Invitations

  // ---- Commits ----

  /** A request that is not committed, or not done, changes no row; only the answer Done depends on the commit. */
  lemma OnlyDoneChangesRows(w: World, rq: Request)
    ensures var tried := Answer(w, rq.(commits := true));
            && (Answer(w, rq) == Done <==> rq.commits && tried == Done)
            && (Answer(w, rq) != Done ==> Step(w, rq).db == w.db)
            && (tried != Done ==> Answer(w, rq) == tried)
            && (tried == Done && !rq.commits ==> Answer(w, rq) == ServerError)
            && Step(w, rq).now == w.now + rq.delay
  {
  }

  // ---- Who may ask ----

  /** A verified member of the tenant whose role is one of these. */
  ghost predicate Entitled(db: Db, tenant: TenantId, actor: UserId, roles: set<Role>) {
    && actor in db.accounts && db.accounts[actor].verified && IsMember(db, tenant, actor)
    && db.tenants[tenant].members[actor].role in roles
  }

  const EVERY_ROLE: set<Role> := {Owner, Role.Admin, Developer, Viewer}
  const MANAGERS: set<Role> := {Owner, Role.Admin}

  /** The roles a request is open to. */
  function RolesFor(op: TenantOp): set<Role> {
    match op
    case LeaveTenant => EVERY_ROLE
    case AcceptTransfer => EVERY_ROLE
    case InitiateTransfer(_) => {Owner}
    case GetPendingTransfer => {Owner}
    case _ => MANAGERS
  }

  lemma LevelsAreRoles(role: Role, op: TenantOp)
    ensures role.Level() >= RequiredRole(op).Level() <==> role in RolesFor(op)
  {
  }

  /** A body that would make somebody Owner without a transfer. */
  predicate OffersOwner(op: TenantOp) {
    (op.ChangeRole? && op.newRole == Owner) || (op.InviteUser? && op.role == Owner)
  }

  /** Such a body is refused, whoever sends it, and nothing else is refused for its body. */
  lemma RefusedForBodyIff(w: World, tenant: TenantId, actor: UserId, op: TenantOp, delay: nat)
    requires tenant in w.db.tenants
    ensures var rq := Request(InTenant(tenant, actor, op), delay, true);
            && (Answer(w, rq) == InvalidRole <==> OffersOwner(op))
            && (OffersOwner(op) ==> Step(w, rq).db == w.db)
  {
  }

  /** Whom the guards of a route refuse, and how. */
  lemma RefusedAtTheRoute(w: World, tenant: TenantId, actor: UserId, op: TenantOp, delay: nat)
    requires !OffersOwner(op) && tenant in w.db.tenants && !Entitled(w.db, tenant, actor, RolesFor(op))
    ensures var rq := Request(InTenant(tenant, actor, op), delay, true);
            && Step(w, rq).db == w.db
            && Answer(w, rq) == (if actor !in w.db.accounts || !w.db.accounts[actor].verified then EmailNotVerified
                                 else if actor !in w.db.tenants[tenant].members then TenantNotFound
                                 else InsufficientRole)
  {
    if actor in w.db.tenants[tenant].members {
      LevelsAreRoles(w.db.tenants[tenant].members[actor].role, op);
    }
  }

  /** Past the guards, the request is the service call on the tenant's own rows. */
  lemma PastTheRoute(w: World, tenant: TenantId, actor: UserId, op: TenantOp, delay: nat)
    requires !OffersOwner(op) && Entitled(w.db, tenant, actor, RolesFor(op))
    ensures var rq := Request(InTenant(tenant, actor, op), delay, true);
            var c := TryService(w.db.accounts, w.db.tenants[tenant], w.now + delay, actor, op);
            && Answer(w, rq) == c.outcome
            && Step(w, rq).db == if c.outcome == Done then w.db.(tenants := w.db.tenants[tenant := c.tenant]) else w.db
  {
    LevelsAreRoles(w.db.tenants[tenant].members[actor].role, op);
  }

  // ---- What a service call does to its tenant ----

  /** Nothing but the membership of `user` may differ. */
  ghost predicate OnlyMember(t: Tenant, after: Tenant, user: UserId) {
    && (forall u :: u != user ==> (u in after.members <==> u in t.members))
    && (forall u :: u != user && u in t.members ==> after.members[u] == t.members[u])
    && after.transfer == t.transfer && after.invitations == t.invitations && after.slug == t.slug
  }

  /** Nothing but the invitation of `email` may differ. */
  ghost predicate OnlyInvitation(t: Tenant, after: Tenant, email: Email) {
    && (forall e :: e != email ==> (e in after.invitations <==> e in t.invitations))
    && (forall e :: e != email && e in t.invitations ==> after.invitations[e] == t.invitations[e])
    && after.members == t.members && after.transfer == t.transfer && after.slug == t.slug
  }

  lemma ChangeRoleIsExact(t: Tenant, actor: UserId, target: UserId, newRole: Role, billing: Option<bool>)
    requires HasOneOwner(t) && actor in t.members && newRole != Owner
    ensures var c := TryChangeRole(t, actor, target, newRole, billing);
            && (c.outcome == Done <==> target in t.members && t.members[target].role != Owner)
            && (c.outcome == MemberNotFound <==> target !in t.members)
            && (c.outcome == OwnerCannotSelfDemote <==> Owns(t, target) && target == actor)
            && (c.outcome == InsufficientRole <==> Owns(t, target) && target != actor)
            && (c.outcome == Done ==>
                  && OnlyMember(t, c.tenant, target) && target in c.tenant.members
                  && c.tenant.members[target].role == newRole
                  && c.tenant.members[target].billing
                       == (if billing.Some? then billing.value else t.members[target].billing)
                  && c.tenant.members[target].invitedBy == t.members[target].invitedBy)
  {
    assert Owns(t, actor) && Owns(t, target) ==> actor == target;
  }

  lemma RemoveMemberIsExact(t: Tenant, actor: UserId, target: UserId)
    ensures var c := TryRemoveMember(t, actor, target);
            && (c.outcome == Done <==> target != actor && target in t.members && t.members[target].role != Owner)
            && (c.outcome == UseLeave <==> target == actor)
            && (c.outcome == MemberNotFound <==> target != actor && target !in t.members)
            && (c.outcome == CannotRemoveOwner <==> target != actor && Owns(t, target))
            && (c.outcome == Done ==> OnlyMember(t, c.tenant, target) && target !in c.tenant.members)
  {
  }

  lemma LeaveIsExact(t: Tenant, user: UserId)
    requires user in t.members
    ensures var c := TryLeave(t, user);
            && (c.outcome == Done <==> t.members[user].role != Owner)
            && (c.outcome == OwnerCannotLeave <==> Owns(t, user))
            && (c.outcome == Done ==> OnlyMember(t, c.tenant, user) && user !in c.tenant.members)
  {
  }

  lemma InitiateTransferIsExact(t: Tenant, now: int, actor: UserId, to: UserId)
    requires Owns(t, actor)
    ensures var c := TryInitiateTransfer(t, now, actor, to);
            var pending := t.transfer.Some? && now < t.transfer.value.expiresAt;
            && (c.outcome == Done <==> to != actor && to in t.members && !pending)
            && (c.outcome == CannotTransferToSelf <==> to == actor)
            && (c.outcome == MemberNotFound <==> to != actor && to !in t.members)
            && (c.outcome == TransferAlreadyPending <==> to != actor && to in t.members && pending)
            && (c.outcome == Done ==>
                  && c.tenant.transfer == Some(Transfer(actor, to, now + 7 * DAY))
                  && c.tenant.members == t.members && c.tenant.invitations == t.invitations && c.tenant.slug == t.slug)
  {
  }

  lemma AcceptTransferIsExact(t: Tenant, now: int, user: UserId)
    requires Sound(t) && user in t.members
    ensures var c := TryAcceptTransfer(t, now, user);
            var mine := t.transfer.Some? && t.transfer.value.to == user;
            && (c.outcome == Done <==> mine && now <= t.transfer.value.expiresAt)
            && (c.outcome == TransferNotFound <==> !mine)
            && (c.outcome == TokenExpired <==> mine && t.transfer.value.expiresAt < now)
            && (c.outcome == Done ==>
                  var from := t.transfer.value.from;
                  && from != user && c.tenant.members.Keys == t.members.Keys && from in t.members
                  && c.tenant.members[from] == t.members[from].(role := Role.Admin)
                  && c.tenant.members[user] == t.members[user].(role := Owner)
                  && (forall u :: u in t.members && u != from && u != user ==> c.tenant.members[u] == t.members[u])
                  && c.tenant.transfer == None && c.tenant.invitations == t.invitations && c.tenant.slug == t.slug)
  {
    assert t.transfer.Some? ==> Owns(t, t.transfer.value.from);
  }

  lemma GetPendingTransferIsExact(t: Tenant, now: int)
    ensures var c := TryGetPendingTransfer(t, now);
            && c.outcome == Done && c.tenant == t.(transfer := c.tenant.transfer)
            && c.tenant.transfer == (if t.transfer.Some? && now < t.transfer.value.expiresAt then t.transfer else None)
  {
  }

  lemma InviteIsExact(accounts: map<UserId, Account>, t: Tenant, now: int, actor: UserId,
                      email: Email, role: Role, billing: bool)
    ensures var c := TryInvite(accounts, t, now, actor, email, role, billing);
            var member := exists u :: u in accounts && accounts[u].email == email && u in t.members;
            var row := if email in t.invitations then Some(t.invitations[email]) else None;
            var active := row.Some? && row.value.acceptedAt == None && now < row.value.expiresAt;
            && (c.outcome == AlreadyMember <==> member)
            && (c.outcome == InvitationAlreadyExists <==> !member && active)
            && (c.outcome == Done <==> !member && row == None)
            && (c.outcome == Done ==>
                  && OnlyInvitation(t, c.tenant, email)
                  && email in c.tenant.invitations
                  && c.tenant.invitations[email] == Invitation(role, billing, actor, now, now + 7 * DAY, None))
  {
  }

  lemma CancelInvitationIsExact(t: Tenant, email: Email)
    ensures var c := TryCancelInvitation(t, email);
            && (c.outcome == Done <==> email in t.invitations && t.invitations[email].acceptedAt == None)
            && (c.outcome == InvitationNotFound <==> email !in t.invitations)
            && (c.outcome == InvitationAlreadyAccepted <==>
                  email in t.invitations && t.invitations[email].acceptedAt != None)
            && (c.outcome == Done ==> OnlyInvitation(t, c.tenant, email) && email !in c.tenant.invitations)
  {
  }

  // ---- Requests outside a tenant ----

  /** A workspace needs a verified user, a free slug and a free plan; it is new, sealed off, and its creator's. */
  lemma CreateWorkspaceIsExact(w: World, user: UserId, tenant: TenantId, baseSlug: string, hasFreePlan: bool,
                               delay: nat)
    ensures var rq := Request(CreateWorkspace(user, tenant, baseSlug, hasFreePlan), delay, true);
            var v := Step(w, rq);
            var slugFree := exists k :: 1 <= k <= 10 && Candidate(baseSlug, k) !in Slugs(w.db);
            && (Answer(w, rq) == Done <==>
                  && user in w.db.accounts && w.db.accounts[user].verified
                  && slugFree && hasFreePlan && tenant !in w.db.tenants)
            && (Answer(w, rq) == Done ==>
                  && v.db.accounts == w.db.accounts && v.db.tenants.Keys == w.db.tenants.Keys + {tenant}
                  && (forall id :: id in w.db.tenants ==> v.db.tenants[id] == w.db.tenants[id])
                  && var t := v.db.tenants[tenant];
                  && t.members == map[user := Membership(Owner, true, None)]
                  && t.transfer == None && t.invitations == map[]
                  && (forall id :: id in w.db.tenants ==> w.db.tenants[id].slug != t.slug))
  {
    var k := FreeSlug(Slugs(w.db), baseSlug, 1);
    var slug := FirstFreeSlug(Slugs(w.db), baseSlug, 1);
    if slug.Some? {
      forall id | id in w.db.tenants ensures w.db.tenants[id].slug != slug.value {
        assert w.db.tenants[id].slug in Slugs(w.db);
      }
    }
  }

  /** The ten candidates of a name: the name, or `workspace` for an empty one, then with -2 to -10 appended. */
  lemma CandidateIs(name: string, k: nat)
    requires 1 <= k <= 10
    ensures var stem := if |name| > 0 then name else "workspace";
            var suffix := ["", "-2", "-3", "-4", "-5", "-6", "-7", "-8", "-9", "-10"];
            Candidate(name, k) == stem + suffix[k - 1]
  {
    var stem := if |name| > 0 then name else "workspace";
    assert CounterText(k) == ["1", "2", "3", "4", "5", "6", "7", "8", "9", "10"][k - 1];
    assert k > 1 ==> stem + "-" + CounterText(k) == stem + ("-" + CounterText(k));
  }

  /** The slug is the first candidate that is not taken, counting from `k`; there is none iff all of them are. */
  lemma {:induction false} FreeSlug(taken: set<string>, baseSlug: string, k: nat) returns (i: nat)
    requires 1 <= k <= 11
    ensures k <= i <= 11 && forall j :: k <= j < i ==> Candidate(baseSlug, j) in taken
    ensures i <= 10 ==> Candidate(baseSlug, i) !in taken
    ensures FirstFreeSlug(taken, baseSlug, k) == if i == 11 then None else Some(Candidate(baseSlug, i))
    decreases 11 - k
  {
    i := k;
    if k < 11 && Candidate(baseSlug, k) in taken {
      i := FreeSlug(taken, baseSlug, k + 1);
    }
  }

  /** An invitation is taken up by the verified holder of its address, with its own token, while it is pending. */
  lemma AcceptInvitationIsExact(w: World, user: UserId, email: Email, tenant: TenantId, stamp: int, delay: nat)
    requires AllSound(w.db)
    ensures var rq := Request(AcceptInvitation(user, Signed(email, tenant, stamp)), delay, true);
            var now := w.now + delay;
            var v := Step(w, rq);
            && (Answer(w, rq) == Done <==>
                  && user in w.db.accounts && w.db.accounts[user].verified && w.db.accounts[user].email == email
                  && tenant in w.db.tenants && email in w.db.tenants[tenant].invitations
                  && var row := w.db.tenants[tenant].invitations[email];
                  && row.issuedAt / SECOND == stamp && row.acceptedAt == None && now <= row.expiresAt
                  && user !in w.db.tenants[tenant].members)
            && (Answer(w, rq) == Done ==>
                  && v.db.accounts == w.db.accounts && v.db.tenants.Keys == w.db.tenants.Keys
                  && (forall id :: id in w.db.tenants && id != tenant ==> v.db.tenants[id] == w.db.tenants[id])
                  && var t, after := w.db.tenants[tenant], v.db.tenants[tenant];
                  && var row := t.invitations[email];
                  && after.members == t.members[user := Membership(row.role, row.billing, Some(row.invitedBy))]
                  && after.invitations == t.invitations[email := row.(acceptedAt := Some(now))]
                  && after.transfer == t.transfer && after.slug == t.slug)
  {
    if tenant in w.db.tenants && email in w.db.tenants[tenant].invitations {
      var row := w.db.tenants[tenant].invitations[email];
      assert Sound(w.db.tenants[tenant]);
      if w.now + delay <= row.expiresAt {
        Invitations.StampNeverExpiresFirst(row.issuedAt, w.now + delay);
      }
    }
  }

  /** Nothing if the address was verified before; else that flag, and the tenants waiting for it are joined. */
  ghost predicate VerifiedAndJoined(db: Db, after: Db, now: int, user: UserId)
    requires user in db.accounts
  {
    var email := db.accounts[user].email;
    var verified := db.(accounts := db.accounts[user := Account(email, true)]);
    if db.accounts[user].verified then after == db
    else Invitations.AllJoinedExactly(verified, after, now, user, email)
  }

  /** Verifying an address joins the user to the tenants waiting for it; of accounts, only that flag changes. */
  lemma VerifyEmailIsExact(w: World, user: UserId, delay: nat)
    requires user in w.db.accounts
    ensures var rq := Request(VerifyEmail(user), delay, true);
            Answer(w, rq) == Done && VerifiedAndJoined(w.db, Step(w, rq).db, w.now + delay, user)
  {
    VerifyEmailShape(w, user, delay);
    ByAutoJoin(w.db, w.now + delay, user);
  }

  lemma ByAutoJoin(db: Db, now: int, user: UserId)
    requires user in db.accounts
    ensures var email := db.accounts[user].email;
            var joined := AutoJoined(db.(accounts := db.accounts[user := Account(email, true)]), now, user, email);
            VerifiedAndJoined(db, if db.accounts[user].verified then db else joined, now, user)
  {
    var email := db.accounts[user].email;
    var verified := db.(accounts := db.accounts[user := Account(email, true)]);
    Invitations.AutoJoinIsExact(verified, AutoJoined(verified, now, user, email), now, user, email);
  }

  lemma VerifyEmailShape(w: World, user: UserId, delay: nat)
    requires user in w.db.accounts
    ensures var rq := Request(VerifyEmail(user), delay, true);
            var email := w.db.accounts[user].email;
            var verified := w.db.(accounts := w.db.accounts[user := Account(email, true)]);
            && Answer(w, rq) == Done
            && Step(w, rq).db == if w.db.accounts[user].verified then w.db
                                 else AutoJoined(verified, w.now + delay, user, email)
  {
  }

  /** A new or changed address is free, and starts unverified; no other account and no tenant changes. */
  lemma AddressIsExact(w: World, user: UserId, email: Email, delay: nat)
    ensures var register := Request(Register(user, email), delay, true);
            var move := Request(ChangeEmail(user, email), delay, true);
            var taken := exists u :: u in w.db.accounts && w.db.accounts[u].email == email;
            var placed := w.db.(accounts := w.db.accounts[user := Account(email, false)]);
            && (Answer(w, register) == Done <==> user !in w.db.accounts && !taken)
            && (Answer(w, register) == Done ==> Step(w, register).db == placed)
            && (Answer(w, move) == Done <==>
                  && user in w.db.accounts && w.db.accounts[user].verified
                  && (w.db.accounts[user].email == email || !taken))
            && (Answer(w, move) == Done ==> Step(w, move).db == if taken then w.db else placed)
  {
  }

  // ---- Roles over runs ----

  /** The role a request that enters or changes a member's row gives that member. */
  ghost function RoleGiven(v: World, rq: Request, tenant: TenantId, user: UserId): Role {
    match rq.op
    case CreateWorkspace(_, _, _, _) => Owner
    case InTenant(_, actor, ChangeRole(_, newRole, _)) => newRole
    case InTenant(_, actor, _) => if user == actor then Owner else Role.Admin
    case _ =>
      if && tenant in v.db.tenants && user in v.db.accounts
         && v.db.accounts[user].email in v.db.tenants[tenant].invitations
      then v.db.tenants[tenant].invitations[v.db.accounts[user].email].role else Viewer
  }

  /** Request `k` of the run made `user` a member or changed the member's row. */
  ghost predicate GivesRole(w: World, rqs: seq<Request>, k: nat, tenant: TenantId, user: UserId) {
    && k < |rqs|
    && var v := Run(w, rqs[..k]);
    (!IsMember(v.db, tenant, user) && IsMember(Step(v, rqs[k]).db, tenant, user)) || ChangesRow(v, rqs[k], tenant, user)
  }

  lemma RoleAfterEntry(v: World, rq: Request, tenant: TenantId, user: UserId)
    requires !IsMember(v.db, tenant, user) && IsMember(Step(v, rq).db, tenant, user)
    ensures Step(v, rq).db.tenants[tenant].members[user].role == RoleGiven(v, rq, tenant, user)
  {
    var row := MemberAppears(v, rq, tenant, user);
  }

  lemma RoleAfterChange(v: World, rq: Request, tenant: TenantId, user: UserId)
    requires AllSound(v.db) && ChangesRow(v, rq, tenant, user) && IsMember(v.db, tenant, user)
    ensures IsMember(Step(v, rq).db, tenant, user)
    ensures Step(v, rq).db.tenants[tenant].members[user].role == RoleGiven(v, rq, tenant, user)
  {
    var t := v.db.tenants[tenant];
    assert Sound(t);
    LevelsAreRoles(t.members[rq.op.actor].role, rq.op.op);
    PastTheRoute(v, tenant, rq.op.actor, rq.op.op, rq.delay);
    match rq.op.op
    case ChangeRole(target, newRole, billing) => ChangeRoleIsExact(t, rq.op.actor, target, newRole, billing);
    case AcceptTransfer => AcceptTransferIsExact(t, v.now + rq.delay, rq.op.actor);
  }

  /** No request since `k` made `user` a member or changed the member's row. */
  ghost predicate NoneSince(w: World, rqs: seq<Request>, k: nat, tenant: TenantId, user: UserId) {
    forall i :: k < i < |rqs| ==> !GivesRole(w, rqs, i, tenant, user)
  }

  lemma OneMoreQuiet(w: World, init: seq<Request>, rqs: seq<Request>, k: nat, tenant: TenantId, user: UserId)
    requires |rqs| == |init| + 1 && rqs[..|init|] == init && k < |init|
    requires GivesRole(w, init, k, tenant, user) && NoneSince(w, init, k, tenant, user)
    requires !GivesRole(w, rqs, |init|, tenant, user)
    ensures GivesRole(w, rqs, k, tenant, user) && NoneSince(w, rqs, k, tenant, user)
    ensures rqs[..k] == init[..k] && rqs[k] == init[k]
  {
    forall i | 0 <= i < |init| ensures rqs[..i] == init[..i] && rqs[i] == init[i] {
    }
    forall i | k < i < |rqs| ensures !GivesRole(w, rqs, i, tenant, user) {
      if i < |init| {
        assert !GivesRole(w, init, i, tenant, user);
      }
    }
  }

  /**
   A member's role, in every run from a system without tenants, is the one given by the last request
   that made the user a member or changed the row, with none of either kind since.
   */
  lemma {:induction false} RoleIsLastGiven(w: World, rqs: seq<Request>, tenant: TenantId, user: UserId) returns (k: nat)
    requires w.db.tenants == map[] && IsMember(Run(w, rqs).db, tenant, user)
    ensures GivesRole(w, rqs, k, tenant, user) && NoneSince(w, rqs, k, tenant, user)
    ensures Run(w, rqs).db.tenants[tenant].members[user].role == RoleGiven(Run(w, rqs[..k]), rqs[k], tenant, user)
    decreases |rqs|
  {
    LastOf(w, rqs);
    var init := rqs[..|rqs| - 1];
    var v := Run(w, init);
    var last := rqs[|rqs| - 1];
    assert init[..|init|] == init;
    if !IsMember(v.db, tenant, user) {
      k := |init|;
      RoleAfterEntry(v, last, tenant, user);
    } else if ChangesRow(v, last, tenant, user) {
      k := |init|;
      SoundInEveryRun(w, init);
      RoleAfterChange(v, last, tenant, user);
    } else {
      k := RoleIsLastGiven(w, init, tenant, user);
      RowStays(v, last, tenant, user);
      OneMoreQuiet(w, init, rqs, k, tenant, user);
    }
  }
}
