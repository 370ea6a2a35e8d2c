/** Where memberships and roles come from: each one goes back to founding a workspace or to an invitation. */
module Memberships {
  import opened Clock
  import opened Wrappers
  import opened TenantModel
  import opened TenantOwnership

  predicate IsMember(db: Db, tenant: TenantId, user: UserId) {
    tenant in db.tenants && user in db.tenants[tenant].members
  }

  // ---- One request ----

  /** The request created the workspace, with its creator as Owner. */
  ghost predicate Founds(w: World, rq: Request, tenant: TenantId, user: UserId) {
    && rq.op.CreateWorkspace? && rq.op.user == user && rq.op.tenant == tenant && Answer(w, rq) == Done
    && tenant !in w.db.tenants
    && IsMember(Step(w, rq).db, tenant, user)
    && Step(w, rq).db.tenants[tenant].members[user] == Membership(Owner, true, None)
  }

  /** The request made `user`, who held the invited address, a member as the pending invitation `row` offers. */
  ghost predicate TakesUp(w: World, rq: Request, tenant: TenantId, user: UserId, row: Invitation) {
    && Answer(w, rq) == Done && tenant in w.db.tenants && user in w.db.accounts
    && var email := w.db.accounts[user].email;
    && email in w.db.tenants[tenant].invitations && w.db.tenants[tenant].invitations[email] == row
    && row.acceptedAt == None
    && IsMember(Step(w, rq).db, tenant, user) && Step(w, rq).db.tenants[tenant].members[user] == Joined(row)
    && (rq.op == VerifyEmail(user)
        || (rq.op.AcceptInvitation? && rq.op.user == user && w.db.accounts[user].verified))
  }

  /** The request sent the offer in `row` to `email`, and its sender was an Admin or the Owner then. */
  ghost predicate Sends(w: World, rq: Request, tenant: TenantId, email: Email, row: Invitation) {
    && Answer(w, rq) == Done && rq.op == InTenant(tenant, row.invitedBy, InviteUser(email, row.role, row.billing))
    && IsMember(w.db, tenant, row.invitedBy)
    && w.db.tenants[tenant].members[row.invitedBy].role in {Owner, Admin}
    && row.issuedAt == w.now + rq.delay && row.expiresAt == row.issuedAt + WEEK
  }

  /** The request changed the row of `user`: a role change by an Admin or the Owner, or a transfer from or to `user`. */
  ghost predicate ChangesRow(w: World, rq: Request, tenant: TenantId, user: UserId) {
    && rq.op.InTenant? && rq.op.tenant == tenant && Answer(w, rq) == Done && IsMember(w.db, tenant, rq.op.actor)
    && (|| (rq.op.op.ChangeRole? && rq.op.op.target == user
            && w.db.tenants[tenant].members[rq.op.actor].role in {Owner, Admin})
        || (rq.op.op.AcceptTransfer? && w.db.tenants[tenant].transfer.Some?
            && rq.op.actor == w.db.tenants[tenant].transfer.value.to
            && (user == rq.op.actor || user == w.db.tenants[tenant].transfer.value.from)))
  }

  /** What an acceptance leaves of an invitation: everything but the accepted mark. */
  predicate SameOffer(a: Invitation, b: Invitation) {
    a.(acceptedAt := None) == b.(acceptedAt := None)
  }

  lemma ServiceAddsNoMember(accounts: map<UserId, Account>, t: Tenant, now: int, actor: UserId, op: TenantOp,
                            user: UserId)
    requires user in TryRoute(accounts, t, now, actor, op).tenant.members
    ensures user in t.members
  {
  }

  /** A new membership is founded or taken up. */
  lemma MemberAppears(w: World, rq: Request, tenant: TenantId, user: UserId) returns (row: Invitation)
    requires IsMember(Step(w, rq).db, tenant, user) && !IsMember(w.db, tenant, user)
    ensures Founds(w, rq, tenant, user) || TakesUp(w, rq, tenant, user, row)
  {
    row := Invitation(Viewer, false, 0, 0, 0, None);
    match rq.op
    case CreateWorkspace(_, _, _, _) =>
    case InTenant(id, actor, op) =>
      ServiceAddsNoMember(w.db.accounts, w.db.tenants[id], w.now + rq.delay, actor, op, user);
    case VerifyEmail(u) => row := w.db.tenants[tenant].invitations[w.db.accounts[user].email];
    case AcceptInvitation(_, token) => row := w.db.tenants[tenant].invitations[token.email];
    case _ =>
  }

  lemma ServiceChangesRow(accounts: map<UserId, Account>, t: Tenant, now: int, actor: UserId, op: TenantOp,
                          user: UserId)
    requires var c := TryRoute(accounts, t, now, actor, op);
             && c.outcome == Done && user in t.members && user in c.tenant.members
             && c.tenant.members[user] != t.members[user]
    ensures actor in t.members
    ensures || (op.ChangeRole? && op.target == user && t.members[actor].role in {Owner, Admin})
            || (op.AcceptTransfer? && t.transfer.Some? && actor == t.transfer.value.to
                && (user == actor || user == t.transfer.value.from))
  {
  }

  /** A member's row changes only by ChangesRow. */
  lemma RowStays(w: World, rq: Request, tenant: TenantId, user: UserId)
    requires IsMember(w.db, tenant, user) && IsMember(Step(w, rq).db, tenant, user)
    requires !ChangesRow(w, rq, tenant, user)
    ensures Step(w, rq).db.tenants[tenant].members[user] == w.db.tenants[tenant].members[user]
  {
    if Answer(w, rq) == Done {
      match rq.op
      case InTenant(id, actor, op) =>
        if id == tenant {
          var t := w.db.tenants[tenant];
          var c := TryRoute(w.db.accounts, t, w.now + rq.delay, actor, op);
          if c.tenant.members[user] != t.members[user] {
            ServiceChangesRow(w.db.accounts, t, w.now + rq.delay, actor, op, user);
          }
        }
      case _ =>
    }
  }

  lemma ServiceInvitations(accounts: map<UserId, Account>, t: Tenant, now: int, actor: UserId, op: TenantOp,
                           email: Email)
    requires var c := TryRoute(accounts, t, now, actor, op); c.outcome == Done && email in c.tenant.invitations
    ensures var row := TryRoute(accounts, t, now, actor, op).tenant.invitations[email];
            || (email in t.invitations && row == t.invitations[email])
            || (&& op == InviteUser(email, row.role, row.billing) && actor == row.invitedBy
                && actor in t.members && t.members[actor].role in {Owner, Admin}
                && row.issuedAt == now && row.expiresAt == now + WEEK)
  {
  }

  /** An invitation was there before with the same offer, or has just been sent. */
  lemma InvitationStep(w: World, rq: Request, tenant: TenantId, email: Email)
    requires tenant in Step(w, rq).db.tenants && email in Step(w, rq).db.tenants[tenant].invitations
    ensures var row := Step(w, rq).db.tenants[tenant].invitations[email];
            || (tenant in w.db.tenants && email in w.db.tenants[tenant].invitations
                && SameOffer(w.db.tenants[tenant].invitations[email], row))
            || Sends(w, rq, tenant, email, row)
  {
    if Answer(w, rq) == Done {
      match rq.op
      case InTenant(id, actor, op) =>
        if id == tenant {
          ServiceInvitations(w.db.accounts, w.db.tenants[tenant], w.now + rq.delay, actor, op, email);
        }
      case _ =>
    }
  }

  // ---- Whole runs ----

  lemma LastOf(w: World, rqs: seq<Request>)
    requires rqs != []
    ensures var init := rqs[..|rqs| - 1];
            && Run(w, rqs) == Step(Run(w, init), rqs[|rqs| - 1])
            && forall i :: 0 <= i <= |init| ==> rqs[..i] == init[..i]
  {
    var init := rqs[..|rqs| - 1];
    var last := rqs[|rqs| - 1];
    assert rqs == init + [last];
    RunSplits(w, init, [last]);
    assert Run(Run(w, init), [last]) == Run(Step(Run(w, init), last), []);
  }

  /** Request `i` of the run sent the offer in `row`. */
  ghost predicate SentAt(w: World, rqs: seq<Request>, i: nat, tenant: TenantId, email: Email, row: Invitation) {
    i < |rqs| && Sends(Run(w, rqs[..i]), rqs[i], tenant, email, row)
  }

  lemma {:induction false} InvitationWasSent(w: World, rqs: seq<Request>, tenant: TenantId, email: Email)
    returns (i: nat)
    requires w.db.tenants == map[] && tenant in Run(w, rqs).db.tenants
    requires email in Run(w, rqs).db.tenants[tenant].invitations
    ensures SentAt(w, rqs, i, tenant, email, Run(w, rqs).db.tenants[tenant].invitations[email])
    decreases |rqs|
  {
    LastOf(w, rqs);
    var init := rqs[..|rqs| - 1];
    var v := Run(w, init);
    InvitationStep(v, rqs[|rqs| - 1], tenant, email);
    if Sends(v, rqs[|rqs| - 1], tenant, email, Run(w, rqs).db.tenants[tenant].invitations[email]) {
      i := |init|;
    } else {
      i := InvitationWasSent(w, init, tenant, email);
    }
  }

  /** Request `j` founded the workspace, or took up an invitation that request `i` had sent to that address. */
  ghost predicate Enters(w: World, rqs: seq<Request>, i: nat, j: nat, tenant: TenantId, user: UserId, row: Invitation) {
    && j < |rqs|
    && var v := Run(w, rqs[..j]);
    (|| Founds(v, rqs[j], tenant, user)
     || (TakesUp(v, rqs[j], tenant, user, row) && i < j
         && SentAt(w, rqs, i, tenant, v.db.accounts[user].email, row)))
  }

  /** `user` was a member all the time since request `j`. */
  ghost predicate MemberSince(w: World, rqs: seq<Request>, j: nat, tenant: TenantId, user: UserId) {
    forall k :: j < k <= |rqs| ==> IsMember(Run(w, rqs[..k]).db, tenant, user)
  }

  /**
   Every membership, in every run from a system without tenants, goes back to a request since which the user
   has been a member all the time: founding the workspace, or taking up, as the holder of the invited
   address, an invitation that an Admin or the Owner of that time had sent.
   */
  lemma {:induction false} MembershipStems(w: World, rqs: seq<Request>, tenant: TenantId, user: UserId)
    returns (i: nat, j: nat, row: Invitation)
    requires w.db.tenants == map[] && IsMember(Run(w, rqs).db, tenant, user)
    ensures Enters(w, rqs, i, j, tenant, user, row) && MemberSince(w, rqs, j, tenant, user)
    decreases |rqs|
  {
    LastOf(w, rqs);
    var init := rqs[..|rqs| - 1];
    var v := Run(w, init);
    assert rqs[..|rqs|] == rqs && init[..|init|] == init;
    if IsMember(v.db, tenant, user) {
      i, j, row := MembershipStems(w, init, tenant, user);
      EntersEarlier(w, init, rqs, i, j, tenant, user, row);
    } else {
      j := |init|;
      i := 0;
      row := MemberAppears(v, rqs[j], tenant, user);
      if !Founds(v, rqs[j], tenant, user) {
        i := InvitationWasSent(w, init, tenant, v.db.accounts[user].email);
      }
    }
  }

  lemma EntersEarlier(w: World, init: seq<Request>, rqs: seq<Request>, i: nat, j: nat, tenant: TenantId, user: UserId,
                      row: Invitation)
    requires Enters(w, init, i, j, tenant, user, row) && |init| <= |rqs| && rqs[..|init|] == init
    ensures Enters(w, rqs, i, j, tenant, user, row)
  {
    assert rqs[..j] == init[..j] && rqs[j] == init[j];
    if i < j {
      assert rqs[..i] == init[..i] && rqs[i] == init[i];
    }
  }

  /** From then on the role is the one founded with or offered, until a role change or a transfer changes it. */
  lemma {:induction false} RoleIsGranted(w: World, rqs: seq<Request>, j: nat, tenant: TenantId, user: UserId)
    requires j < |rqs| && MemberSince(w, rqs, j, tenant, user)
    requires forall k :: j < k < |rqs| ==> !ChangesRow(Run(w, rqs[..k]), rqs[k], tenant, user)
    ensures IsMember(Run(w, rqs[..j + 1]).db, tenant, user) && IsMember(Run(w, rqs).db, tenant, user)
    ensures Run(w, rqs).db.tenants[tenant].members[user] == Run(w, rqs[..j + 1]).db.tenants[tenant].members[user]
    decreases |rqs|
  {
    assert rqs[..|rqs|] == rqs;
    if j + 1 < |rqs| {
      LastOf(w, rqs);
      var init := rqs[..|rqs| - 1];
      forall k | j < k < |init| ensures !ChangesRow(Run(w, init[..k]), init[k], tenant, user) {
        assert rqs[..k] == init[..k] && rqs[k] == init[k];
      }
      forall k | j < k <= |init| ensures IsMember(Run(w, init[..k]).db, tenant, user) {
        assert rqs[..k] == init[..k];
      }
      RoleIsGranted(w, init, j, tenant, user);
      assert init[..j + 1] == rqs[..j + 1] && init[..|init|] == init;
      RowStays(Run(w, init), rqs[|rqs| - 1], tenant, user);
    }
  }
}
