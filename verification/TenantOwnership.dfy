/** Every tenant has exactly one Owner in every reachable state, and how ownership can move. */
module TenantOwnership {
  import opened Clock
  import opened Wrappers
  import opened TenantModel

  ghost predicate Owns(t: Tenant, user: UserId) {
    user in t.members && t.members[user].role == Owner
  }

  ghost predicate IsSoleOwner(t: Tenant, user: UserId) {
    Owns(t, user) && forall v :: Owns(t, v) ==> v == user
  }

  ghost predicate HasOneOwner(t: Tenant) {
    exists u :: IsSoleOwner(t, u)
  }

  /**
   The inductive strengthening: a pending transfer comes from the current owner and goes elsewhere,
   no invitation carries the Owner role, and invitations last one week.
   */
  ghost predicate Sound(t: Tenant) {
    && HasOneOwner(t)
    && (t.transfer.Some? ==> Owns(t, t.transfer.value.from) && t.transfer.value.from != t.transfer.value.to)
    && (forall e :: e in t.invitations ==>
          t.invitations[e].role != Owner && t.invitations[e].expiresAt == t.invitations[e].issuedAt + WEEK)
  }

  ghost predicate AllSound(db: Db) {
    forall t :: t in db.tenants ==> Sound(db.tenants[t])
  }

  // ---- Each service call keeps the invariant ----

  lemma SameOwners(t: Tenant, t': Tenant)
    requires HasOneOwner(t) && forall u :: Owns(t, u) <==> Owns(t', u)
    ensures HasOneOwner(t')
  {
    var u :| IsSoleOwner(t, u);
    assert IsSoleOwner(t', u);
  }

  /** The guards of `change_role` never let an Owner's row through: two distinct Owners cannot exist. */
  lemma ChangeRoleSparesOwner(t: Tenant, actor: UserId, target: UserId, newRole: Role, billing: Option<bool>)
    requires HasOneOwner(t) && actor in t.members
    requires TryChangeRole(t, actor, target, newRole, billing).outcome == Done
    ensures !Owns(t, target) && newRole != Owner
  {
    if Owns(t, target) {
      assert Owns(t, actor);
    }
  }

  /** Who owns a tenant after a completed transfer, whether or not the accepter is still a member. */
  lemma AcceptMovesOwnership(t: Tenant, now: int, user: UserId)
    requires Sound(t) && TryAcceptTransfer(t, now, user).outcome == Done
    ensures var t' := TryAcceptTransfer(t, now, user).tenant;
            (forall v :: Owns(t', v) <==> v == user && user in t.members) && t'.members.Keys == t.members.Keys
  {
    var t' := TryAcceptTransfer(t, now, user).tenant;
    assert Owns(t, t.transfer.value.from);
    forall v ensures Owns(t', v) <==> v == user && user in t.members {
      if v != user && v != t.transfer.value.from {
        assert !Owns(t, v);
      }
    }
  }

  /**
   The service function itself keeps exactly one Owner if and only if the accepting user is a
   member; only the route's membership guard rules the other case out.
   */
  lemma AcceptKeepsOneOwnerIff(t: Tenant, now: int, user: UserId)
    requires Sound(t) && TryAcceptTransfer(t, now, user).outcome == Done
    ensures HasOneOwner(TryAcceptTransfer(t, now, user).tenant) <==> user in t.members
  {
    AcceptMovesOwnership(t, now, user);
    if user in t.members {
      assert IsSoleOwner(TryAcceptTransfer(t, now, user).tenant, user);
    }
  }

  /** The failing case is reachable without the guard: the proposed owner has left in the meantime. */
  lemma UnguardedAcceptCanLoseTheOwner()
    ensures var t := Tenant("acme", map[1 := Membership(Owner, true, None)], Some(Transfer(1, 2, 100)), map[]);
            && Sound(t) && TryAcceptTransfer(t, 50, 2).outcome == Done
            && !HasOneOwner(TryAcceptTransfer(t, 50, 2).tenant)
  {
    var t := Tenant("acme", map[1 := Membership(Owner, true, None)], Some(Transfer(1, 2, 100)), map[]);
    assert IsSoleOwner(t, 1);
    AcceptKeepsOneOwnerIff(t, 50, 2);
  }

  /** Only a completed transfer moves ownership within a tenant. */
  lemma OnlyAcceptMovesOwnership(accounts: map<UserId, Account>, t: Tenant, now: int, actor: UserId, op: TenantOp)
    requires Sound(t) && actor in t.members && ValidBody(op) && !op.AcceptTransfer?
    requires TryService(accounts, t, now, actor, op).outcome == Done
    ensures forall u :: Owns(t, u) <==> Owns(TryService(accounts, t, now, actor, op).tenant, u)
  {
    match op
    case ChangeRole(target, newRole, billing) => ChangeRoleSparesOwner(t, actor, target, newRole, billing);
    case _ =>
  }

  lemma ServiceKeepsSound(accounts: map<UserId, Account>, t: Tenant, now: int, actor: UserId, op: TenantOp)
    requires Sound(t) && actor in t.members && ValidBody(op)
    requires TryService(accounts, t, now, actor, op).outcome == Done
    ensures Sound(TryService(accounts, t, now, actor, op).tenant)
  {
    var t' := TryService(accounts, t, now, actor, op).tenant;
    if op.AcceptTransfer? {
      AcceptMovesOwnership(t, now, actor);
      assert IsSoleOwner(t', actor);
    } else {
      OnlyAcceptMovesOwnership(accounts, t, now, actor, op);
      SameOwners(t, t');
    }
  }

  lemma JoinKeepsSound(t: Tenant, now: int, user: UserId, email: Email)
    requires Sound(t) && email in t.invitations && user !in t.members
    ensures Sound(Join(t, now, user, email))
    ensures forall u :: Owns(t, u) <==> Owns(Join(t, now, user, email), u)
  {
    assert forall u :: Owns(t, u) <==> Owns(Join(t, now, user, email), u);
    SameOwners(t, Join(t, now, user, email));
  }

  // ---- Requests and runs ----

  lemma StepKeepsSound(w: World, rq: Request)
    requires AllSound(w.db)
    ensures AllSound(Step(w, rq).db)
  {
    if Answer(w, rq) == Done {
      var now := w.now + rq.delay;
      match rq.op
      case InTenant(tenant, actor, op) => ServiceKeepsSound(w.db.accounts, w.db.tenants[tenant], now, actor, op);
      case AcceptInvitation(user, token) =>
        JoinKeepsSound(w.db.tenants[token.tenant], now, user, token.email);
      case VerifyEmail(user) =>
        forall t | t in w.db.tenants && AutoJoins(w.db.tenants[t], now, user, w.db.accounts[user].email)
          ensures Sound(Join(w.db.tenants[t], now, user, w.db.accounts[user].email))
        {
          JoinKeepsSound(w.db.tenants[t], now, user, w.db.accounts[user].email);
        }
      case CreateWorkspace(user, tenant, _, _) =>
        assert IsSoleOwner(Step(w, rq).db.tenants[tenant], user);
      case _ =>
    }
  }

  lemma {:induction false} SoundInEveryRun(w: World, rqs: seq<Request>)
    requires AllSound(w.db)
    ensures AllSound(Run(w, rqs).db)
    decreases rqs
  {
    if rqs != [] {
      StepKeepsSound(w, rqs[0]);
      SoundInEveryRun(Step(w, rqs[0]), rqs[1..]);
    }
  }

  function Start(now: int): World {
    World(Db(map[], map[]), now)
  }

  /** From the empty system, after any sequence of requests, every tenant has exactly one Owner. */
  lemma ExactlyOneOwner(now: int, rqs: seq<Request>, tenant: TenantId)
    requires tenant in Run(Start(now), rqs).db.tenants
    ensures HasOneOwner(Run(Start(now), rqs).db.tenants[tenant])
  {
    SoundInEveryRun(Start(now), rqs);
  }

  /** Accepting an expired transfer deletes it and the raise takes that back: it stays pending, and nothing moves. */
  lemma ExpiredTransferStays(w: World, tenant: TenantId, user: UserId, delay: nat, commits: bool)
    requires Answer(w, Request(InTenant(tenant, user, AcceptTransfer), delay, commits)) == TokenExpired
    ensures var rq := Request(InTenant(tenant, user, AcceptTransfer), delay, commits);
            && Step(w, rq).db == w.db && w.db.tenants[tenant].transfer.Some?
            && Try(w.db, w.now + delay, rq.op).db.tenants[tenant].transfer == None
  {
  }

  // ---- How ownership moves ----

  lemma OwnersStay(w: World, rq: Request, tenant: TenantId)
    requires AllSound(w.db) && tenant in w.db.tenants
    requires !rq.op.InTenant? || rq.op.tenant != tenant || !rq.op.op.AcceptTransfer? || Answer(w, rq) != Done
    ensures tenant in Step(w, rq).db.tenants
    ensures forall u :: Owns(w.db.tenants[tenant], u) <==> Owns(Step(w, rq).db.tenants[tenant], u)
  {
    if Answer(w, rq) == Done {
      var now := w.now + rq.delay;
      var t := w.db.tenants[tenant];
      match rq.op
      case InTenant(id, actor, op) =>
        if id == tenant {
          OnlyAcceptMovesOwnership(w.db.accounts, t, now, actor, op);
        }
      case AcceptInvitation(user, token) =>
        if token.tenant == tenant {
          JoinKeepsSound(t, now, user, token.email);
        }
      case VerifyEmail(user) =>
        if AutoJoins(t, now, user, w.db.accounts[user].email) {
          JoinKeepsSound(t, now, user, w.db.accounts[user].email);
        }
      case _ =>
    }
  }

  /** A request changes the owner of a tenant only by accepting the transfer that names the new one. */
  lemma OwnerMovesOnlyByAccept(w: World, rq: Request, tenant: TenantId, a: UserId, b: UserId)
    requires AllSound(w.db) && tenant in w.db.tenants && a != b
    requires Owns(w.db.tenants[tenant], a)
    requires tenant in Step(w, rq).db.tenants && Owns(Step(w, rq).db.tenants[tenant], b)
    ensures rq.op == InTenant(tenant, b, AcceptTransfer) && Answer(w, rq) == Done
    ensures var tr := w.db.tenants[tenant].transfer;
            tr.Some? && tr.value.from == a && tr.value.to == b && w.now + rq.delay <= tr.value.expiresAt
  {
    var t := w.db.tenants[tenant];
    assert Sound(t);
    if rq.op.InTenant? && rq.op.tenant == tenant && rq.op.op.AcceptTransfer? && Answer(w, rq) == Done {
      AcceptMovesOwnership(t, w.now + rq.delay, rq.op.actor);
    } else {
      OwnersStay(w, rq, tenant);
    }
  }

  lemma {:induction false} RunSplits(w: World, a: seq<Request>, b: seq<Request>)
    ensures Run(w, a + b) == Run(Run(w, a), b)
    decreases a
  {
    if a == [] {
      assert a + b == b;
    } else {
      assert (a + b)[0] == a[0] && (a + b)[1..] == a[1..] + b;
      RunSplits(Step(w, a[0]), a[1..], b);
    }
  }

  ghost predicate Pending(w: World, tenant: TenantId, tr: Transfer) {
    tenant in w.db.tenants && w.db.tenants[tenant].transfer == Some(tr)
  }

  /** Request `i` of the run is a successful proposal by `from`, then Owner, to hand the tenant to `to`. */
  ghost predicate Proposes(w: World, rqs: seq<Request>, i: nat, tenant: TenantId, from: UserId, to: UserId) {
    && i < |rqs|
    && rqs[i].op == InTenant(tenant, from, InitiateTransfer(to))
    && Answer(Run(w, rqs[..i]), rqs[i]) == Done
    && tenant in Run(w, rqs[..i]).db.tenants && Owns(Run(w, rqs[..i]).db.tenants[tenant], from)
  }

  lemma TransferAppears(w: World, rq: Request, tenant: TenantId, tr: Transfer)
    requires Pending(Step(w, rq), tenant, tr) && !Pending(w, tenant, tr)
    ensures rq.op == InTenant(tenant, tr.from, InitiateTransfer(tr.to)) && Answer(w, rq) == Done
    ensures tenant in w.db.tenants && Owns(w.db.tenants[tenant], tr.from)
    ensures tr.expiresAt == w.now + rq.delay + WEEK
  {
  }

  /** Every pending transfer was proposed by the user it names, who was the Owner at that moment. */
  lemma {:induction false} TransferWasProposed(w: World, rqs: seq<Request>, tenant: TenantId, tr: Transfer)
    returns (i: nat)
    requires w.db.tenants == map[] && Pending(Run(w, rqs), tenant, tr)
    ensures Proposes(w, rqs, i, tenant, tr.from, tr.to)
    ensures tr.expiresAt == Run(w, rqs[..i]).now + rqs[i].delay + WEEK
    decreases |rqs|
  {
    var last := |rqs| - 1;
    var init := rqs[..last];
    assert rqs == init + [rqs[last]];
    RunSplits(w, init, [rqs[last]]);
    var v := Run(w, init);
    assert Run(v, [rqs[last]]) == Step(v, rqs[last]);
    if Pending(v, tenant, tr) {
      i := TransferWasProposed(w, init, tenant, tr);
      assert rqs[..i] == init[..i];
    } else {
      TransferAppears(v, rqs[last], tenant, tr);
      i := last;
    }
  }

  /**
   Ownership is handed over only by consent of both sides: when the owner of a tenant changes from
   `a` to `b`, `b` accepted, and within the week before that `a`, then Owner, had proposed `b`.
   */
  lemma OwnershipMovesByConsent(w: World, rqs: seq<Request>, rq: Request, tenant: TenantId, a: UserId, b: UserId)
    returns (i: nat)
    requires w.db.tenants == map[] && a != b
    requires tenant in Run(w, rqs).db.tenants && tenant in Step(Run(w, rqs), rq).db.tenants
    requires Owns(Run(w, rqs).db.tenants[tenant], a) && Owns(Step(Run(w, rqs), rq).db.tenants[tenant], b)
    ensures rq.op == InTenant(tenant, b, AcceptTransfer)
    ensures Proposes(w, rqs, i, tenant, a, b)
    ensures Run(w, rqs).now + rq.delay <= Run(w, rqs[..i]).now + rqs[i].delay + WEEK
  {
    SoundInEveryRun(w, rqs);
    OwnerMovesOnlyByAccept(Run(w, rqs), rq, tenant, a, b);
    i := TransferWasProposed(w, rqs, tenant, Run(w, rqs).db.tenants[tenant].transfer.value);
  }
}
