/**
 The tenant services as they run, updating rows in place; each method is proved to do what
 TenantModel says, and `Handle` adds the commit-or-rollback wrapper of a database session.
 */
module TenantService {
  import opened Clock
  import opened Wrappers
  import opened TenantModel
  import Invitations

  /** The ten-candidate search of `generate_unique_slug`. */
  method GenerateUniqueSlug(taken: set<string>, baseSlug: string) returns (slug: Option<string>)
    ensures slug == FirstFreeSlug(taken, baseSlug, 1)
    ensures slug.Some? ==> slug.value !in taken
    ensures slug.Some? <==> exists k :: 1 <= k <= 10 && Candidate(baseSlug, k) !in taken
  {
    var counter := 1;
    while counter <= 10
      invariant 1 <= counter <= 11
      invariant forall k :: 1 <= k < counter ==> Candidate(baseSlug, k) in taken
      invariant FirstFreeSlug(taken, baseSlug, 1) == FirstFreeSlug(taken, baseSlug, counter)
    {
      var candidate := Candidate(baseSlug, counter);
      if candidate !in taken {
        return Some(candidate);
      }
      counter := counter + 1;
    }
    slug := None;
  }

  class TenantBackend {
    var accounts: map<UserId, Account>
    var tenants: map<TenantId, Tenant>
    var clock: int

    constructor (now: int)
      ensures State() == World(Db(map[], map[]), now)
    {
      accounts, tenants, clock := map[], map[], now;
    }

    function Tables(): Db
      reads this
    {
      Db(accounts, tenants)
    }

    function State(): World
      reads this
    {
      World(Tables(), clock)
    }

    /** UPDATE one tenant's rows. */
    method Save(id: TenantId, t: Tenant)
      modifies `tenants
      ensures tenants == old(tenants)[id := t]
    {
      tenants := tenants[id := t];
    }

    method CreateWorkspace(user: UserId, id: TenantId, baseSlug: string, hasFreePlan: bool) returns (o: Outcome)
      modifies `tenants
      ensures var a := TryCreateWorkspace(old(Tables()), user, id, baseSlug, hasFreePlan);
              o == a.outcome && (o == Done ==> Tables() == a.db)
    {
      if user !in accounts || !accounts[user].verified {
        return EmailNotVerified;
      }
      var slug := GenerateUniqueSlug(Slugs(Tables()), baseSlug);
      if slug == None {
        return SlugUnavailable;
      }
      if id in tenants {
        return ServerError;
      }
      Save(id, Tenant(slug.value, map[], None, map[]));
      Save(id, tenants[id].(members := tenants[id].members[user := Membership(Owner, true, None)]));
      if !hasFreePlan {
        return ServerError;
      }
      o := Done;
    }

    method ChangeRole(id: TenantId, actor: UserId, target: UserId, newRole: Role, billing: Option<bool>)
      returns (o: Outcome)
      requires id in tenants && actor in tenants[id].members
      modifies `tenants
      ensures var c := TryChangeRole(old(tenants)[id], actor, target, newRole, billing);
              o == c.outcome && tenants == old(tenants)[id := c.tenant]
    {
      var t := tenants[id];
      if target !in t.members {
        return MemberNotFound;
      }
      var row := t.members[target];
      if row.role == Owner && target == actor {
        return OwnerCannotSelfDemote;
      }
      if row.role == Owner && t.members[actor].role != Owner {
        return InsufficientRole;
      }
      if newRole == Owner {
        return UseTransfer;
      }
      row := row.(role := newRole);
      if billing.Some? {
        row := row.(billing := billing.value);
      }
      Save(id, t.(members := t.members[target := row]));
      o := Done;
    }

    method RemoveMember(id: TenantId, actor: UserId, target: UserId) returns (o: Outcome)
      requires id in tenants
      modifies `tenants
      ensures var c := TryRemoveMember(old(tenants)[id], actor, target);
              o == c.outcome && tenants == old(tenants)[id := c.tenant]
    {
      var t := tenants[id];
      if target == actor {
        return UseLeave;
      }
      if target !in t.members {
        return MemberNotFound;
      }
      if t.members[target].role == Owner {
        return CannotRemoveOwner;
      }
      Save(id, t.(members := t.members - {target}));
      o := Done;
    }

    method LeaveTenant(id: TenantId, user: UserId) returns (o: Outcome)
      requires id in tenants
      modifies `tenants
      ensures var c := TryLeave(old(tenants)[id], user);
              o == c.outcome && tenants == old(tenants)[id := c.tenant]
    {
      var t := tenants[id];
      if user !in t.members {
        return MemberNotFound;
      }
      if t.members[user].role == Owner {
        return OwnerCannotLeave;
      }
      Save(id, t.(members := t.members - {user}));
      o := Done;
    }

    method InitiateTransfer(id: TenantId, actor: UserId, to: UserId) returns (o: Outcome)
      requires id in tenants && actor in tenants[id].members
      modifies `tenants
      ensures var c := TryInitiateTransfer(old(tenants)[id], clock, actor, to);
              o == c.outcome && tenants == old(tenants)[id := c.tenant]
    {
      var t := tenants[id];
      if t.members[actor].role != Owner {
        return InsufficientRole;
      }
      if to == actor {
        return CannotTransferToSelf;
      }
      if to !in t.members {
        return MemberNotFound;
      }
      if t.transfer.Some? {
        if t.transfer.value.expiresAt > clock {
          return TransferAlreadyPending;
        }
        Save(id, t.(transfer := None));
      }
      Save(id, t.(transfer := Some(Transfer(actor, to, clock + WEEK))));
      o := Done;
    }

    method AcceptTransfer(id: TenantId, user: UserId) returns (o: Outcome)
      requires id in tenants
      modifies `tenants
      ensures var c := TryAcceptTransfer(old(tenants)[id], clock, user);
              o == c.outcome && tenants == old(tenants)[id := c.tenant]
    {
      var t := tenants[id];
      if t.transfer.None? || t.transfer.value.to != user {
        return TransferNotFound;
      }
      var transfer := t.transfer.value;
      t := t.(transfer := None);
      if transfer.expiresAt < clock {
        Save(id, t);
        return TokenExpired;
      }
      if transfer.from in t.members {
        t := t.(members := t.members[transfer.from := t.members[transfer.from].(role := Admin)]);
      }
      if user in t.members {
        t := t.(members := t.members[user := t.members[user].(role := Owner)]);
      }
      Save(id, t);
      o := Done;
    }

    method GetPendingTransfer(id: TenantId) returns (o: Outcome)
      requires id in tenants
      modifies `tenants
      ensures var c := TryGetPendingTransfer(old(tenants)[id], clock);
              o == c.outcome && tenants == old(tenants)[id := c.tenant]
    {
      var t := tenants[id];
      if t.transfer.Some? && t.transfer.value.expiresAt <= clock {
        Save(id, t.(transfer := None));
      }
      o := Done;
    }

    /** Membership check, check for an active invitation, then the insert with its unique key. */
    method InviteUser(id: TenantId, actor: UserId, email: Email, role: Role, billing: bool) returns (o: Outcome)
      requires id in tenants
      modifies `tenants
      ensures var c := TryInvite(accounts, old(tenants)[id], clock, actor, email, role, billing);
              o == c.outcome && tenants == old(tenants)[id := c.tenant]
    {
      var t := tenants[id];
      var already := set u | u in t.members && u in accounts && accounts[u].email == email;
      assert forall u :: u in accounts && accounts[u].email == email && u in t.members ==> u in already;
      if already != {} {
        return AlreadyMember;
      }
      if email in t.invitations {
        var row := t.invitations[email];
        if row.acceptedAt == None && row.expiresAt > clock {
          return InvitationAlreadyExists;
        }
        return ServerError;
      }
      Save(id, t.(invitations := t.invitations[email := Invitation(role, billing, actor, clock, clock + WEEK, None)]));
      o := Done;
    }

    method CancelInvitation(id: TenantId, email: Email) returns (o: Outcome)
      requires id in tenants
      modifies `tenants
      ensures var c := TryCancelInvitation(old(tenants)[id], email);
              o == c.outcome && tenants == old(tenants)[id := c.tenant]
    {
      var t := tenants[id];
      if email !in t.invitations {
        return InvitationNotFound;
      }
      if t.invitations[email].acceptedAt != None {
        return InvitationAlreadyAccepted;
      }
      Save(id, t.(invitations := t.invitations - {email}));
      o := Done;
    }

    method AcceptInvitation(user: UserId, token: InviteToken) returns (o: Outcome)
      modifies `tenants
      ensures var a := TryAcceptInvitation(old(Tables()), clock, user, token);
              o == a.outcome && Tables() == a.db
    {
      if token == Garbage {
        return InvalidToken;
      }
      if clock / SECOND - token.stamp > WEEK / SECOND {
        return TokenExpired;
      }
      if user !in accounts || token.email != accounts[user].email {
        return EmailMismatch;
      }
      if token.tenant !in tenants || token.email !in tenants[token.tenant].invitations {
        return InvalidToken;
      }
      var t := tenants[token.tenant];
      var row := t.invitations[token.email];
      if TokenOf(token.email, token.tenant, row) != token {
        return InvalidToken;
      }
      if row.acceptedAt != None {
        return InvitationAlreadyAccepted;
      }
      if row.expiresAt < clock {
        return TokenExpired;
      }
      if user in t.members {
        return AlreadyMember;
      }
      t := t.(members := t.members[user := Joined(row)]);
      t := t.(invitations := t.invitations[token.email := row.(acceptedAt := Some(clock))]);
      Save(token.tenant, t);
      o := Done;
    }

    /** One pending invitation: skipped when stale or when the user is already in. */
    method JoinUnlessStale(id: TenantId, user: UserId, email: Email) returns (joins: bool)
      requires id in tenants && email in tenants[id].invitations && tenants[id].invitations[email].acceptedAt == None
      modifies `tenants
      ensures joins == AutoJoins(old(tenants)[id], clock, user, email)
      ensures tenants == if joins then old(tenants)[id := Join(old(tenants)[id], clock, user, email)] else old(tenants)
    {
      var t := tenants[id];
      var inv := t.invitations[email];
      joins := inv.expiresAt > clock && user !in t.members;
      if joins {
        t := t.(members := t.members[user := Membership(inv.role, inv.billing, Some(inv.invitedBy))]);
        t := t.(invitations := t.invitations[email := inv.(acceptedAt := Some(clock))]);
        Save(id, t);
      }
    }

    /** The loop over the rows the query returned, in the order it gave them. */
    method JoinEach(pending: set<TenantId>, user: UserId, email: Email) returns (joined: set<TenantId>)
      requires pending <= Invitations.PendingFor(Tables(), email)
      modifies `tenants
      ensures Tables() == Invitations.PartlyJoined(old(Tables()), clock, user, email, pending)
      ensures joined == Invitations.JoinedAmong(old(Tables()), clock, user, email, pending)
    {
      ghost var before := Tables();
      var rest := pending;
      ghost var done := {};
      joined := {};
      while rest != {}
        invariant rest <= pending && done == pending - rest
        invariant Tables() == Invitations.PartlyJoined(before, clock, user, email, done)
        invariant joined == Invitations.JoinedAmong(before, clock, user, email, done)
        decreases rest
      {
        var id :| id in rest;
        Invitations.ConsiderOneMore(before, clock, user, email, done, id);
        Invitations.JoinedOneMore(before, clock, user, email, done, id);
        var joins := JoinUnlessStale(id, user, email);
        rest, done := rest - {id}, done + {id};
        if joins {
          joined := joined + {id};
        }
      }
      assert done == pending;
    }

    /** A newly verified user joins every tenant that is waiting for this address. */
    method AutoJoinPendingInvitations(user: UserId, email: Email) returns (joined: set<TenantId>)
      modifies `tenants
      ensures Tables() == AutoJoined(old(Tables()), clock, user, email)
      ensures Invitations.AllJoinedExactly(old(Tables()), Tables(), clock, user, email)
      ensures joined == set t | t in old(tenants) && t in tenants && user in tenants[t].members
                                && user !in old(tenants)[t].members
    {
      Invitations.ConsiderPending(Tables(), clock, user, email);
      joined := JoinEach(Invitations.PendingFor(Tables(), email), user, email);
      Invitations.AutoJoinIsExact(old(Tables()), Tables(), clock, user, email);
    }

    method VerifyEmail(user: UserId) returns (o: Outcome)
      modifies `accounts, `tenants
      ensures var a := TryVerifyEmail(old(Tables()), clock, user);
              o == a.outcome && Tables() == a.db
    {
      if user !in accounts {
        return InvalidToken;
      }
      if !accounts[user].verified {
        accounts := accounts[user := accounts[user].(verified := true)];
        var _ := AutoJoinPendingInvitations(user, accounts[user].email);
      }
      o := Done;
    }

    /** A request in the context of a tenant: body validation and guards first, then the service. */
    method Route(id: TenantId, actor: UserId, op: TenantOp) returns (o: Outcome)
      requires id in tenants
      modifies `tenants
      ensures var c := TryRoute(accounts, old(tenants)[id], clock, actor, op);
              o == c.outcome && tenants == old(tenants)[id := c.tenant]
    {
      if !ValidBody(op) {
        return InvalidRole;
      }
      var t := tenants[id];
      if actor !in accounts || !accounts[actor].verified {
        return EmailNotVerified;
      }
      if actor !in t.members {
        return TenantNotFound;
      }
      if t.members[actor].role.Level() < RequiredRole(op).Level() {
        return InsufficientRole;
      }
      match op
      case ChangeRole(target, newRole, billing) => o := ChangeRole(id, actor, target, newRole, billing);
      case RemoveMember(target) => o := RemoveMember(id, actor, target);
      case LeaveTenant => o := LeaveTenant(id, actor);
      case InitiateTransfer(to) => o := InitiateTransfer(id, actor, to);
      case AcceptTransfer => o := AcceptTransfer(id, actor);
      case GetPendingTransfer => o := GetPendingTransfer(id);
      case InviteUser(email, role, billing) => o := InviteUser(id, actor, email, role, billing);
      case CancelInvitation(email) => o := CancelInvitation(id, email);
    }

    /** ChangeEmail and Register: the address column is unique. */
    method SetAddress(user: UserId, email: Email) returns (o: Outcome)
      modifies `accounts
      ensures o == (if old(EmailInUse(Tables(), email)) then EmailTaken else Done)
      ensures accounts == if o == Done then old(accounts)[user := Account(email, false)] else old(accounts)
    {
      if EmailInUse(Tables(), email) {
        return EmailTaken;
      }
      accounts := accounts[user := Account(email, false)];
      o := Done;
    }

    method Dispatch(op: Op) returns (o: Outcome)
      modifies `accounts, `tenants
      ensures var a := Try(old(Tables()), clock, op);
              o == a.outcome && (o == Done ==> Tables() == a.db)
    {
      match op
      case Register(user, email) =>
        if user in accounts {
          o := EmailTaken;
        } else {
          o := SetAddress(user, email);
        }
      case ChangeEmail(user, email) =>
        if user !in accounts || !accounts[user].verified {
          o := EmailNotVerified;
        } else if accounts[user].email == email {
          o := Done;
        } else {
          o := SetAddress(user, email);
        }
      case VerifyEmail(user) => o := VerifyEmail(user);
      case CreateWorkspace(user, id, baseSlug, hasFreePlan) => o := CreateWorkspace(user, id, baseSlug, hasFreePlan);
      case AcceptInvitation(user, token) =>
        if user !in accounts || !accounts[user].verified {
          o := EmailNotVerified;
        } else {
          o := AcceptInvitation(user, token);
        }
      case InTenant(id, actor, inner) =>
        if id in tenants {
          o := Route(id, actor, inner);
        } else {
          o := TenantNotFound;
        }
    }

    method Act(rq: Request, ghost a: Attempt) returns (o: Outcome)
      requires a == Try(Tables(), clock + rq.delay, rq.op)
      modifies this
      ensures o == a.outcome && (o == Done ==> Tables() == a.db) && clock == old(clock) + rq.delay
    {
      clock := clock + rq.delay;
      o := Dispatch(rq.op);
    }

    /** The end of a database session: commit on success, else put the rows back. */
    method Close(before: Db, o: Outcome, commits: bool) returns (answer: Outcome)
      modifies `accounts, `tenants
      ensures answer == if o == Done && !commits then ServerError else o
      ensures Tables() == if answer == Done then old(Tables()) else before
    {
      answer := if o == Done && !commits then ServerError else o;
      if answer != Done {
        accounts, tenants := before.accounts, before.tenants;
      }
    }

    /** One request: perform it, then commit the rows or restore them. */
    method Handle(rq: Request) returns (answer: Outcome)
      modifies this
      ensures State() == Step(old(State()), rq) && answer == Answer(old(State()), rq)
    {
      var before := Tables();
      ghost var a := Try(before, clock + rq.delay, rq.op);
      StepOfAttempt(State(), rq, a);
      var o := Act(rq, a);
      answer := Close(before, o, rq.commits);
    }

    static lemma StepOfAttempt(w: World, rq: Request, a: Attempt)
      requires a == Try(w.db, w.now + rq.delay, rq.op)
      ensures Answer(w, rq) == if a.outcome == Done && !rq.commits then ServerError else a.outcome
      ensures Step(w, rq) == World(if Answer(w, rq) == Done then a.db else w.db, w.now + rq.delay)
    {
    }
  }
}
