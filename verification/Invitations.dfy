/** The two ways to take up an invitation: exactness of the auto-join, and its agreement with accepting one by one. */
module Invitations {
  import opened Clock
  import opened Wrappers
  import opened TenantModel
  import opened TenantOwnership

  /** Tenants holding an invitation to `email` that nobody has taken up. */
  function PendingFor(db: Db, email: Email): set<TenantId> {
    set t | t in db.tenants && email in db.tenants[t].invitations
            && db.tenants[t].invitations[email].acceptedAt == None
  }

  /** Whether auto-joining makes `user` a member of `t`. */
  ghost predicate Joins(t: Tenant, now: int, user: UserId, email: Email) {
    && email in t.invitations && t.invitations[email].acceptedAt == None && t.invitations[email].expiresAt > now
    && user !in t.members
  }

  /**
   What the auto-join leaves of one tenant: a membership for `user` if and only if there was one or
   the pending, unexpired invitation grants it, with the role, billing access and inviter of that
   invitation, which alone is marked accepted; every other row as it was.
   */
  ghost predicate JoinedExactly(t: Tenant, after: Tenant, now: int, user: UserId, email: Email) {
    && (user in after.members <==> user in t.members || Joins(t, now, user, email))
    && (Joins(t, now, user, email) ==>
          && after.members[user].role == t.invitations[email].role
          && after.members[user].billing == t.invitations[email].billing
          && after.members[user].invitedBy == Some(t.invitations[email].invitedBy))
    && (forall u :: u in t.members ==> u in after.members && after.members[u] == t.members[u])
    && (forall u :: u in after.members && u != user ==> u in t.members)
    && after.invitations.Keys == t.invitations.Keys
    && (forall e :: e in t.invitations ==>
          after.invitations[e] == if Joins(t, now, user, email) && e == email
                                  then t.invitations[e].(acceptedAt := Some(now)) else t.invitations[e])
    && after.transfer == t.transfer && after.slug == t.slug
  }

  ghost predicate AllJoinedExactly(db: Db, after: Db, now: int, user: UserId, email: Email) {
    && after.accounts == db.accounts && after.tenants.Keys == db.tenants.Keys
    && forall id :: id in db.tenants ==> JoinedExactly(db.tenants[id], after.tenants[id], now, user, email)
  }

  /** Those clauses fix the result: the tables satisfy them iff they are what the model prescribes. */
  lemma AutoJoinIsExact(db: Db, after: Db, now: int, user: UserId, email: Email)
    ensures AllJoinedExactly(db, after, now, user, email) <==> after == AutoJoined(db, now, user, email)
  {
    var model := AutoJoined(db, now, user, email);
    forall id | id in db.tenants
      ensures JoinedExactly(db.tenants[id], model.tenants[id], now, user, email)
    {
      assert JoinedExactly(db.tenants[id], model.tenants[id], now, user, email);
    }
    if AllJoinedExactly(db, after, now, user, email) {
      forall id | id in db.tenants
        ensures after.tenants[id] == model.tenants[id]
      {
        ExactlyOneResult(db.tenants[id], after.tenants[id], model.tenants[id], now, user, email);
      }
      assert after.tenants == model.tenants;
    }
  }

  lemma ExactlyOneResult(t: Tenant, a: Tenant, b: Tenant, now: int, user: UserId, email: Email)
    requires JoinedExactly(t, a, now, user, email) && JoinedExactly(t, b, now, user, email)
    ensures a == b
  {
    assert a.members == b.members;
    assert a.invitations == b.invitations;
  }

  // ---- Inviting ----

  /**
   Inviting fails on the unique key exactly when the address belongs to no member and a row for it is
   left that is no longer active; the service itself names only members and active invitations.
   */
  lemma InviteHitsUniqueKeyIff(accounts: map<UserId, Account>, t: Tenant, now: int, actor: UserId,
                               email: Email, role: Role, billing: bool)
    ensures var stale := email in t.invitations
                         && !(t.invitations[email].acceptedAt == None && t.invitations[email].expiresAt > now);
            var c := TryInvite(accounts, t, now, actor, email, role, billing);
            && (c.outcome == ServerError <==> !EmailIsMember(accounts, t, email) && stale)
            && (c.outcome == Done <==> !EmailIsMember(accounts, t, email) && email !in t.invitations)
  {
  }

  /** Two such tenants: an invitation that expired, and one whose taker has left again. */
  lemma StaleAddressCannotBeReinvited()
    ensures var accounts := map[1 := Account(10, true), 2 := Account(20, true)];
            var owner := map[1 := Membership(Owner, true, None)];
            var expired := Tenant("acme", owner, None, map[20 := Invitation(Developer, false, 1, 0, WEEK, None)]);
            var left := Tenant("acme", owner, None, map[20 := Invitation(Developer, false, 1, 0, WEEK, Some(5))]);
            && TryInvite(accounts, expired, WEEK, 1, 20, Viewer, false).outcome == ServerError
            && TryInvite(accounts, left, 6, 1, 20, Viewer, false).outcome == ServerError
  {
  }

  /**
   Accepting one invitation with its own token and auto-joining by it have the same outcome,
   except at the exact expiry instant for a user who is not yet a member.
   */
  lemma AcceptAgreesIff(db: Db, now: int, user: UserId, id: TenantId)
    requires user in db.accounts && id in PendingFor(db, db.accounts[user].email) && Sound(db.tenants[id])
    ensures var email := db.accounts[user].email;
            var t := db.tenants[id];
            var row := t.invitations[email];
            var a := TryAcceptInvitation(db, now, user, TokenOf(email, id, row));
            var agree := a.outcome == Done <==> AutoJoins(t, now, user, email);
            && (agree <==> row.expiresAt != now || user in t.members)
            && (a.outcome == Done ==> a.db.tenants == db.tenants[id := Join(t, now, user, email)])
  {
    var row := db.tenants[id].invitations[db.accounts[user].email];
    if now <= row.expiresAt {
      StampNeverExpiresFirst(row.issuedAt, now);
    }
  }

  /** The age check on the signed token, in whole seconds, never refuses what the row still allows. */
  lemma StampNeverExpiresFirst(issuedAt: int, now: int)
    requires now <= issuedAt + WEEK
    ensures now / SECOND - issuedAt / SECOND <= WEEK / SECOND
  {
    assert (issuedAt + WEEK) / SECOND == issuedAt / SECOND + WEEK / SECOND;
    assert now / SECOND <= (issuedAt + WEEK) / SECOND;
  }

  /** Present the token of the invitation to tenant `id`; a refused one changes nothing. */
  function AcceptOne(db: Db, now: int, user: UserId, email: Email, id: TenantId): Db {
    if id in db.tenants && email in db.tenants[id].invitations then
      var a := TryAcceptInvitation(db, now, user, TokenOf(email, id, db.tenants[id].invitations[email]));
      if a.outcome == Done then a.db else db
    else db
  }

  /** Present the tokens of the listed tenants one after the other. */
  function AcceptEach(db: Db, now: int, user: UserId, email: Email, order: seq<TenantId>): Db
    decreases order
  {
    if order == [] then db else AcceptEach(AcceptOne(db, now, user, email, order[0]), now, user, email, order[1..])
  }

  /** Joined so far: only the tenants in `done` were considered. */
  function PartlyJoined(db: Db, now: int, user: UserId, email: Email, done: set<TenantId>): Db {
    db.(tenants := map t | t in db.tenants ::
      if t in done && AutoJoins(db.tenants[t], now, user, email)
      then Join(db.tenants[t], now, user, email) else db.tenants[t])
  }

  lemma ConsiderOneMore(db: Db, now: int, user: UserId, email: Email, done: set<TenantId>, id: TenantId)
    requires id in db.tenants && id !in done
    ensures var mid := PartlyJoined(db, now, user, email, done);
            && id in mid.tenants && mid.tenants[id] == db.tenants[id]
            && PartlyJoined(db, now, user, email, done + {id})
               == if AutoJoins(db.tenants[id], now, user, email)
                  then mid.(tenants := mid.tenants[id := Join(db.tenants[id], now, user, email)]) else mid
  {
  }

  /** The tenants among `done` whose invitation the auto-join takes up. */
  function JoinedAmong(db: Db, now: int, user: UserId, email: Email, done: set<TenantId>): set<TenantId> {
    set t | t in done && t in db.tenants && AutoJoins(db.tenants[t], now, user, email)
  }

  lemma JoinedOneMore(db: Db, now: int, user: UserId, email: Email, done: set<TenantId>, id: TenantId)
    requires id in db.tenants
    ensures JoinedAmong(db, now, user, email, done + {id})
         == JoinedAmong(db, now, user, email, done) + if AutoJoins(db.tenants[id], now, user, email) then {id} else {}
  {
  }

  lemma ConsiderPending(db: Db, now: int, user: UserId, email: Email)
    ensures PartlyJoined(db, now, user, email, {}) == db
    ensures PartlyJoined(db, now, user, email, PendingFor(db, email)) == AutoJoined(db, now, user, email)
  {
    assert forall t :: t in db.tenants && AutoJoins(db.tenants[t], now, user, email) ==> t in PendingFor(db, email);
  }

  /** The user holds this address, and the invitation to `id` is pending and not expiring right now. */
  ghost predicate Presentable(db: Db, now: int, user: UserId, email: Email, id: TenantId) {
    && user in db.accounts && db.accounts[user].email == email
    && id in PendingFor(db, email) && Sound(db.tenants[id])
    && db.tenants[id].invitations[email].expiresAt != now
  }

  lemma AcceptOneMore(db: Db, now: int, user: UserId, email: Email, done: set<TenantId>, id: TenantId)
    requires Presentable(db, now, user, email, id) && id !in done
    ensures AcceptOne(PartlyJoined(db, now, user, email, done), now, user, email, id)
         == PartlyJoined(db, now, user, email, done + {id})
  {
    var mid := PartlyJoined(db, now, user, email, done);
    ConsiderOneMore(db, now, user, email, done, id);
    assert id in PendingFor(mid, email);
    AcceptAgreesIff(mid, now, user, id);
  }

  ghost predicate NoRepeats(order: seq<TenantId>) {
    forall i, j :: 0 <= i < j < |order| ==> order[i] != order[j]
  }

  lemma HeadApart(order: seq<TenantId>)
    requires order != [] && NoRepeats(order)
    ensures NoRepeats(order[1..]) && order[0] !in order[1..]
    ensures Elements(order) == {order[0]} + Elements(order[1..])
  {
  }

  function Elements(order: seq<TenantId>): set<TenantId> {
    set id | id in order
  }

  lemma {:induction false} AcceptRest(db: Db, now: int, user: UserId, email: Email, done: set<TenantId>,
                                      order: seq<TenantId>, mid: Db)
    requires mid == PartlyJoined(db, now, user, email, done) && NoRepeats(order)
    requires forall id :: id in order ==> Presentable(db, now, user, email, id)
    requires forall id :: id in order ==> id !in done
    ensures AcceptEach(mid, now, user, email, order) == PartlyJoined(db, now, user, email, done + Elements(order))
    decreases order
  {
    if order == [] {
      assert done + Elements(order) == done;
    } else {
      HeadApart(order);
      AcceptOneMore(db, now, user, email, done, order[0]);
      AcceptRest(db, now, user, email, done + {order[0]}, order[1..], AcceptOne(mid, now, user, email, order[0]));
      assert done + {order[0]} + Elements(order[1..]) == done + Elements(order);
    }
  }

  lemma PendingArePresentable(db: Db, now: int, user: UserId, email: Email, order: seq<TenantId>)
    requires user in db.accounts && db.accounts[user].email == email && AllSound(db)
    requires forall id :: id in order ==>
      id in PendingFor(db, email) && db.tenants[id].invitations[email].expiresAt != now
    ensures forall id :: id in order ==> Presentable(db, now, user, email, id)
  {
  }

  /**
   Auto-joining equals accepting all pending invitations one after the other with their tokens, in
   any order, provided none of them expires at this very instant.
   */
  lemma AutoJoinIsIteratedAccept(db: Db, now: int, user: UserId, order: seq<TenantId>)
    requires user in db.accounts && AllSound(db)
    requires forall id :: id in order <==> id in PendingFor(db, db.accounts[user].email)
    requires NoRepeats(order)
    requires forall id :: id in order ==> db.tenants[id].invitations[db.accounts[user].email].expiresAt != now
    ensures AcceptEach(db, now, user, db.accounts[user].email, order)
         == AutoJoined(db, now, user, db.accounts[user].email)
  {
    PendingArePresentable(db, now, user, db.accounts[user].email, order);
    AcceptInOrder(db, now, user, db.accounts[user].email, order);
  }

  lemma OrderCoversPending(order: seq<TenantId>, pending: set<TenantId>)
    requires forall id :: id in order <==> id in pending
    ensures {} + Elements(order) == pending
  {
  }

  lemma AcceptInOrder(db: Db, now: int, user: UserId, email: Email, order: seq<TenantId>)
    requires NoRepeats(order) && forall id :: id in order <==> id in PendingFor(db, email)
    requires forall id :: id in order ==> Presentable(db, now, user, email, id)
    ensures AcceptEach(db, now, user, email, order) == AutoJoined(db, now, user, email)
  {
    ConsiderPending(db, now, user, email);
    AcceptRest(db, now, user, email, {}, order, db);
    OrderCoversPending(order, PendingFor(db, email));
  }
}
