/**
 The webhook worker as it runs: look the event up in the log, run one handler against mutable
 rows, add the log row and commit, or roll everything back. Redis writes are never rolled back.
 */
module BillingService {
  import opened Wrappers
  import opened BillingModel
  import Auth = SessionModel

  /** Locking out the members after a failed payment is the bulk revocation of the session protocol. */
  lemma PaymentFailedRevokesMembers(db: Db, p: Payload, keys: Auth.Keys, now: int)
    requires p.PaymentFailed?
    ensures var a := Auth.TryRevokeMembers(db.auth, keys, now, LockedOut(db, p));
            Effect(db, p).auth == a.db && a.keys == Auth.Blacklist(keys, Condemned(db, p), now)
  {
  }

  lemma DropsCompose(db: Auth.Db, first: set<Auth.Token>, second: set<Auth.Token>)
    ensures Auth.DropTokens(Auth.DropTokens(db, first), second) == Auth.DropTokens(db, first + second)
  {
  }

  lemma OnlyTarget(targets: set<TenantId>, t: TenantId)
    requires t in targets && |targets| <= 1
    ensures targets == {t}
  {
    assert |targets - {t}| == 0;
  }

  lemma EffectOnOneRow(db: Db, p: Payload, t: TenantId)
    requires Targets(db, p) == {t} && t in db.subs
    ensures Effect(db, p).subs == db.subs[t := Transition(db.subs[t], p)]
  {
  }

  lemma EffectOnNoRow(db: Db, p: Payload)
    requires Targets(db, p) == {}
    ensures Effect(db, p) == db && Condemned(db, p) == {}
  {
    assert MembersOf(db, {}) == {};
    assert Auth.TokensOf(db.auth, {}) == {};
    assert Auth.DropTokens(db.auth, {}) == db.auth;
    assert Auth.SessionsOf(db.auth, {}) == {};
  }

  lemma EffectOnAuth(db: Db, p: Payload)
    requires !p.PaymentFailed?
    ensures Effect(db, p).auth == db.auth && Condemned(db, p) == {}
  {
    assert Auth.TokensOf(db.auth, {}) == {};
    assert Auth.DropTokens(db.auth, {}) == db.auth;
    assert Auth.SessionsOf(db.auth, {}) == {};
  }

  /** What reaches the worker: an event, with the point at which the attempt dies if it does; usage; a new workspace. */
  datatype Job =
    | Process(id: EventId, payload: Payload, dieAfter: Option<nat>)
    | RecordUsage(tenant: TenantId, amount: nat)
    | Subscribe(tenant: TenantId, plan: PlanId)

  ghost predicate Performs(job: Job, s: Step) {
    match job
    case Process(id, p, dieAfter) =>
      s.Deliver? && s.d.id == id && s.d.payload == p && (s.d.fault.None? <==> dieAfter.None?)
    case RecordUsage(tenant, amount) => s == Use(tenant, amount)
    case Subscribe(tenant, plan) => s == Bootstrap(tenant, plan)
  }

  class BillingWorker {
    const plans: set<PlanId>
    const members: map<TenantId, set<Auth.UserId>>
    var subs: map<TenantId, Subscription>
    var auth: Auth.Db
    var events: set<EventId>
    var blacklist: set<Auth.Jti>

    constructor (plans: set<PlanId>, members: map<TenantId, set<Auth.UserId>>, auth: Auth.Db)
      ensures State() == World(Db(plans, map[], members, auth), {}, {})
    {
      this.plans, this.members, this.auth := plans, members, auth;
      subs, events, blacklist := map[], {}, {};
    }

    function Tables(): Db
      reads this
    {
      Db(plans, subs, members, auth)
    }

    function State(): World
      reads this
    {
      World(Tables(), events, blacklist)
    }

    /** One UPDATE of the subscription row, field by field as the handlers assign them. */
    method UpdateRow(t: TenantId, p: Payload)
      requires t in subs
      modifies `subs
      ensures subs == old(subs)[t := Transition(old(subs)[t], p)]
    {
      var sub := subs[t];
      match p {
        case CheckoutCompleted(metadata, subscription) =>
          if metadata.Named? {
            sub := sub.(stripeId := subscription);
            sub := sub.(plan := metadata.plan);
            sub := sub.(status := Active);
          }
        case SubscriptionUpdated(_, status, start, end) =>
          match status {
            case SActive => sub := sub.(status := Active);
            case STrialing => sub := sub.(status := Active);
            case SPastDue => sub := sub.(status := PastDue);
            case SCanceled => sub := sub.(status := Canceled);
            case SIncompleteExpired => sub := sub.(status := Canceled);
            case SOther =>
          }
          if start.Some? {
            if sub.periodStart == None || sub.periodStart != start {
              sub := sub.(tokensUsed := 0);
            }
            sub := sub.(periodStart := start);
          }
          if end.Some? {
            sub := sub.(periodEnd := end);
          }
        case SubscriptionDeleted(_) => sub := sub.(status := Canceled);
        case InvoicePaid(_) =>
          if sub.status == PastDue {
            sub := sub.(status := Active);
          }
        case PaymentFailed(_) => sub := sub.(status := PastDue);
        case Unhandled =>
      }
      subs := subs[t := sub];
    }

    /**
     Blacklist the members' access tokens one by one, then delete their refresh tokens. With
     `dieAfter` set, the attempt dies after that many blacklist writes, or right after the loop.
     */
    method RevokeMembers(users: set<Auth.UserId>, dieAfter: Option<nat>) returns (ok: bool)
      modifies `auth, `blacklist
      ensures ok <==> dieAfter.None?
      ensures var jtis := Auth.JtisOf(old(auth), Auth.SessionsOf(old(auth), users));
              old(blacklist) <= blacklist <= old(blacklist) + jtis && (ok ==> blacklist == old(blacklist) + jtis)
      ensures ok ==> auth == Auth.DropTokens(old(auth), Auth.TokensOf(old(auth), users))
    {
      var jtis := Auth.JtisOf(auth, Auth.SessionsOf(auth, users));
      var rest := jtis;
      var written := 0;
      while rest != {}
        invariant rest <= jtis && auth == old(auth)
        invariant old(blacklist) <= blacklist <= old(blacklist) + jtis
        invariant blacklist + rest == old(blacklist) + jtis
        decreases rest
      {
        if dieAfter == Some(written) {
          return false;
        }
        var jti :| jti in rest;
        blacklist := blacklist + {jti};
        rest := rest - {jti};
        written := written + 1;
      }
      if dieAfter.Some? {
        return false;
      }
      DeleteOneByOne(Auth.TokensOf(auth, users));
      ok := true;
    }

    /** The loop that deletes the loaded refresh tokens; sessions cascade with each. */
    method DeleteOneByOne(doomed: set<Auth.Token>)
      modifies `auth
      ensures auth == Auth.DropTokens(old(auth), doomed)
    {
      var rest := doomed;
      assert auth == Auth.DropTokens(auth, {});
      while rest != {}
        invariant rest <= doomed && auth == Auth.DropTokens(old(auth), doomed - rest)
        decreases rest
      {
        var t :| t in rest;
        DropsCompose(old(auth), doomed - rest, {t});
        assert doomed - (rest - {t}) == doomed - rest + {t};
        auth := Auth.DropTokens(auth, {t});
        rest := rest - {t};
      }
      assert doomed - rest == doomed;
    }

    /** Route one event to its handler; `ok` is false when it raised or died. */
    method RunHandler(p: Payload, dieAfter: Option<nat>) returns (ok: bool)
      modifies `subs, `auth, `blacklist
      ensures ok <==> !Raises(old(Tables()), p) && dieAfter.None?
      ensures ok ==> Tables() == Effect(old(Tables()), p) && blacklist == old(blacklist) + Condemned(old(Tables()), p)
      ensures old(blacklist) <= blacklist <= old(blacklist) + Condemned(old(Tables()), p)
      ensures dieAfter.None? && !ok ==> blacklist == old(blacklist)
    {
      ghost var before := Tables();
      if p.CheckoutCompleted? && p.metadata.Malformed? {
        return false;
      }
      var targets := Targets(Tables(), p);
      if |targets| > 1 {
        return false;
      }
      if targets == {} {
        EffectOnNoRow(before, p);
        return dieAfter.None?;
      }
      var t :| t in targets;
      OnlyTarget(targets, t);
      EffectOnOneRow(before, p, t);
      UpdateRow(t, p);
      if p.PaymentFailed? {
        ok := RevokeMembers(MembersOf(Tables(), {t}), dieAfter);
      } else {
        EffectOnAuth(before, p);
        // the foreign key to the plan is checked at the latest when the transaction commits
        ok := dieAfter.None? && !(p.CheckoutCompleted? && p.metadata.plan !in plans);
      }
    }

    /** A new workspace starts on the free plan, unless that plan or the row's key is unavailable. */
    method BootstrapFreeSubscription(t: TenantId, plan: PlanId) returns (ok: bool)
      modifies `subs
      ensures State() == Next(old(State()), Bootstrap(t, plan))
      ensures ok <==> t !in old(subs) && plan in plans
    {
      ok := t !in subs && plan in plans;
      if ok {
        subs := subs[t := Subscription(plan, None, Free, None, None, 0)];
      }
    }

    /** The attempt it made is `d`: the fault, if any, names what had been blacklisted by then. */
    method ProcessStripeEvent(id: EventId, p: Payload, dieAfter: Option<nat>) returns (ghost d: Delivery)
      modifies this
      ensures d.id == id && d.payload == p && (d.fault.None? <==> dieAfter.None?)
      ensures State() == Attempt(old(State()), d)
    {
      d := Delivery(id, p, if dieAfter.None? then None else Some({}));
      if id in events {
        return;
      }
      var savedSubs, savedAuth := subs, auth;
      ghost var was := blacklist;
      var ok := RunHandler(p, dieAfter);
      if ok {
        events := events + {id};
      } else {
        subs, auth := savedSubs, savedAuth;
        if dieAfter.Some? {
          d := Delivery(id, p, Some(blacklist * Condemned(old(Tables()), p)));
          assert blacklist == was + (blacklist * Condemned(old(Tables()), p));
        }
      }
    }

    method RecordUse(t: TenantId, amount: nat)
      modifies `subs
      ensures State() == Next(old(State()), Use(t, amount))
    {
      if t in subs {
        subs := subs[t := subs[t].(tokensUsed := subs[t].tokensUsed + amount)];
      }
    }

    /** One job is one step of the billing model, so what holds of all runs holds of the worker. */
    method Handle(job: Job) returns (ghost s: Step)
      modifies this
      ensures Performs(job, s) && State() == Next(old(State()), s)
    {
      match job
      case Process(id, p, dieAfter) =>
        ghost var d := ProcessStripeEvent(id, p, dieAfter);
        s := Deliver(d);
      case RecordUsage(tenant, amount) =>
        RecordUse(tenant, amount);
        s := Use(tenant, amount);
      case Subscribe(tenant, plan) =>
        var _ := BootstrapFreeSubscription(tenant, plan);
        s := Bootstrap(tenant, plan);
    }
  }
}
