/**
 Stripe event processing: at-least-once deliveries, attempts that may die before the commit, an
 event log with a unique id, and the subscription rows the five handlers write.
 */
module BillingModel {
  import opened Wrappers
  import Auth = SessionModel

  type TenantId = nat
  type PlanId = nat
  type StripeId = nat
  type EventId = nat

  datatype Status = Free | Active | PastDue | Canceled

  datatype Subscription = Subscription(
    plan: PlanId,
    stripeId: Option<StripeId>,
    status: Status,
    periodStart: Option<int>,
    periodEnd: Option<int>,
    tokensUsed: int)

  datatype Db = Db(
    plans: set<PlanId>,
    subs: map<TenantId, Subscription>,
    members: map<TenantId, set<Auth.UserId>>,
    auth: Auth.Db)

  /** The tenant and plan ids in a checkout's metadata: absent, not a UUID, or well formed. */
  datatype Metadata = Missing | Malformed | Named(tenant: TenantId, plan: PlanId)

  datatype StripeStatus = SActive | STrialing | SPastDue | SCanceled | SIncompleteExpired | SOther

  datatype Payload =
    | CheckoutCompleted(metadata: Metadata, subscription: Option<StripeId>)
    | SubscriptionUpdated(id: Option<StripeId>, status: StripeStatus, periodStart: Option<int>, periodEnd: Option<int>)
    | SubscriptionDeleted(id: Option<StripeId>)
    | InvoicePaid(subscription: Option<StripeId>)
    | PaymentFailed(subscription: Option<StripeId>)
    | Unhandled

  // ---- What one event does to one row ----

  function SyncedStatus(current: Status, s: StripeStatus): Status {
    match s
    case SActive => Active
    case STrialing => Active
    case SPastDue => PastDue
    case SCanceled => Canceled
    case SIncompleteExpired => Canceled
    case SOther => current
  }

  function Transition(sub: Subscription, p: Payload): Subscription {
    match p
    case CheckoutCompleted(metadata, subscription) =>
      if metadata.Named? then sub.(stripeId := subscription, plan := metadata.plan, status := Active) else sub
    case SubscriptionUpdated(_, status, start, end) =>
      sub.(status := SyncedStatus(sub.status, status),
           tokensUsed := if start.Some? && sub.periodStart != start then 0 else sub.tokensUsed,
           periodStart := if start.Some? then start else sub.periodStart,
           periodEnd := if end.Some? then end else sub.periodEnd)
    case SubscriptionDeleted(_) => sub.(status := Canceled)
    case InvoicePaid(_) => if sub.status == PastDue then sub.(status := Active) else sub
    case PaymentFailed(_) => sub.(status := PastDue)
    case Unhandled => sub
  }

  /** The subscription id a handler looks its row up by. */
  function LookupId(p: Payload): Option<StripeId> {
    match p
    case SubscriptionUpdated(id, _, _, _) => id
    case SubscriptionDeleted(id) => id
    case InvoicePaid(subscription) => subscription
    case PaymentFailed(subscription) => subscription
    case _ => None
  }

  /** The rows an event is about. */
  function Targets(db: Db, p: Payload): set<TenantId> {
    if p.CheckoutCompleted? then
      if p.metadata.Named? && p.metadata.tenant in db.subs then {p.metadata.tenant} else {}
    else if LookupId(p).None? then {}
    else set t | t in db.subs && db.subs[t].stripeId == LookupId(p)
  }

  /** Malformed ids, an unknown plan, and a subscription id held by two tenants make the handler raise. */
  predicate Raises(db: Db, p: Payload) {
    || (p.CheckoutCompleted? && p.metadata.Malformed?)
    || (p.CheckoutCompleted? && Targets(db, p) != {} && p.metadata.plan !in db.plans)
    || |Targets(db, p)| > 1
  }

  function MembersOf(db: Db, tenants: set<TenantId>): set<Auth.UserId> {
    set t, u | t in tenants && t in db.members && u in db.members[t] :: u
  }

  /** The accounts an event locks out: members of the tenant whose payment failed. */
  function LockedOut(db: Db, p: Payload): set<Auth.UserId> {
    if p.PaymentFailed? then MembersOf(db, Targets(db, p)) else {}
  }

  function Condemned(db: Db, p: Payload): set<Auth.Jti> {
    Auth.JtisOf(db.auth, Auth.SessionsOf(db.auth, LockedOut(db, p)))
  }

  /** The tables after a handler that did not raise. */
  function Effect(db: Db, p: Payload): Db {
    db.(subs := map t | t in db.subs :: if t in Targets(db, p) then Transition(db.subs[t], p) else db.subs[t],
        auth := Auth.DropTokens(db.auth, Auth.TokensOf(db.auth, LockedOut(db, p))))
  }

  // ---- Deliveries and other steps ----

  /** One processing attempt. `fault` is set when it died before the commit, having blacklisted some tokens. */
  datatype Delivery = Delivery(id: EventId, payload: Payload, fault: Option<set<Auth.Jti>>)

  datatype Step =
    | Deliver(d: Delivery)
    | Use(tenant: TenantId, amount: nat)
    | Bootstrap(tenant: TenantId, plan: PlanId)

  datatype World = World(db: Db, events: set<EventId>, blacklist: set<Auth.Jti>)

  predicate Commits(w: World, d: Delivery) {
    d.id !in w.events && d.fault.None? && !Raises(w.db, d.payload)
  }

  function Attempt(w: World, d: Delivery): World {
    if d.id in w.events then w
    else if Commits(w, d) then
      World(Effect(w.db, d.payload), w.events + {d.id}, w.blacklist + Condemned(w.db, d.payload))
    else if d.fault.Some? then
      w.(blacklist := w.blacklist + (d.fault.value * Condemned(w.db, d.payload)))
    else w
  }

  function Consume(db: Db, tenant: TenantId, amount: nat): Db {
    if tenant !in db.subs then db
    else db.(subs := db.subs[tenant := db.subs[tenant].(tokensUsed := db.subs[tenant].tokensUsed + amount)])
  }

  function NewSubscription(plan: PlanId): Subscription {
    Subscription(plan, None, Free, None, None, 0)
  }

  function Enrol(db: Db, tenant: TenantId, plan: PlanId): Db {
    if tenant in db.subs || plan !in db.plans then db
    else db.(subs := db.subs[tenant := NewSubscription(plan)])
  }

  function Next(w: World, s: Step): World {
    match s
    case Deliver(d) => Attempt(w, d)
    case Use(tenant, amount) => w.(db := Consume(w.db, tenant, amount))
    case Bootstrap(tenant, plan) => w.(db := Enrol(w.db, tenant, plan))
  }

  function Run(w: World, ss: seq<Step>): World
    decreases ss
  {
    if ss == [] then w else Run(Next(w, ss[0]), ss[1..])
  }
}
