/** What each Stripe event does to a subscription row, column by column, and what a row says over whole runs. */
module BillingEffects {
  import opened Wrappers
  import opened BillingModel
  import Auth = SessionModel
  import opened WebhookRuns

  // ---- One event ----

  /** The row the event is about: the tenant a checkout names, or the holder of the subscription id. */
  predicate Addresses(p: Payload, t: TenantId, sub: Subscription) {
    match p
    case CheckoutCompleted(metadata, _) => metadata.Named? && metadata.tenant == t
    case SubscriptionUpdated(id, _, _, _) => id.Some? && sub.stripeId == id
    case SubscriptionDeleted(id) => id.Some? && sub.stripeId == id
    case InvoicePaid(id) => id.Some? && sub.stripeId == id
    case PaymentFailed(id) => id.Some? && sub.stripeId == id
    case Unhandled => false
  }

  lemma TargetsAreAddressed(db: Db, p: Payload, t: TenantId)
    ensures t in Targets(db, p) <==> t in db.subs && Addresses(p, t, db.subs[t])
  {
  }

  /** A handler raises on malformed ids, on a checkout of a plan that is not there, and on an ambiguous id. */
  lemma RaisesIff(db: Db, p: Payload)
    ensures Raises(db, p) <==>
      || (p.CheckoutCompleted? && p.metadata == Malformed)
      || (p.CheckoutCompleted? && p.metadata.Named? && p.metadata.tenant in db.subs && p.metadata.plan !in db.plans)
      || (exists t, u :: t in Targets(db, p) && u in Targets(db, p) && t != u)
  {
    if exists t, u :: t in Targets(db, p) && u in Targets(db, p) && t != u {
      var t, u :| t in Targets(db, p) && u in Targets(db, p) && t != u;
      TwoAreMany(Targets(db, p), t, u);
    } else {
      OneAtMost(Targets(db, p));
    }
  }

  lemma TwoAreMany(s: set<TenantId>, t: TenantId, u: TenantId)
    requires t in s && u in s && t != u
    ensures |s| > 1
  {
    assert {t, u} <= s && |{t, u}| == 2;
    assert |s| == |s - {t, u}| + |{t, u}|;
  }

  lemma OneAtMost(s: set<TenantId>)
    requires forall t, u :: t in s && u in s ==> t == u
    ensures |s| <= 1
  {
    if s != {} {
      var t :| t in s;
      assert s == {t};
    }
  }

  /** The status a Stripe status leads to; any other word leaves the row's status. */
  lemma StripeStatusMeans(current: Status)
    ensures SyncedStatus(current, SActive) == Active && SyncedStatus(current, STrialing) == Active
    ensures SyncedStatus(current, SPastDue) == PastDue
    ensures SyncedStatus(current, SCanceled) == Canceled && SyncedStatus(current, SIncompleteExpired) == Canceled
    ensures SyncedStatus(current, SOther) == current
  {
  }

  /** A completed checkout puts the tenant on the plan it bought, active under the named subscription; nothing else. */
  lemma CheckoutIsExact(db: Db, t: TenantId, plan: PlanId, subscription: Option<StripeId>)
    requires t in db.subs
    ensures var row := Effect(db, CheckoutCompleted(Named(t, plan), subscription)).subs[t];
            && row.plan == plan && row.stripeId == subscription && row.status == Active
            && row.periodStart == db.subs[t].periodStart && row.periodEnd == db.subs[t].periodEnd
            && row.tokensUsed == db.subs[t].tokensUsed
  {
  }

  /** An update sets the status, and those period ends it carries; a new start zeroes the usage. */
  lemma UpdateIsExact(db: Db, t: TenantId, id: StripeId, status: StripeStatus, start: Option<int>, end: Option<int>)
    requires t in db.subs && db.subs[t].stripeId == Some(id)
    ensures var was := db.subs[t];
            var row := Effect(db, SubscriptionUpdated(Some(id), status, start, end)).subs[t];
            && row.status == SyncedStatus(was.status, status) && row.plan == was.plan && row.stripeId == was.stripeId
            && row.periodStart == (if start.Some? then start else was.periodStart)
            && row.periodEnd == (if end.Some? then end else was.periodEnd)
            && row.tokensUsed == (if row.periodStart != was.periodStart then 0 else was.tokensUsed)
  {
    assert t in Targets(db, SubscriptionUpdated(Some(id), status, start, end));
  }

  /** Deletion, payment and failure change the status only, in these ways. */
  lemma StatusEventsAreExact(db: Db, t: TenantId, id: StripeId)
    requires t in db.subs && db.subs[t].stripeId == Some(id)
    ensures var was := db.subs[t];
            && Effect(db, SubscriptionDeleted(Some(id))).subs[t] == was.(status := Canceled)
            && Effect(db, PaymentFailed(Some(id))).subs[t] == was.(status := PastDue)
            && Effect(db, InvoicePaid(Some(id))).subs[t]
                 == was.(status := if was.status == PastDue then Active else was.status)
  {
    assert t in Targets(db, SubscriptionDeleted(Some(id)));
  }

  /** Rows an event does not address stay; plans and memberships always do; only a failed payment touches tokens. */
  lemma OthersAreSpared(db: Db, p: Payload, t: TenantId)
    ensures var after := Effect(db, p);
            && after.subs.Keys == db.subs.Keys && after.plans == db.plans && after.members == db.members
            && (t in db.subs && !Addresses(p, t, db.subs[t]) ==> after.subs[t] == db.subs[t])
            && (!p.PaymentFailed? ==>
                  after.auth.tokens == db.auth.tokens && after.auth.sessions == db.auth.sessions)
            && after.auth.users == db.auth.users
  {
  }

  /** A failed payment locks out exactly the members of the tenant that holds the subscription. */
  lemma LockedOutIff(db: Db, p: Payload, user: nat)
    ensures user in LockedOut(db, p) <==>
      p.PaymentFailed?
      && exists t :: t in db.subs && Addresses(p, t, db.subs[t]) && t in db.members && user in db.members[t]
  {
    if user in LockedOut(db, p) {
      var t :| t in Targets(db, p) && t in db.members && user in db.members[t];
      TargetsAreAddressed(db, p, t);
    }
    if p.PaymentFailed?
       && exists t :: t in db.subs && Addresses(p, t, db.subs[t]) && t in db.members && user in db.members[t]
    {
      var t :| t in db.subs && Addresses(p, t, db.subs[t]) && t in db.members && user in db.members[t];
      assert t in Targets(db, p);
    }
  }

  /** An attempt takes effect iff the event is not logged, the attempt survives, and nothing raises. */
  lemma CommitsIff(w: World, d: Delivery)
    ensures Commits(w, d) <==> d.id !in w.events && d.fault == None && !Raises(w.db, d.payload)
    ensures d.id in Attempt(w, d).events <==> d.id in w.events || Commits(w, d)
  {
  }

  /** The JTIs on record in the sessions of the locked-out. */
  ghost predicate OnRecord(db: Db, p: Payload, jti: Auth.Jti) {
    exists s :: s in db.auth.sessions && db.auth.sessions[s].user in LockedOut(db, p) && db.auth.sessions[s].jti == jti
  }

  /**
   An effective attempt blacklists exactly those, an attempt that died before its commit some of them, and a
   redelivery or a handler that raised by itself none; nothing is ever taken off the list.
   */
  lemma BlacklistedIff(w: World, d: Delivery, jti: Auth.Jti)
    ensures jti in Attempt(w, d).blacklist <==>
      || jti in w.blacklist
      || (OnRecord(w.db, d.payload, jti)
          && (Commits(w, d) || (d.id !in w.events && d.fault.Some? && jti in d.fault.value)))
  {
    assert OnRecord(w.db, d.payload, jti) <==> jti in Condemned(w.db, d.payload);
  }

  lemma BootstrapIsExact(w: World, t: TenantId, plan: PlanId)
    ensures var v := Next(w, Bootstrap(t, plan));
            && (t !in w.db.subs && plan in w.db.plans ==>
                  v.db.subs == w.db.subs[t := Subscription(plan, None, Free, None, None, 0)])
            && (t in w.db.subs || plan !in w.db.plans ==> v.db.subs == w.db.subs)
            && v == w.(db := w.db.(subs := v.db.subs))
  {
  }

  // ---- Whole runs ----

  /** The step put tenant `t` on `plan`: a checkout that took effect, or its enrolment. */
  ghost predicate SetsPlan(w: World, s: Step, t: TenantId, plan: PlanId, stripeId: Option<StripeId>) {
    || (s.Deliver? && Commits(w, s.d) && t in w.db.subs
        && s.d.payload == CheckoutCompleted(Named(t, plan), stripeId))
    || (s == Bootstrap(t, plan) && t !in w.db.subs && plan in w.db.plans && stripeId == None)
  }

  /** Some later step of the run does so again. */
  ghost predicate PlanSetAfter(w: World, ss: seq<Step>, k: nat, t: TenantId) {
    exists i, plan, stripeId :: k < i < |ss| && SetsPlan(Run(w, ss[..i]), ss[i], t, plan, stripeId)
  }

  lemma PlanStep(w: World, s: Step, t: TenantId) returns (sets: bool)
    requires t in Next(w, s).db.subs
    ensures var row := Next(w, s).db.subs[t];
            && (sets ==> SetsPlan(w, s, t, row.plan, row.stripeId))
            && (!sets ==> t in w.db.subs && row.plan == w.db.subs[t].plan && row.stripeId == w.db.subs[t].stripeId
                          && forall plan, stripeId :: !SetsPlan(w, s, t, plan, stripeId))
  {
    match s
    case Deliver(d) => sets := Commits(w, d) && d.payload.CheckoutCompleted? && t in Targets(w.db, d.payload);
    case Bootstrap(tenant, plan) => sets := tenant == t && t !in w.db.subs;
    case Use(_, _) => sets := false;
  }

  lemma LastOf(w: World, ss: seq<Step>)
    requires ss != []
    ensures var init := ss[..|ss| - 1];
            && Run(w, ss) == Next(Run(w, init), ss[|ss| - 1])
            && forall i :: 0 <= i <= |init| ==> ss[..i] == init[..i]
  {
    var init := ss[..|ss| - 1];
    var last := ss[|ss| - 1];
    assert ss == init + [last];
    RunSplits(w, init, [last]);
    assert Run(Run(w, init), [last]) == Run(Next(Run(w, init), last), []);
  }

  lemma PlanNotSetAgain(w: World, ss: seq<Step>, k: nat, t: TenantId, v: World, last: Step)
    requires ss != [] && k < |ss| - 1 && !PlanSetAfter(w, ss[..|ss| - 1], k, t)
    requires v == Run(w, ss[..|ss| - 1]) && last == ss[|ss| - 1]
    requires forall plan, stripeId :: !SetsPlan(v, last, t, plan, stripeId)
    ensures !PlanSetAfter(w, ss, k, t)
  {
    var init := ss[..|ss| - 1];
    forall i, plan, stripeId | k < i < |ss| ensures !SetsPlan(Run(w, ss[..i]), ss[i], t, plan, stripeId) {
      if i < |init| {
        assert ss[..i] == init[..i] && ss[i] == init[i];
      }
    }
  }

  /**
   In every run from an empty table, a tenant's plan and subscription id are those of the last checkout for it
   that took effect, or those it was enrolled with when there was none.
   */
  lemma {:induction false} PlanIsLastBought(w: World, ss: seq<Step>, t: TenantId) returns (k: nat)
    requires w.db.subs == map[] && t in Run(w, ss).db.subs
    ensures var row := Run(w, ss).db.subs[t];
            && k < |ss| && SetsPlan(Run(w, ss[..k]), ss[k], t, row.plan, row.stripeId) && !PlanSetAfter(w, ss, k, t)
    decreases |ss|
  {
    LastOf(w, ss);
    var init := ss[..|ss| - 1];
    var sets := PlanStep(Run(w, init), ss[|ss| - 1], t);
    if sets {
      k := |init|;
    } else {
      k := PlanIsLastBought(w, init, t);
      assert ss[..k] == init[..k] && ss[k] == init[k];
      PlanNotSetAgain(w, ss, k, t, Run(w, init), ss[|ss| - 1]);
    }
  }

  /** The step was an update of the subscription of `t` that took effect and carried a period end. */
  ghost predicate SetsEnd(w: World, s: Step, t: TenantId) {
    && s.Deliver? && Commits(w, s.d) && s.d.payload.SubscriptionUpdated? && s.d.payload.periodEnd.Some?
    && t in Targets(w.db, s.d.payload)
  }

  lemma EndStep(w: World, s: Step, t: TenantId)
    requires t in Next(w, s).db.subs
    ensures Next(w, s).db.subs[t].periodEnd
         == if SetsEnd(w, s, t) then s.d.payload.periodEnd
            else if t in w.db.subs then w.db.subs[t].periodEnd else None
  {
  }

  /** The period end is the one the last such update carried; there is none iff there was no such update. */
  lemma {:induction false} PeriodEndIsLastSent(w: World, ss: seq<Step>, t: TenantId) returns (k: nat)
    requires w.db.subs == map[] && t in Run(w, ss).db.subs
    ensures var end := Run(w, ss).db.subs[t].periodEnd;
            && (end.Some? ==> k < |ss| && SetsEnd(Run(w, ss[..k]), ss[k], t) && ss[k].d.payload.periodEnd == end)
            && (forall i :: 0 <= i < |ss| && (end.Some? ==> k < i) ==> !SetsEnd(Run(w, ss[..i]), ss[i], t))
    decreases |ss|
  {
    LastOf(w, ss);
    var init, last := ss[..|ss| - 1], ss[|ss| - 1];
    var v := Run(w, init);
    EndStep(v, last, t);
    k := |init|;
    if !SetsEnd(v, last, t) {
      if t in v.db.subs {
        k := PeriodEndIsLastSent(w, init, t);
      } else {
        NoRowNoEnd(w, init, t);
      }
      forall i | 0 <= i < |ss| && (Run(w, ss).db.subs[t].periodEnd.Some? ==> k < i)
        ensures !SetsEnd(Run(w, ss[..i]), ss[i], t)
      {
        if i < |init| {
          assert ss[..i] == init[..i] && ss[i] == init[i];
        }
      }
      if k < |init| {
        assert ss[..k] == init[..k] && ss[k] == init[k];
      }
    }
  }

  lemma {:induction false} RowsStay(w: World, ss: seq<Step>, t: TenantId)
    requires t in w.db.subs
    ensures t in Run(w, ss).db.subs
    decreases ss
  {
    if ss != [] {
      RowsStay(Next(w, ss[0]), ss[1..], t);
    }
  }

  lemma NoRowNoEnd(w: World, ss: seq<Step>, t: TenantId)
    requires t !in Run(w, ss).db.subs
    ensures forall i :: 0 <= i < |ss| ==> !SetsEnd(Run(w, ss[..i]), ss[i], t)
  {
    forall i | 0 <= i < |ss| ensures !SetsEnd(Run(w, ss[..i]), ss[i], t) {
      if SetsEnd(Run(w, ss[..i]), ss[i], t) {
        assert ss == ss[..i] + ss[i..];
        RunSplits(w, ss[..i], ss[i..]);
        RowsStay(Run(w, ss[..i]), ss[i..], t);
      }
    }
  }
}
