/** The subscription status machine and the usage counter over any sequence of events. */
module SubscriptionLifecycle {
  import opened Wrappers
  import opened BillingModel
  import opened WebhookRuns

  /** The row is free exactly when it has no Stripe subscription. */
  predicate FreeIffUnlinked(sub: Subscription) {
    sub.status == Free <==> sub.stripeId == None
  }

  ghost predicate AllFreeIffUnlinked(db: Db) {
    forall t :: t in db.subs ==> FreeIffUnlinked(db.subs[t])
  }

  /** A completed checkout keeps the link between status and subscription id iff it carries an id. */
  lemma CheckoutKeepsLinkIff(sub: Subscription, p: Payload)
    requires FreeIffUnlinked(sub) && p.CheckoutCompleted? && p.metadata.Named?
    ensures FreeIffUnlinked(Transition(sub, p)) <==> p.subscription.Some?
  {
  }

  /** Stripe sends the new subscription's id with every completed subscription checkout. */
  predicate CarriesId(s: Step) {
    s.Deliver? && s.d.payload.CheckoutCompleted? ==> s.d.payload.subscription.Some?
  }

  lemma StepKeepsLink(w: World, s: Step)
    requires AllFreeIffUnlinked(w.db) && CarriesId(s)
    ensures AllFreeIffUnlinked(Next(w, s).db)
  {
  }

  lemma {:induction false} FreeExactlyWhenUnlinked(w: World, ss: seq<Step>)
    requires AllFreeIffUnlinked(w.db) && forall i :: 0 <= i < |ss| ==> CarriesId(ss[i])
    ensures AllFreeIffUnlinked(Run(w, ss).db)
    decreases ss
  {
    if ss != [] {
      StepKeepsLink(w, ss[0]);
      FreeExactlyWhenUnlinked(Next(w, ss[0]), ss[1..]);
    }
  }

  /** No event, in any run, brings a subscription back to the free status. */
  lemma {:induction false} FreeIsNeverReentered(w: World, ss: seq<Step>, t: TenantId)
    requires t in w.db.subs && w.db.subs[t].status != Free
    ensures t in Run(w, ss).db.subs && Run(w, ss).db.subs[t].status != Free
    decreases ss
  {
    if ss != [] {
      FreeIsNeverReentered(Next(w, ss[0]), ss[1..], t);
    }
  }

  /** The only events that take a canceled subscription out of that status. */
  predicate MayRevive(p: Payload) {
    || (p.CheckoutCompleted? && p.metadata.Named?)
    || (p.SubscriptionUpdated? && p.status in {SActive, STrialing, SPastDue})
    || p.PaymentFailed?
  }

  /** A canceled row leaves that status iff one of those events addresses it; a paid invoice never does it. */
  lemma CanceledLeavesIff(db: Db, p: Payload, t: TenantId)
    requires t in db.subs && db.subs[t].status == Canceled
    ensures Effect(db, p).subs[t].status != Canceled <==> (t in Targets(db, p) && MayRevive(p))
    ensures p.InvoicePaid? ==> Effect(db, p).subs[t] == db.subs[t]
  {
  }

  lemma {:induction false} CanceledStays(w: World, ss: seq<Step>, t: TenantId)
    requires t in w.db.subs && w.db.subs[t].status == Canceled
    requires forall i :: 0 <= i < |ss| && ss[i].Deliver? ==> !MayRevive(ss[i].d.payload)
    ensures t in Run(w, ss).db.subs && Run(w, ss).db.subs[t].status == Canceled
    decreases ss
  {
    if ss != [] {
      if ss[0].Deliver? {
        CanceledLeavesIff(w.db, ss[0].d.payload, t);
      }
      CanceledStays(Next(w, ss[0]), ss[1..], t);
    }
  }

  /** Over several events a paid invoice can follow a failed payment and so end in Active again. */
  lemma FailedPaymentReopensCanceled(db: Db, t: TenantId, id: StripeId)
    requires t in db.subs && db.subs[t].status == Canceled
    requires Targets(db, PaymentFailed(Some(id))) == {t}
    ensures var after := Effect(Effect(db, PaymentFailed(Some(id))), InvoicePaid(Some(id)));
            !Raises(db, PaymentFailed(Some(id))) && after.subs[t].status == Active
  {
    var mid := Effect(db, PaymentFailed(Some(id)));
    assert t in Targets(db, PaymentFailed(Some(id)));
    assert t in Targets(mid, InvoicePaid(Some(id)));
  }

  // ---- Usage ----

  /** The last step created the row or moved its billing period. */
  ghost predicate Rolled(before: Db, after: Db, t: TenantId) {
    t in after.subs && (t !in before.subs || before.subs[t].periodStart != after.subs[t].periodStart)
  }

  /** Usage reported for `t` since its row was created or its period start last changed. */
  ghost function UsageSinceRoll(w: World, ss: seq<Step>, t: TenantId): int
    decreases |ss|
  {
    if ss == [] then 0
    else
      var init := ss[..|ss| - 1];
      var last := ss[|ss| - 1];
      if Rolled(Run(w, init).db, Run(w, ss).db, t) then 0
      else UsageSinceRoll(w, init, t) + (if last.Use? && last.tenant == t then last.amount else 0)
  }

  lemma CounterStep(w: World, s: Step, t: TenantId)
    requires t in Next(w, s).db.subs
    ensures Next(w, s).db.subs[t].tokensUsed
         == if Rolled(w.db, Next(w, s).db, t) then 0
            else w.db.subs[t].tokensUsed + (if s.Use? && s.tenant == t then s.amount else 0)
  {
  }

  /** From an empty table, the counter always equals the usage since the period last moved. */
  lemma {:induction false} CounterIsUsageSinceRoll(w: World, ss: seq<Step>, t: TenantId)
    requires w.db.subs == map[] && t in Run(w, ss).db.subs
    ensures Run(w, ss).db.subs[t].tokensUsed == UsageSinceRoll(w, ss, t)
    decreases |ss|
  {
    var init := ss[..|ss| - 1];
    var last := ss[|ss| - 1];
    assert ss == init + [last];
    RunSplits(w, init, [last]);
    assert Run(Run(w, init), [last]) == Run(Next(Run(w, init), last), []);
    CounterStep(Run(w, init), last, t);
    if t in Run(w, init).db.subs {
      CounterIsUsageSinceRoll(w, init, t);
    }
  }
}
