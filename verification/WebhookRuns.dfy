/** Exactly-once effects of at-least-once deliveries. */
module WebhookRuns {
  import opened Wrappers
  import opened BillingModel

  /** A step that changes the tables on purpose: any step but a duplicate or an attempt that did not commit. */
  predicate TakesEffect(w: World, s: Step) {
    s.Deliver? ==> Commits(w, s.d)
  }

  /** The steps of the run that took effect, in order. */
  function Effective(w: World, ss: seq<Step>): seq<Step>
    decreases ss
  {
    if ss == [] then []
    else (if TakesEffect(w, ss[0]) then [ss[0]] else []) + Effective(Next(w, ss[0]), ss[1..])
  }

  /** The reference: apply each step once, knowing nothing of event ids, faults or a log. */
  function Replay(db: Db, ss: seq<Step>): Db
    decreases ss
  {
    if ss == [] then db
    else
      var db' := match ss[0]
        case Deliver(d) => Effect(db, d.payload)
        case Use(tenant, amount) => Consume(db, tenant, amount)
        case Bootstrap(tenant, plan) => Enrol(db, tenant, plan);
      Replay(db', ss[1..])
  }

  function EventIds(ss: seq<Step>): set<EventId> {
    set i | 0 <= i < |ss| && ss[i].Deliver? :: ss[i].d.id
  }

  /** No two of these deliveries carry the same event id. */
  ghost predicate DistinctEvents(ss: seq<Step>) {
    forall i, j :: 0 <= i < j < |ss| && ss[i].Deliver? && ss[j].Deliver? ==> ss[i].d.id != ss[j].d.id
  }

  lemma PrependEvent(s: Step, ss: seq<Step>)
    ensures EventIds([s] + ss) == (if s.Deliver? then {s.d.id} else {}) + EventIds(ss)
    ensures DistinctEvents(ss) && (s.Deliver? ==> s.d.id !in EventIds(ss)) ==> DistinctEvents([s] + ss)
  {
    var all := [s] + ss;
    assert all[0] == s && all[1..] == ss;
    assert forall i :: 0 <= i < |ss| ==> all[i + 1] == ss[i];
    forall id | id in EventIds(ss) ensures id in EventIds(all) {
      var i :| 0 <= i < |ss| && ss[i].Deliver? && ss[i].d.id == id;
      assert all[i + 1].d.id == id;
    }
    if s.Deliver? {
      assert all[0].d.id in EventIds(all);
    }
    if DistinctEvents(ss) && (s.Deliver? ==> s.d.id !in EventIds(ss)) {
      forall i, j | 0 <= i < j < |all| && all[i].Deliver? && all[j].Deliver? ensures all[i].d.id != all[j].d.id {
        if i == 0 {
          assert ss[j - 1].d.id in EventIds(ss);
        } else {
          assert all[i] == ss[i - 1] && all[j] == ss[j - 1];
        }
      }
    }
  }

  /**
   For every list of deliveries, with duplicates and with attempts that die or raise, mixed with
   other steps: the final tables are the plain replay of the steps that took effect, those carry
   pairwise distinct event ids, the log gained exactly those ids, and the blacklist only grew.
   */
  lemma {:induction false} ExactlyOnce(w: World, ss: seq<Step>)
    ensures var done := Effective(w, ss);
            && Run(w, ss).db == Replay(w.db, done)
            && DistinctEvents(done) && EventIds(done) !! w.events
            && Run(w, ss).events == w.events + EventIds(done)
            && w.blacklist <= Run(w, ss).blacklist
    decreases ss
  {
    if ss != [] {
      var rest := Effective(Next(w, ss[0]), ss[1..]);
      ExactlyOnce(Next(w, ss[0]), ss[1..]);
      if TakesEffect(w, ss[0]) {
        PrependEvent(ss[0], rest);
        assert ([ss[0]] + rest)[1..] == rest;
      } else {
        assert Effective(w, ss) == [] + rest == rest;
      }
    }
  }

  lemma {:induction false} RunSplits(w: World, a: seq<Step>, b: seq<Step>)
    ensures Run(w, a + b) == Run(Run(w, a), b)
    decreases a
  {
    if a == [] {
      assert a + b == b;
    } else {
      assert (a + b)[0] == a[0] && (a + b)[1..] == a[1..] + b;
      RunSplits(Next(w, a[0]), a[1..], b);
    }
  }

  /** The tables and the log do not depend on what is blacklisted. */
  lemma {:induction false} BlacklistIsNotRead(w: World, v: World, ss: seq<Step>)
    requires w.db == v.db && w.events == v.events && w.blacklist <= v.blacklist
    ensures Run(w, ss).db == Run(v, ss).db && Run(w, ss).events == Run(v, ss).events
    ensures Run(w, ss).blacklist <= Run(v, ss).blacklist
    decreases ss
  {
    if ss != [] {
      BlacklistIsNotRead(Next(w, ss[0]), Next(v, ss[0]), ss[1..]);
    }
  }

  /** Striking out a redelivery of a logged event, anywhere in a run, changes nothing at all. */
  lemma RedeliveryIsInvisible(w: World, a: seq<Step>, d: Delivery, b: seq<Step>)
    requires d.id in Run(w, a).events
    ensures Run(w, a + [Deliver(d)] + b) == Run(w, a + b)
  {
    RunSplits(w, a + [Deliver(d)], b);
    RunSplits(w, a, [Deliver(d)]);
    RunSplits(w, a, b);
    assert Run(Run(w, a), [Deliver(d)]) == Run(Next(Run(w, a), Deliver(d)), []);
  }

  /** Striking out an attempt that did not commit leaves the same tables and log; at most the blacklist shrinks. */
  lemma FailedAttemptLeavesNoRows(w: World, a: seq<Step>, d: Delivery, b: seq<Step>)
    requires !Commits(Run(w, a), d)
    ensures var with := Run(w, a + [Deliver(d)] + b);
            var without := Run(w, a + b);
            with.db == without.db && with.events == without.events && without.blacklist <= with.blacklist
  {
    RunSplits(w, a + [Deliver(d)], b);
    RunSplits(w, a, [Deliver(d)]);
    RunSplits(w, a, b);
    assert Run(Run(w, a), [Deliver(d)]) == Run(Next(Run(w, a), Deliver(d)), []);
    BlacklistIsNotRead(Run(w, a), Next(Run(w, a), Deliver(d)), b);
  }
}
