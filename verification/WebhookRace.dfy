/** Several workers may hold the same event at once: check, compute and commit as separate steps. */
module WebhookRace {
  import opened Wrappers
  import opened BillingModel
  import Auth = SessionModel

  type WorkerId = nat

  /** An UPDATE statement of one subscription row: it names only the columns whose value the handler changed. */
  datatype Update = Update(
    plan: Option<PlanId>,
    stripeId: Option<Option<StripeId>>,
    status: Option<Status>,
    periodStart: Option<Option<int>>,
    periodEnd: Option<Option<int>>,
    tokensUsed: Option<int>)

  function Column<T(==)>(was: T, now: T): Option<T> {
    if was == now then None else Some(now)
  }

  function Updated<T>(current: T, column: Option<T>): T {
    if column.Some? then column.value else current
  }

  function Changes(was: Subscription, now: Subscription): Update {
    Update(Column(was.plan, now.plan), Column(was.stripeId, now.stripeId), Column(was.status, now.status),
           Column(was.periodStart, now.periodStart), Column(was.periodEnd, now.periodEnd),
           Column(was.tokensUsed, now.tokensUsed))
  }

  function Patched(current: Subscription, u: Update): Subscription {
    Subscription(Updated(current.plan, u.plan), Updated(current.stripeId, u.stripeId),
                 Updated(current.status, u.status), Updated(current.periodStart, u.periodStart),
                 Updated(current.periodEnd, u.periodEnd), Updated(current.tokensUsed, u.tokensUsed))
  }

  /** What one attempt is going to write, computed from the tables as it read them. */
  datatype Writes = Writes(rows: map<TenantId, Update>, drop: set<Auth.Token>)

  datatype Phase =
    | Idle
    | Checked(id: EventId, payload: Payload)
    | Ready(id: EventId, writes: Writes)

  datatype Shared = Shared(db: Db, events: set<EventId>, workers: map<WorkerId, Phase>, commits: seq<EventId>)

  datatype Move =
    | Check(worker: WorkerId, id: EventId, payload: Payload)
    | Compute(worker: WorkerId)
    | Commit(worker: WorkerId)
    | Crash(worker: WorkerId)

  function PhaseOf(s: Shared, worker: WorkerId): Phase {
    if worker in s.workers then s.workers[worker] else Idle
  }

  function WritesFor(db: Db, p: Payload): Writes {
    Writes(map t | t in db.subs && t in Targets(db, p) :: Changes(db.subs[t], Transition(db.subs[t], p)),
           Auth.TokensOf(db.auth, LockedOut(db, p)))
  }

  /** The statements of a commit, against the tables as they are by then. */
  function Write(db: Db, writes: Writes): Db {
    db.(subs := map t | t in db.subs :: if t in writes.rows then Patched(db.subs[t], writes.rows[t]) else db.subs[t],
        auth := Auth.DropTokens(db.auth, writes.drop))
  }

  /** The commit inserts the log row in the same transaction; a duplicate id makes all of it roll back. */
  predicate EffectiveCommit(s: Shared, m: Move) {
    m.Commit? && PhaseOf(s, m.worker).Ready? && PhaseOf(s, m.worker).id !in s.events
  }

  function Next(s: Shared, m: Move): Shared {
    match m
    case Check(worker, id, payload) =>
      s.(workers := s.workers[worker := if id in s.events then Idle else Checked(id, payload)])
    case Compute(worker) =>
      var phase := PhaseOf(s, worker);
      if phase.Checked? && !Raises(s.db, phase.payload)
      then s.(workers := s.workers[worker := Ready(phase.id, WritesFor(s.db, phase.payload))])
      else s.(workers := s.workers[worker := Idle])
    case Commit(worker) =>
      if EffectiveCommit(s, m) then
        var phase := PhaseOf(s, worker);
        Shared(Write(s.db, phase.writes), s.events + {phase.id}, s.workers[worker := Idle], s.commits + [phase.id])
      else s.(workers := s.workers[worker := Idle])
    case Crash(worker) => s.(workers := s.workers[worker := Idle])
  }

  function Run(s: Shared, ms: seq<Move>): Shared
    decreases ms
  {
    if ms == [] then s else Run(Next(s, ms[0]), ms[1..])
  }

  ghost predicate NoRepeats(ids: seq<EventId>) {
    forall i, j :: 0 <= i < j < |ids| ==> ids[i] != ids[j]
  }

  /** The log is the events logged at the start plus the commits since, none twice. */
  ghost predicate LogMatches(s: Shared, start: set<EventId>) {
    NoRepeats(s.commits) && (forall e :: e in s.commits ==> e !in start) && s.events == start + set e | e in s.commits
  }

  lemma {:induction false} LogMatchesInEveryRun(s: Shared, ms: seq<Move>, start: set<EventId>)
    requires LogMatches(s, start)
    ensures LogMatches(Run(s, ms), start)
    ensures s.events <= Run(s, ms).events
    decreases ms
  {
    if ms != [] {
      var n := Next(s, ms[0]);
      if EffectiveCommit(s, ms[0]) {
        var id := PhaseOf(s, ms[0].worker).id;
        assert id !in s.commits && n.commits == s.commits + [id];
      }
      LogMatchesInEveryRun(n, ms[1..], start);
    }
  }

  /** Only an effective commit touches the tables or the log. */
  lemma TablesChangeOnlyAtCommit(s: Shared, m: Move)
    requires !EffectiveCommit(s, m)
    ensures Next(s, m).db == s.db && Next(s, m).events == s.events && Next(s, m).commits == s.commits
  {
  }

  lemma {:induction false} RunSplits(s: Shared, a: seq<Move>, b: seq<Move>)
    ensures Run(s, a + b) == Run(Run(s, a), b)
    decreases a
  {
    if a == [] {
      assert a + b == b;
    } else {
      assert (a + b)[0] == a[0] && (a + b)[1..] == a[1..] + b;
      RunSplits(Next(s, a[0]), a[1..], b);
    }
  }

  lemma {:induction false} LogOnlyGrows(s: Shared, ms: seq<Move>)
    ensures s.events <= Run(s, ms).events
    decreases ms
  {
    if ms != [] {
      LogOnlyGrows(Next(s, ms[0]), ms[1..]);
    }
  }

  /** Under any interleaving, two commits that touch the tables belong to different Stripe events. */
  lemma CommitsAtMostOnce(s: Shared, ms: seq<Move>, i: nat, j: nat)
    requires i < j < |ms|
    requires EffectiveCommit(Run(s, ms[..i]), ms[i]) && EffectiveCommit(Run(s, ms[..j]), ms[j])
    ensures PhaseOf(Run(s, ms[..i]), ms[i].worker).id != PhaseOf(Run(s, ms[..j]), ms[j].worker).id
  {
    var rest := ms[i..j];
    assert ms[..j] == ms[..i] + rest;
    RunSplits(s, ms[..i], rest);
    assert rest[0] == ms[i];
    var n := Next(Run(s, ms[..i]), ms[i]);
    assert PhaseOf(Run(s, ms[..i]), ms[i].worker).id in n.events;
    LogOnlyGrows(n, rest[1..]);
  }

  // ---- Effects ----

  /** The effective commits of a run, in order: event and writes. */
  datatype Committed = Committed(id: EventId, writes: Writes)

  function CommitsOf(s: Shared, ms: seq<Move>): seq<Committed>
    decreases ms
  {
    if ms == [] then []
    else
      var rest := CommitsOf(Next(s, ms[0]), ms[1..]);
      if EffectiveCommit(s, ms[0])
      then [Committed(PhaseOf(s, ms[0].worker).id, PhaseOf(s, ms[0].worker).writes)] + rest else rest
  }

  function Ids(cs: seq<Committed>): seq<EventId> {
    seq(|cs|, i requires 0 <= i < |cs| => cs[i].id)
  }

  /** The reference: the writes of each commit, once. */
  function ApplyAll(db: Db, cs: seq<Committed>): Db
    decreases cs
  {
    if cs == [] then db else ApplyAll(Write(db, cs[0].writes), cs[1..])
  }

  /**
   Under any interleaving of any number of workers the tables are what the effective commits wrote,
   one after the other and nothing else, and no Stripe event is among them twice. Where those writes
   come from is the subject of CommitWasComputed.
   */
  lemma {:induction false} EachEventTakesEffectOnce(s: Shared, ms: seq<Move>, start: set<EventId>)
    requires LogMatches(s, start)
    ensures Run(s, ms).db == ApplyAll(s.db, CommitsOf(s, ms))
    ensures Run(s, ms).commits == s.commits + Ids(CommitsOf(s, ms)) && NoRepeats(Run(s, ms).commits)
    ensures forall e :: e in Ids(CommitsOf(s, ms)) ==> e !in start
    decreases ms
  {
    LogMatchesInEveryRun(s, ms, start);
    if ms != [] {
      var n := Next(s, ms[0]);
      LogMatchesInEveryRun(s, [ms[0]], start);
      assert Run(s, [ms[0]]) == Run(n, []);
      EachEventTakesEffectOnce(n, ms[1..], start);
      var rest := CommitsOf(n, ms[1..]);
      if EffectiveCommit(s, ms[0]) {
        IdsOfCons(Committed(PhaseOf(s, ms[0].worker).id, PhaseOf(s, ms[0].worker).writes), rest);
      } else {
        TablesChangeOnlyAtCommit(s, ms[0]);
      }
    } else {
      assert Ids([]) == [];
    }
  }

  lemma IdsOfCons(c: Committed, rest: seq<Committed>)
    ensures Ids([c] + rest) == [c.id] + Ids(rest) && ([c] + rest)[1..] == rest
  {
  }

  // ---- Where the writes come from ----

  /** The run without its last move, and that move. */
  lemma LastOf(s: Shared, ms: seq<Move>)
    requires ms != []
    ensures var init := ms[..|ms| - 1];
            && Run(s, ms) == Next(Run(s, init), ms[|ms| - 1])
            && forall i :: 0 <= i <= |init| ==> ms[..i] == init[..i]
  {
    var init := ms[..|ms| - 1];
    var last := ms[|ms| - 1];
    assert ms == init + [last];
    RunSplits(s, init, [last]);
    assert Run(Run(s, init), [last]) == Run(Next(Run(s, init), last), []);
  }

  /** Move `c` of the run was a check by `worker` that did not find the event in the log. */
  ghost predicate ChecksAt(s: Shared, ms: seq<Move>, c: nat, worker: WorkerId, id: EventId, p: Payload) {
    c < |ms| && ms[c] == Check(worker, id, p) && id !in Run(s, ms[..c]).events
  }

  /** Move `k` of the run was the computation of `writes` by `worker` for that event, from the tables of that moment. */
  ghost predicate ComputesAt(s: Shared, ms: seq<Move>, k: nat, worker: WorkerId, p: Payload, writes: Writes) {
    && k < |ms| && ms[k] == Compute(worker)
    && !Raises(Run(s, ms[..k]).db, p) && writes == WritesFor(Run(s, ms[..k]).db, p)
  }

  /** A move gives its own worker a phase and leaves every other worker alone. */
  lemma PhaseStep(s: Shared, m: Move, worker: WorkerId)
    ensures var before, after := PhaseOf(s, worker), PhaseOf(Next(s, m), worker);
            && (m.worker != worker ==> after == before)
            && (m.worker == worker && after.Checked? ==>
                  m == Check(worker, after.id, after.payload) && after.id !in s.events)
            && (m.worker == worker && after.Ready? ==>
                  && m == Compute(worker) && before.Checked? && after.id == before.id
                  && !Raises(s.db, before.payload) && after.writes == WritesFor(s.db, before.payload))
  {
  }

  lemma {:induction false} CheckedWasChecked(s: Shared, ms: seq<Move>, worker: WorkerId) returns (c: nat)
    requires s.workers == map[] && PhaseOf(Run(s, ms), worker).Checked?
    ensures var phase := PhaseOf(Run(s, ms), worker);
            ChecksAt(s, ms, c, worker, phase.id, phase.payload)
    decreases |ms|
  {
    LastOf(s, ms);
    var init, last := ms[..|ms| - 1], ms[|ms| - 1];
    PhaseStep(Run(s, init), last, worker);
    if last.worker == worker {
      c := |init|;
    } else {
      c := CheckedWasChecked(s, init, worker);
    }
  }

  lemma {:induction false} ReadyWasComputed(s: Shared, ms: seq<Move>, worker: WorkerId)
    returns (c: nat, k: nat, p: Payload)
    requires s.workers == map[] && PhaseOf(Run(s, ms), worker).Ready?
    ensures var phase := PhaseOf(Run(s, ms), worker);
            c < k && ChecksAt(s, ms, c, worker, phase.id, p) && ComputesAt(s, ms, k, worker, p, phase.writes)
    decreases |ms|
  {
    LastOf(s, ms);
    var init, last := ms[..|ms| - 1], ms[|ms| - 1];
    PhaseStep(Run(s, init), last, worker);
    if last.worker == worker {
      c := CheckedWasChecked(s, init, worker);
      k, p := |init|, PhaseOf(Run(s, init), worker).payload;
    } else {
      c, k, p := ReadyWasComputed(s, init, worker);
    }
  }

  /**
   In every run that starts with all workers idle, an effective commit writes what the handler of
   its own event computed: its worker checked the event while it was not in the log, then computed
   exactly these writes from the tables of that later moment, without raising.
   */
  lemma CommitWasComputed(s: Shared, ms: seq<Move>, j: nat) returns (c: nat, k: nat, p: Payload)
    requires s.workers == map[] && j < |ms| && EffectiveCommit(Run(s, ms[..j]), ms[j])
    ensures var phase := PhaseOf(Run(s, ms[..j]), ms[j].worker);
            && c < k < j && ChecksAt(s, ms, c, ms[j].worker, phase.id, p)
            && ComputesAt(s, ms, k, ms[j].worker, p, phase.writes)
            && Run(s, ms[..j + 1]).db == Write(Run(s, ms[..j]).db, WritesFor(Run(s, ms[..k]).db, p))
  {
    c, k, p := ReadyWasComputed(s, ms[..j], ms[j].worker);
    assert ms[..j][..c] == ms[..c] && ms[..j][..k] == ms[..k];
    LastOf(s, ms[..j + 1]);
    assert ms[..j + 1][..j] == ms[..j];
  }

  // ---- When a commit has the effect of its handler ----

  lemma ChangesCarryOver(was: Subscription, now: Subscription)
    ensures Patched(was, Changes(was, now)) == now
  {
  }

  /** What the handler read is still so: its rows, and the tokens of the accounts it locks out. */
  ghost predicate Undisturbed(read: Db, current: Db, p: Payload) {
    && Targets(current, p) == Targets(read, p)
    && (forall t :: t in Targets(read, p) ==> t in read.subs && t in current.subs && current.subs[t] == read.subs[t])
    && Auth.TokensOf(current.auth, LockedOut(current, p)) == Auth.TokensOf(read.auth, LockedOut(read, p))
  }

  /** Then the writes, though computed earlier, do to the current tables what the handler would do now. */
  lemma UndisturbedIsEffect(read: Db, current: Db, p: Payload)
    requires Undisturbed(read, current, p)
    ensures Write(current, WritesFor(read, p)) == Effect(current, p)
  {
    forall t | t in Targets(read, p)
      ensures Patched(current.subs[t], WritesFor(read, p).rows[t]) == Transition(current.subs[t], p)
    {
      ChangesCarryOver(read.subs[t], Transition(read.subs[t], p));
    }
  }

  /** With no effective commit between two moments, the tables are the same. */
  lemma QuietBetween(s: Shared, ms: seq<Move>, k: nat, j: nat)
    requires k <= j <= |ms| && forall i :: k <= i < j ==> !EffectiveCommit(Run(s, ms[..i]), ms[i])
    ensures Run(s, ms[..j]).db == Run(s, ms[..k]).db
    decreases j
  {
    if k < j {
      QuietBetween(s, ms, k, j - 1);
      LastOf(s, ms[..j]);
      assert ms[..j][..j - 1] == ms[..j - 1];
      TablesChangeOnlyAtCommit(Run(s, ms[..j - 1]), ms[j - 1]);
    }
  }

  /**
   An attempt leaves the tables as the handler of its event does, starting from the tables it finds at
   the commit, if they are undisturbed since it computed; as they are when nothing was committed
   in between.
   */
  lemma UndisturbedCommit(s: Shared, ms: seq<Move>, j: nat) returns (c: nat, k: nat, p: Payload)
    requires s.workers == map[] && j < |ms| && EffectiveCommit(Run(s, ms[..j]), ms[j])
    ensures c < k < j && ChecksAt(s, ms, c, ms[j].worker, PhaseOf(Run(s, ms[..j]), ms[j].worker).id, p)
    ensures Undisturbed(Run(s, ms[..k]).db, Run(s, ms[..j]).db, p) ==>
      Run(s, ms[..j + 1]).db == Effect(Run(s, ms[..j]).db, p)
    ensures (forall i :: k <= i < j ==> !EffectiveCommit(Run(s, ms[..i]), ms[i])) ==>
      Undisturbed(Run(s, ms[..k]).db, Run(s, ms[..j]).db, p)
  {
    c, k, p := CommitWasComputed(s, ms, j);
    if Undisturbed(Run(s, ms[..k]).db, Run(s, ms[..j]).db, p) {
      UndisturbedIsEffect(Run(s, ms[..k]).db, Run(s, ms[..j]).db, p);
    }
    if forall i :: k <= i < j ==> !EffectiveCommit(Run(s, ms[..i]), ms[i]) {
      QuietBetween(s, ms, k, j);
      SameIsUndisturbed(Run(s, ms[..k]).db, p);
    }
  }

  lemma SameIsUndisturbed(db: Db, p: Payload)
    ensures Undisturbed(db, db, p)
  {
  }

  /** A check and a computation that find nothing in the way leave the worker with its writes. */
  lemma Prepared(s: Shared, worker: WorkerId, id: EventId, p: Payload)
    requires id !in s.events && !Raises(s.db, p)
    ensures Next(Next(s, Check(worker, id, p)), Compute(worker))
         == s.(workers := s.workers[worker := Ready(id, WritesFor(s.db, p))])
  {
  }

  /** Undivided, the three moves are one attempt of the webhook model that does not die. */
  lemma UndividedAttempt(s: Shared, worker: WorkerId, id: EventId, p: Payload, blacklist: set<Auth.Jti>)
    ensures var after := Run(s, [Check(worker, id, p), Compute(worker), Commit(worker)]);
            var attempt := Attempt(World(s.db, s.events, blacklist), Delivery(id, p, None));
            after.db == attempt.db && after.events == attempt.events
  {
    var check, compute, commit := Check(worker, id, p), Compute(worker), Commit(worker);
    var s1 := Next(s, check);
    var s2 := Next(s1, compute);
    assert [check, compute, commit][1..] == [compute, commit] && [compute, commit][1..] == [commit];
    assert Run(s, [check, compute, commit]) == Run(s1, [compute, commit]) == Run(s2, [commit]);
    assert Run(s2, [commit]) == Run(Next(s2, commit), []);
    UndisturbedIsEffect(s.db, s.db, p);
  }

  /**
   A disturbed one need not: a paid invoice computed against `was` and written onto `now` gives what
   the handler would give iff the status it saw is not out of date in the way that matters.
   */
  lemma StaleInvoiceIff(was: Subscription, now: Subscription, p: Payload)
    requires p.InvoicePaid?
    ensures Patched(now, Changes(was, Transition(was, p))) == Transition(now, p) <==>
      (if was.status == PastDue then now.status in {PastDue, Active} else now.status != PastDue)
  {
  }

  /**
   So two events about one subscription can race a canceled subscription back to Active by a paid
   invoice: the deletion commits after the invoice was computed and before it is written. Neither
   order of the two handlers does that.
   */
  lemma RacingInvoiceRevivesCanceled(db: Db, t: TenantId, id: StripeId)
    requires t in db.subs && db.subs[t].status == PastDue && Targets(db, InvoicePaid(Some(id))) == {t}
    ensures var s := Shared(db, {}, map[], []);
            var paid, deleted := InvoicePaid(Some(id)), SubscriptionDeleted(Some(id));
            var ready := Run(s, [Check(1, 10, paid), Compute(1), Check(2, 20, deleted), Compute(2)]);
            var canceled := Next(ready, Commit(2));
            var revived := Next(canceled, Commit(1));
            && t in canceled.db.subs && canceled.db.subs[t].status == Canceled
            && t in revived.db.subs && revived.db.subs[t].status == Active
    ensures var paid, deleted := InvoicePaid(Some(id)), SubscriptionDeleted(Some(id));
            && t in Effect(Effect(db, paid), deleted).subs && t in Effect(Effect(db, deleted), paid).subs
            && Effect(Effect(db, paid), deleted).subs[t].status == Canceled
            && Effect(Effect(db, deleted), paid).subs[t].status == Canceled
  {
    var paid, deleted := InvoicePaid(Some(id)), SubscriptionDeleted(Some(id));
    assert Targets(db, deleted) == Targets(db, paid);
    TwoReady(db, paid, deleted);
    TwoCommits(db, WritesFor(db, paid), WritesFor(db, deleted));
    RacingCommits(db, t, id);
    EitherOrderCancels(db, t, id);
  }

  lemma EitherOrderCancels(db: Db, t: TenantId, id: StripeId)
    requires t in db.subs && db.subs[t].status == PastDue && Targets(db, InvoicePaid(Some(id))) == {t}
    ensures var paid, deleted := InvoicePaid(Some(id)), SubscriptionDeleted(Some(id));
            && t in Effect(Effect(db, paid), deleted).subs && t in Effect(Effect(db, deleted), paid).subs
            && Effect(Effect(db, paid), deleted).subs[t].status == Canceled
            && Effect(Effect(db, deleted), paid).subs[t].status == Canceled
  {
    var paid, deleted := InvoicePaid(Some(id)), SubscriptionDeleted(Some(id));
    assert t in Targets(db, paid);
    assert db.subs[t].stripeId == Some(id);
    assert t in Targets(Effect(db, paid), deleted);
    assert t in Targets(db, deleted);
  }

  lemma TwoReady(db: Db, p: Payload, q: Payload)
    requires !Raises(db, p) && !Raises(db, q)
    ensures Run(Shared(db, {}, map[], []), [Check(1, 10, p), Compute(1), Check(2, 20, q), Compute(2)])
         == Shared(db, {}, map[1 := Ready(10, WritesFor(db, p)), 2 := Ready(20, WritesFor(db, q))], [])
  {
    var s := Shared(db, {}, map[], []);
    var a, b, c, d := Check(1, 10, p), Compute(1), Check(2, 20, q), Compute(2);
    var s2 := Next(Next(s, a), b);
    Prepared(s, 1, 10, p);
    Prepared(s2, 2, 20, q);
    assert [a, b, c, d][1..] == [b, c, d] && [b, c, d][1..] == [c, d] && [c, d][1..] == [d] && [d][1..] == [];
    assert Run(s, [a, b, c, d]) == Run(Next(s, a), [b, c, d]) == Run(s2, [c, d]);
    assert Run(s2, [c, d]) == Run(Next(s2, c), [d]) == Run(Next(Next(s2, c), d), []);
  }

  lemma TwoCommits(db: Db, a: Writes, b: Writes)
    ensures var ready := Shared(db, {}, map[1 := Ready(10, a), 2 := Ready(20, b)], []);
            var n := Next(ready, Commit(2));
            n.db == Write(db, b) && Next(n, Commit(1)).db == Write(Write(db, b), a)
  {
  }

  lemma RacingCommits(db: Db, t: TenantId, id: StripeId)
    requires t in db.subs && db.subs[t].status == PastDue && Targets(db, InvoicePaid(Some(id))) == {t}
    ensures var paid, deleted := WritesFor(db, InvoicePaid(Some(id))), WritesFor(db, SubscriptionDeleted(Some(id)));
            var first := Write(db, deleted);
            && t in first.subs && first.subs[t].status == Canceled
            && t in Write(first, paid).subs && Write(first, paid).subs[t].status == Active
  {
  }
}
