/**
 The MRR dashboard: headline figures over the active subscriptions and a 30-day trend computed by
 nested loops over a prefiltered query.
 */
module MrrDashboard {
  import opened Clock
  import opened BillingModel

  /** A subscription joined with its plan. Timestamps are microseconds since the epoch. */
  datatype Row = Row(status: Status, createdAt: int, updatedAt: int, fee: int, slug: string)

  datatype Point = Point(day: int, mrrCents: int, activeCount: int)

  datatype Dashboard = Dashboard(
    activeCount: nat,
    mrrCents: int,
    planCounts: map<string, nat>,
    canceled30d: nat,
    churnRate: real,
    trend: seq<Point>)

  /** The date `daysAgo` days before `now`, as a day number. */
  function Day(now: int, daysAgo: int): int {
    (now - daysAgo * DAY) / DAY
  }

  /** The last microsecond of that date. */
  function DayEnd(now: int, daysAgo: int): int {
    Day(now, daysAgo) * DAY + (DAY - 1)
  }

  /** How the trend decides that a subscription was active at the end of a day. */
  predicate ActiveAt(r: Row, end: int) {
    r.createdAt <= end && (r.status == Active || (r.status == Canceled && r.updatedAt > end))
  }

  /** Rows are counted once, or by their monthly fee. */
  function Weight(r: Row, byFee: bool): int {
    if byFee then r.fee else 1
  }

  function TotalAt(rows: seq<Row>, end: int, byFee: bool): int {
    if rows == [] then 0
    else
      var r := rows[|rows| - 1];
      TotalAt(rows[..|rows| - 1], end, byFee) + (if ActiveAt(r, end) then Weight(r, byFee) else 0)
  }

  /** The WHERE clause of the trend query. */
  predicate InQuery(r: Row, now: int) {
    r.status == Active || r.createdAt >= now - 30 * DAY || r.updatedAt >= now - 30 * DAY
  }

  function Query(rows: seq<Row>, now: int): seq<Row> {
    if rows == [] then []
    else
      var r := rows[|rows| - 1];
      Query(rows[..|rows| - 1], now) + (if InQuery(r, now) then [r] else [])
  }

  function ActiveRows(rows: seq<Row>): seq<Row> {
    if rows == [] then []
    else
      var r := rows[|rows| - 1];
      ActiveRows(rows[..|rows| - 1]) + (if r.status == Active then [r] else [])
  }

  function CanceledCount(rows: seq<Row>, since: int): nat {
    if rows == [] then 0
    else
      var r := rows[|rows| - 1];
      CanceledCount(rows[..|rows| - 1], since) + (if r.status == Canceled && r.updatedAt >= since then 1 else 0)
  }

  /** The sum a headline figure reports: every active row, whatever its timestamps. */
  function Headline(rows: seq<Row>, byFee: bool): int {
    if rows == [] then 0
    else
      var r := rows[|rows| - 1];
      Headline(rows[..|rows| - 1], byFee) + (if r.status == Active then Weight(r, byFee) else 0)
  }

  function SlugCount(rows: seq<Row>, slug: string): nat {
    if rows == [] then 0
    else SlugCount(rows[..|rows| - 1], slug) + (if rows[|rows| - 1].slug == slug then 1 else 0)
  }

  function PointAt(rows: seq<Row>, now: int, daysAgo: int): Point {
    Point(Day(now, daysAgo), TotalAt(rows, DayEnd(now, daysAgo), true), TotalAt(rows, DayEnd(now, daysAgo), false))
  }

  // ---- The prefilter loses nothing ----

  lemma DayEndIsLate(now: int, daysAgo: int)
    ensures now - daysAgo * DAY <= DayEnd(now, daysAgo)
    ensures DayEnd(now, daysAgo) < now - daysAgo * DAY + DAY
  {
    var x := now - daysAgo * DAY;
    assert x == x / DAY * DAY + x % DAY;
  }

  /** A row the query leaves out was cancelled before all of the thirty day-ends. */
  lemma LeftOutIsInactive(r: Row, now: int, daysAgo: int)
    requires 0 <= daysAgo <= 29 && !InQuery(r, now)
    ensures !ActiveAt(r, DayEnd(now, daysAgo))
  {
    DayEndIsLate(now, daysAgo);
    assert daysAgo * DAY <= 29 * DAY;
  }

  lemma TotalAppend(rows: seq<Row>, r: Row, end: int, byFee: bool)
    ensures TotalAt(rows + [r], end, byFee)
         == TotalAt(rows, end, byFee) + (if ActiveAt(r, end) then Weight(r, byFee) else 0)
  {
    assert (rows + [r])[..|rows|] == rows;
  }

  /** The trend over the prefiltered rows equals the trend over all subscriptions, for every clock value. */
  lemma {:induction false} PrefilterIsLossless(rows: seq<Row>, now: int, daysAgo: int, byFee: bool)
    requires 0 <= daysAgo <= 29
    ensures TotalAt(Query(rows, now), DayEnd(now, daysAgo), byFee) == TotalAt(rows, DayEnd(now, daysAgo), byFee)
    decreases |rows|
  {
    if rows != [] {
      var init, r := rows[..|rows| - 1], rows[|rows| - 1];
      PrefilterIsLossless(init, now, daysAgo, byFee);
      if InQuery(r, now) {
        TotalAppend(Query(init, now), r, DayEnd(now, daysAgo), byFee);
      } else {
        LeftOutIsInactive(r, now, daysAgo);
        assert Query(rows, now) == Query(init, now) + [] == Query(init, now);
      }
    }
  }

  // ---- Conservation ----

  /** A counted start in (from, to]: the row began then and was not already cancelled by `from`. */
  predicate Starts(r: Row, from: int, to: int) {
    from < r.createdAt <= to && (r.status == Active || (r.status == Canceled && r.updatedAt > from))
  }

  /** A counted cancellation in (from, to] of a row that had begun by `to`. */
  predicate Ends(r: Row, from: int, to: int) {
    r.status == Canceled && from < r.updatedAt <= to && r.createdAt <= to
  }

  function Started(rows: seq<Row>, from: int, to: int, byFee: bool): int {
    if rows == [] then 0
    else
      var r := rows[|rows| - 1];
      Started(rows[..|rows| - 1], from, to, byFee) + (if Starts(r, from, to) then Weight(r, byFee) else 0)
  }

  function Ended(rows: seq<Row>, from: int, to: int, byFee: bool): int {
    if rows == [] then 0
    else
      var r := rows[|rows| - 1];
      Ended(rows[..|rows| - 1], from, to, byFee) + (if Ends(r, from, to) then Weight(r, byFee) else 0)
  }

  lemma {:induction false} TotalsBalance(rows: seq<Row>, from: int, to: int, byFee: bool)
    requires from <= to
    ensures TotalAt(rows, to, byFee) - TotalAt(rows, from, byFee)
         == Started(rows, from, to, byFee) - Ended(rows, from, to, byFee)
    decreases |rows|
  {
    if rows != [] {
      TotalsBalance(rows[..|rows| - 1], from, to, byFee);
    }
  }

  lemma DaysAreOrdered(now: int, earlier: int, later: int)
    requires later <= earlier
    ensures DayEnd(now, earlier) <= DayEnd(now, later)
  {
    var x, y := now - earlier * DAY, now - later * DAY;
    assert x <= y;
    assert x / DAY <= y / DAY;
  }

  /**
   Between any two days of the trend, the change in active count and in revenue is exactly the
   counted starts minus the counted cancellations in between.
   */
  lemma TrendConserves(rows: seq<Row>, now: int, earlier: int, later: int)
    requires 0 <= later <= earlier <= 29
    ensures var a, b := DayEnd(now, earlier), DayEnd(now, later);
            var p, q := PointAt(Query(rows, now), now, earlier), PointAt(Query(rows, now), now, later);
            && q.activeCount - p.activeCount == Started(rows, a, b, false) - Ended(rows, a, b, false)
            && q.mrrCents - p.mrrCents == Started(rows, a, b, true) - Ended(rows, a, b, true)
  {
    var a, b := DayEnd(now, earlier), DayEnd(now, later);
    DaysAreOrdered(now, earlier, later);
    TotalsBalance(rows, a, b, false);
    TotalsBalance(rows, a, b, true);
    PrefilterIsLossless(rows, now, earlier, false);
    PrefilterIsLossless(rows, now, earlier, true);
    PrefilterIsLossless(rows, now, later, false);
    PrefilterIsLossless(rows, now, later, true);
  }

  /**
   When no timestamp lies after `now`, the cancellations behind the churn rate are those the trend counts
   over the thirty days up to and including this instant.
   */
  lemma {:induction false} CanceledAreEnded(rows: seq<Row>, now: int)
    requires forall i :: 0 <= i < |rows| ==> rows[i].createdAt <= now && rows[i].updatedAt <= now
    ensures CanceledCount(rows, now - 30 * DAY) == Ended(rows, now - 30 * DAY - 1, now, false)
    decreases |rows|
  {
    if rows != [] {
      CanceledAreEnded(rows[..|rows| - 1], now);
    }
  }

  /** The points carry consecutive dates, the last one today's, and each figure is that of the end of its date. */
  lemma TrendDays(rows: seq<Row>, now: int, daysAgo: int)
    ensures var p := PointAt(rows, now, daysAgo);
            && p.day * DAY <= now - daysAgo * DAY < (p.day + 1) * DAY
            && p.day == PointAt(rows, now, 0).day - daysAgo
            && p.activeCount == TotalAt(rows, (p.day + 1) * DAY - 1, false)
            && p.mrrCents == TotalAt(rows, (p.day + 1) * DAY - 1, true)
  {
    DayEndIsLate(now, daysAgo);
    DayEndIsLate(now, 0);
    var p, last := PointAt(rows, now, daysAgo).day, PointAt(rows, now, 0).day;
    assert (last - daysAgo) * DAY <= now - daysAgo * DAY < (last - daysAgo + 1) * DAY;
    SameDay(p, last - daysAgo, now - daysAgo * DAY);
  }

  lemma SameDay(a: int, b: int, at: int)
    requires a * DAY <= at < (a + 1) * DAY && b * DAY <= at < (b + 1) * DAY
    ensures a == b
  {
  }

  // ---- The last point and the headline ----

  /** Active rows dated after the day's end: in the headline, not in the last point. */
  function NotYet(rows: seq<Row>, end: int, byFee: bool): int {
    if rows == [] then 0
    else
      var r := rows[|rows| - 1];
      NotYet(rows[..|rows| - 1], end, byFee) + (if r.status == Active && r.createdAt > end then Weight(r, byFee) else 0)
  }

  /** Cancelled rows whose cancellation is dated after the day's end: in the last point, not in the headline. */
  function StillCounted(rows: seq<Row>, end: int, byFee: bool): int {
    if rows == [] then 0
    else
      var r := rows[|rows| - 1];
      StillCounted(rows[..|rows| - 1], end, byFee)
      + (if r.status == Canceled && r.createdAt <= end < r.updatedAt then Weight(r, byFee) else 0)
  }

  lemma {:induction false} HeadlineDifference(rows: seq<Row>, end: int, byFee: bool)
    ensures TotalAt(rows, end, byFee)
         == Headline(rows, byFee) - NotYet(rows, end, byFee) + StillCounted(rows, end, byFee)
    decreases |rows|
  {
    if rows != [] {
      HeadlineDifference(rows[..|rows| - 1], end, byFee);
    }
  }

  lemma {:induction false} NothingInTheFuture(rows: seq<Row>, end: int, byFee: bool)
    requires forall i :: 0 <= i < |rows| ==> rows[i].createdAt <= end && rows[i].updatedAt <= end
    ensures NotYet(rows, end, byFee) == 0 && StillCounted(rows, end, byFee) == 0
    decreases |rows|
  {
    if rows != [] {
      NothingInTheFuture(rows[..|rows| - 1], end, byFee);
    }
  }

  /**
   The last trend point equals the headline exactly when the future-dated active rows balance the
   future-dated cancellations; in particular when no timestamp lies after `now`.
   */
  lemma LastPointIsHeadline(rows: seq<Row>, now: int, byFee: bool)
    ensures var end := DayEnd(now, 0);
            && (TotalAt(rows, end, byFee) == Headline(rows, byFee) <==>
                  NotYet(rows, end, byFee) == StillCounted(rows, end, byFee))
            && ((forall i :: 0 <= i < |rows| ==> rows[i].createdAt <= now && rows[i].updatedAt <= now)
                  ==> TotalAt(rows, end, byFee) == Headline(rows, byFee))
  {
    HeadlineDifference(rows, DayEnd(now, 0), byFee);
    DayEndIsLate(now, 0);
    if forall i :: 0 <= i < |rows| ==> rows[i].createdAt <= now && rows[i].updatedAt <= now {
      NothingInTheFuture(rows, DayEnd(now, 0), byFee);
    }
  }

  // ---- Plan distribution ----

  ghost function Sum(m: map<string, nat>): nat
    decreases |m|
  {
    if m == map[] then 0
    else
      var k :| k in m;
      m[k] + Sum(m - {k})
  }

  lemma {:induction false} SumWithout(m: map<string, nat>, k: string)
    requires k in m
    ensures Sum(m) == m[k] + Sum(m - {k})
    decreases |m|
  {
    var c :| c in m && Sum(m) == m[c] + Sum(m - {c});
    if c != k {
      SumWithout(m - {c}, k);
      SumWithout(m - {k}, c);
      assert m - {c} - {k} == m - {k} - {c};
    }
  }

  lemma SumUpdate(m: map<string, nat>, k: string, v: nat)
    ensures Sum(m[k := v]) == Sum(m) - (if k in m then m[k] else 0) + v
  {
    SumWithout(m[k := v], k);
    if k in m {
      SumWithout(m, k);
      assert m[k := v] - {k} == m - {k};
    } else {
      assert m[k := v] - {k} == m;
    }
  }

  /** Each plan with an active subscription, with the number of them. */
  method CountPlans(active: seq<Row>) returns (counts: map<string, nat>)
    ensures forall s :: s in counts <==> SlugCount(active, s) > 0
    ensures forall s :: s in counts ==> counts[s] == SlugCount(active, s)
    ensures Sum(counts) == |active|
  {
    counts := map[];
    for i := 0 to |active|
      invariant forall s :: s in counts <==> SlugCount(active[..i], s) > 0
      invariant forall s :: s in counts ==> counts[s] == SlugCount(active[..i], s)
      invariant Sum(counts) == i
    {
      assert active[..i + 1][..i] == active[..i];
      var slug := active[i].slug;
      if slug !in counts {
        SumUpdate(counts, slug, 0);
        counts := counts[slug := 0];
      }
      SumUpdate(counts, slug, counts[slug] + 1);
      counts := counts[slug := counts[slug] + 1];
    }
    assert active[..|active|] == active;
  }

  // ---- The loops ----

  /** One day of the trend: scan the rows, skipping those not yet created. */
  method DayTotals(rows: seq<Row>, end: int) returns (count: int, mrr: int)
    ensures count == TotalAt(rows, end, false) && mrr == TotalAt(rows, end, true)
  {
    count, mrr := 0, 0;
    for i := 0 to |rows|
      invariant count == TotalAt(rows[..i], end, false) && mrr == TotalAt(rows[..i], end, true)
    {
      assert rows[..i + 1] == rows[..i] + [rows[i]];
      TotalAppend(rows[..i], rows[i], end, false);
      TotalAppend(rows[..i], rows[i], end, true);
      var sub := rows[i];
      if sub.createdAt > end {
        continue;
      }
      if sub.status == Active {
        count := count + 1;
        mrr := mrr + sub.fee;
      } else if sub.status == Canceled {
        if sub.updatedAt > end {
          count := count + 1;
          mrr := mrr + sub.fee;
        }
      }
    }
    assert rows[..|rows|] == rows;
  }

  method SumFees(active: seq<Row>) returns (mrr: int)
    requires forall i :: 0 <= i < |active| ==> active[i].status == Active
    ensures mrr == Headline(active, true)
  {
    mrr := 0;
    for i := 0 to |active|
      invariant mrr == Headline(active[..i], true)
    {
      assert active[..i + 1][..i] == active[..i];
      mrr := mrr + active[i].fee;
    }
    assert active[..|active|] == active;
  }

  lemma {:induction false} HeadlineOfActive(rows: seq<Row>, byFee: bool)
    ensures var active := ActiveRows(rows);
            && Headline(active, byFee) == Headline(rows, byFee)
            && |active| == Headline(rows, false)
            && forall i :: 0 <= i < |active| ==> active[i].status == Active
    decreases |rows|
  {
    if rows != [] {
      var init, r := rows[..|rows| - 1], rows[|rows| - 1];
      HeadlineOfActive(init, byFee);
      if r.status == Active {
        var a := ActiveRows(init);
        assert ActiveRows(rows) == a + [r];
        assert (a + [r])[..|a|] == a;
      } else {
        assert ActiveRows(rows) == ActiveRows(init) + [] == ActiveRows(init);
      }
    }
  }

  /** Thirty points, oldest first, each over every subscription there is. */
  ghost predicate IsTrendOf(trend: seq<Point>, rows: seq<Row>, now: int) {
    |trend| == 30 && forall k :: 0 <= k < 30 ==> trend[k] == PointAt(rows, now, 29 - k)
  }

  /** There is only one such trend. */
  lemma TrendIsFixed(a: seq<Point>, b: seq<Point>, rows: seq<Row>, now: int)
    requires IsTrendOf(a, rows, now) && IsTrendOf(b, rows, now)
    ensures a == b
  {
  }

  /** The trend is computed from the prefiltered query, but it is the trend of all subscriptions. */
  method ComputeTrend(rows: seq<Row>, now: int) returns (trend: seq<Point>)
    ensures IsTrendOf(trend, rows, now)
  {
    var relevant := Query(rows, now);
    trend := [];
    var daysAgo := 29;
    while daysAgo >= 0
      invariant -1 <= daysAgo <= 29 && |trend| == 29 - daysAgo
      invariant forall k :: 0 <= k < |trend| ==> trend[k] == PointAt(rows, now, 29 - k)
    {
      var count, mrr := DayTotals(relevant, DayEnd(now, daysAgo));
      PrefilterIsLossless(rows, now, daysAgo, false);
      PrefilterIsLossless(rows, now, daysAgo, true);
      trend := trend + [Point(Day(now, daysAgo), mrr, count)];
      daysAgo := daysAgo - 1;
    }
  }

  /** The share of cancellations, before the rounding to four places. */
  function ChurnRate(active: nat, canceled: nat): (rate: real)
    ensures rate * (active + canceled) as real == canceled as real
    ensures 0.0 <= rate <= 1.0
  {
    var denominator := (active + canceled) as real;
    if active + canceled > 0 then canceled as real / denominator else 0.0
  }

  /**
   The dashboard of all subscriptions `rows`: the headline counts exactly the active ones, the plan
   counts add up to it, and churn is cancellations over active plus cancelled.
   */
  method ComputeMrrDashboard(rows: seq<Row>, now: int) returns (d: Dashboard)
    ensures d.activeCount == Headline(rows, false) && d.mrrCents == Headline(rows, true)
    ensures Sum(d.planCounts) == d.activeCount
    ensures forall s :: s in d.planCounts ==> d.planCounts[s] == SlugCount(ActiveRows(rows), s)
    ensures d.canceled30d == CanceledCount(rows, now - 30 * DAY)
    ensures (forall i :: 0 <= i < |rows| ==> rows[i].createdAt <= now && rows[i].updatedAt <= now) ==>
      d.canceled30d == Ended(rows, now - 30 * DAY - 1, now, false)
    ensures d.churnRate == ChurnRate(d.activeCount, d.canceled30d)
    ensures IsTrendOf(d.trend, rows, now)
  {
    var active := ActiveRows(rows);
    HeadlineOfActive(rows, true);
    var activeCount := |active|;
    var mrrCents := SumFees(active);
    var planCounts := CountPlans(active);
    var canceled30d := CanceledCount(rows, now - 30 * DAY);
    if forall i :: 0 <= i < |rows| ==> rows[i].createdAt <= now && rows[i].updatedAt <= now {
      CanceledAreEnded(rows, now);
    }
    var churnRate := ChurnRate(activeCount, canceled30d);
    var trend := ComputeTrend(rows, now);
    d := Dashboard(activeCount, mrrCents, planCounts, canceled30d, churnRate, trend);
  }
}
