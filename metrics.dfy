/** The platform dashboard's metrics: monthly recurring revenue in cents, the number of
    organizations with a live subscription, the churn rate and the per-status counts. */
module Metrics {

  import opened Common
  import opened Billing

  /** `.in("status", ["active", "trialing"])`. */
  predicate Counted(s: Subscription) {
    StatusName(s.status) == "active" || StatusName(s.status) == "trialing"
  }

  /** The active and trialing rows, in table order. */
  function CountedRows(table: seq<Subscription>): seq<Subscription> {
    Filter(table, Counted)
  }

  /** A row of the `id, monthly_price_cents` plans read. */
  datatype PlanPrice = PlanPrice(id: string, monthlyPriceCents: Option<int>)

  /** `planMap.get(planId)`, with a missing plan and a null price both counting 0. */
  function PriceOf(plans: seq<PlanPrice>, planId: string): int {
    var p := Last(plans, (p: PlanPrice) => p.id == planId);
    if p.Some? && p.value.monthlyPriceCents.Some? then p.value.monthlyPriceCents.value else 0
  }

  /** The sum of the plan prices of `rows`, one term per row. */
  function SumCents(rows: seq<Subscription>, plans: seq<PlanPrice>): int
    decreases |rows|
  {
    if rows == [] then 0
    else SumCents(rows[..|rows| - 1], plans) + PriceOf(plans, rows[|rows| - 1].planId)
  }

  /** MRR in cents over the whole plans table. */
  function MrrCents(table: seq<Subscription>, plans: seq<PlanPrice>): int {
    SumCents(CountedRows(table), plans)
  }

  const MRR_FAILED := "Failed to calculate MRR"

  /** `getMRR` in cents. `planTable` is the plans table (`None`: the plans read fails). */
  method GetMrrCents(table: seq<Subscription>, planTable: Option<seq<PlanPrice>>) returns (r: Result<int>)
    ensures CountedRows(table) == [] ==> r == Ok(0)
    ensures CountedRows(table) != [] && planTable.None? ==> r == Err(MRR_FAILED)
    ensures CountedRows(table) != [] && planTable.Some? ==> r == Ok(MrrCents(table, planTable.value))
  {
    var subscriptions := CountedRows(table);
    if |subscriptions| == 0 {
      return Ok(0);
    }
    var planIds := set i | 0 <= i < |subscriptions| :: subscriptions[i].planId;
    if planTable.None? {
      return Err(MRR_FAILED);
    }
    var plans := Filter(planTable.value, (p: PlanPrice) => p.id in planIds);
    var totalCents := 0;
    var i := 0;
    while i < |subscriptions|
      invariant 0 <= i <= |subscriptions|
      invariant totalCents == SumCents(subscriptions[..i], planTable.value)
    {
      SumCentsStep(subscriptions, i, planTable.value);
      var planId := subscriptions[i].planId;
      BatchPriceIsPrice(planTable.value, planIds, planId);
      var priceCents := Last(plans, (p: PlanPrice) => p.id == planId);
      if priceCents.Some? && priceCents.value.monthlyPriceCents.Some? {
        totalCents := totalCents + priceCents.value.monthlyPriceCents.value;
      }
      i := i + 1;
    }
    assert subscriptions[..|subscriptions|] == subscriptions;
    r := Ok(totalCents);
  }

  /** One more row of the loop adds that row's price. */
  lemma SumCentsStep(rows: seq<Subscription>, i: nat, plans: seq<PlanPrice>)
    requires i < |rows|
    ensures SumCents(rows[..i + 1], plans) == SumCents(rows[..i], plans) + PriceOf(plans, rows[i].planId)
  {
    assert rows[..i + 1][..i] == rows[..i];
  }

  /** The plan row found in the batch of plans fetched by id is the one the whole table gives. */
  lemma BatchPriceIsPrice(planTable: seq<PlanPrice>, planIds: set<string>, planId: string)
    requires planId in planIds
    ensures Last(Filter(planTable, (p: PlanPrice) => p.id in planIds), (p: PlanPrice) => p.id == planId)
         == Last(planTable, (p: PlanPrice) => p.id == planId)
  {
    LastOfFilter(planTable, (p: PlanPrice) => p.id in planIds, (p: PlanPrice) => p.id == planId);
  }

  /** MRR is additive over the rows. */
  lemma {:induction false} SumCentsAppend(a: seq<Subscription>, b: seq<Subscription>, plans: seq<PlanPrice>)
    ensures SumCents(a + b, plans) == SumCents(a, plans) + SumCents(b, plans)
    decreases |b|
  {
    if b == [] {
      assert a + b == a;
    } else {
      var n := |b| - 1;
      SumCentsAppend(a, b[..n], plans);
      assert (a + b)[..|a + b| - 1] == a + b[..n];
      assert (a + b)[|a + b| - 1] == b[n];
    }
  }

  /** A row that is neither active nor trialing adds nothing; an active or trialing row adds
      its plan's price, even when another row already uses that plan. */
  lemma {:induction false} MrrOfOneMoreRow(table: seq<Subscription>, s: Subscription, plans: seq<PlanPrice>)
    ensures MrrCents(table + [s], plans) == MrrCents(table, plans) + (if Counted(s) then PriceOf(plans, s.planId) else 0)
  {
    assert (table + [s])[..|table|] == table;
    if Counted(s) {
      assert CountedRows(table + [s]) == CountedRows(table) + [s];
      SumCentsAppend(CountedRows(table), [s], plans);
      assert [s][..0] == [];
    } else {
      assert CountedRows(table + [s]) == CountedRows(table);
    }
  }

  /** With every price between 0 and `cap`, MRR is between 0 and `cap` per counted row. */
  lemma {:induction false} MrrBounds(rows: seq<Subscription>, plans: seq<PlanPrice>, cap: int)
    requires forall p :: p in plans && p.monthlyPriceCents.Some? ==> 0 <= p.monthlyPriceCents.value <= cap
    requires 0 <= cap
    ensures 0 <= SumCents(rows, plans) <= |rows| * cap
    decreases |rows|
  {
    if rows != [] {
      var n := |rows| - 1;
      MrrBounds(rows[..n], plans, cap);
      PriceBound(plans, rows[n].planId, cap);
      assert SumCents(rows, plans) == SumCents(rows[..n], plans) + PriceOf(plans, rows[n].planId);
      assert |rows| * cap == n * cap + cap;
    }
  }

  /** With every price between 0 and `cap`, one row's price is between 0 and `cap`. */
  lemma PriceBound(plans: seq<PlanPrice>, planId: string, cap: int)
    requires forall p :: p in plans && p.monthlyPriceCents.Some? ==> 0 <= p.monthlyPriceCents.value <= cap
    requires 0 <= cap
    ensures 0 <= PriceOf(plans, planId) <= cap
  {
    var p := Last(plans, (p: PlanPrice) => p.id == planId);
    if p.Some? && p.value.monthlyPriceCents.Some? {
      assert p.value in plans;
    }
  }

  // ---------------------------------------------------------------------------
  // Active tenants

  /** The distinct organizations of `rows`. */
  function OrgsOf(rows: seq<Subscription>): (r: set<string>)
    ensures forall o :: o in r <==> exists i :: 0 <= i < |rows| && rows[i].organizationId == o
    decreases |rows|
  {
    if rows == [] then {}
    else
      var n := |rows| - 1;
      assert forall i :: 0 <= i < n ==> rows[..n][i] == rows[i];
      OrgsOf(rows[..n]) + {rows[n].organizationId}
  }

  /** `getActiveTenantsCount`. */
  function ActiveTenantsCount(table: seq<Subscription>): nat {
    |OrgsOf(CountedRows(table))|
  }

  /** There are never more organizations than rows. */
  lemma {:induction false} OrgsAtMostRows(rows: seq<Subscription>)
    ensures |OrgsOf(rows)| <= |rows|
    decreases |rows|
  {
    if rows != [] {
      OrgsAtMostRows(rows[..|rows| - 1]);
    }
  }

  /** The count is at most the number of active and trialing rows, and zero exactly when
      there are none. */
  lemma ActiveTenantsBounds(table: seq<Subscription>)
    ensures ActiveTenantsCount(table) <= |CountedRows(table)|
    ensures ActiveTenantsCount(table) == 0 <==> CountedRows(table) == []
  {
    OrgsAtMostRows(CountedRows(table));
    if CountedRows(table) != [] {
      assert CountedRows(table)[0].organizationId in OrgsOf(CountedRows(table));
    }
  }

  // ---------------------------------------------------------------------------
  // Status counts

  /** The number of rows in status `name`: `filter(s => s.status === name).length`. */
  function CountStatus(rows: seq<Subscription>, name: string): (r: nat)
    ensures r <= |rows|
    ensures r == 0 <==> forall i :: 0 <= i < |rows| ==> StatusName(rows[i].status) != name
    decreases |rows|
  {
    if rows == [] then 0
    else CountStatus(rows[..|rows| - 1], name) + (if StatusName(rows[|rows| - 1].status) == name then 1 else 0)
  }

  /** The three status counts never add up to more than the total. */
  lemma {:induction false} StatusCountsBounded(rows: seq<Subscription>)
    ensures CountStatus(rows, "trialing") + CountStatus(rows, "past_due") + CountStatus(rows, "canceled") <= |rows|
    decreases |rows|
  {
    if rows != [] {
      StatusCountsBounded(rows[..|rows| - 1]);
    }
  }

  // ---------------------------------------------------------------------------
  // Churn

  /** A count query's response: with `head: true` no rows come back, only the count. */
  datatype CountResponse = CountResponse(data: Option<seq<string>>, count: nat)

  function HeadCount(matching: nat): CountResponse {
    CountResponse(None, matching)
  }

  /** `getChurnRate` as written: it reads the length of the rows, which a head request never
      returns, so the active-at-start count is always taken as 0. */
  function ChurnRateAsWritten(activeAtStart: CountResponse, canceled: CountResponse): real {
    var totalAtStart := if activeAtStart.data.Some? then |activeAtStart.data.value| else 0;
    if totalAtStart == 0 then 0.0
    else
      var canceledCount := if canceled.data.Some? then |canceled.data.value| else 0;
      (canceledCount as real / totalAtStart as real) * 100.0
  }

  /** With head requests the rate is 0 whatever the counts: 5 cancellations among 10
      subscriptions report no churn. */
  lemma ChurnAsWrittenIsAlwaysZero(activeAtStart: nat, canceled: nat)
    ensures ChurnRateAsWritten(HeadCount(activeAtStart), HeadCount(canceled)) == 0.0
    ensures ChurnRateAsWritten(HeadCount(10), HeadCount(5)) == 0.0 && ChurnRate(HeadCount(10), HeadCount(5)) == 50.0
  {
  }

  /** The churn rate read from the counts the head requests return. */
  function ChurnRate(activeAtStart: CountResponse, canceled: CountResponse): (r: real)
    ensures activeAtStart.count == 0 ==> r == 0.0
    ensures activeAtStart.count > 0 ==> r * (activeAtStart.count as real) == (canceled.count as real) * 100.0
  {
    if activeAtStart.count == 0 then 0.0
    else (canceled.count as real / activeAtStart.count as real) * 100.0
  }

  /** The corrected rate is positive exactly when some subscriptions were active at the start
      and some were canceled in the period. */
  lemma ChurnPositiveIffCancellations(activeAtStart: nat, canceled: nat)
    ensures ChurnRate(HeadCount(activeAtStart), HeadCount(canceled)) > 0.0 <==> activeAtStart > 0 && canceled > 0
  {
    if activeAtStart > 0 {
      var r := ChurnRate(HeadCount(activeAtStart), HeadCount(canceled));
      assert r * (activeAtStart as real) == (canceled as real) * 100.0;
    }
  }

  // ---------------------------------------------------------------------------
  // The dashboard

  datatype Report = Report(
    mrrCents: int,
    activeTenants: nat,
    churnRate: real,
    totalSubscriptions: nat,
    trialingSubscriptions: nat,
    pastDueSubscriptions: nat,
    canceledSubscriptions: nat)

  /** `getMetrics` as written: the report of the same reads, with the churn field taken from
      `getChurnRate` as written. Apart from that field it is the corrected report, and its
      churn rate is 0 whatever the counts. */
  function GetMetricsAsWritten(table: seq<Subscription>, planTable: Option<seq<PlanPrice>>,
                               activeAtStart: nat, canceled: nat): (r: Result<Report>)
    ensures r.Err? <==> GetMetrics(table, planTable, HeadCount(activeAtStart), HeadCount(canceled)).Err?
    ensures r.Err? ==> r.message == MRR_FAILED
    ensures r.Ok? ==> r.value.churnRate == 0.0
    ensures r.Ok? ==> r.value == GetMetrics(table, planTable, HeadCount(activeAtStart), HeadCount(canceled)).value.(churnRate := 0.0)
  {
    if CountedRows(table) != [] && planTable.None? then Err(MRR_FAILED)
    else
      Ok(Report(
        if CountedRows(table) == [] then 0 else MrrCents(table, planTable.value),
        ActiveTenantsCount(table),
        ChurnRateAsWritten(HeadCount(activeAtStart), HeadCount(canceled)),
        |table|,
        CountStatus(table, "trialing"),
        CountStatus(table, "past_due"),
        CountStatus(table, "canceled")))
  }

  /** `getMetrics` with the corrected churn rate, with the churn counts of the last 30 days given as the two head
      responses. */
  function GetMetrics(table: seq<Subscription>, planTable: Option<seq<PlanPrice>>,
                      activeAtStart: CountResponse, canceled: CountResponse): (r: Result<Report>)
    ensures r.Err? <==> CountedRows(table) != [] && planTable.None?
    ensures r.Err? ==> r.message == MRR_FAILED
    ensures r.Ok? ==>
              && r.value.totalSubscriptions == |table|
              && r.value.trialingSubscriptions + r.value.pastDueSubscriptions + r.value.canceledSubscriptions <= |table|
              && r.value.activeTenants <= |CountedRows(table)|
              && r.value.activeTenants == ActiveTenantsCount(table)
              && r.value.trialingSubscriptions == CountStatus(table, "trialing")
              && r.value.pastDueSubscriptions == CountStatus(table, "past_due")
              && r.value.canceledSubscriptions == CountStatus(table, "canceled")
              && r.value.mrrCents == (if CountedRows(table) == [] then 0 else MrrCents(table, planTable.value))
              && r.value.churnRate == ChurnRate(activeAtStart, canceled)
  {
    StatusCountsBounded(table);
    ActiveTenantsBounds(table);
    if CountedRows(table) != [] && planTable.None? then Err(MRR_FAILED)
    else
      Ok(Report(
        if CountedRows(table) == [] then 0 else MrrCents(table, planTable.value),
        ActiveTenantsCount(table),
        ChurnRate(activeAtStart, canceled),
        |table|,
        CountStatus(table, "trialing"),
        CountStatus(table, "past_due"),
        CountStatus(table, "canceled")))
  }
}
