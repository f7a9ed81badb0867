/** The platform console's subscription list: a filtered, paginated page of subscriptions,
    merged with batch-fetched organization and plan summaries, narrowed by a free-text search. */
module SubscriptionsList {

  import opened Common
  import opened Billing

  datatype OrgSummary = OrgSummary(id: string, name: string, slug: string)
  datatype PlanSummary = PlanSummary(id: string, code: string, name: string)

  /** The optional filters; an empty string is not applied. */
  datatype Filters = Filters(status: Option<string>, organizationId: Option<string>, planId: Option<string>, q: Option<string>)

  /** A subscription with its organization and plan attached. */
  datatype Detailed = Detailed(sub: Subscription, organization: OrgSummary, plan: PlanSummary)

  /** The equality filters applied by the query. */
  predicate MatchesFilters(f: Filters, s: Subscription) {
    && (Given(f.status) ==> StatusName(s.status) == f.status.value)
    && (Given(f.organizationId) ==> s.organizationId == f.organizationId.value)
    && (Given(f.planId) ==> s.planId == f.planId.value)
  }

  /** The page of subscriptions the query returns; `table` is in the query's `created_at`
      descending order. */
  function SubscriptionPage(table: seq<Subscription>, f: Filters, limit: Option<nat>, offset: Option<nat>): seq<Subscription> {
    Window(Filter(table, s => MatchesFilters(f, s)),
           if offset.Some? then offset.value else 0,
           if limit.Some? then limit.value else DEFAULT_PAGE_SIZE)
  }

  function OrgIds(page: seq<Subscription>): set<string> {
    set i | 0 <= i < |page| :: page[i].organizationId
  }

  function PlanIds(page: seq<Subscription>): set<string> {
    set i | 0 <= i < |page| :: page[i].planId
  }

  /** `orgMap.get(id)` / `planMap.get(id)`: the last fetched row with the id. */
  function FindOrg(orgs: seq<OrgSummary>, id: string): Option<OrgSummary> {
    Last(orgs, (o: OrgSummary) => o.id == id)
  }

  function FindPlan(plans: seq<PlanSummary>, id: string): Option<PlanSummary> {
    Last(plans, (p: PlanSummary) => p.id == id)
  }

  /** The search: the lower-cased query occurs in the organization's name (when the
      organization was found), the Stripe subscription id or the Stripe customer id. */
  predicate MatchesSearch(q: string, sub: Subscription, org: Option<OrgSummary>) {
    var needle := Lower(q);
    || (org.Some? && Includes(Lower(org.value.name), needle))
    || Includes(Lower(sub.stripeSubscriptionId), needle)
    || Includes(Lower(sub.stripeCustomerId), needle)
  }

  /** A subscription stays in the list when it passes the search (if any) and both its
      organization and its plan were found. */
  predicate Kept(f: Filters, orgs: seq<OrgSummary>, plans: seq<PlanSummary>, sub: Subscription) {
    && (Given(f.q) ==> MatchesSearch(f.q.value, sub, FindOrg(orgs, sub.organizationId)))
    && FindOrg(orgs, sub.organizationId).Some?
    && FindPlan(plans, sub.planId).Some?
  }

  /** Attach organization and plan to the kept subscriptions, in order. */
  function Merge(kept: seq<Subscription>, orgs: seq<OrgSummary>, plans: seq<PlanSummary>): (r: seq<Detailed>)
    requires forall s :: s in kept ==> FindOrg(orgs, s.organizationId).Some? && FindPlan(plans, s.planId).Some?
    ensures |r| == |kept|
    ensures forall i :: 0 <= i < |r| ==> r[i].sub == kept[i]
    ensures forall i :: 0 <= i < |r| ==>
              r[i].organization.id == kept[i].organizationId && r[i].organization in orgs
              && r[i].plan.id == kept[i].planId && r[i].plan in plans
  {
    seq(|kept|, i requires 0 <= i < |kept| =>
      Detailed(kept[i], FindOrg(orgs, kept[i].organizationId).value, FindPlan(plans, kept[i].planId).value))
  }

  const ORGS_FAILED := "Failed to fetch organizations"
  const PLANS_FAILED := "Failed to fetch plans"

  /** `getAllSubscriptions`. `orgTable` and `planTable` are the organizations and plans
      tables (`None`: that batch read fails). */
  function GetAllSubscriptions(table: seq<Subscription>, f: Filters, limit: Option<nat>, offset: Option<nat>,
                               orgTable: Option<seq<OrgSummary>>, planTable: Option<seq<PlanSummary>>): (r: Result<seq<Detailed>>)
    ensures SubscriptionPage(table, f, limit, offset) == [] ==> r == Ok([])
    ensures SubscriptionPage(table, f, limit, offset) != [] && orgTable.None? ==> r == Err(ORGS_FAILED)
    ensures SubscriptionPage(table, f, limit, offset) != [] && orgTable.Some? && planTable.None? ==> r == Err(PLANS_FAILED)
    ensures r.Ok? ==> |r.value| <= |SubscriptionPage(table, f, limit, offset)|
    ensures r.Ok? ==> forall i :: 0 <= i < |r.value| ==>
              r.value[i].sub in SubscriptionPage(table, f, limit, offset)
              && r.value[i].organization.id == r.value[i].sub.organizationId
              && r.value[i].plan.id == r.value[i].sub.planId
  {
    var page := SubscriptionPage(table, f, limit, offset);
    if page == [] then Ok([])
    else if orgTable.None? then Err(ORGS_FAILED)
    else if planTable.None? then Err(PLANS_FAILED)
    else
      var orgIds := OrgIds(page);
      var planIds := PlanIds(page);
      var orgs := Filter(orgTable.value, (o: OrgSummary) => o.id in orgIds);
      var plans := Filter(planTable.value, (p: PlanSummary) => p.id in planIds);
      var kept := Filter(page, s => Kept(f, orgs, plans, s));
      Ok(Merge(kept, orgs, plans))
  }

  /** The list keeps the page's order, and a subscription of the page is listed exactly when
      the organizations and plans tables hold its organization and its plan and it passes the
      search. */
  lemma {:induction false} ListedIffFoundAndMatching(table: seq<Subscription>, f: Filters, limit: Option<nat>, offset: Option<nat>,
                                                     orgTable: seq<OrgSummary>, planTable: seq<PlanSummary>, s: Subscription)
    requires s in SubscriptionPage(table, f, limit, offset)
    ensures var r := GetAllSubscriptions(table, f, limit, offset, Some(orgTable), Some(planTable));
            r.Ok? && Subsequence(Subs(r.value), SubscriptionPage(table, f, limit, offset))
            && (s in Subs(r.value) <==>
                  && FindOrg(orgTable, s.organizationId).Some?
                  && FindPlan(planTable, s.planId).Some?
                  && (Given(f.q) ==> MatchesSearch(f.q.value, s, FindOrg(orgTable, s.organizationId))))
  {
    var page := SubscriptionPage(table, f, limit, offset);
    var orgIds := OrgIds(page);
    var planIds := PlanIds(page);
    var orgs := Filter(orgTable, (o: OrgSummary) => o.id in orgIds);
    var plans := Filter(planTable, (p: PlanSummary) => p.id in planIds);
    var keep := (x: Subscription) => Kept(f, orgs, plans, x);
    var kept := Filter(page, keep);
    var r := GetAllSubscriptions(table, f, limit, offset, Some(orgTable), Some(planTable));
    assert Subs(r.value) == kept;
    FilterIsSubsequence(page, keep);
    var k :| 0 <= k < |page| && page[k] == s;
    assert s.organizationId in orgIds && s.planId in planIds;
    LastOfFilter(orgTable, (o: OrgSummary) => o.id in orgIds, (o: OrgSummary) => o.id == s.organizationId);
    LastOfFilter(planTable, (p: PlanSummary) => p.id in planIds, (p: PlanSummary) => p.id == s.planId);
  }

  /** The subscriptions of a list, in order. */
  function Subs(ds: seq<Detailed>): (r: seq<Subscription>)
    ensures |r| == |ds| && forall i :: 0 <= i < |r| ==> r[i] == ds[i].sub
  {
    seq(|ds|, i requires 0 <= i < |ds| => ds[i].sub)
  }

  /** Every listed subscription passes the query's filters, and a list is no longer than the
      requested page size. */
  lemma {:induction false} ListedMatchFilters(table: seq<Subscription>, f: Filters, limit: Option<nat>, offset: Option<nat>,
                                              orgTable: Option<seq<OrgSummary>>, planTable: Option<seq<PlanSummary>>)
    ensures var r := GetAllSubscriptions(table, f, limit, offset, orgTable, planTable);
            r.Ok? ==> |r.value| <= (if limit.Some? then limit.value else DEFAULT_PAGE_SIZE)
                      && forall i :: 0 <= i < |r.value| ==> MatchesFilters(f, r.value[i].sub) && r.value[i].sub in table
  {
    var r := GetAllSubscriptions(table, f, limit, offset, orgTable, planTable);
    if r.Ok? {
      forall i | 0 <= i < |r.value| ensures MatchesFilters(f, r.value[i].sub) && r.value[i].sub in table {
        InWindowOfFilter(table, s => MatchesFilters(f, s), if offset.Some? then offset.value else 0,
                         if limit.Some? then limit.value else DEFAULT_PAGE_SIZE, r.value[i].sub);
      }
    }
  }
}
