/** Reading an organization's entitlements from the cache table, rebuilding on a miss, and
    the two queries over a snapshot: feature flags and limit values. */
module Check {

  import opened Common
  import opened Billing
  import opened Rebuild

  /** What `getEntitlements` hands its callers: a snapshot without its timestamp. */
  datatype Entitlements = Entitlements(
    planCode: Option<string>,
    status: Status,
    limits: map<string, Json>,
    addons: map<string, Json>)

  function View(s: Snapshot): Entitlements {
    Entitlements(s.planCode, s.status, s.limits, s.addons)
  }

  /** The `.single()` read of the cache row for `org`. */
  function Cached(ents: map<string, Snapshot>, org: string): (r: Option<Entitlements>)
    ensures r.Some? <==> org in ents
    ensures r.Some? ==> r.value == View(ents[org])
  {
    if org in ents then Some(View(ents[org])) else None
  }

  /** The result `getEntitlements` returns: the cached row, or on a miss the row the
      rebuild wrote, or null when the rebuild wrote nothing. */
  function EntitlementsFor(ents: map<string, Snapshot>, subs: map<string, Subscription>, plans: map<string, Plan>,
                           orgAddons: map<string, Option<seq<OrgAddon>>>, org: string, now: int): Option<Entitlements>
  {
    if org in ents then Cached(ents, org)
    else Cached(ApplyRebuild(ents, subs, plans, orgAddons, org, now), org)
  }

  /** On a hit the cache is returned untouched; on a miss one rebuild runs and the row is read again. */
  method GetEntitlements(db: Db, org: string, now: int) returns (r: Option<Entitlements>)
    modifies db`entitlements
    ensures r == EntitlementsFor(old(db.entitlements), db.subscriptions, db.plans, db.orgAddons, org, now)
    ensures old(org in db.entitlements) ==> db.entitlements == old(db.entitlements)
    ensures old(org !in db.entitlements) ==>
              db.entitlements == ApplyRebuild(old(db.entitlements), db.subscriptions, db.plans, db.orgAddons, org, now)
    ensures r.Some? ==> org in db.entitlements && r == Cached(db.entitlements, org)
  {
    var data := Cached(db.entitlements, org);
    if data.None? {
      RebuildEntitlements(db, org, now);
      r := Cached(db.entitlements, org);
      return;
    }
    r := data;
  }

  /** A miss comes back null exactly when the organization has one live subscription and its
      add-on query fails; a miss without a live subscription comes back inactive. */
  lemma MissOutcome(ents: map<string, Snapshot>, subs: map<string, Subscription>, plans: map<string, Plan>,
                    orgAddons: map<string, Option<seq<OrgAddon>>>, org: string, now: int)
    requires org !in ents
    ensures EntitlementsFor(ents, subs, plans, orgAddons, org, now).None?
        <==> LiveSubscription(subs, org).Some? && AddonsFor(orgAddons, org).None?
    ensures LiveSubscription(subs, org).None? ==>
              EntitlementsFor(ents, subs, plans, orgAddons, org, now) == Some(Entitlements(None, Inactive, map[], map[]))
  {
  }

  /** Once `getEntitlements` returns a row, reading again is a hit that returns the same row
      and leaves the table alone. */
  lemma ReadSettles(ents: map<string, Snapshot>, subs: map<string, Subscription>, plans: map<string, Plan>,
                    orgAddons: map<string, Option<seq<OrgAddon>>>, org: string, now: int, later: int)
    requires EntitlementsFor(ents, subs, plans, orgAddons, org, now).Some?
    ensures var after := if org in ents then ents else ApplyRebuild(ents, subs, plans, orgAddons, org, now);
            && org in after
            && EntitlementsFor(after, subs, plans, orgAddons, org, later) == EntitlementsFor(ents, subs, plans, orgAddons, org, now)
  {
  }

  /** `hasEntitlement`: a truthy add-on entry, or a limit that is exactly `true`. */
  function HasFeature(e: Option<Entitlements>, key: string): (b: bool)
    ensures e.None? ==> !b
    ensures e.Some? && Present(Lookup(e.value.addons, key)) ==> b
    ensures e.Some? && key in e.value.limits && e.value.limits[key] == JBool(true) ==> b
    ensures b ==> e.Some? && (Present(Lookup(e.value.addons, key)) || Lookup(e.value.limits, key) == Some(JBool(true)))
  {
    if e.None? then false
    else if Present(Lookup(e.value.addons, key)) then true
    else Lookup(e.value.limits, key) == Some(JBool(true))
  }

  /** A truthy non-boolean limit such as `1` is not a feature flag: only `=== true` counts. */
  lemma NumericLimitIsNotAFlag()
    ensures !HasFeature(Some(Entitlements(None, Active, map["realtime_tracking" := JNum(1)], map[])), "realtime_tracking")
  {
  }

  /** `getLimit`: null when there is no row or no such limit; the `value` field of an
      object that has one; otherwise the stored value itself. */
  function LimitOf(e: Option<Entitlements>, key: string): (r: Json)
    ensures e.None? || key !in e.value.limits ==> r == JNull
    ensures e.Some? && key in e.value.limits && e.value.limits[key].JRecord? && e.value.limits[key].value.Some? ==>
              r == e.value.limits[key].value.value
    ensures e.Some? && key in e.value.limits && !(e.value.limits[key].JRecord? && e.value.limits[key].value.Some?) ==>
              r == e.value.limits[key]
  {
    if e.None? then JNull
    else match Lookup(e.value.limits, key)
      case None => JNull
      case Some(JRecord(Some(v))) => v
      case Some(v) => v
  }

  /** An organization whose live subscription has an active realtime-tracking add-on has the
      `realtime_tracking` feature once its snapshot is rebuilt. */
  lemma {:induction false} RealtimeAddonGrantsFeature(subs: map<string, Subscription>, plans: map<string, Plan>,
                                                      orgAddons: map<string, Option<seq<OrgAddon>>>, org: string, now: int, i: nat)
    requires LiveSubscription(subs, org).Some?
    requires AddonsFor(orgAddons, org).Some?
    requires i < |AddonsFor(orgAddons, org).value| && HasCode(AddonsFor(orgAddons, org).value[i], REALTIME_TRACKING)
    ensures Rebuilt(subs, plans, orgAddons, org, now).Some?
    ensures HasFeature(Some(View(Rebuilt(subs, plans, orgAddons, org, now).value)), REALTIME_TRACKING)
  {
    var sub := LiveSubscription(subs, org).value;
    var rows := AddonsFor(orgAddons, org).value;
    FlagAddonIsSet(Composed(BaseLimits(LimitRowsOf(PlanOf(plans, sub))), map[]), rows, i);
  }

  /** After a rebuild with at least one extra-driver add-on, whatever other add-ons there are,
      `getLimit("max_drivers")` is the plan's numeric base plus every extra-driver quantity. */
  lemma {:induction false} MaxDriversLimitAfterRebuild(subs: map<string, Subscription>, plans: map<string, Plan>,
                                                       orgAddons: map<string, Option<seq<OrgAddon>>>, org: string, now: int)
    requires LiveSubscription(subs, org).Some?
    requires AddonsFor(orgAddons, org).Some? && ExtraRows(AddonsFor(orgAddons, org).value) != []
    ensures Rebuilt(subs, plans, orgAddons, org, now).Some?
    ensures var base := BaseLimits(LimitRowsOf(PlanOf(plans, LiveSubscription(subs, org).value)));
            LimitOf(Some(View(Rebuilt(subs, plans, orgAddons, org, now).value)), MAX_DRIVERS)
              == JNum(CurrentMaxDrivers(base) + SumQuantity(ExtraRows(AddonsFor(orgAddons, org).value)))
  {
    var sub := LiveSubscription(subs, org).value;
    var rows := AddonsFor(orgAddons, org).value;
    ExtraDriversAdd(Composed(BaseLimits(LimitRowsOf(PlanOf(plans, sub))), map[]), rows);
  }
}
