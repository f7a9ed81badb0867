/** `GET /api/entitlements`: the active organization's entitlements shaped for the frontend,
    with defaults filled in and the grace window attached. */
module EntitlementsRoute {

  import opened Common
  import opened Billing
  import opened StripeWebhooks
  import opened Rebuild
  import opened Check
  import opened Enforce

  datatype Body = Body(
    planCode: Option<string>,
    status: Status,
    maxDrivers: Json,
    realtimeTracking: Json,
    extraDrivers: Json,
    auditRetentionDays: int,
    addonRealtimeTracking: Json,
    isInGrace: bool,
    graceUntil: Option<int>,
    graceDays: int)

  datatype Response = NotFound | Found(body: Body)

  /** The response for an organization whose entitlements read gave `e`. */
  function Get(e: Option<Entitlements>, subs: map<string, Subscription>, org: string, now: int): (r: Response)
    ensures r.NotFound? <==> e.None?
    ensures r.Found? ==> r.body.graceDays == GRACE_DAYS
    ensures r.Found? ==> r.body.status == e.value.status
    ensures r.Found? ==> r.body.isInGrace == CheckGracePeriod(subs, org, now).isInGrace
    ensures r.Found? ==> r.body.graceUntil == CheckGracePeriod(subs, org, now).graceUntil
    ensures r.Found? ==> (r.body.auditRetentionDays == 365 <==> Present(Lookup(e.value.addons, AUDIT_RETENTION_365)))
    ensures r.Found? ==> r.body.auditRetentionDays == 365 || r.body.auditRetentionDays == 30
    ensures r.Found? ==> (r.body.planCode.Some? <==> e.value.planCode.Some? && e.value.planCode.value != "")
    ensures r.Found? && r.body.planCode.Some? ==> r.body.planCode == e.value.planCode
    ensures r.Found? && Present(ValueField(Lookup(e.value.limits, MAX_DRIVERS))) ==>
              r.body.maxDrivers == ValueField(Lookup(e.value.limits, MAX_DRIVERS)).value
    ensures r.Found? && !Present(ValueField(Lookup(e.value.limits, MAX_DRIVERS))) ==> r.body.maxDrivers == JNum(0)
    ensures r.Found? && Present(Lookup(e.value.limits, REALTIME_TRACKING)) ==>
              r.body.realtimeTracking == e.value.limits[REALTIME_TRACKING]
    ensures r.Found? && !Present(Lookup(e.value.limits, REALTIME_TRACKING)) ==> r.body.realtimeTracking == JBool(false)
    ensures r.Found? && Present(Lookup(e.value.addons, EXTRA_DRIVERS)) ==>
              r.body.extraDrivers == e.value.addons[EXTRA_DRIVERS]
    ensures r.Found? && !Present(Lookup(e.value.addons, EXTRA_DRIVERS)) ==> r.body.extraDrivers == JNum(0)
    ensures r.Found? && Present(Lookup(e.value.addons, REALTIME_TRACKING)) ==>
              r.body.addonRealtimeTracking == e.value.addons[REALTIME_TRACKING]
    ensures r.Found? && !Present(Lookup(e.value.addons, REALTIME_TRACKING)) ==> r.body.addonRealtimeTracking == JBool(false)
  {
    if e.None? then NotFound
    else
      var ent := e.value;
      var grace := CheckGracePeriod(subs, org, now);
      Found(Body(
        if ent.planCode.Some? && ent.planCode.value != "" then ent.planCode else None,
        ent.status,
        OrElse(ValueField(Lookup(ent.limits, MAX_DRIVERS)), JNum(0)),
        OrElse(Lookup(ent.limits, REALTIME_TRACKING), JBool(false)),
        OrElse(Lookup(ent.addons, EXTRA_DRIVERS), JNum(0)),
        if Present(Lookup(ent.addons, AUDIT_RETENTION_365)) then 365 else 30,
        OrElse(Lookup(ent.addons, REALTIME_TRACKING), JBool(false)),
        grace.isInGrace,
        grace.graceUntil,
        GRACE_DAYS))
  }

  /** The reported `max_drivers` is the number `getLimit` returns for a `{value: n}` limit,
      and 0 when the limit is absent. */
  lemma MaxDriversAgreesWithLimit(e: Entitlements, subs: map<string, Subscription>, org: string, now: int)
    ensures MAX_DRIVERS in e.limits && e.limits[MAX_DRIVERS].JRecord? && e.limits[MAX_DRIVERS].value.Some?
            && e.limits[MAX_DRIVERS].value.value.JNum? ==>
              Get(Some(e), subs, org, now).body.maxDrivers == LimitOf(Some(e), MAX_DRIVERS)
    ensures MAX_DRIVERS !in e.limits ==> Get(Some(e), subs, org, now).body.maxDrivers == JNum(0)
  {
  }

  /** `max_drivers?.value || 0` reads only the `value` field: a bare number, an object whose
      value is falsy and a missing limit all report 0, and so does a zero extra-driver count. */
  lemma ReportedDefaults(subs: map<string, Subscription>, org: string, now: int)
    ensures Get(Some(Entitlements(None, Active, map[MAX_DRIVERS := JNum(25)], map[])), subs, org, now).body.maxDrivers == JNum(0)
    ensures Get(Some(Entitlements(None, Active, map[MAX_DRIVERS := JRecord(Some(JStr("")))], map[])), subs, org, now).body.maxDrivers == JNum(0)
    ensures Get(Some(Entitlements(None, Active, map[], map[EXTRA_DRIVERS := JNum(0)])), subs, org, now).body.extraDrivers == JNum(0)
    ensures var b := Get(Some(Entitlements(Some(""), Active, map[], map[])), subs, org, now).body;
            b.planCode.None? && b.realtimeTracking == JBool(false) && b.addonRealtimeTracking == JBool(false)
  {
  }

  /** Reporting 365 retention days implies `canUseAuditRetention` allows 365; the converse
      fails, because the enforcement also accepts a limit that is exactly `true`. */
  lemma RetentionDaysAgreeWithEnforcement(e: Entitlements, subs: map<string, Subscription>, org: string, now: int)
    ensures Get(Some(e), subs, org, now).body.auditRetentionDays == 365 ==> CanUseAuditRetention(Some(e)) == 365
    ensures var only := Entitlements(None, Active, map[AUDIT_RETENTION_365 := JBool(true)], map[]);
            Get(Some(only), subs, org, now).body.auditRetentionDays == 30 && CanUseAuditRetention(Some(only)) == 365
  {
  }

  /** For a rebuilt organization with the realtime-tracking add-on, both tracking fields are `true`. */
  lemma {:induction false} TrackingReportedAfterRebuild(subs: map<string, Subscription>, plans: map<string, Plan>,
                                                        orgAddons: map<string, Option<seq<OrgAddon>>>, org: string, now: int, i: nat)
    requires LiveSubscription(subs, org).Some?
    requires AddonsFor(orgAddons, org).Some?
    requires i < |AddonsFor(orgAddons, org).value| && HasCode(AddonsFor(orgAddons, org).value[i], REALTIME_TRACKING)
    ensures Rebuilt(subs, plans, orgAddons, org, now).Some?
    ensures var b := Get(Some(View(Rebuilt(subs, plans, orgAddons, org, now).value)), subs, org, now).body;
            b.realtimeTracking == JBool(true) && b.addonRealtimeTracking == JBool(true)
  {
    var sub := LiveSubscription(subs, org).value;
    var rows := AddonsFor(orgAddons, org).value;
    var c := Composed(BaseLimits(LimitRowsOf(PlanOf(plans, sub))), map[]);
    FlagAddonIsSet(c, rows, i);
    RealtimeTrackingLimitIsSet(c, rows, i);
  }
}
