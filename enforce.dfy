/** Enforcement decisions over an organization's entitlements: the grace-period check, the
    driver and tracking gates, audit retention, and the status report for writes that
    tolerate grace. Each takes `e`, the result of reading the organization's entitlements,
    together with the subscriptions table and the current time for the grace check. */
module Enforce {

  import opened Common
  import opened Billing
  import opened StripeWebhooks
  import opened Rebuild
  import opened Check

  datatype GraceInfo = GraceInfo(isInGrace: bool, graceUntil: Option<int>, daysRemaining: int)

  /** `Math.ceil(a / b)` for positive `b`. */
  function CeilDiv(a: int, b: int): (q: int)
    requires b > 0
    ensures (q - 1) * b < a <= q * b
  {
    if a % b == 0 then a / b else a / b + 1
  }

  /** `checkGracePeriod`: in grace when the organization's single live subscription is past
      due with a deadline after now; the days remaining round up. */
  function CheckGracePeriod(subs: map<string, Subscription>, org: string, now: int): (g: GraceInfo)
    ensures var live := LiveSubscription(subs, org);
            g.isInGrace <==>
              live.Some? && live.value.status == PastDue && live.value.gracePeriodUntil.Some? && live.value.gracePeriodUntil.value > now
    ensures var live := LiveSubscription(subs, org);
            g.graceUntil.Some? <==> live.Some? && live.value.status == PastDue && live.value.gracePeriodUntil.Some?
    ensures g.graceUntil.Some? ==> g.graceUntil == LiveSubscription(subs, org).value.gracePeriodUntil
    ensures !g.isInGrace ==> g.daysRemaining == 0
    ensures g.isInGrace ==>
              g.daysRemaining >= 1 && (g.daysRemaining - 1) * DAY_MS < g.graceUntil.value - now <= g.daysRemaining * DAY_MS
  {
    var live := LiveSubscription(subs, org);
    if live.None? || live.value.status != PastDue then GraceInfo(false, None, 0)
    else if live.value.gracePeriodUntil.None? then GraceInfo(false, None, 0)
    else
      var until := live.value.gracePeriodUntil.value;
      var isInGrace := until > now;
      GraceInfo(isInGrace, Some(until), if isInGrace then CeilDiv(until - now, DAY_MS) else 0)
  }

  /** A deadline written by a payment failure at time `t` still has all seven days left at `t`. */
  lemma FreshGraceHasSevenDays(sub: Subscription, subs: map<string, Subscription>, org: string, t: int)
    requires LiveSubscription(subs, org) == Some(sub)
    requires sub.status == PastDue && sub.gracePeriodUntil == Some(t + GRACE_DAYS * DAY_MS)
    ensures CheckGracePeriod(subs, org, t) == GraceInfo(true, Some(t + GRACE_DAYS * DAY_MS), GRACE_DAYS)
  {
  }

  /** Why an action was refused. */
  datatype DenyReason =
    | NoEntitlements
    | SubscriptionInactive
    | GraceExpired
    | InvalidMaxDrivers
    | MaxDriversReached(max: int)
    | TrackingAddonRequired

  function ReasonText(r: DenyReason): string {
    match r
    case NoEntitlements => "No entitlements found"
    case SubscriptionInactive => "Subscription inactive"
    case GraceExpired => "Grace period expired. Please update payment method."
    case InvalidMaxDrivers => "Invalid max_drivers limit"
    case MaxDriversReached(max) => "Maximum drivers limit reached (" + IntToString(max) + ")"
    case TrackingAddonRequired => "Realtime tracking addon required. Please upgrade your plan."
  }

  /** The status gate shared by the critical writes: `None` when it lets the request through. */
  function StatusGate(e: Entitlements, subs: map<string, Subscription>, org: string, now: int): (r: Option<DenyReason>)
    ensures r.None? <==> e.status != Inactive && e.status != Canceled &&
                         (e.status == PastDue ==> CheckGracePeriod(subs, org, now).isInGrace)
    ensures r.Some? ==> r.value == SubscriptionInactive || r.value == GraceExpired
  {
    if e.status == Inactive || e.status == Canceled then Some(SubscriptionInactive)
    else if e.status == PastDue && !CheckGracePeriod(subs, org, now).isInGrace then Some(GraceExpired)
    else None
  }

  /** The number of drivers assumed to exist: no driver table is read yet. */
  const CURRENT_DRIVER_COUNT: int := 0

  datatype DriverDecision = DriverDecision(
    allowed: bool,
    reason: Option<DenyReason>,
    currentCount: Option<int>,
    maxDrivers: Option<int>)

  /** `canCreateDriver`. */
  function CanCreateDriver(e: Option<Entitlements>, subs: map<string, Subscription>, org: string, now: int): (d: DriverDecision)
    ensures d.allowed <==>
              && e.Some?
              && StatusGate(e.value, subs, org, now).None?
              && LimitOf(e, MAX_DRIVERS).JNum?
              && LimitOf(e, MAX_DRIVERS).n > CURRENT_DRIVER_COUNT
    ensures d.allowed <==> d.reason.None?
    ensures e.None? ==> d.reason == Some(NoEntitlements)
    ensures e.Some? && StatusGate(e.value, subs, org, now).Some? ==> d.reason == StatusGate(e.value, subs, org, now)
    ensures e.Some? && StatusGate(e.value, subs, org, now).None? && !LimitOf(e, MAX_DRIVERS).JNum? ==>
              d.reason == Some(InvalidMaxDrivers)
    ensures e.Some? && StatusGate(e.value, subs, org, now).None? && LimitOf(e, MAX_DRIVERS).JNum?
            && LimitOf(e, MAX_DRIVERS).n <= CURRENT_DRIVER_COUNT ==>
              && d.reason == Some(MaxDriversReached(LimitOf(e, MAX_DRIVERS).n))
              && d.maxDrivers == Some(LimitOf(e, MAX_DRIVERS).n)
              && d.currentCount == Some(CURRENT_DRIVER_COUNT)
    ensures d.maxDrivers.Some? <==> d.currentCount.Some?
    ensures d.maxDrivers.Some? ==> LimitOf(e, MAX_DRIVERS) == JNum(d.maxDrivers.value) && d.currentCount == Some(0)
    ensures d.reason.Some? && d.reason.value.MaxDriversReached? ==> d.maxDrivers == Some(d.reason.value.max) && d.reason.value.max <= 0
  {
    if e.None? then DriverDecision(false, Some(NoEntitlements), None, None)
    else if StatusGate(e.value, subs, org, now).Some? then DriverDecision(false, StatusGate(e.value, subs, org, now), None, None)
    else
      match LimitOf(e, MAX_DRIVERS)
      case JNum(maxDrivers) =>
        if CURRENT_DRIVER_COUNT >= maxDrivers then
          DriverDecision(false, Some(MaxDriversReached(maxDrivers)), Some(CURRENT_DRIVER_COUNT), Some(maxDrivers))
        else DriverDecision(true, None, Some(CURRENT_DRIVER_COUNT), Some(maxDrivers))
      case _ => DriverDecision(false, Some(InvalidMaxDrivers), None, None)
  }

  /** An organization in the `grace_period` snapshot status passes the status gate without
      any grace lookup; only `past_due` consults the subscription. */
  lemma GracePeriodStatusPassesGate(e: Entitlements, subs: map<string, Subscription>, org: string, now: int)
    requires e.status == GracePeriod
    ensures StatusGate(e, subs, org, now).None?
  {
  }

  /** A plan limit of `{value: 25}` admits a new driver; a limit of `{value: 0}` refuses with
      the reached-limit message; a limit that is not a number is refused as invalid. */
  lemma DriverLimitExamples()
    ensures CanCreateDriver(Some(Entitlements(None, Active, map[MAX_DRIVERS := JRecord(Some(JNum(25)))], map[])), map[], "o", 0)
         == DriverDecision(true, None, Some(0), Some(25))
    ensures CanCreateDriver(Some(Entitlements(None, Active, map[MAX_DRIVERS := JRecord(Some(JNum(0)))], map[])), map[], "o", 0).reason
         == Some(MaxDriversReached(0))
    ensures ReasonText(MaxDriversReached(0)) == "Maximum drivers limit reached (0)"
    ensures CanCreateDriver(Some(Entitlements(None, Active, map[MAX_DRIVERS := JStr("25")], map[])), map[], "o", 0).reason
         == Some(InvalidMaxDrivers)
  {
  }

  datatype TrackingDecision = TrackingDecision(allowed: bool, reason: Option<DenyReason>)

  /** `canEnableTracking`. */
  function CanEnableTracking(e: Option<Entitlements>, subs: map<string, Subscription>, org: string, now: int): (d: TrackingDecision)
    ensures d.allowed <==> e.Some? && StatusGate(e.value, subs, org, now).None? && HasFeature(e, REALTIME_TRACKING)
    ensures d.allowed <==> d.reason.None?
    ensures e.None? ==> d.reason == Some(NoEntitlements)
    ensures e.Some? && StatusGate(e.value, subs, org, now).Some? ==> d.reason == StatusGate(e.value, subs, org, now)
    ensures e.Some? && StatusGate(e.value, subs, org, now).None? && !HasFeature(e, REALTIME_TRACKING) ==>
              d.reason == Some(TrackingAddonRequired)
  {
    if e.None? then TrackingDecision(false, Some(NoEntitlements))
    else if StatusGate(e.value, subs, org, now).Some? then TrackingDecision(false, StatusGate(e.value, subs, org, now))
    else if !HasFeature(e, REALTIME_TRACKING) then TrackingDecision(false, Some(TrackingAddonRequired))
    else TrackingDecision(true, None)
  }

  /** An active organization that rebuilt with a realtime-tracking add-on may enable tracking. */
  lemma {:induction false} TrackingAddonEnablesTracking(subs: map<string, Subscription>, plans: map<string, Plan>,
                                                        orgAddons: map<string, Option<seq<OrgAddon>>>, org: string, now: int, i: nat)
    requires LiveSubscription(subs, org).Some? && LiveSubscription(subs, org).value.status == Active
    requires AddonsFor(orgAddons, org).Some?
    requires i < |AddonsFor(orgAddons, org).value| && HasCode(AddonsFor(orgAddons, org).value[i], REALTIME_TRACKING)
    ensures Rebuilt(subs, plans, orgAddons, org, now).Some?
    ensures CanEnableTracking(Some(View(Rebuilt(subs, plans, orgAddons, org, now).value)), subs, org, now).allowed
  {
    RealtimeAddonGrantsFeature(subs, plans, orgAddons, org, now, i);
  }

  const DEFAULT_RETENTION_DAYS: int := 30
  const EXTENDED_RETENTION_DAYS: int := 365

  /** `canUseAuditRetention`: 365 days with the retention add-on, 30 otherwise (including
      when there are no entitlements). */
  function CanUseAuditRetention(e: Option<Entitlements>): (days: int)
    ensures days == EXTENDED_RETENTION_DAYS <==> HasFeature(e, AUDIT_RETENTION_365)
    ensures days == EXTENDED_RETENTION_DAYS || days == DEFAULT_RETENTION_DAYS
  {
    if e.None? then DEFAULT_RETENTION_DAYS
    else if HasFeature(e, AUDIT_RETENTION_365) then EXTENDED_RETENTION_DAYS
    else DEFAULT_RETENTION_DAYS
  }

  /** A rebuilt snapshot with an active 365-day retention add-on allows 365 days. */
  lemma {:induction false} RetentionAddonGives365(subs: map<string, Subscription>, plans: map<string, Plan>,
                                                  orgAddons: map<string, Option<seq<OrgAddon>>>, org: string, now: int, i: nat)
    requires LiveSubscription(subs, org).Some?
    requires AddonsFor(orgAddons, org).Some?
    requires i < |AddonsFor(orgAddons, org).value| && HasCode(AddonsFor(orgAddons, org).value[i], AUDIT_RETENTION_365)
    ensures Rebuilt(subs, plans, orgAddons, org, now).Some?
    ensures CanUseAuditRetention(Some(View(Rebuilt(subs, plans, orgAddons, org, now).value))) == 365
  {
    var sub := LiveSubscription(subs, org).value;
    var rows := AddonsFor(orgAddons, org).value;
    FlagAddonIsSet(Composed(BaseLimits(LimitRowsOf(PlanOf(plans, sub))), map[]), rows, i);
  }

  datatype StatusReport = StatusReport(status: string, isActive: bool, isInGrace: bool, warning: Option<string>)

  /** `checkStatus`, for writes that are allowed during grace. */
  function CheckStatus(e: Option<Entitlements>, subs: map<string, Subscription>, org: string, now: int): (r: StatusReport)
    ensures e.None? ==> r == StatusReport("inactive", false, false, None)
    ensures e.Some? ==> r.status == StatusName(e.value.status)
    ensures r.isActive <==> e.Some? && (e.value.status == Active || e.value.status == Trialing)
    ensures r.isInGrace <==> e.Some? && (e.value.status == GracePeriod ||
                                         (e.value.status == PastDue && CheckGracePeriod(subs, org, now).isInGrace))
    ensures !(r.isActive && r.isInGrace)
    ensures r.warning.Some? <==> e.Some? && e.value.status == PastDue && r.isInGrace
    ensures r.warning.Some? ==>
              var days := CheckGracePeriod(subs, org, now).daysRemaining;
              days >= 1 && r.warning.value == "Payment past due. Grace period expires in " + IntToString(days) + " days."
  {
    if e.None? then StatusReport("inactive", false, false, None)
    else
      var s := e.value.status;
      var isActive := s == Active || s == Trialing;
      var isInGrace := s == GracePeriod || (s == PastDue && CheckGracePeriod(subs, org, now).isInGrace);
      var warning :=
        if s == PastDue && isInGrace then
          Some("Payment past due. Grace period expires in " + IntToString(CheckGracePeriod(subs, org, now).daysRemaining) + " days.")
        else None;
      StatusReport(StatusName(s), isActive, isInGrace, warning)
  }
}
