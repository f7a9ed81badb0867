/** Rebuilding an organization's entitlements snapshot from its single live subscription,
    the plan's limit rows and the organization's active add-ons. */
module Rebuild {

  import opened Common
  import opened Billing

  const EXTRA_DRIVERS := "extra_drivers"
  const REALTIME_TRACKING := "realtime_tracking"
  const AUDIT_RETENTION_365 := "audit_retention_365"
  const MAX_DRIVERS := "max_drivers"
  const AUDIT_RETENTION_DAYS := "audit_retention_days"

  // ---------------------------------------------------------------------------
  // The live-subscription query

  /** Keys of the organization's subscriptions in a live status. */
  function LiveKeys(subs: map<string, Subscription>, org: string): set<string> {
    set k | k in subs && subs[k].organizationId == org && IsLive(subs[k].status)
  }

  /** The live-status query with `.single()`: a subscription only when exactly one row matches. */
  function LiveSubscription(subs: map<string, Subscription>, org: string): (r: Option<Subscription>)
    ensures r.Some? <==> |LiveKeys(subs, org)| == 1
    ensures r.Some? ==> r.value.organizationId == org && IsLive(r.value.status)
    ensures r.Some? ==> exists k :: k in subs && subs[k] == r.value
  {
    match TheOnly(LiveKeys(subs, org))
    case None => None
    case Some(k) => assert k in LiveKeys(subs, org); Some(subs[k])
  }

  // ---------------------------------------------------------------------------
  // Base limits from the plan's limit rows

  /** `limits[row.limit_key] = row.limit_value` for each row in turn. */
  function BaseLimits(rows: seq<LimitRow>): map<string, Json>
    decreases |rows|
  {
    if rows == [] then map[]
    else BaseLimits(rows[..|rows| - 1])[rows[|rows| - 1].limitKey := rows[|rows| - 1].limitValue]
  }

  /** The keys the limit rows name. */
  function RowKeys(rows: seq<LimitRow>): set<string> {
    set k | 0 <= k < |rows| :: rows[k].limitKey
  }

  /** The base limits have exactly one key per distinct row key. */
  lemma {:induction false} BaseLimitsKeys(rows: seq<LimitRow>)
    ensures BaseLimits(rows).Keys == RowKeys(rows)
    decreases |rows|
  {
    if rows != [] {
      var n := |rows| - 1;
      BaseLimitsKeys(rows[..n]);
      assert RowKeys(rows) == RowKeys(rows[..n]) + {rows[n].limitKey} by {
        forall x | x in RowKeys(rows) ensures x in RowKeys(rows[..n]) + {rows[n].limitKey} {
          var k :| 0 <= k < |rows| && rows[k].limitKey == x;
          if k < n { assert rows[..n][k] == rows[k]; }
        }
        forall x | x in RowKeys(rows[..n]) ensures x in RowKeys(rows) {
          var k :| 0 <= k < n && rows[..n][k].limitKey == x;
          assert rows[k] == rows[..n][k];
        }
      }
    }
  }

  /** On a duplicate key the last row wins: a row that no later row overrides gives its value. */
  lemma {:induction false} BaseLimitsLastWins(rows: seq<LimitRow>, i: nat)
    requires i < |rows|
    requires forall j :: i < j < |rows| ==> rows[j].limitKey != rows[i].limitKey
    ensures rows[i].limitKey in BaseLimits(rows)
    ensures BaseLimits(rows)[rows[i].limitKey] == rows[i].limitValue
    decreases |rows|
  {
    var n := |rows| - 1;
    if i < n {
      BaseLimitsLastWins(rows[..n], i);
    }
  }

  /** The `forEach` over the plan's limit rows. */
  method BuildLimits(rows: seq<LimitRow>) returns (limits: map<string, Json>)
    ensures limits == BaseLimits(rows)
  {
    limits := map[];
    var i := 0;
    while i < |rows|
      invariant 0 <= i <= |rows|
      invariant limits == BaseLimits(rows[..i])
    {
      assert rows[..i + 1][..i] == rows[..i];
      limits := limits[rows[i].limitKey := rows[i].limitValue];
      i := i + 1;
    }
    assert rows[..|rows|] == rows;
  }

  // ---------------------------------------------------------------------------
  // Add-on composition

  /** `quantity || d`. */
  function QuantityOr(quantity: Option<int>, d: int): int {
    if quantity.Some? && quantity.value != 0 then quantity.value else d
  }

  /** The number `limits.max_drivers?.value || 0` contributes to the addition. */
  function CurrentMaxDrivers(limits: map<string, Json>): int {
    match ValueField(Lookup(limits, MAX_DRIVERS))
    case Some(JNum(n)) => n
    case Some(JBool(true)) => 1
    case _ => 0
  }

  datatype Composed = Composed(limits: map<string, Json>, addons: map<string, Json>)

  /** One add-on row applied to the local `limits` and `addons` objects. */
  function AddonStep(c: Composed, row: OrgAddon): Composed {
    if row.code.None? || row.code.value == "" then c
    else if row.code.value == EXTRA_DRIVERS then
      Composed(
        c.limits[MAX_DRIVERS := JRecord(Some(JNum(CurrentMaxDrivers(c.limits) + QuantityOr(row.quantity, 0))))],
        c.addons[EXTRA_DRIVERS := JNum(QuantityOr(row.quantity, 1))])
    else if row.code.value == REALTIME_TRACKING then
      Composed(c.limits[REALTIME_TRACKING := JBool(true)], c.addons[REALTIME_TRACKING := JBool(true)])
    else if row.code.value == AUDIT_RETENTION_365 then
      Composed(c.limits[AUDIT_RETENTION_DAYS := JNum(365)], c.addons[AUDIT_RETENTION_365 := JBool(true)])
    else
      Composed(c.limits, c.addons[row.code.value := JBool(true)])
  }

  /** The add-on rows applied in order. */
  function Compose(c: Composed, rows: seq<OrgAddon>): Composed
    decreases |rows|
  {
    if rows == [] then c else AddonStep(Compose(c, rows[..|rows| - 1]), rows[|rows| - 1])
  }

  /** The `forEach` over the active add-on rows, starting from the base limits and no add-ons. */
  method ApplyAddons(limits: map<string, Json>, rows: seq<OrgAddon>) returns (c: Composed)
    ensures c == Compose(Composed(limits, map[]), rows)
  {
    var ls := limits;
    var addons: map<string, Json> := map[];
    var i := 0;
    while i < |rows|
      invariant 0 <= i <= |rows|
      invariant Composed(ls, addons) == Compose(Composed(limits, map[]), rows[..i])
    {
      assert rows[..i + 1][..i] == rows[..i];
      var row := rows[i];
      if row.code.Some? && row.code.value != "" {
        var code := row.code.value;
        if code == EXTRA_DRIVERS {
          addons := addons[code := JNum(QuantityOr(row.quantity, 1))];
          var current := CurrentMaxDrivers(ls);
          ls := ls[MAX_DRIVERS := JRecord(Some(JNum(current + QuantityOr(row.quantity, 0))))];
        } else if code == REALTIME_TRACKING {
          addons := addons[code := JBool(true)];
          ls := ls[REALTIME_TRACKING := JBool(true)];
        } else if code == AUDIT_RETENTION_365 {
          addons := addons[code := JBool(true)];
          ls := ls[AUDIT_RETENTION_DAYS := JNum(365)];
        } else {
          addons := addons[code := JBool(true)];
        }
      }
      i := i + 1;
    }
    assert rows[..|rows|] == rows;
    c := Composed(ls, addons);
  }

  /** Sum of `quantity || 0` over the rows. */
  function SumQuantity(rows: seq<OrgAddon>): int
    decreases |rows|
  {
    if rows == [] then 0 else SumQuantity(rows[..|rows| - 1]) + QuantityOr(rows[|rows| - 1].quantity, 0)
  }

  predicate HasCode(row: OrgAddon, code: string) {
    row.code == Some(code)
  }

  /** The extra-driver rows among the add-on rows, in order. */
  function ExtraRows(rows: seq<OrgAddon>): seq<OrgAddon> {
    Filter(rows, (r: OrgAddon) => HasCode(r, EXTRA_DRIVERS))
  }

  /** The extra-driver rows of a longer list: those of the prefix, then the last row if it is one. */
  lemma ExtraRowsStep(rows: seq<OrgAddon>)
    requires rows != []
    ensures ExtraRows(rows) == ExtraRows(rows[..|rows| - 1]) + (if HasCode(rows[|rows| - 1], EXTRA_DRIVERS) then [rows[|rows| - 1]] else [])
  {
  }

  /** One add-on row: an extra-driver row adds its quantity to `max_drivers` and records its
      `quantity || 1`; any other row leaves both alone. */
  lemma AddonStepExtraDrivers(c: Composed, row: OrgAddon)
    ensures HasCode(row, EXTRA_DRIVERS) ==>
              && AddonStep(c, row).limits == c.limits[MAX_DRIVERS := JRecord(Some(JNum(CurrentMaxDrivers(c.limits) + QuantityOr(row.quantity, 0))))]
              && AddonStep(c, row).addons[EXTRA_DRIVERS] == JNum(QuantityOr(row.quantity, 1))
              && EXTRA_DRIVERS in AddonStep(c, row).addons
    ensures !HasCode(row, EXTRA_DRIVERS) ==>
              && Lookup(AddonStep(c, row).limits, MAX_DRIVERS) == Lookup(c.limits, MAX_DRIVERS)
              && Lookup(AddonStep(c, row).addons, EXTRA_DRIVERS) == Lookup(c.addons, EXTRA_DRIVERS)
  {
  }

  /** One more row adds its quantity to the sum. */
  lemma SumQuantityAppend(rows: seq<OrgAddon>, x: OrgAddon)
    ensures SumQuantity(rows + [x]) == SumQuantity(rows) + QuantityOr(x.quantity, 0)
  {
    assert (rows + [x])[..|rows|] == rows;
  }

  /** Extra-driver add-ons compose additively, whatever other add-ons are in the list:
      `max_drivers` becomes `{value: base + Σ quantity}` over the extra-driver rows and the
      add-on records the last of them's `quantity || 1`; with no extra-driver row,
      `max_drivers` and the extra-driver add-on are left as they were. */
  lemma {:induction false} ExtraDriversAdd(c: Composed, rows: seq<OrgAddon>)
    ensures var e := ExtraRows(rows);
            e != [] ==>
              && MAX_DRIVERS in Compose(c, rows).limits && EXTRA_DRIVERS in Compose(c, rows).addons
              && Compose(c, rows).limits[MAX_DRIVERS] == JRecord(Some(JNum(CurrentMaxDrivers(c.limits) + SumQuantity(e))))
              && Compose(c, rows).addons[EXTRA_DRIVERS] == JNum(QuantityOr(e[|e| - 1].quantity, 1))
    ensures ExtraRows(rows) == [] ==>
              && Lookup(Compose(c, rows).limits, MAX_DRIVERS) == Lookup(c.limits, MAX_DRIVERS)
              && Lookup(Compose(c, rows).addons, EXTRA_DRIVERS) == Lookup(c.addons, EXTRA_DRIVERS)
    decreases |rows|
  {
    ComposeExtraDrivers(c, rows);
  }

  /** The induction behind `ExtraDriversAdd`. */
  lemma {:induction false} ComposeExtraDrivers(c: Composed, rows: seq<OrgAddon>)
    ensures ExtraDriversState(c, Compose(c, rows), ExtraRows(rows))
    decreases |rows|
  {
    if rows != [] {
      var n := |rows| - 1;
      ComposeExtraDrivers(c, rows[..n]);
      var prev := Compose(c, rows[..n]);
      var e := ExtraRows(rows[..n]);
      ExtraRowsStep(rows);
      AddonStepExtraDrivers(prev, rows[n]);
      if HasCode(rows[n], EXTRA_DRIVERS) {
        ExtraDriversStep(c, prev, AddonStep(prev, rows[n]), rows[n], e);
      } else {
        OtherAddonStep(c, prev, AddonStep(prev, rows[n]), e);
      }
    }
  }

  /** What `ExtraDriversAdd` states of a composed state, given the extra-driver rows applied. */
  predicate ExtraDriversState(c: Composed, cur: Composed, e: seq<OrgAddon>) {
    if e != [] then
      && MAX_DRIVERS in cur.limits && EXTRA_DRIVERS in cur.addons
      && cur.limits[MAX_DRIVERS] == JRecord(Some(JNum(CurrentMaxDrivers(c.limits) + SumQuantity(e))))
      && cur.addons[EXTRA_DRIVERS] == JNum(QuantityOr(e[|e| - 1].quantity, 1))
    else
      && Lookup(cur.limits, MAX_DRIVERS) == Lookup(c.limits, MAX_DRIVERS)
      && Lookup(cur.addons, EXTRA_DRIVERS) == Lookup(c.addons, EXTRA_DRIVERS)
  }

  /** Before any extra-driver row, `max_drivers` contributes what it did at the start; after
      some, it contributes the base plus their quantities. */
  lemma CurrentMaxDriversOfState(c: Composed, cur: Composed, e: seq<OrgAddon>)
    requires ExtraDriversState(c, cur, e)
    ensures CurrentMaxDrivers(cur.limits) == CurrentMaxDrivers(c.limits) + SumQuantity(e)
  {
    if e == [] {
      assert SumQuantity(e) == 0;
    } else {
      assert Lookup(cur.limits, MAX_DRIVERS) == Some(JRecord(Some(JNum(CurrentMaxDrivers(c.limits) + SumQuantity(e)))));
    }
  }

  /** The inductive step of `ExtraDriversAdd` for an extra-driver row. */
  lemma ExtraDriversStep(c: Composed, prev: Composed, next: Composed, row: OrgAddon, e: seq<OrgAddon>)
    requires ExtraDriversState(c, prev, e)
    requires next.limits == prev.limits[MAX_DRIVERS := JRecord(Some(JNum(CurrentMaxDrivers(prev.limits) + QuantityOr(row.quantity, 0))))]
    requires EXTRA_DRIVERS in next.addons && next.addons[EXTRA_DRIVERS] == JNum(QuantityOr(row.quantity, 1))
    ensures ExtraDriversState(c, next, e + [row])
  {
    CurrentMaxDriversOfState(c, prev, e);
    SumQuantityAppend(e, row);
    assert (e + [row])[|e|] == row;
  }

  /** The inductive step of `ExtraDriversAdd` for any other row. */
  lemma OtherAddonStep(c: Composed, prev: Composed, next: Composed, e: seq<OrgAddon>)
    requires ExtraDriversState(c, prev, e)
    requires Lookup(next.limits, MAX_DRIVERS) == Lookup(prev.limits, MAX_DRIVERS)
    requires Lookup(next.addons, EXTRA_DRIVERS) == Lookup(prev.addons, EXTRA_DRIVERS)
    ensures ExtraDriversState(c, next, e)
  {
    if e != [] {
      assert Lookup(next.limits, MAX_DRIVERS).Some? && Lookup(next.addons, EXTRA_DRIVERS).Some?;
    }
  }

  /** A base of `{value: 25}` with ten extra drivers gives `{value: 35}`; a bare number base
      has no `value` field and counts as 0. */
  lemma ExtraDriversExamples()
    ensures Compose(Composed(map[MAX_DRIVERS := JRecord(Some(JNum(25)))], map[]), [OrgAddon(Some(10), Some(EXTRA_DRIVERS))]).limits[MAX_DRIVERS]
         == JRecord(Some(JNum(35)))
    ensures Compose(Composed(map[MAX_DRIVERS := JNum(25)], map[]), [OrgAddon(Some(10), Some(EXTRA_DRIVERS))]).limits[MAX_DRIVERS]
         == JRecord(Some(JNum(10)))
  {
    var one := [OrgAddon(Some(10), Some(EXTRA_DRIVERS))];
    assert one[..0] == [];
  }

  predicate IsSpecialCode(code: string) {
    code == EXTRA_DRIVERS || code == REALTIME_TRACKING || code == AUDIT_RETENTION_365
  }

  /** Add-on codes other than the three recognised ones leave the limits unchanged. */
  lemma {:induction false} PlainCodesKeepLimits(c: Composed, rows: seq<OrgAddon>)
    requires forall k :: 0 <= k < |rows| ==> rows[k].code.None? || !IsSpecialCode(rows[k].code.value)
    ensures Compose(c, rows).limits == c.limits
    decreases |rows|
  {
    if rows != [] {
      PlainCodesKeepLimits(c, rows[..|rows| - 1]);
    }
  }

  /** Codes whose rows carry a non-empty code. */
  function CodesOf(rows: seq<OrgAddon>): set<string> {
    set k | 0 <= k < |rows| && rows[k].code.Some? && rows[k].code.value != "" :: rows[k].code.value
  }

  /** The add-ons map gains exactly one key per non-empty code; rows without a code are skipped. */
  lemma {:induction false} AddonKeys(c: Composed, rows: seq<OrgAddon>)
    ensures Compose(c, rows).addons.Keys == c.addons.Keys + CodesOf(rows)
    decreases |rows|
  {
    if rows != [] {
      var n := |rows| - 1;
      AddonKeys(c, rows[..n]);
      var last := if rows[n].code.Some? && rows[n].code.value != "" then {rows[n].code.value} else {};
      assert CodesOf(rows) == CodesOf(rows[..n]) + last by {
        forall x | x in CodesOf(rows) ensures x in CodesOf(rows[..n]) + last {
          var k :| 0 <= k < |rows| && rows[k].code.Some? && rows[k].code.value != "" && rows[k].code.value == x;
          if k < n { assert rows[..n][k] == rows[k]; }
        }
        forall x | x in CodesOf(rows[..n]) ensures x in CodesOf(rows) {
          var k :| 0 <= k < n && rows[..n][k].code.Some? && rows[..n][k].code.value != "" && rows[..n][k].code.value == x;
          assert rows[k] == rows[..n][k];
        }
      }
    }
  }

  /** Once a row with a flag code (any code but extra_drivers) is applied, that add-on stays true. */
  lemma {:induction false} FlagAddonIsSet(c: Composed, rows: seq<OrgAddon>, i: nat)
    requires i < |rows|
    requires rows[i].code.Some? && rows[i].code.value != "" && rows[i].code.value != EXTRA_DRIVERS
    ensures rows[i].code.value in Compose(c, rows).addons
    ensures Compose(c, rows).addons[rows[i].code.value] == JBool(true)
    decreases |rows|
  {
    var n := |rows| - 1;
    if i < n {
      FlagAddonIsSet(c, rows[..n], i);
      assert rows[..n][i] == rows[i];
    }
  }

  /** A realtime-tracking add-on turns the `realtime_tracking` limit on. */
  lemma {:induction false} RealtimeTrackingLimitIsSet(c: Composed, rows: seq<OrgAddon>, i: nat)
    requires i < |rows| && HasCode(rows[i], REALTIME_TRACKING)
    ensures REALTIME_TRACKING in Compose(c, rows).limits
    ensures Compose(c, rows).limits[REALTIME_TRACKING] == JBool(true)
    decreases |rows|
  {
    var n := |rows| - 1;
    if i < n {
      RealtimeTrackingLimitIsSet(c, rows[..n], i);
      assert rows[..n][i] == rows[i];
    }
  }

  /** A 365-day retention add-on sets `audit_retention_days` to 365. */
  lemma {:induction false} AuditRetentionLimitIsSet(c: Composed, rows: seq<OrgAddon>, i: nat)
    requires i < |rows| && HasCode(rows[i], AUDIT_RETENTION_365)
    ensures AUDIT_RETENTION_DAYS in Compose(c, rows).limits
    ensures Compose(c, rows).limits[AUDIT_RETENTION_DAYS] == JNum(365)
    decreases |rows|
  {
    var n := |rows| - 1;
    if i < n {
      AuditRetentionLimitIsSet(c, rows[..n], i);
      assert rows[..n][i] == rows[i];
    }
  }

  // ---------------------------------------------------------------------------
  // Status and the snapshot

  /** `grace_period` when past due with a grace deadline strictly after `now`; otherwise the
      subscription's own status. */
  function DeriveStatus(sub: Subscription, now: int): (s: Status)
    ensures sub.status == PastDue && sub.gracePeriodUntil.Some? && sub.gracePeriodUntil.value > now ==> s == GracePeriod
    ensures !(sub.status == PastDue && sub.gracePeriodUntil.Some? && sub.gracePeriodUntil.value > now) ==> s == sub.status
  {
    if sub.status == PastDue && sub.gracePeriodUntil.Some? && sub.gracePeriodUntil.value > now then GracePeriod
    else sub.status
  }

  /** The joined plan of a subscription, absent when the plan row is missing. */
  function PlanOf(plans: map<string, Plan>, sub: Subscription): Option<Plan> {
    if sub.planId in plans then Some(plans[sub.planId]) else None
  }

  /** `plan?.plan_limits || []`. */
  function LimitRowsOf(plan: Option<Plan>): seq<LimitRow> {
    if plan.Some? then plan.value.limits else []
  }

  /** `plan?.code || null`. */
  function PlanCode(plan: Option<Plan>): (r: Option<string>)
    ensures r.Some? <==> plan.Some? && plan.value.code != ""
    ensures r.Some? ==> r.value == plan.value.code
  {
    if plan.Some? && plan.value.code != "" then Some(plan.value.code) else None
  }

  /** The result of the active add-on query for an organization (`None`: it failed). */
  function AddonsFor(orgAddons: map<string, Option<seq<OrgAddon>>>, org: string): Option<seq<OrgAddon>> {
    if org in orgAddons then orgAddons[org] else Some([])
  }

  function InactiveSnapshot(now: int): Snapshot {
    Snapshot(None, Inactive, map[], map[], now)
  }

  /** The snapshot a rebuild writes, or `None` when it writes nothing. */
  function Rebuilt(subs: map<string, Subscription>, plans: map<string, Plan>,
                   orgAddons: map<string, Option<seq<OrgAddon>>>, org: string, now: int): Option<Snapshot>
  {
    match LiveSubscription(subs, org)
    case None => Some(InactiveSnapshot(now))
    case Some(sub) =>
      match AddonsFor(orgAddons, org)
      case None => None
      case Some(rows) =>
        var plan := PlanOf(plans, sub);
        var c := Compose(Composed(BaseLimits(LimitRowsOf(plan)), map[]), rows);
        Some(Snapshot(PlanCode(plan), DeriveStatus(sub, now), c.limits, c.addons, now))
  }

  /** The entitlements table after a rebuild for `org`: the snapshot replaces the row
      wholesale, keyed on the organization. */
  function ApplyRebuild(ents: map<string, Snapshot>, subs: map<string, Subscription>, plans: map<string, Plan>,
                        orgAddons: map<string, Option<seq<OrgAddon>>>, org: string, now: int): (r: map<string, Snapshot>)
    ensures forall o :: o in ents && o != org ==> o in r && r[o] == ents[o]
    ensures forall o :: o in r ==> o in ents || o == org
  {
    match Rebuilt(subs, plans, orgAddons, org, now)
    case None => ents
    case Some(s) => ents[org := s]
  }

  /** No single live subscription: the snapshot is `{plan_code: null, status: inactive, limits: {}, addons: {}}`. */
  lemma NoLiveSubscriptionIsInactive(ents: map<string, Snapshot>, subs: map<string, Subscription>, plans: map<string, Plan>,
                                     orgAddons: map<string, Option<seq<OrgAddon>>>, org: string, now: int)
    requires |LiveKeys(subs, org)| != 1
    ensures ApplyRebuild(ents, subs, plans, orgAddons, org, now) == ents[org := Snapshot(None, Inactive, map[], map[], now)]
  {
  }

  /** When the add-on query fails, nothing is written and the previous snapshot stays. */
  lemma AddonFailureWritesNothing(ents: map<string, Snapshot>, subs: map<string, Subscription>, plans: map<string, Plan>,
                                  orgAddons: map<string, Option<seq<OrgAddon>>>, org: string, now: int)
    requires |LiveKeys(subs, org)| == 1
    requires org in orgAddons && orgAddons[org].None?
    ensures ApplyRebuild(ents, subs, plans, orgAddons, org, now) == ents
  {
  }

  /** A written snapshot of a live subscription: its status is `grace_period` exactly when the
      subscription is past due with a deadline after now, its plan code is the plan's, its
      limits and add-ons are the plan's base limits composed with the add-on rows, so the
      add-ons are keyed by the add-on codes, every plan-limit key stays, and with extra-driver
      rows `max_drivers` is the base plus their quantities. */
  lemma {:induction false} LiveSnapshotShape(subs: map<string, Subscription>, plans: map<string, Plan>,
                                             orgAddons: map<string, Option<seq<OrgAddon>>>, org: string, now: int)
    requires LiveSubscription(subs, org).Some?
    requires AddonsFor(orgAddons, org).Some?
    ensures var sub := LiveSubscription(subs, org).value;
            var rows := AddonsFor(orgAddons, org).value;
            var plan := PlanOf(plans, sub);
            var s := Rebuilt(subs, plans, orgAddons, org, now);
            && s.Some?
            && (s.value.status == GracePeriod <==>
                  (sub.status == PastDue && sub.gracePeriodUntil.Some? && sub.gracePeriodUntil.value > now))
            && (s.value.status != GracePeriod ==> s.value.status == sub.status)
            && s.value.planCode == PlanCode(plan)
            && s.value.limits == Compose(Composed(BaseLimits(LimitRowsOf(plan)), map[]), rows).limits
            && s.value.addons == Compose(Composed(BaseLimits(LimitRowsOf(plan)), map[]), rows).addons
            && s.value.addons.Keys == CodesOf(rows)
            && BaseLimits(LimitRowsOf(plan)).Keys <= s.value.limits.Keys
            && (ExtraRows(rows) != [] ==>
                  && MAX_DRIVERS in s.value.limits
                  && s.value.limits[MAX_DRIVERS]
                       == JRecord(Some(JNum(CurrentMaxDrivers(BaseLimits(LimitRowsOf(plan))) + SumQuantity(ExtraRows(rows))))))
  {
    var sub := LiveSubscription(subs, org).value;
    var rows := AddonsFor(orgAddons, org).value;
    var base := BaseLimits(LimitRowsOf(PlanOf(plans, sub)));
    AddonKeys(Composed(base, map[]), rows);
    ComposeKeepsLimitKeys(Composed(base, map[]), rows);
    ExtraDriversAdd(Composed(base, map[]), rows);
  }

  /** Composition only adds limit keys, never removes one. */
  lemma {:induction false} ComposeKeepsLimitKeys(c: Composed, rows: seq<OrgAddon>)
    ensures c.limits.Keys <= Compose(c, rows).limits.Keys
    decreases |rows|
  {
    if rows != [] {
      ComposeKeepsLimitKeys(c, rows[..|rows| - 1]);
    }
  }

  /** Rebuilding for `org` writes the snapshot `Rebuilt` computes, or nothing. */
  method RebuildEntitlements(db: Db, org: string, now: int)
    modifies db`entitlements
    ensures db.entitlements == ApplyRebuild(old(db.entitlements), db.subscriptions, db.plans, db.orgAddons, org, now)
  {
    var live := LiveSubscription(db.subscriptions, org);
    if live.None? {
      db.entitlements := db.entitlements[org := Snapshot(None, Inactive, map[], map[], now)];
      return;
    }
    var sub := live.value;
    var plan := PlanOf(db.plans, sub);
    var limits := BuildLimits(LimitRowsOf(plan));
    var fetched := AddonsFor(db.orgAddons, org);
    if fetched.Some? {
      var composed := ApplyAddons(limits, fetched.value);
      var status := sub.status;
      if sub.status == PastDue {
        if sub.gracePeriodUntil.Some? {
          if sub.gracePeriodUntil.value > now {
            status := GracePeriod;
          }
        }
      }
      db.entitlements := db.entitlements[org := Snapshot(PlanCode(plan), status, composed.limits, composed.addons, now)];
    }
  }
}
