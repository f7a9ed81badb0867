/** The platform console's plan catalogue: reading a plan with its limits sorted by key,
    partially updating a plan, and upserting or deleting its limits key by key. */
module Plans {

  import opened Common
  import opened PlatformStore
  import opened Audit

  // ---------------------------------------------------------------------------
  // Ordering limits by key

  /** Ascending text order, character by character (code-point order). */
  predicate KeyLe(a: string, b: string)
    decreases |a|
  {
    a == [] || (b != [] && (a[0] < b[0] || (a[0] == b[0] && KeyLe(a[1..], b[1..]))))
  }

  lemma {:induction false} KeyLeTotal(a: string, b: string)
    ensures KeyLe(a, b) || KeyLe(b, a)
    decreases |a|
  {
    if a != [] && b != [] && a[0] == b[0] {
      KeyLeTotal(a[1..], b[1..]);
    }
  }

  predicate SortedByKey(rows: seq<PlanLimitRow>) {
    forall i :: 0 < i < |rows| ==> KeyLe(rows[i - 1].key, rows[i].key)
  }

  /** Insert one row into a key-sorted list. */
  function InsertByKey(row: PlanLimitRow, sorted: seq<PlanLimitRow>): (s: seq<PlanLimitRow>)
    requires SortedByKey(sorted)
    ensures SortedByKey(s)
    ensures multiset(s) == multiset(sorted) + multiset{row}
    ensures |s| == |sorted| + 1
    ensures s[0] == row || (sorted != [] && s[0] == sorted[0])
    decreases |sorted|
  {
    if sorted == [] || KeyLe(row.key, sorted[0].key) then [row] + sorted
    else
      KeyLeTotal(row.key, sorted[0].key);
      var rest := InsertByKey(row, sorted[1..]);
      assert sorted == [sorted[0]] + sorted[1..];
      [sorted[0]] + rest
  }

  /** `.order("key", { ascending: true })`. */
  function SortByKey(rows: seq<PlanLimitRow>): (s: seq<PlanLimitRow>)
    ensures SortedByKey(s)
    ensures multiset(s) == multiset(rows)
    decreases |rows|
  {
    if rows == [] then []
    else
      assert rows == rows[..|rows| - 1] + [rows[|rows| - 1]];
      InsertByKey(rows[|rows| - 1], SortByKey(rows[..|rows| - 1]))
  }

  /** The limit rows of one plan, in table order. */
  function RowsOfPlan(rows: seq<PlanLimitRow>, planId: string): (r: seq<PlanLimitRow>)
    ensures forall x :: x in r <==> x in rows && x.planId == planId
    decreases |rows|
  {
    if rows == [] then []
    else
      var n := |rows| - 1;
      assert forall x :: x in rows <==> x in rows[..n] || x == rows[n];
      RowsOfPlan(rows[..n], planId) + (if rows[n].planId == planId then [rows[n]] else [])
  }

  /** The `plan_limits` query of a plan, ordered by key. */
  function PlanLimits(rows: seq<PlanLimitRow>, planId: string): (r: seq<PlanLimitRow>)
    ensures SortedByKey(r)
    ensures multiset(r) == multiset(RowsOfPlan(rows, planId))
    ensures forall x :: x in r <==> x in rows && x.planId == planId
  {
    var s := SortByKey(RowsOfPlan(rows, planId));
    assert forall x :: x in s <==> x in multiset(s);
    s
  }

  // ---------------------------------------------------------------------------
  // Reading a plan

  datatype PlanWithLimits = PlanWithLimits(plan: PlanRecord, limits: seq<PlanLimitRow>)

  /** `getPlanById`: null when no plan has the id; otherwise the plan and exactly its limit
      rows, in ascending key order. */
  function GetPlanById(plans: map<string, PlanRecord>, rows: seq<PlanLimitRow>, id: string): (r: Option<PlanWithLimits>)
    ensures r.None? <==> id !in plans
    ensures r.Some? ==> r.value.plan == plans[id]
    ensures r.Some? ==> SortedByKey(r.value.limits) && multiset(r.value.limits) == multiset(RowsOfPlan(rows, id))
  {
    if id in plans then Some(PlanWithLimits(plans[id], PlanLimits(rows, id))) else None
  }

  // ---------------------------------------------------------------------------
  // Updating a plan

  /** `UpdatePlanData`: `None` is an absent field; `monthlyPriceCents` may be set to null. */
  datatype PlanPatch = PlanPatch(name: Option<string>, active: Option<bool>, monthlyPriceCents: Option<Option<int>>)

  /** The updated row: the given fields replaced and `updated_at` set to `now`. */
  function PatchPlan(p: PlanRecord, d: PlanPatch, now: int): PlanRecord {
    p.(name := if d.name.Some? then d.name.value else p.name,
       active := if d.active.Some? then d.active.value else p.active,
       monthlyPriceCents := if d.monthlyPriceCents.Some? then d.monthlyPriceCents.value else p.monthlyPriceCents,
       updatedAt := now)
  }

  /** Only the requested fields and the timestamp change; an absent field keeps its value. */
  lemma PatchChangesOnlyGivenFields(p: PlanRecord, d: PlanPatch, now: int)
    ensures var q := PatchPlan(p, d, now);
            && q.id == p.id && q.code == p.code && q.createdAt == p.createdAt
            && q.stripeProductId == p.stripeProductId && q.stripePriceId == p.stripePriceId
            && q.updatedAt == now
            && (d.name.None? ==> q.name == p.name) && (d.name.Some? ==> q.name == d.name.value)
            && (d.active.None? ==> q.active == p.active) && (d.active.Some? ==> q.active == d.active.value)
            && (d.monthlyPriceCents.None? ==> q.monthlyPriceCents == p.monthlyPriceCents)
            && (d.monthlyPriceCents.Some? ==> q.monthlyPriceCents == d.monthlyPriceCents.value)
  {
  }

  /** Applying the same update twice is the same as applying it once, up to the timestamp. */
  lemma PatchIsIdempotent(p: PlanRecord, d: PlanPatch, t1: int, t2: int)
    ensures PatchPlan(PatchPlan(p, d, t1), d, t2) == PatchPlan(p, d, t2)
  {
  }

  function PlanFieldsOf(p: PlanRecord): Value {
    PlanFields(p.name, p.active, p.monthlyPriceCents)
  }

  const UPDATE_PLAN_FAILED := "Failed to update plan"

  datatype PlanUpdate = PlanUpdate(result: Result<PlanRecord>, plans: map<string, PlanRecord>, logs: seq<AuditEntry>)

  /** `updatePlan`: an unknown id makes the update fail and nothing is written; otherwise the
      row is patched and, when there is an actor and the audit write succeeds, a
      `plan_updated` entry records the name, active flag and price before and after. */
  function UpdatePlanResult(plans: map<string, PlanRecord>, rows: seq<PlanLimitRow>, logs: seq<AuditEntry>, id: string, d: PlanPatch,
                            platformUserId: Option<string>, auditFails: bool, now: int): (u: PlanUpdate)
    ensures id !in plans ==> u == PlanUpdate(Err(UPDATE_PLAN_FAILED), plans, logs)
    ensures id in plans ==> u.result == Ok(PatchPlan(plans[id], d, now)) && u.plans == plans[id := PatchPlan(plans[id], d, now)]
    ensures id in plans ==> u.logs == AuditAfterUpdate(logs, platformUserId, "plan_updated", "plan", id,
                                                       ChangesArg(Some(PlanFieldsOf(plans[id])), Some(PlanFieldsOf(PatchPlan(plans[id], d, now)))),
                                                       now, auditFails)
  {
    var oldPlan := GetPlanById(plans, rows, id);
    if id !in plans then PlanUpdate(Err(UPDATE_PLAN_FAILED), plans, logs)
    else
      var plan := PatchPlan(plans[id], d, now);
      var before := if oldPlan.Some? then PlanFieldsOf(oldPlan.value.plan) else Null;
      PlanUpdate(Ok(plan), plans[id := plan],
                 AuditAfterUpdate(logs, platformUserId, "plan_updated", "plan", id, ChangesArg(Some(before), Some(PlanFieldsOf(plan))), now, auditFails))
  }

  /** A failing audit write never changes what the update returns or writes to the plans. */
  lemma AuditFailureIsSwallowed(plans: map<string, PlanRecord>, rows: seq<PlanLimitRow>, logs: seq<AuditEntry>, id: string,
                                d: PlanPatch, platformUserId: Option<string>, now: int)
    ensures var ok := UpdatePlanResult(plans, rows, logs, id, d, platformUserId, false, now);
            var failed := UpdatePlanResult(plans, rows, logs, id, d, platformUserId, true, now);
            ok.result == failed.result && ok.plans == failed.plans && failed.logs == logs
  {
  }

  /** `updatePlan` against the store. */
  method UpdatePlan(store: Store, id: string, d: PlanPatch, platformUserId: Option<string>, auditFails: bool, now: int)
    returns (r: Result<PlanRecord>)
    modifies store`plans, store`auditLogs
    ensures PlanUpdate(r, store.plans, store.auditLogs)
         == UpdatePlanResult(old(store.plans), store.planLimits, old(store.auditLogs), id, d, platformUserId, auditFails, now)
  {
    var oldPlan := GetPlanById(store.plans, store.planLimits, id);
    if id !in store.plans {
      return Err(UPDATE_PLAN_FAILED);
    }
    var plan := store.plans[id].(updatedAt := now);
    if d.name.Some? {
      plan := plan.(name := d.name.value);
    }
    if d.active.Some? {
      plan := plan.(active := d.active.value);
    }
    if d.monthlyPriceCents.Some? {
      plan := plan.(monthlyPriceCents := d.monthlyPriceCents.value);
    }
    store.plans := store.plans[id := plan];
    var actor := Actor(platformUserId);
    if actor.Some? && !auditFails {
      var before := if oldPlan.Some? then PlanFieldsOf(oldPlan.value.plan) else Null;
      store.auditLogs := store.auditLogs + [LogEntry(actor, "plan_updated", "plan", id, Some(ChangesArg(Some(before), Some(PlanFieldsOf(plan)))), now)];
    }
    r := Ok(plan);
  }

  // ---------------------------------------------------------------------------
  // Updating a plan's limits

  /** A value of the `limits` record: null deletes, a number or a string is stored, anything
      else stores a row with both columns null. */
  datatype LimitInput = LNull | LNum(n: int) | LStr(s: string) | LOther

  /** The `limitData` row written for a non-null value. */
  function LimitData(planId: string, key: string, v: LimitInput): (r: PlanLimitRow)
    ensures r.planId == planId && r.key == key
    ensures r.value.Some? <==> v.LNum?
    ensures r.valueText.Some? <==> v.LStr?
    ensures v.LNum? ==> r.value == Some(v.n)
    ensures v.LStr? ==> r.valueText == Some(v.s)
  {
    PlanLimitRow(planId, key, if v.LNum? then Some(v.n) else None, if v.LStr? then Some(v.s) else None)
  }

  /** The keys the plan has limits for. */
  function ExistingKeys(rows: seq<PlanLimitRow>, planId: string): set<string> {
    set x | x in rows && x.planId == planId :: x.key
  }

  /** The rows of one plan and key, in table order. */
  function RowsFor(rows: seq<PlanLimitRow>, planId: string, key: string): (r: seq<PlanLimitRow>)
    ensures forall x :: x in r <==> x in rows && x.planId == planId && x.key == key
    decreases |rows|
  {
    if rows == [] then []
    else
      var n := |rows| - 1;
      assert forall x :: x in rows <==> x in rows[..n] || x == rows[n];
      RowsFor(rows[..n], planId, key) + (if rows[n].planId == planId && rows[n].key == key then [rows[n]] else [])
  }

  /** The table holds at most one row per plan and key. */
  ghost predicate UniqueLimits(rows: seq<PlanLimitRow>) {
    forall p: string, k: string :: |RowsFor(rows, p, k)| <= 1
  }

  /** The delete of one plan's key. */
  function WithoutKey(rows: seq<PlanLimitRow>, planId: string, key: string): seq<PlanLimitRow>
    decreases |rows|
  {
    if rows == [] then []
    else
      var n := |rows| - 1;
      WithoutKey(rows[..n], planId, key) + (if rows[n].planId == planId && rows[n].key == key then [] else [rows[n]])
  }

  /** The update of one plan's key to `row`. */
  function ReplaceKey(rows: seq<PlanLimitRow>, planId: string, key: string, row: PlanLimitRow): seq<PlanLimitRow>
    decreases |rows|
  {
    if rows == [] then []
    else
      var n := |rows| - 1;
      ReplaceKey(rows[..n], planId, key, row) + [if rows[n].planId == planId && rows[n].key == key then row else rows[n]]
  }

  /** What one entry of the update does; `existing` is the set of keys read before the loop. */
  function LimitStep(rows: seq<PlanLimitRow>, existing: set<string>, planId: string, key: string, v: LimitInput): seq<PlanLimitRow> {
    if v.LNull? then (if key in existing then WithoutKey(rows, planId, key) else rows)
    else if key in existing then ReplaceKey(rows, planId, key, LimitData(planId, key, v))
    else rows + [LimitData(planId, key, v)]
  }

  /** The table after the entries of `updates`, in order. */
  function ApplyLimits(rows: seq<PlanLimitRow>, existing: set<string>, planId: string, updates: seq<(string, LimitInput)>): seq<PlanLimitRow>
    decreases |updates|
  {
    if updates == [] then rows
    else
      var n := |updates| - 1;
      LimitStep(ApplyLimits(rows, existing, planId, updates[..n]), existing, planId, updates[n].0, updates[n].1)
  }

  /** `Object.entries` never repeats a key. */
  predicate DistinctKeys(updates: seq<(string, LimitInput)>) {
    forall i, j :: 0 <= i < j < |updates| ==> updates[i].0 != updates[j].0
  }

  /** The value the update gives `key`, if any. */
  function ValueFor(updates: seq<(string, LimitInput)>, key: string): Option<LimitInput>
    decreases |updates|
  {
    if updates == [] then None
    else if updates[|updates| - 1].0 == key then Some(updates[|updates| - 1].1)
    else ValueFor(updates[..|updates| - 1], key)
  }

  /** The rows a plan's key has once the update is done with it. */
  function Outcome(planId: string, key: string, v: LimitInput): seq<PlanLimitRow> {
    if v.LNull? then [] else [LimitData(planId, key, v)]
  }

  lemma {:induction false} RowsForAppend(rows: seq<PlanLimitRow>, x: PlanLimitRow, p: string, k: string)
    ensures RowsFor(rows + [x], p, k) == RowsFor(rows, p, k) + (if x.planId == p && x.key == k then [x] else [])
  {
    assert (rows + [x])[..|rows|] == rows;
  }

  lemma {:induction false} RowsForWithoutKey(rows: seq<PlanLimitRow>, planId: string, key: string, p: string, k: string)
    ensures RowsFor(WithoutKey(rows, planId, key), p, k) == if p == planId && k == key then [] else RowsFor(rows, p, k)
    decreases |rows|
  {
    if rows != [] {
      var n := |rows| - 1;
      RowsForWithoutKey(rows[..n], planId, key, p, k);
      var x := rows[n];
      if x.planId == planId && x.key == key {
        assert WithoutKey(rows, planId, key) == WithoutKey(rows[..n], planId, key);
        assert RowsFor(rows, p, k) == RowsFor(rows[..n], p, k) + (if p == planId && k == key then [x] else []);
      } else {
        RowsForAppend(WithoutKey(rows[..n], planId, key), x, p, k);
      }
    }
  }

  lemma {:induction false} RowsForReplaceKey(rows: seq<PlanLimitRow>, planId: string, key: string, row: PlanLimitRow, p: string, k: string)
    requires row.planId == planId && row.key == key
    ensures p != planId || k != key ==> RowsFor(ReplaceKey(rows, planId, key, row), p, k) == RowsFor(rows, p, k)
    ensures p == planId && k == key ==>
              |RowsFor(ReplaceKey(rows, planId, key, row), p, k)| == |RowsFor(rows, p, k)|
              && forall x :: x in RowsFor(ReplaceKey(rows, planId, key, row), p, k) ==> x == row
    decreases |rows|
  {
    if rows != [] {
      var n := |rows| - 1;
      RowsForReplaceKey(rows[..n], planId, key, row, p, k);
      var x := rows[n];
      var y := if x.planId == planId && x.key == key then row else x;
      RowsForAppend(ReplaceKey(rows[..n], planId, key, row), y, p, k);
    }
  }

  /** A key is among the existing ones exactly when the plan has a row for it. */
  lemma ExistingIffRows(rows: seq<PlanLimitRow>, planId: string, key: string)
    ensures key in ExistingKeys(rows, planId) <==> RowsFor(rows, planId, key) != []
  {
    if RowsFor(rows, planId, key) != [] {
      assert RowsFor(rows, planId, key)[0] in RowsFor(rows, planId, key);
    }
  }

  /** The update's effect on every plan and key: a key of the update ends with no row when its
      value is null and with exactly the row built from its value otherwise; every other key
      of this plan, and every key of every other plan, keeps its rows. */
  lemma {:induction false} ApplyLimitsEffect(rows: seq<PlanLimitRow>, planId: string, updates: seq<(string, LimitInput)>, p: string, k: string)
    requires UniqueLimits(rows)
    requires DistinctKeys(updates)
    ensures RowsFor(ApplyLimits(rows, ExistingKeys(rows, planId), planId, updates), p, k)
         == if p == planId && ValueFor(updates, k).Some? then Outcome(planId, k, ValueFor(updates, k).value) else RowsFor(rows, p, k)
    decreases |updates|
  {
    if updates != [] {
      var n := |updates| - 1;
      var existing := ExistingKeys(rows, planId);
      var (key, v) := updates[n];
      var prefix := updates[..n];
      assert DistinctKeys(prefix);
      var cur := ApplyLimits(rows, existing, planId, prefix);
      ApplyLimitsEffect(rows, planId, prefix, p, k);
      // The entry for `key` is the first to touch its rows.
      assert ValueFor(prefix, key).None? by {
        ValueForIsAnEntry(prefix, key);
      }
      ApplyLimitsEffect(rows, planId, prefix, planId, key);
      assert RowsFor(cur, planId, key) == RowsFor(rows, planId, key);
      ExistingIffRows(rows, planId, key);
      assert |RowsFor(rows, planId, key)| <= 1;
      assert ApplyLimits(rows, existing, planId, updates) == LimitStep(cur, existing, planId, key, v);
      LimitStepEffect(cur, existing, planId, key, v, p, k);
    }
  }

  /** One entry of the update, applied to a table with at most one row for its key, where
      `existing` says whether that row is there: the key ends with the entry's outcome and
      every other plan and key keeps its rows. */
  lemma LimitStepEffect(rows: seq<PlanLimitRow>, existing: set<string>, planId: string, key: string, v: LimitInput, p: string, k: string)
    requires |RowsFor(rows, planId, key)| <= 1
    requires key in existing <==> RowsFor(rows, planId, key) != []
    ensures RowsFor(LimitStep(rows, existing, planId, key, v), p, k)
         == if p == planId && k == key then Outcome(planId, key, v) else RowsFor(rows, p, k)
  {
    if v.LNull? {
      if key in existing {
        RowsForWithoutKey(rows, planId, key, p, k);
      }
    } else if key in existing {
      RowsForReplaceKey(rows, planId, key, LimitData(planId, key, v), p, k);
      if p == planId && k == key {
        var r := RowsFor(ReplaceKey(rows, planId, key, LimitData(planId, key, v)), p, k);
        assert |r| == 1 && r[0] in r;
      }
    } else {
      RowsForAppend(rows, LimitData(planId, key, v), p, k);
    }
  }

  lemma {:induction false} ValueForIsAnEntry(updates: seq<(string, LimitInput)>, key: string)
    ensures ValueFor(updates, key).Some? <==> exists i :: 0 <= i < |updates| && updates[i].0 == key
    decreases |updates|
  {
    if updates != [] {
      var n := |updates| - 1;
      ValueForIsAnEntry(updates[..n], key);
      assert forall i :: 0 <= i < n ==> updates[..n][i] == updates[i];
    }
  }

  /** The update keeps at most one row per plan and key. */
  lemma UniqueLimitsKept(rows: seq<PlanLimitRow>, planId: string, updates: seq<(string, LimitInput)>)
    requires UniqueLimits(rows)
    requires DistinctKeys(updates)
    ensures UniqueLimits(ApplyLimits(rows, ExistingKeys(rows, planId), planId, updates))
  {
    forall p: string, k: string
      ensures |RowsFor(ApplyLimits(rows, ExistingKeys(rows, planId), planId, updates), p, k)| <= 1
    {
      ApplyLimitsEffect(rows, planId, updates, p, k);
    }
  }

  datatype LimitsUpdate = LimitsUpdate(result: seq<PlanLimitRow>, rows: seq<PlanLimitRow>, logs: seq<AuditEntry>)

  /** `updatePlanLimits`: the table after the entries, the plan's limits re-read in key order,
      and a `plan_limits_updated` entry whose `before` is null and whose `after` is those limits. */
  function UpdatePlanLimitsResult(rows: seq<PlanLimitRow>, logs: seq<AuditEntry>, planId: string, updates: seq<(string, LimitInput)>,
                                  platformUserId: Option<string>, auditFails: bool, now: int): (u: LimitsUpdate)
    ensures SortedByKey(u.result)
    ensures forall x :: x in u.result <==> x in u.rows && x.planId == planId
    ensures u.logs == AuditAfterUpdate(logs, platformUserId, "plan_limits_updated", "plan", planId,
                                       ChangesArg(Some(Null), Some(LimitRows(u.result))), now, auditFails)
  {
    var after := ApplyLimits(rows, ExistingKeys(rows, planId), planId, updates);
    var allLimits := PlanLimits(after, planId);
    LimitsUpdate(allLimits, after,
                 AuditAfterUpdate(logs, platformUserId, "plan_limits_updated", "plan", planId,
                                  ChangesArg(Some(Null), Some(LimitRows(allLimits))), now, auditFails))
  }

  /** The returned limits hold, for every key of the update, exactly its new row (none when
      the value is null), and leave every other limit of the plan as it was. */
  lemma ReturnedLimitsReflectUpdate(rows: seq<PlanLimitRow>, logs: seq<AuditEntry>, planId: string, updates: seq<(string, LimitInput)>,
                                    platformUserId: Option<string>, auditFails: bool, now: int, x: PlanLimitRow)
    requires UniqueLimits(rows)
    requires DistinctKeys(updates)
    ensures var result := UpdatePlanLimitsResult(rows, logs, planId, updates, platformUserId, auditFails, now).result;
            x in result <==>
              x.planId == planId &&
              if ValueFor(updates, x.key).Some? then
                ValueFor(updates, x.key).value != LNull && x == LimitData(planId, x.key, ValueFor(updates, x.key).value)
              else x in rows
  {
    ApplyLimitsEffect(rows, planId, updates, planId, x.key);
  }

  /** `updatePlanLimits` against the store: the loop over the entries, then the re-read. */
  method UpdatePlanLimits(store: Store, planId: string, updates: seq<(string, LimitInput)>,
                          platformUserId: Option<string>, auditFails: bool, now: int)
    returns (limits: seq<PlanLimitRow>)
    modifies store`planLimits, store`auditLogs
    ensures LimitsUpdate(limits, store.planLimits, store.auditLogs)
         == UpdatePlanLimitsResult(old(store.planLimits), old(store.auditLogs), planId, updates, platformUserId, auditFails, now)
  {
    var existing := ExistingKeys(store.planLimits, planId);
    var rows := store.planLimits;
    var i := 0;
    while i < |updates|
      invariant 0 <= i <= |updates|
      invariant rows == ApplyLimits(old(store.planLimits), existing, planId, updates[..i])
    {
      assert updates[..i + 1][..i] == updates[..i];
      var (key, value) := updates[i];
      if value.LNull? {
        if key in existing {
          rows := WithoutKey(rows, planId, key);
        }
      } else {
        var limitData := LimitData(planId, key, value);
        if key in existing {
          rows := ReplaceKey(rows, planId, key, limitData);
        } else {
          rows := rows + [limitData];
        }
      }
      i := i + 1;
    }
    assert updates[..|updates|] == updates;
    store.planLimits := rows;
    limits := PlanLimits(store.planLimits, planId);
    var actor := Actor(platformUserId);
    if actor.Some? && !auditFails {
      store.auditLogs := store.auditLogs + [LogEntry(actor, "plan_limits_updated", "plan", planId, Some(ChangesArg(Some(Null), Some(LimitRows(limits)))), now)];
    }
  }
}
