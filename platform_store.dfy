/** The platform operator's tables: organizations (tenants), plans, plan limits and the
    audit log, as the platform console reads and updates them. */
module PlatformStore {

  import opened Common

  /** A row of `app.organizations`. */
  datatype Tenant = Tenant(id: string, name: string, slug: string, status: string, createdAt: int)

  /** A row of `platform.plans`. */
  datatype PlanRecord = PlanRecord(
    id: string,
    code: string,
    name: string,
    active: bool,
    monthlyPriceCents: Option<int>,
    stripeProductId: Option<string>,
    stripePriceId: Option<string>,
    createdAt: int,
    updatedAt: int)

  /** A row of `platform.plan_limits`: a numeric `value` or a textual `value_text`.
      Generated row ids are not modelled. */
  datatype PlanLimitRow = PlanLimitRow(planId: string, key: string, value: Option<int>, valueText: Option<string>)

  /** A `before` or `after` value recorded in an audit entry. */
  datatype Value =
    | Null
    | PlanFields(name: string, active: bool, monthlyPriceCents: Option<int>)
    | TenantFields(name: string, slug: string, status: string)
    | LimitRows(rows: seq<PlanLimitRow>)

  /** The stored `changes` column: always both halves. */
  datatype Changes = Changes(before: Value, after: Value)

  /** A row of `platform.audit_logs`. */
  datatype AuditEntry = AuditEntry(
    userId: Option<string>,
    actionType: string,
    entityType: string,
    entityId: string,
    changes: Option<Changes>,
    createdAt: int)

  /** The tables the console writes. `planLimits` is kept in insertion order. */
  class Store {
    var tenants: map<string, Tenant>
    var plans: map<string, PlanRecord>
    var planLimits: seq<PlanLimitRow>
    var auditLogs: seq<AuditEntry>

    constructor (tenants: map<string, Tenant>, plans: map<string, PlanRecord>, planLimits: seq<PlanLimitRow>)
      ensures this.tenants == tenants && this.plans == plans && this.planLimits == planLimits
      ensures auditLogs == []
    {
      this.tenants := tenants;
      this.plans := plans;
      this.planLimits := planLimits;
      auditLogs := [];
    }
  }
}
