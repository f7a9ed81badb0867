/** The platform console's organizations (tenants): reading one, partially updating one with
    an audit entry, and deactivating one. */
module Tenants {

  import opened Common
  import opened PlatformStore
  import opened Audit

  /** `getTenantById`: null when no organization has the id. */
  function GetTenantById(tenants: map<string, Tenant>, id: string): (r: Option<Tenant>)
    ensures r.None? <==> id !in tenants
    ensures r.Some? ==> r.value == tenants[id]
  {
    if id in tenants then Some(tenants[id]) else None
  }

  /** The update's fields; `None` is an absent field. */
  datatype TenantPatch = TenantPatch(name: Option<string>, slug: Option<string>, status: Option<string>)

  function PatchTenant(t: Tenant, d: TenantPatch): Tenant {
    t.(name := if d.name.Some? then d.name.value else t.name,
       slug := if d.slug.Some? then d.slug.value else t.slug,
       status := if d.status.Some? then d.status.value else t.status)
  }

  function TenantFieldsOf(t: Tenant): Value {
    TenantFields(t.name, t.slug, t.status)
  }

  const UPDATE_TENANT_FAILED := "Failed to update tenant"

  datatype TenantUpdate = TenantUpdate(result: Result<Tenant>, tenants: map<string, Tenant>, logs: seq<AuditEntry>)

  /** `updateTenant`: an unknown id fails and writes nothing; otherwise the given fields are
      replaced (id and creation time are kept) and, when there is an actor and the audit write
      succeeds, a `tenant_updated` entry records name, slug and status before and after. */
  function UpdateTenantResult(tenants: map<string, Tenant>, logs: seq<AuditEntry>, id: string, d: TenantPatch,
                              platformUserId: Option<string>, auditFails: bool, now: int): (u: TenantUpdate)
    ensures id !in tenants ==> u == TenantUpdate(Err(UPDATE_TENANT_FAILED), tenants, logs)
    ensures id in tenants ==> u.result.Ok? && u.tenants == tenants[id := u.result.value]
    ensures u.result.Ok? ==>
              var t := u.result.value;
              && t.id == tenants[id].id && t.createdAt == tenants[id].createdAt
              && t.name == (if d.name.Some? then d.name.value else tenants[id].name)
              && t.slug == (if d.slug.Some? then d.slug.value else tenants[id].slug)
              && t.status == (if d.status.Some? then d.status.value else tenants[id].status)
    ensures u.result.Ok? ==>
              u.logs == AuditAfterUpdate(logs, platformUserId, "tenant_updated", "tenant", id,
                                         ChangesArg(Some(TenantFieldsOf(tenants[id])), Some(TenantFieldsOf(u.result.value))),
                                         now, auditFails)
  {
    var oldTenant := GetTenantById(tenants, id);
    if id !in tenants then TenantUpdate(Err(UPDATE_TENANT_FAILED), tenants, logs)
    else
      var tenant := PatchTenant(tenants[id], d);
      var before := if oldTenant.Some? then TenantFieldsOf(oldTenant.value) else Null;
      TenantUpdate(Ok(tenant), tenants[id := tenant],
                   AuditAfterUpdate(logs, platformUserId, "tenant_updated", "tenant", id,
                                    ChangesArg(Some(before), Some(TenantFieldsOf(tenant))), now, auditFails))
  }

  /** A failing audit write never changes what the update returns or writes to the tenants. */
  lemma AuditFailureIsSwallowed(tenants: map<string, Tenant>, logs: seq<AuditEntry>, id: string, d: TenantPatch,
                                platformUserId: Option<string>, now: int)
    ensures var ok := UpdateTenantResult(tenants, logs, id, d, platformUserId, false, now);
            var failed := UpdateTenantResult(tenants, logs, id, d, platformUserId, true, now);
            ok.result == failed.result && ok.tenants == failed.tenants && failed.logs == logs
  {
  }

  /** Repeating an update leaves the tenants as the first one left them. */
  lemma UpdateIsIdempotent(tenants: map<string, Tenant>, logs: seq<AuditEntry>, id: string, d: TenantPatch,
                           platformUserId: Option<string>, auditFails: bool, now: int, later: int)
    ensures var once := UpdateTenantResult(tenants, logs, id, d, platformUserId, auditFails, now);
            var twice := UpdateTenantResult(once.tenants, once.logs, id, d, platformUserId, auditFails, later);
            twice.tenants == once.tenants && twice.result == once.result
  {
  }

  /** Every other organization is left as it was. */
  lemma OtherTenantsUnchanged(tenants: map<string, Tenant>, logs: seq<AuditEntry>, id: string, d: TenantPatch,
                              platformUserId: Option<string>, auditFails: bool, now: int, other: string)
    requires other != id
    ensures var u := UpdateTenantResult(tenants, logs, id, d, platformUserId, auditFails, now);
            (other in u.tenants <==> other in tenants) && (other in tenants ==> u.tenants[other] == tenants[other])
  {
  }

  /** `updateTenant` against the store. */
  method UpdateTenant(store: Store, id: string, d: TenantPatch, platformUserId: Option<string>, auditFails: bool, now: int)
    returns (r: Result<Tenant>)
    modifies store`tenants, store`auditLogs
    ensures TenantUpdate(r, store.tenants, store.auditLogs)
         == UpdateTenantResult(old(store.tenants), old(store.auditLogs), id, d, platformUserId, auditFails, now)
  {
    var oldTenant := GetTenantById(store.tenants, id);
    if id !in store.tenants {
      return Err(UPDATE_TENANT_FAILED);
    }
    var tenant := store.tenants[id];
    if d.name.Some? {
      tenant := tenant.(name := d.name.value);
    }
    if d.slug.Some? {
      tenant := tenant.(slug := d.slug.value);
    }
    if d.status.Some? {
      tenant := tenant.(status := d.status.value);
    }
    store.tenants := store.tenants[id := tenant];
    var actor := Actor(platformUserId);
    if actor.Some? && !auditFails {
      var before := if oldTenant.Some? then TenantFieldsOf(oldTenant.value) else Null;
      store.auditLogs := store.auditLogs + [LogEntry(actor, "tenant_updated", "tenant", id, Some(ChangesArg(Some(before), Some(TenantFieldsOf(tenant)))), now)];
    }
    r := Ok(tenant);
  }

  const INACTIVE := "inactive"

  /** `deactivateTenant`: the update that sets only the status to `inactive`. */
  method DeactivateTenant(store: Store, id: string, platformUserId: Option<string>, auditFails: bool, now: int)
    returns (r: Result<Tenant>)
    modifies store`tenants, store`auditLogs
    ensures TenantUpdate(r, store.tenants, store.auditLogs)
         == UpdateTenantResult(old(store.tenants), old(store.auditLogs), id, TenantPatch(None, None, Some(INACTIVE)), platformUserId, auditFails, now)
  {
    r := UpdateTenant(store, id, TenantPatch(None, None, Some(INACTIVE)), platformUserId, auditFails, now);
  }

  /** Deactivation changes the status to `inactive` and nothing else of the organization. */
  lemma DeactivationOnlyChangesStatus(tenants: map<string, Tenant>, logs: seq<AuditEntry>, id: string,
                                      platformUserId: Option<string>, auditFails: bool, now: int)
    requires id in tenants
    ensures var u := UpdateTenantResult(tenants, logs, id, TenantPatch(None, None, Some(INACTIVE)), platformUserId, auditFails, now);
            u.result == Ok(tenants[id].(status := INACTIVE))
  {
  }
}
