/** The platform audit log: writing an entry with normalised changes, and reading a filtered,
    paginated page of entries merged with the users who made them. */
module Audit {

  import opened Common
  import opened PlatformStore

  /** The `changes` argument of `logAction`; `None` for a half is `undefined`. */
  datatype ChangesArg = ChangesArg(before: Option<Value>, after: Option<Value>)

  /** `v ?? null`. */
  function OrNull(v: Option<Value>): (r: Value)
    ensures r == Null <==> v.None? || v == Some(Null)
    ensures v.Some? ==> r == v.value
  {
    if v.Some? then v.value else Null
  }

  /** The stored changes: null when none were given, otherwise both halves with nullish
      values turned into null. */
  function NormalizeChanges(c: Option<ChangesArg>): (r: Option<Changes>)
    ensures r.None? <==> c.None?
    ensures r.Some? ==> r.value.before == OrNull(c.value.before) && r.value.after == OrNull(c.value.after)
  {
    match c
    case None => None
    case Some(arg) => Some(Changes(OrNull(arg.before), OrNull(arg.after)))
  }

  /** Normalising stored changes again changes nothing. */
  lemma NormalizeIsStable(c: Option<ChangesArg>)
    ensures var r := NormalizeChanges(c);
            r.Some? ==> NormalizeChanges(Some(ChangesArg(Some(r.value.before), Some(r.value.after)))) == r
  {
  }

  /** The row `logAction` inserts; the id is generated and not modelled, `created_at` is `now`. */
  function LogEntry(actor: Option<string>, actionType: string, entityType: string, entityId: string,
                    changes: Option<ChangesArg>, now: int): AuditEntry
  {
    AuditEntry(actor, actionType, entityType, entityId, NormalizeChanges(changes), now)
  }

  datatype Logged = Logged(result: Result<AuditEntry>, logs: seq<AuditEntry>)

  const LOG_FAILED := "Failed to log audit action"

  /** `logAction`: append the entry, or throw when the insert fails. */
  function LogAction(logs: seq<AuditEntry>, actor: Option<string>, actionType: string, entityType: string,
                     entityId: string, changes: Option<ChangesArg>, now: int, insertFails: bool): (l: Logged)
    ensures insertFails ==> l == Logged(Err(LOG_FAILED), logs)
    ensures !insertFails ==> l.result.Ok? && l.logs == logs + [l.result.value]
    ensures l.result.Ok? ==> l.result.value.changes == NormalizeChanges(changes) && l.result.value.userId == actor
  {
    if insertFails then Logged(Err(LOG_FAILED), logs)
    else
      var entry := LogEntry(actor, actionType, entityType, entityId, changes, now);
      Logged(Ok(entry), logs + [entry])
  }

  /** `session?.user?.platform_user_id || null`: an empty id counts as no actor. */
  function Actor(platformUserId: Option<string>): Option<string> {
    if platformUserId.Some? && platformUserId.value != "" then platformUserId else None
  }

  /** The audit step of the console's updates: an entry is appended only when there is an
      actor and the write succeeds; a failure is swallowed. */
  function AuditAfterUpdate(logs: seq<AuditEntry>, platformUserId: Option<string>, actionType: string, entityType: string,
                            entityId: string, changes: ChangesArg, now: int, auditFails: bool): (r: seq<AuditEntry>)
    ensures Actor(platformUserId).None? || auditFails ==> r == logs
    ensures Actor(platformUserId).Some? && !auditFails ==>
              r == logs + [LogEntry(Actor(platformUserId), actionType, entityType, entityId, Some(changes), now)]
  {
    match Actor(platformUserId)
    case None => logs
    case Some(_) => LogAction(logs, Actor(platformUserId), actionType, entityType, entityId, Some(changes), now, auditFails).logs
  }

  // ---------------------------------------------------------------------------
  // Reading the log

  /** The optional filters; an empty string filter is not applied. */
  datatype AuditFilters = AuditFilters(
    actionType: Option<string>,
    entityType: Option<string>,
    entityId: Option<string>,
    userId: Option<string>,
    startDate: Option<int>,
    endDate: Option<int>)

  predicate MatchesFilters(f: AuditFilters, e: AuditEntry) {
    && (Given(f.actionType) ==> e.actionType == f.actionType.value)
    && (Given(f.entityType) ==> e.entityType == f.entityType.value)
    && (Given(f.entityId) ==> e.entityId == f.entityId.value)
    && (Given(f.userId) ==> e.userId == f.userId)
    && (f.startDate.Some? ==> e.createdAt >= f.startDate.value)
    && (f.endDate.Some? ==> e.createdAt <= f.endDate.value)
  }

  datatype User = User(id: string, email: string, name: Option<string>)

  /** An entry with the user attached when found. */
  datatype LogView = LogView(entry: AuditEntry, user: Option<User>)

  /** The page of entries the query returns; `table` is in the query's `created_at`
      descending order. */
  function AuditPage(table: seq<AuditEntry>, filters: AuditFilters, limit: Option<nat>, offset: Option<nat>): seq<AuditEntry> {
    Window(Filter(table, e => MatchesFilters(filters, e)),
           if offset.Some? then offset.value else 0,
           if limit.Some? then limit.value else DEFAULT_PAGE_SIZE)
  }

  /** The distinct non-null user ids of a page. */
  function UserIds(page: seq<AuditEntry>): set<string> {
    set i | 0 <= i < |page| && page[i].userId.Some? :: page[i].userId.value
  }

  /** `new Map(users.map(u => [u.id, u])).get(id)`: the last user with that id. */
  function FindUser(users: seq<User>, id: string): (r: Option<User>)
    ensures r.Some? <==> exists j :: 0 <= j < |users| && users[j].id == id
    ensures r.Some? ==> r.value.id == id && r.value in users
  {
    Last(users, (u: User) => u.id == id)
  }

  /** `getAuditLogs`. `users` is the users table (`None`: the batch read fails, which is
      logged and leaves every entry without a user). */
  function GetAuditLogs(table: seq<AuditEntry>, filters: AuditFilters, limit: Option<nat>, offset: Option<nat>,
                        users: Option<seq<User>>): (r: seq<LogView>)
    ensures var page := AuditPage(table, filters, limit, offset);
            |r| == |page| && forall i :: 0 <= i < |r| ==> r[i].entry == page[i]
    ensures users.None? ==> forall i :: 0 <= i < |r| ==> r[i].user.None?
  {
    var page := AuditPage(table, filters, limit, offset);
    if page == [] then []
    else
      var ids := UserIds(page);
      var fetched := if users.Some? then Filter(users.value, (u: User) => u.id in ids) else [];
      seq(|page|, i requires 0 <= i < |page| =>
        LogView(page[i], if page[i].userId.Some? && page[i].userId.value != "" then FindUser(fetched, page[i].userId.value) else None))
  }

  /** A user is attached exactly when the entry has a non-empty user id that the users table
      holds (and the users read succeeded); the attached user has that id. */
  lemma {:induction false} UserAttachedIffFound(table: seq<AuditEntry>, filters: AuditFilters, limit: Option<nat>,
                                                offset: Option<nat>, users: Option<seq<User>>, i: nat)
    requires i < |GetAuditLogs(table, filters, limit, offset, users)|
    ensures var v := GetAuditLogs(table, filters, limit, offset, users)[i];
            && (v.user.Some? <==>
                  v.entry.userId.Some? && v.entry.userId.value != "" && users.Some?
                  && exists j :: 0 <= j < |users.value| && users.value[j].id == v.entry.userId.value)
            && (v.user.Some? ==> v.user.value.id == v.entry.userId.value && v.user.value in users.value)
  {
    var page := AuditPage(table, filters, limit, offset);
    if users.Some? && page[i].userId.Some? && page[i].userId.value != "" {
      var id := page[i].userId.value;
      var ids := UserIds(page);
      assert id in ids;
      LastOfFilter(users.value, (u: User) => u.id in ids, (u: User) => u.id == id);
    }
  }

  /** Every entry of a page passes the filters, and a page keeps the table's order. */
  lemma {:induction false} PageEntriesMatch(table: seq<AuditEntry>, filters: AuditFilters, limit: Option<nat>, offset: Option<nat>)
    ensures forall e :: e in AuditPage(table, filters, limit, offset) ==> MatchesFilters(filters, e) && e in table
    ensures |AuditPage(table, filters, limit, offset)| <= (if limit.Some? then limit.value else DEFAULT_PAGE_SIZE)
  {
    var matching := Filter(table, e => MatchesFilters(filters, e));
    var page := AuditPage(table, filters, limit, offset);
    forall e | e in page ensures MatchesFilters(filters, e) && e in table {
      var k :| 0 <= k < |page| && page[k] == e;
      var o := if offset.Some? then offset.value else 0;
      assert page[k] == matching[o + k];
    }
  }
}
