# Billing, entitlements and platform console — a Dafny model

This project models the core of a multi-tenant fleet-management SaaS: how Stripe billing
events become per-organization entitlements, how those entitlements gate what an
organization may do, and how the platform console reads and edits plans, tenants,
subscriptions, metrics and the audit log. It also models the role catalogue, the
role-to-permission matrix and the route gate of the edge middleware.

Modules, one per file:

- `Common` (common.dfy): `Option`, `Result`, JSON values, JavaScript truthiness, `||`, `?.`,
  `startsWith`, `includes`, ASCII `toLowerCase`, `.filter`, `.single()`, `.range()`, and the
  last-wins lookup of a `Map` built from a list of rows.
- `Roles`, `Permissions`, `Middleware`: the eight roles, the permission matrix and its
  `hasPermission` / any / all checks, and the decision the middleware takes for a request
  path (pass, redirect to login, or 403).
- `Billing` (billing.dfy): subscription statuses, the billing tables (subscriptions, plans
  with their limit rows, org add-ons, entitlements, stripe_events) as the class `Db`, and
  the Stripe objects the webhook reads.
- `StripeWebhooks`: `GRACE_DAYS = 7`, the event type (the helper `GetEventType`, which the
  webhook endpoint uses to record an event; the dispatch reads `event.type` itself) and the organization id carried in Stripe metadata.
- `Rebuild`, `Check`, `Enforce`: the entitlements rebuild (single live subscription, base
  limits from the plan's `limit_key`/`limit_value` rows, add-ons composed in order, status
  derived from the grace deadline), the cache read that rebuilds on a miss, `hasEntitlement`,
  `getLimit`, and the enforcement decisions.
- `EntitlementsRoute`, `Checkout`, `WebhookRoute`: the three HTTP handlers. The webhook
  handlers are methods on `Db` proved equal to pure functions; the idempotency, grace and
  rebuild properties are proved about those functions.
- `PlatformStore`, `Audit`, `Plans`, `Tenants`, `SubscriptionsList`, `Metrics`: the platform
  console. `PlatformStore.Store` is a class holding the tenants, plans, plan limit rows and
  audit log; the updating operations are methods on it, each proved equal to a pure
  function whose properties are lemmas.

Conventions of the model:

- Times are integers (milliseconds since the epoch) passed in as `now`; Stripe seconds are
  multiplied by 1000. A grace period is `GRACE_DAYS * 86_400_000` ms.
- A database read that can fail is a parameter of `Option` type (`None`: the read failed);
  an audit write that can fail is a `bool` (`auditFails`); the session's platform user id is
  an `Option<string>`.
- A query returning rows in some order takes the table already in that order; `.order("key")`
  is modelled as an insertion sort in code-point order.
- `.single()` succeeds only when exactly one row matches; a `Map` built from rows keeps the
  last row with a given id.

## Model

| member | source | states |
|---|---|---|
| Common.Lookup | lib/entitlements/check.ts:86-87 | A property read is defined exactly when the key is present, and then gives the stored value. |
| Common.OrElse | lib/entitlements/rebuild.ts:69 | `v \|\| d` gives `v` when it is truthy and `d` otherwise. |
| Common.ValueField | lib/entitlements/check.ts:89-92 | `v?.value` is defined exactly for an object with a `value` field. |
| Common.IncludesAt | lib/platform/subscriptions.ts:152-165 | `includes` holds exactly when the needle occurs at some index. |
| Common.Lower | lib/platform/subscriptions.ts:152-165 | Lower-casing keeps the length and maps every character through the ASCII lower-case map. |
| Common.TheOnly | lib/entitlements/rebuild.ts:11-22 | `.single()` returns a row exactly when one row matches, and that row is the whole match set. |
| Common.SingletonUnique | lib/entitlements/rebuild.ts:11-22 | A one-element match set has a single member and any two of its members are equal. |
| Common.Filter | lib/platform/subscriptions.ts:75-83 | The filtered rows are at most as many, all satisfy the condition and come from the input, and every input row satisfying it is kept. |
| Common.FilterIsSubsequence | lib/platform/subscriptions.ts:167-170 | Filtering keeps the kept rows in their original order. |
| Common.Last | lib/platform/subscriptions.ts:142-143 | The Map lookup finds a row exactly when some row has the id, and the row it finds has the id and is in the list. |
| Common.LastOfFilter | lib/platform/subscriptions.ts:104-143 | Looking up an id in the batch fetched with `.in(ids)` gives the same row as looking it up in the whole table, when the id is among `ids`. |
| Common.Window | lib/platform/audit.ts:119 | `.range(offset, offset + limit - 1)` returns at most `limit` rows: the rows from `offset` on, nothing past the end. |
| Roles.IsDSPRole | lib/auth/roles.ts:38-40 | Membership in the six DSP role names; `RoleListsDisjoint` and `ValidRolesAreTheEightNames` state its properties. |
| Roles.IsPlatformRole | lib/auth/roles.ts:45-47 | Membership in the two platform role names; `RoleListsDisjoint` and `ValidRolesAreTheEightNames` state its properties. |
| Roles.IsValidRole | lib/auth/roles.ts:52-54 | A DSP or a platform role name; `ValidRolesAreTheEightNames`, `ParseRole` and `RoleNamesRoundTrip` state its properties. |
| Roles.ParseRole | lib/auth/roles.ts:52-54 | A string parses to a role exactly when `isValidRole` holds, and the role's name is that string. |
| Roles.RoleListsDisjoint | lib/auth/roles.ts:17-47 | No string is both a DSP role and a platform role. |
| Roles.ValidRolesAreTheEightNames | lib/auth/roles.ts:17-54 | The valid role strings are exactly the eight listed names, all distinct. |
| Roles.RoleNamesRoundTrip | lib/auth/roles.ts:17-54 | Every role's name is valid and parses back to the same role. |
| Roles.AdminIsNotARole | lib/auth/roles.ts:52-54 | A string outside both lists ("ADMIN") is not a valid role. |
| Permissions.RolePermissions | lib/auth/permissions.ts:41-197 | Each role's permission list in matrix order (`getRolePermissions`); `OwnerListIsDistinct`, `RolesAreWithinOwner`, `OpsFinanceViewOnly` and `DriverPermissions` state its properties. |
| Permissions.HasPermission | lib/auth/permissions.ts:187-190 | `hasPermission`; `HasPermissionMatchesList` proves it is membership in the role's list, and `OwnerHoldsEveryPermission` that the owner passes every check. |
| Permissions.HasAnyPermission | lib/auth/permissions.ts:202-207 | `hasAnyPermission`; `EmptyPermissionList` and `AllImpliesAny` state its properties. |
| Permissions.HasAllPermissions | lib/auth/permissions.ts:212-217 | `hasAllPermissions`; `EmptyPermissionList` and `AllImpliesAny` state its properties. |
| Permissions.OwnerHoldsEveryPermission | lib/auth/permissions.ts:128-158 | The platform owner holds every permission. |
| Permissions.OwnerListIsDistinct | lib/auth/permissions.ts:128-158 | The platform owner's list has 28 entries with no repeats. |
| Permissions.RolesAreWithinOwner | lib/auth/permissions.ts:41-182 | Any permission of any role is also held by the platform owner. |
| Permissions.OpsFinanceViewOnly | lib/auth/permissions.ts:42-71 | Operations may view finance but not manage it. |
| Permissions.DriverPermissions | lib/auth/permissions.ts:121-126 | A driver holds exactly drivers:view, routes:view and tracking:view. |
| Permissions.EmptyPermissionList | lib/auth/permissions.ts:202-217 | On an empty list "any" is false and "all" is true. |
| Permissions.AllImpliesAny | lib/auth/permissions.ts:202-217 | On a non-empty list, holding all permissions implies holding one. |
| Permissions.HasPermissionMatchesList | lib/auth/permissions.ts:187-197 | `hasPermission` holds exactly when the permission is in the role's list. |
| Middleware.Gate | middleware.ts:6-58 | For a request the middleware runs on: platform paths pass only with a token carrying PLATFORM_OWNER or PLATFORM_ADMIN, redirect to login without a token, otherwise 403. Protected paths without a session cookie redirect to login with `from` set to the path. Everything else passes, and only platform paths can get 403. |
| Middleware.PlatformIgnoresCookie | middleware.ts:10-37 | A platform path with a platform role passes whatever the cookie. |
| Middleware.PlatformNeedsPlatformRole | middleware.ts:23-33 | A platform token without a platform role gets 403. |
| Middleware.AdministratorIsProtected | middleware.ts:39-56 | Prefix matching is `startsWith`: "/administrator" is protected like "/admin". |
| Middleware.UnprotectedPathPasses | middleware.ts:6-58 | A path outside every prefix passes. |
| Middleware.IsProtectedPath | middleware.ts:40-44 | A path is protected when it starts with one of the listed prefixes; its properties are stated by `ProtectedPathsAreAdminAndDriver`. |
| Middleware.ProtectedPathsAreAdminAndDriver | middleware.ts:40-44 | A path is protected exactly when it starts with `/admin` or `/driver`. |
| StripeWebhooks.GetEventType | lib/stripe/webhooks.ts:17-19 | The event's `type` field; `WebhookRoute.Deliver` records it with the event, and `UnhandledTypeIsAcknowledged` states what happens to a type no handler takes. |
| StripeWebhooks.GetOrganizationIdFromMetadata | lib/stripe/webhooks.ts:24-29 | No id for absent metadata, an absent key or an empty string; otherwise the stored id. |
| Rebuild.LiveSubscription | lib/entitlements/rebuild.ts:11-24 | A subscription is found exactly when the organization has one in active, trialing or past_due; it is that row. |
| Rebuild.BaseLimitsKeys | lib/entitlements/rebuild.ts:45-48 | The base limits have one key per distinct `limit_key`. |
| Rebuild.BaseLimitsLastWins | lib/entitlements/rebuild.ts:45-48 | On a repeated key, the last row's `limit_value` wins. |
| Rebuild.BuildLimits | lib/entitlements/rebuild.ts:45-48 | The loop over the limit rows yields the base limits. |
| Rebuild.ApplyAddons | lib/entitlements/rebuild.ts:63-85 | The loop over the add-on rows yields their in-order composition from the base limits and no add-ons. |
| Rebuild.ExtraDriversAdd | lib/entitlements/rebuild.ts:67-74 | Whatever other add-ons are in the list, the extra-driver rows make `max_drivers` `{value: base + Σ(quantity \|\| 0)}` over those rows, and the add-on entry is the last of them's `quantity \|\| 1`. With no extra-driver row, `max_drivers` and the add-on entry are left as they were. |
| Rebuild.ExtraDriversExamples | lib/entitlements/rebuild.ts:67-74 | `{value: 25}` plus 10 gives `{value: 35}`; a bare-number base 25 is read as 0 and gives `{value: 10}`. |
| Rebuild.PlainCodesKeepLimits | lib/entitlements/rebuild.ts:81-83 | Add-on codes other than the three recognised ones leave the limits unchanged. |
| Rebuild.AddonKeys | lib/entitlements/rebuild.ts:64-85 | The add-ons map gains exactly one key per non-empty code; rows without a code are skipped. |
| Rebuild.FlagAddonIsSet | lib/entitlements/rebuild.ts:75-83 | Any applied code other than extra_drivers is `true` in the add-ons map afterwards. |
| Rebuild.RealtimeTrackingLimitIsSet | lib/entitlements/rebuild.ts:75-77 | A realtime_tracking row sets the `realtime_tracking` limit to `true`. |
| Rebuild.AuditRetentionLimitIsSet | lib/entitlements/rebuild.ts:78-80 | An audit_retention_365 row sets `audit_retention_days` to 365. |
| Rebuild.DeriveStatus | lib/entitlements/rebuild.ts:87-96 | `grace_period` exactly when past due with a deadline strictly after now; otherwise the subscription's status. |
| Rebuild.PlanCode | lib/entitlements/rebuild.ts:103 | `plan?.code \|\| null`: a code exactly when the plan exists with a non-empty code. |
| Rebuild.Rebuilt | lib/entitlements/rebuild.ts:7-112 | The snapshot a rebuild writes, or none; `NoLiveSubscriptionIsInactive`, `AddonFailureWritesNothing` and `LiveSnapshotShape` state its three outcomes. |
| Rebuild.ApplyRebuild | lib/entitlements/rebuild.ts:7-112 | A rebuild only writes the organization's own row; every other organization's snapshot is unchanged. |
| Rebuild.NoLiveSubscriptionIsInactive | lib/entitlements/rebuild.ts:24-38 | With no single live subscription the row becomes null plan, `inactive`, empty limits and add-ons. |
| Rebuild.AddonFailureWritesNothing | lib/entitlements/rebuild.ts:62 | When the add-on query fails nothing is written. |
| Rebuild.LiveSnapshotShape | lib/entitlements/rebuild.ts:41-110 | A written live snapshot has the plan's code, and `grace_period` exactly when the subscription is past due with a deadline after now (otherwise the subscription's status). Its limits and add-ons are the plan's base limits composed with the add-on rows. So the add-on keys are exactly the non-empty codes, every plan-limit key stays, and with extra-driver rows `max_drivers` is `{value: base + Σ quantity}`. |
| Rebuild.ComposeKeepsLimitKeys | lib/entitlements/rebuild.ts:64-85 | Composition never removes a limit key. |
| Rebuild.RebuildEntitlements | lib/entitlements/rebuild.ts:7-112 | The method changes only the entitlements table, to what `ApplyRebuild` gives. |
| Check.Cached | lib/entitlements/check.ts:17-21 | The cache read finds a row exactly when the organization has one. |
| Check.GetEntitlements | lib/entitlements/check.ts:14-51 | A hit returns the cached row and writes nothing; a miss runs one rebuild and returns the row it read again; a returned row is what the cache now holds. |
| Check.MissOutcome | lib/entitlements/check.ts:23-43 | A miss returns null exactly when there is one live subscription and its add-on query fails; with none live it returns the inactive snapshot. |
| Check.ReadSettles | lib/entitlements/check.ts:14-51 | Once a row is returned, reading again is a hit returning the same row. |
| Check.HasFeature | lib/entitlements/check.ts:56-74 | A feature is granted exactly when there is a row and its add-on entry is truthy or its limit is exactly `true`. |
| Check.NumericLimitIsNotAFlag | lib/entitlements/check.ts:63-73 | A limit of `1` is not a feature flag. |
| Check.LimitOf | lib/entitlements/check.ts:79-95 | `getLimit` is null without a row or key, the `value` field of a `{value}` object, and the raw value otherwise. |
| Check.RealtimeAddonGrantsFeature | lib/entitlements/rebuild.ts:75-77 | A rebuilt organization with a realtime_tracking add-on has the `realtime_tracking` feature. |
| Check.MaxDriversLimitAfterRebuild | lib/entitlements/rebuild.ts:67-74 | After a rebuild with at least one extra-driver add-on, whatever other add-ons there are, `getLimit("max_drivers")` is the plan's base plus the quantity of every extra-driver row. |
| Enforce.CeilDiv | lib/entitlements/enforce.ts:40-42 | `Math.ceil(a / b)`: the least `q` with `a <= q * b`. |
| Enforce.CheckGracePeriod | lib/entitlements/enforce.ts:14-56 | In grace exactly when the single live subscription is past due with a future deadline; days remaining are the ceiling of the days left in grace and 0 outside it. |
| Enforce.FreshGraceHasSevenDays | lib/entitlements/enforce.ts:14-56 | A deadline just written by a payment failure has all 7 days left. |
| Enforce.StatusGate | lib/entitlements/enforce.ts:72-85 | Inactive and canceled are refused; past_due is refused exactly when the grace check says it is out of grace. |
| Enforce.CanCreateDriver | lib/entitlements/enforce.ts:61-107 | Allowed exactly when there is a row, the status gate passes and `max_drivers` is a number above the assumed count 0. Without a row the reason is "No entitlements found"; a failed status gate gives the gate's reason; a non-number limit gives "Invalid max_drivers limit"; a number n ≤ 0 gives the reached-limit reason with n, reporting `maxDrivers` n and `currentCount` 0. |
| Enforce.GracePeriodStatusPassesGate | lib/entitlements/enforce.ts:72-85 | The `grace_period` snapshot status passes the status gate. |
| Enforce.DriverLimitExamples | lib/entitlements/enforce.ts:87-106 | A limit of 25 allows a driver; a limit of 0 refuses with "Maximum drivers limit reached (0)"; a string limit is no limit. |
| Enforce.CanEnableTracking | lib/entitlements/enforce.ts:112-146 | Allowed exactly when there is a row, the status gate passes and `realtime_tracking` is granted. |
| Enforce.TrackingAddonEnablesTracking | lib/entitlements/enforce.ts:112-146 | An active organization rebuilt with the realtime_tracking add-on may enable tracking. |
| Enforce.CanUseAuditRetention | lib/entitlements/enforce.ts:151-167 | 365 days exactly when the retention add-on is granted, 30 otherwise. |
| Enforce.RetentionAddonGives365 | lib/entitlements/enforce.ts:151-167 | A rebuilt organization with the audit_retention_365 add-on gets 365 days. |
| Enforce.CheckStatus | lib/entitlements/enforce.ts:172-204 | Inactive without a row; active exactly for active and trialing; in grace for grace_period or past due within grace; never both; a warning exactly for past due within grace. |
| EntitlementsRoute.Get | app/api/entitlements/route.ts:11-48 | 404 exactly without entitlements; otherwise the body has the row's status, the grace check's result, 7 grace days, 365 retention days exactly with the retention add-on (else 30), and a plan code exactly when one is set, equal to the row's. `max_drivers` is the limit's `value` field when that is truthy and 0 otherwise; `limits.realtime_tracking`, `addons.extra_drivers` and `addons.realtime_tracking` are the stored entry when it is truthy, else `false`, 0 and `false`. |
| EntitlementsRoute.ReportedDefaults | app/api/entitlements/route.ts:29-41 | A bare-number `max_drivers` of 25, a `{value: ""}` limit and a zero extra-driver count all report 0; an empty plan code reports null, and the tracking fields default to `false`. |
| EntitlementsRoute.MaxDriversAgreesWithLimit | app/api/entitlements/route.ts:28-47 | The reported `max_drivers` is `getLimit`'s number for a `{value}` limit and 0 when the limit is absent. |
| EntitlementsRoute.RetentionDaysAgreeWithEnforcement | app/api/entitlements/route.ts:28-47 | Reporting 365 days implies enforcement allows 365; the converse fails for a `true` limit without the add-on. |
| EntitlementsRoute.TrackingReportedAfterRebuild | app/api/entitlements/route.ts:28-47 | After a rebuild with the realtime_tracking add-on both tracking fields are `true`. |
| Checkout.AddonItemsAreTheBuyableRequests | app/api/billing/checkout/route.ts:50-67 | Every add-on line item is one unit of a requested price that exactly one active add-on sells, and every such request gets an item. |
| Checkout.CheckoutFor | app/api/billing/checkout/route.ts:10-99 | 400 "price_id is required" exactly without a non-empty string price; 400 "Invalid plan" exactly when no single active plan sells it; otherwise a session with the plan line item first, then the add-on items, and the organization in the metadata. |
| Checkout.BuildLineItems | app/api/billing/checkout/route.ts:43-67 | The loop builds the plan item followed by the purchasable add-on items. |
| Checkout.Post | app/api/billing/checkout/route.ts:10-99 | The handler returns what `CheckoutFor` describes. |
| Checkout.InactivePlanIsInvalid | app/api/billing/checkout/route.ts:28-40 | An inactive plan's price is refused as invalid. |
| WebhookRoute.GraceDeadline | app/api/webhooks/stripe/route.ts:271-272 | A new grace deadline is after now. |
| WebhookRoute.PlanForPrice | app/api/webhooks/stripe/route.ts:116-125 | The plan lookup finds a plan exactly when one plan has the price, and that plan has it. |
| WebhookRoute.Commit | app/api/webhooks/stripe/route.ts:127-146 | The upsert writes the row under its key and leaves every other subscription as it was. |
| WebhookRoute.CheckoutCompleted | app/api/webhooks/stripe/route.ts:107-147 | A failure writes nothing; success needs an organization id, a first price and a plan for it, and writes the Stripe subscription's fields with no grace deadline. |
| WebhookRoute.SubscriptionUpdated | app/api/webhooks/stripe/route.ts:149-189 | A failure writes nothing; success needs an existing row and a plan for the first price, and keeps the row's organization and grace deadline. |
| WebhookRoute.SubscriptionDeleted | app/api/webhooks/stripe/route.ts:191-218 | An unknown subscription is ignored; a known one becomes canceled. |
| WebhookRoute.PaymentSucceeded | app/api/webhooks/stripe/route.ts:220-250 | Without a known subscription nothing changes; otherwise it becomes active with no grace deadline. |
| WebhookRoute.PaymentFailed | app/api/webhooks/stripe/route.ts:252-286 | Without a known subscription nothing changes; otherwise it becomes past due with the deadline now + 7 days. |
| WebhookRoute.Process | app/api/webhooks/stripe/route.ts:76-105 | A failure writes nothing; an unhandled type is accepted with no change; each handled type runs its handler. |
| WebhookRoute.Deliver | app/api/webhooks/stripe/route.ts:12-74 | 400 exactly for a missing or unverifiable signature, writing nothing; a 200 leaves the event marked processed; processed events are never changed. A fresh event's tables are what `Process` leaves. It answers 200 exactly when the handler completes; a failing handler leaves the event recorded unprocessed and answers 500 with the handler's message. |
| WebhookRoute.ProcessedEventIsSkipped | app/api/webhooks/stripe/route.ts:32-41 | An already processed event is answered 200 with no change. |
| WebhookRoute.RedeliveryIsIgnored | app/api/webhooks/stripe/route.ts:32-41 | Delivering an accepted event again, at any time, changes nothing. |
| WebhookRoute.FailedEventIsRetried | app/api/webhooks/stripe/route.ts:55-73 | A failed event is recorded but not marked processed, so a retry runs it again. |
| WebhookRoute.UnhandledTypeIsAcknowledged | app/api/webhooks/stripe/route.ts:101-104 | An unhandled event type is recorded, marked processed and answered 200 with the tables unchanged. |
| WebhookRoute.ReplayIsIdempotent | app/api/webhooks/stripe/route.ts:76-105 | Processing a successfully processed event again at the same instant changes nothing. |
| WebhookRoute.CommitTwice | app/api/webhooks/stripe/route.ts:127-146 | Writing the same row and rebuilding twice is the same as once. |
| WebhookRoute.GraceInvariantKept | app/api/webhooks/stripe/route.ts:107-286 | Checkout, deletion and both invoice events keep grace deadlines only on past-due rows. |
| WebhookRoute.UpdatedKeepsStaleGrace | app/api/webhooks/stripe/route.ts:174-185 | An update to active leaves a stale grace deadline on the row. |
| WebhookRoute.PaymentFailureOpensGrace | app/api/webhooks/stripe/route.ts:252-286 | After a failed payment on the only live subscription, the rebuilt status is `grace_period`. |
| WebhookRoute.PaymentSuccessActivates | app/api/webhooks/stripe/route.ts:220-250 | After a successful payment on the only live subscription, the rebuilt status is `active`. |
| WebhookRoute.DeletionDeactivates | app/api/webhooks/stripe/route.ts:191-218 | Deleting the only live subscription leaves the organization `inactive` with no limits or add-ons. |
| WebhookRoute.LiveKeysAfterWrite | app/api/webhooks/stripe/route.ts:127-146 | Writing one row changes the organization's live set only at that key. |
| WebhookRoute.HandleCheckoutSessionCompleted | app/api/webhooks/stripe/route.ts:107-147 | The handler leaves the tables and outcome `CheckoutCompleted` gives. |
| WebhookRoute.HandleSubscriptionUpdated | app/api/webhooks/stripe/route.ts:149-189 | The handler leaves the tables and outcome `SubscriptionUpdated` gives. |
| WebhookRoute.HandleSubscriptionDeleted | app/api/webhooks/stripe/route.ts:191-218 | The handler leaves the tables `SubscriptionDeleted` gives. |
| WebhookRoute.HandleInvoicePaymentSucceeded | app/api/webhooks/stripe/route.ts:220-250 | The handler leaves the tables `PaymentSucceeded` gives. |
| WebhookRoute.HandleInvoicePaymentFailed | app/api/webhooks/stripe/route.ts:252-286 | The handler leaves the tables `PaymentFailed` gives. |
| WebhookRoute.ProcessStripeEvent | app/api/webhooks/stripe/route.ts:76-105 | The dispatch leaves the tables and outcome `Process` gives. |
| WebhookRoute.Post | app/api/webhooks/stripe/route.ts:12-74 | The endpoint answers and writes what `Deliver` gives. |
| Billing.Db.constructor | app/api/webhooks/stripe/route.ts:12-74 | A fresh database has the given plans and add-ons and empty events, subscriptions and entitlements. |
| PlatformStore.Store.constructor | lib/platform/plans.ts:78-115 | A fresh store has the given tenants, plans and limit rows and an empty audit log. |
| Audit.OrNull | lib/platform/audit.ts:56-58 | `v ?? null` is null exactly for a missing or null value and is `v` otherwise. |
| Audit.NormalizeChanges | lib/platform/audit.ts:56-58 | No changes give null; given changes keep both halves with missing halves turned into null. |
| Audit.NormalizeIsStable | lib/platform/audit.ts:56-58 | Normalising stored changes again changes nothing. |
| Audit.LogAction | lib/platform/audit.ts:46-79 | A failed insert throws and appends nothing; otherwise exactly the new entry is appended, with the actor and normalised changes. |
| Audit.AuditAfterUpdate | lib/platform/plans.ts:157-187 | An entry is appended only when there is a non-empty actor and the write succeeds; otherwise the log is unchanged. |
| Audit.FindUser | lib/platform/audit.ts:153 | A user is found exactly when one has the id; the one found has it. |
| Audit.GetAuditLogs | lib/platform/audit.ts:84-160 | The result has one view per page entry, in page order; when the users read fails no user is attached. |
| Audit.UserAttachedIffFound | lib/platform/audit.ts:134-159 | A user is attached exactly when the entry has a non-empty user id that the users table holds and the read succeeded. |
| Audit.PageEntriesMatch | lib/platform/audit.ts:99-119 | Every entry of a page passes the filters and is in the table; a page holds at most `limit` (default 50) entries. |
| Plans.KeyLeTotal | lib/platform/plans.ts:99-104 | Any two keys are ordered one way or the other. |
| Plans.InsertByKey | lib/platform/plans.ts:99-104 | Inserting into a key-sorted list keeps it sorted and adds exactly the row. |
| Plans.SortByKey | lib/platform/plans.ts:99-104 | The ordered rows are sorted by key and a permutation of the input. |
| Plans.RowsOfPlan | lib/platform/plans.ts:99-103 | The plan's rows are exactly the rows with its plan id. |
| Plans.PlanLimits | lib/platform/plans.ts:99-104 | The limits query is sorted by key and a permutation of the plan's rows. |
| Plans.GetPlanById | lib/platform/plans.ts:78-115 | Null exactly for an unknown id; otherwise the plan with exactly its limit rows in key order. |
| Plans.PatchPlan | lib/platform/plans.ts:130-155 | The updated plan row; `PatchChangesOnlyGivenFields` and `PatchIsIdempotent` state its properties. |
| Plans.PatchChangesOnlyGivenFields | lib/platform/plans.ts:130-142 | Only the given fields and `updated_at` change; an absent field keeps its value. |
| Plans.PatchIsIdempotent | lib/platform/plans.ts:130-142 | Applying an update twice equals applying it once, up to the timestamp. |
| Plans.UpdatePlanResult | lib/platform/plans.ts:121-190 | An unknown id fails and writes nothing; otherwise the patched plan is stored and returned and a `plan_updated` entry records the fields before and after. |
| Plans.AuditFailureIsSwallowed | lib/platform/plans.ts:157-187 | A failing audit write does not change the result or the plans and appends nothing. |
| Plans.UpdatePlan | lib/platform/plans.ts:121-190 | The method leaves the plans, the log and the result `UpdatePlanResult` gives. |
| Plans.LimitData | lib/platform/plans.ts:233-250 | A number sets `value` only, a string sets `value_text` only, anything else sets neither. |
| Plans.RowsFor | lib/platform/plans.ts:204-210 | The rows of a plan and key are exactly those with both. |
| Plans.RowsForAppend | lib/platform/plans.ts:252-282 | Inserting a row adds it to its plan and key's rows only. |
| Plans.RowsForWithoutKey | lib/platform/plans.ts:217-231 | The delete empties that plan and key and leaves every other pair as it was. |
| Plans.RowsForReplaceKey | lib/platform/plans.ts:252-270 | The update replaces that plan and key's rows with the new row and leaves the others. |
| Plans.ExistingIffRows | lib/platform/plans.ts:204-214 | A key is existing exactly when the plan has a row for it. |
| Plans.ApplyLimits | lib/platform/plans.ts:216-283 | The limit rows after the update's entries in order; `ApplyLimitsEffect` and `UniqueLimitsKept` state its properties, and `UpdatePlanLimits`'s loop is proved equal to it. |
| Plans.ApplyLimitsEffect | lib/platform/plans.ts:216-283 | For a key of the update, null leaves no row and a value leaves exactly its new row; other keys and plans keep their rows. |
| Plans.ValueForIsAnEntry | lib/platform/plans.ts:216 | A key has an update value exactly when it is an entry of the update. |
| Plans.UniqueLimitsKept | lib/platform/plans.ts:216-283 | The update keeps at most one row per plan and key. |
| Plans.UpdatePlanLimitsResult | lib/platform/plans.ts:197-324 | The returned limits are the plan's rows after the update, in key order; a `plan_limits_updated` entry records the before and after rows. |
| Plans.ReturnedLimitsReflectUpdate | lib/platform/plans.ts:289-323 | For every key of the update, the returned limits hold exactly its new row, or none for null. |
| Plans.UpdatePlanLimits | lib/platform/plans.ts:197-324 | The method leaves the rows, the log and the result `UpdatePlanLimitsResult` gives. |
| Tenants.GetTenantById | lib/platform/tenants.ts:42-62 | Null exactly for an unknown id; otherwise that tenant. |
| Tenants.PatchTenant | lib/platform/tenants.ts:77-100 | The updated organization row; `UpdateTenantResult`'s ensures, `UpdateIsIdempotent` and `DeactivationOnlyChangesStatus` state its properties. |
| Tenants.UpdateTenantResult | lib/platform/tenants.ts:68-135 | An unknown id fails and writes nothing; otherwise the given fields are replaced, id and creation time kept, and a `tenant_updated` entry records the fields before and after. |
| Tenants.AuditFailureIsSwallowed | lib/platform/tenants.ts:102-132 | A failing audit write does not change the result or the tenants and appends nothing. |
| Tenants.UpdateIsIdempotent | lib/platform/tenants.ts:77-100 | Repeating an update leaves the tenants and result as the first one did. |
| Tenants.OtherTenantsUnchanged | lib/platform/tenants.ts:89-100 | Every other tenant is left as it was. |
| Tenants.UpdateTenant | lib/platform/tenants.ts:68-135 | The method leaves the tenants, the log and the result `UpdateTenantResult` gives. |
| Tenants.DeactivateTenant | lib/platform/tenants.ts:141-143 | Deactivation is the update that sets only the status to `inactive`. |
| Tenants.DeactivationOnlyChangesStatus | lib/platform/tenants.ts:141-143 | Deactivating a known tenant returns it with status `inactive` and every other field unchanged. |
| SubscriptionsList.Merge | lib/platform/subscriptions.ts:146-178 | One entry per kept subscription, in order, with its own organization and plan from the fetched rows. |
| SubscriptionsList.GetAllSubscriptions | lib/platform/subscriptions.ts:59-181 | An empty page gives an empty list; a failed organizations or plans read gives its error; every listed entry comes from the page with its own organization and plan. |
| SubscriptionsList.ListedIffFoundAndMatching | lib/platform/subscriptions.ts:104-178 | The list keeps page order, and a page subscription is listed exactly when its organization and plan exist and it passes the search. |
| SubscriptionsList.Subs | lib/platform/subscriptions.ts:146-178 | The subscriptions of a list, position by position. |
| SubscriptionsList.ListedMatchFilters | lib/platform/subscriptions.ts:75-89 | Every listed subscription passes the filters and is in the table; a list holds at most `limit` (default 50). |
| Metrics.GetMrrCents | lib/platform/metrics.ts:32-91 | 0 with no active or trialing rows; the error when the plans read fails; otherwise the sum of each counted row's plan price. |
| Metrics.SumCentsAppend | lib/platform/metrics.ts:79-87 | MRR is additive over rows. |
| Metrics.MrrOfOneMoreRow | lib/platform/metrics.ts:38-87 | An active or trialing row adds its plan's price, even for a repeated plan; any other row adds nothing. |
| Metrics.MrrBounds | lib/platform/metrics.ts:79-87 | With prices between 0 and a cap, MRR is between 0 and the cap per row. |
| Metrics.OrgsOf | lib/platform/metrics.ts:112-117 | The organization set holds exactly the rows' organizations. |
| Metrics.OrgsAtMostRows | lib/platform/metrics.ts:112-117 | There are never more organizations than rows. |
| Metrics.ActiveTenantsCount | lib/platform/metrics.ts:97-118 | `getActiveTenantsCount`: the number of distinct organizations among active and trialing rows; `ActiveTenantsBounds` states its properties. |
| Metrics.ActiveTenantsBounds | lib/platform/metrics.ts:97-118 | The count is at most the counted rows and 0 exactly when there are none. |
| Metrics.CountStatus | lib/platform/metrics.ts:183-195 | A status count is at most the number of rows, and 0 exactly when no row has that status. |
| Metrics.StatusCountsBounded | lib/platform/metrics.ts:183-195 | The trialing, past-due and canceled counts add up to at most the total. |
| Metrics.ChurnRateAsWritten | lib/platform/metrics.ts:124-164 | `getChurnRate` as written, reading the row count of head-only requests; `ChurnAsWrittenIsAlwaysZero` states that it is always 0. |
| Metrics.ChurnAsWrittenIsAlwaysZero | lib/platform/metrics.ts:128-144 | As written the rate is 0 for any counts: 5 cancellations among 10 give 0 where 50 is meant. |
| Metrics.ChurnRate | lib/platform/metrics.ts:124-164 | 0 with nothing active at the start; otherwise the rate times the starting count is 100 times the cancellations. |
| Metrics.ChurnPositiveIffCancellations | lib/platform/metrics.ts:124-164 | The corrected rate is positive exactly when something was active at the start and something was canceled. |
| Metrics.GetMetricsAsWritten | lib/platform/metrics.ts:169-222 | `getMetrics` as written: it fails exactly when the corrected report fails, and otherwise gives the corrected report with the churn rate replaced by 0, whatever the counts. |
| Metrics.GetMetrics | lib/platform/metrics.ts:169-222 | The dashboard with the churn rate corrected. It fails exactly when MRR fails; otherwise it reports MRR, the active-tenant count (`ActiveTenantsCount`, at most the counted rows), the corrected churn rate, the total, and the trialing, past-due and canceled counts (`CountStatus`, summing to at most the total). |

## Left out

- Stripe signature verification (HMAC) is not modelled: the request carries the verified event or `None`.
- The Stripe API calls (`subscriptions.retrieve`, `checkout.sessions.create`) are inputs: the retrieved subscription is a parameter and the session's `id`/`url` are not modelled.
- ISO date strings are integers; `setDate(+7)` is taken as exactly 7 × 86 400 000 ms, so daylight-saving shifts are not modelled.
- Each request uses one `now` where the source calls `new Date()` several times.
- Floating point: the churn rate is an exact real; MRR is kept in cents and the division by 100 into dollars is not modelled.
- Concurrency: `Promise.all` in `updatePlanLimits` and `getMetrics` is modelled as sequential steps; races between requests are not modelled.
- Read and write errors not listed above are not modelled: the subscription queries' errors, the plan-limit write errors and the re-read error "Failed to fetch updated limits", non-PGRST116 errors of `getPlanById`/`getTenantById`, and a failing existing-limits read.
- Sessions and auth guards are not modelled; a failing session read is folded into `auditFails`, and the platform user id is a parameter.
- `getAllPlans`, `getAllTenants` and `getSubscriptionById` are plain reads and are not modelled; generated row ids are not modelled.
- Middleware.Gate: it is the decision for a request the middleware runs on. `config.matcher` (middleware.ts:61-74) keeps the middleware off `/api`, `/auth`, `/_next/static`, `/_next/image`, `favicon.ico` and every path containing a dot, such as `/platform/export.csv`; that matcher is not modelled.
- Rebuild.CurrentMaxDrivers: a non-numeric `max_drivers.value` (where JavaScript `+` would concatenate strings) counts as 0.
- The rebuild reads `limit_key`/`limit_value` while the console writes `key`/`value`; the two are modelled as the source names them and are not linked.
- Ordering uses code-point order rather than a database collation, and lower-casing is ASCII only.
- A non-string entry in the checkout add-on list matches no add-on.
- A `limit` of 0 (where `.range` gets a negative end) is not modelled beyond the `Window` definition.
- An event whose object does not have the shape its type implies is handled coarsely: a checkout or subscription-update event fails with the first error its handler would throw, a deletion does nothing, and an invoice event reads the subscription id the object carries, if any.
- Foreign-key checks on plan-limit inserts are not modelled.
- Tenants.UpdateTenantResult: an update with no fields is modelled as a successful write of the unchanged row; the database's handling of an empty update is not modelled.
- The churn rate's two period queries are given as their head-count responses.
- Metrics.GetMrrCents: the subscription query's error (also "Failed to calculate MRR") is not modelled; only the plans read can fail.
- Metrics.GetMetrics: reports the corrected churn rate (`Metrics.ChurnRate`), where the code as written always reports 0; `Metrics.GetMetricsAsWritten` is the report as written, and the Findings table records the difference.
- Metrics.GetMetrics: the errors of the status-count read ("Failed to fetch metrics"), of the active-tenants read and of the two churn count queries ("Failed to calculate churn rate") are not modelled.

## Findings

| source | as written | input that shows it | evidently intended | confidence | as-written member | corrected member |
|---|---|---|---|---|---|---|
| lib/platform/metrics.ts:128-163 | The churn rate divides by `activeAtStart?.length \|\| 0`, but that query is a `head: true` count request, which returns no rows, so the divisor is always 0 and the rate is always 0. | 10 subscriptions active at the start of the period and 5 canceled during it: the rate is 0 instead of 50. | Divide the canceled `count` by the active-at-start `count`. | not executed; high | Metrics.ChurnAsWrittenIsAlwaysZero | Metrics.ChurnRate |
