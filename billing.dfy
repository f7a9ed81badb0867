/** The billing tables the webhook pipeline reads and writes, and the Stripe objects it
    receives. Times are integer milliseconds; Stripe's own timestamps are seconds. */
module Billing {

  import opened Common

  /** Subscription statuses as Stripe reports them, plus the two statuses that only the
      entitlements snapshot uses (`grace_period`, `inactive`). */
  datatype Status =
    | Active | Trialing | PastDue | Canceled | Incomplete
    | GracePeriod | Inactive
    | OtherStatus(name: string)  // any other Stripe status, kept verbatim

  function StatusName(s: Status): string {
    match s
    case Active => "active"
    case Trialing => "trialing"
    case PastDue => "past_due"
    case Canceled => "canceled"
    case Incomplete => "incomplete"
    case GracePeriod => "grace_period"
    case Inactive => "inactive"
    case OtherStatus(name) => name
  }

  /** The statuses the rebuild and the grace check select: `.in("status", [...])`. */
  predicate IsLive(s: Status) {
    s == Active || s == Trialing || s == PastDue
  }

  /** A row of the subscriptions table; the table is keyed by `stripeSubscriptionId`. */
  datatype Subscription = Subscription(
    organizationId: string,
    planId: string,
    stripeSubscriptionId: string,
    stripeCustomerId: string,
    status: Status,
    currentPeriodStart: int,
    currentPeriodEnd: int,
    cancelAtPeriodEnd: bool,
    gracePeriodUntil: Option<int>,
    updatedAt: int)

  /** A plan-limit row as the rebuild's join reads it (`limit_key`, `limit_value`). */
  datatype LimitRow = LimitRow(limitKey: string, limitValue: Json)

  /** A row of the plans table with its joined limit rows; the table is keyed by plan id. */
  datatype Plan = Plan(code: string, active: bool, stripePriceId: Option<string>, limits: seq<LimitRow>)

  /** An active org add-on row with its joined add-on code (`addons.code`). */
  datatype OrgAddon = OrgAddon(quantity: Option<int>, code: Option<string>)

  /** A row of the entitlements table, keyed by organization id. */
  datatype Snapshot = Snapshot(
    planCode: Option<string>,
    status: Status,
    limits: map<string, Json>,
    addons: map<string, Json>,
    updatedAt: int)

  /** A Stripe subscription object; `priceIds` are `items.data[k].price.id` in order and
      the periods are in seconds. */
  datatype StripeSubscription = StripeSubscription(
    id: string,
    customer: string,
    status: Status,
    priceIds: seq<string>,
    currentPeriodStart: int,
    currentPeriodEnd: int,
    cancelAtPeriodEnd: bool)

  /** `event.data.object` (the `data` field here), in the shape each handled event type carries. */
  datatype EventObject =
      /** A checkout session, with the subscription `stripe.subscriptions.retrieve` returns for it. */
    | CheckoutSession(metadata: Option<map<string, string>>, retrieved: StripeSubscription)
    | SubscriptionObject(subscription: StripeSubscription)
      /** An invoice; `invoiceSubscription` is absent for a one-time payment. */
    | InvoiceObject(invoiceSubscription: Option<string>)

  datatype Event = Event(id: string, eventType: string, data: EventObject)

  /** A row of the stripe_events table, keyed by event id. */
  datatype EventRow = EventRow(eventType: string, payload: Event, createdAt: int, processedAt: Option<int>)

  /** The billing schema. The webhook writes `events`, `subscriptions` and `entitlements`;
      `plans` and `orgAddons` are read only. `orgAddons` gives the result of the active
      add-on query per organization (`None`: the query failed); an organization with no
      entry has no active add-ons. */
  class Db {
    var events: map<string, EventRow>
    var subscriptions: map<string, Subscription>
    var entitlements: map<string, Snapshot>
    var plans: map<string, Plan>
    var orgAddons: map<string, Option<seq<OrgAddon>>>

    constructor (plans: map<string, Plan>, orgAddons: map<string, Option<seq<OrgAddon>>>)
      ensures this.plans == plans && this.orgAddons == orgAddons
      ensures events == map[] && subscriptions == map[] && entitlements == map[]
    {
      this.plans := plans;
      this.orgAddons := orgAddons;
      events := map[];
      subscriptions := map[];
      entitlements := map[];
    }
  }
}
