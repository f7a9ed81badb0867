/** The Stripe webhook endpoint: signature gate, event-id idempotency, dispatch on the event
    type, the five subscription handlers, and marking the event processed only on success.
    Each handler is a function from the billing tables to the tables it leaves (the
    specification) and a method on `Db` that performs the same writes in the same order. */
module WebhookRoute {

  import opened Common
  import opened Billing
  import opened StripeWebhooks
  import opened Rebuild

  const CHECKOUT_COMPLETED := "checkout.session.completed"
  const SUBSCRIPTION_CREATED := "customer.subscription.created"
  const SUBSCRIPTION_UPDATED := "customer.subscription.updated"
  const SUBSCRIPTION_DELETED := "customer.subscription.deleted"
  const PAYMENT_SUCCEEDED := "invoice.payment_succeeded"
  const PAYMENT_FAILED := "invoice.payment_failed"

  const MISSING_ORGANIZATION := "Missing organization_id in checkout session metadata"
  /** The runtime error of reading `items.data[0].price` from an object without items. */
  const NO_ITEMS := "Cannot read properties of undefined (reading 'data')"
  /** The runtime error of reading `.price` of `items.data[0]` when the item list is empty. */
  const NO_PRICE_ITEM := "Cannot read properties of undefined (reading 'price')"

  function PlanNotFound(price: string): string { "Plan not found for price_id: " + price }
  function SubscriptionNotFound(id: string): string { "Subscription not found: " + id }

  /** The tables the handlers write. */
  datatype Tables = Tables(subscriptions: map<string, Subscription>, entitlements: map<string, Snapshot>)

  /** How a handler ended: normally, or by throwing with a message. */
  datatype Outcome = Done | Failed(message: string)

  datatype Step = Step(outcome: Outcome, tables: Tables)

  /** Stripe seconds to the milliseconds the timestamp columns hold. */
  function FromStripeSeconds(seconds: int): int { seconds * 1000 }

  /** The deadline a payment failure at `now` grants. */
  function GraceDeadline(now: int): (d: int)
    ensures d > now
  {
    now + GRACE_DAYS * DAY_MS
  }

  /** Plans whose Stripe price is `price`. */
  function PriceKeys(plans: map<string, Plan>, price: string): set<string> {
    set k | k in plans && plans[k].stripePriceId == Some(price)
  }

  /** The plan lookup by Stripe price with `.single()`: found only when exactly one plan
      carries the price (active or not). */
  function PlanForPrice(plans: map<string, Plan>, price: string): (r: Option<string>)
    ensures r.Some? <==> |PriceKeys(plans, price)| == 1
    ensures r.Some? ==> r.value in plans && plans[r.value].stripePriceId == Some(price)
  {
    var r := TheOnly(PriceKeys(plans, price));
    if r.Some? then assert r.value in PriceKeys(plans, price); r else r
  }

  /** Write `row` under `key`, then rebuild the entitlements of the row's organization. */
  function Commit(t: Tables, plans: map<string, Plan>, orgAddons: map<string, Option<seq<OrgAddon>>>,
                  key: string, row: Subscription, now: int): (r: Tables)
    ensures r.subscriptions.Keys == t.subscriptions.Keys + {key}
    ensures r.subscriptions[key] == row
    ensures forall k :: k in t.subscriptions && k != key ==> r.subscriptions[k] == t.subscriptions[k]
  {
    var subs := t.subscriptions[key := row];
    Tables(subs, ApplyRebuild(t.entitlements, subs, plans, orgAddons, row.organizationId, now))
  }

  /** `handleCheckoutSessionCompleted`: the subscription Stripe returns for the session is
      upserted for the organization named in the metadata, with no grace deadline. */
  function CheckoutCompleted(t: Tables, plans: map<string, Plan>, orgAddons: map<string, Option<seq<OrgAddon>>>,
                             metadata: Option<map<string, string>>, sub: StripeSubscription, now: int): (s: Step)
    ensures s.outcome.Failed? ==> s.tables == t
    ensures s.outcome.Done? <==>
              GetOrganizationIdFromMetadata(metadata).Some? && sub.priceIds != [] && PlanForPrice(plans, sub.priceIds[0]).Some?
    ensures s.outcome.Done? ==>
              && sub.id in s.tables.subscriptions
              && s.tables.subscriptions[sub.id].organizationId == GetOrganizationIdFromMetadata(metadata).value
              && s.tables.subscriptions[sub.id].planId == PlanForPrice(plans, sub.priceIds[0]).value
              && s.tables.subscriptions[sub.id].status == sub.status
              && s.tables.subscriptions[sub.id].gracePeriodUntil.None?
  {
    match GetOrganizationIdFromMetadata(metadata)
    case None => Step(Failed(MISSING_ORGANIZATION), t)
    case Some(org) =>
      if sub.priceIds == [] then Step(Failed(NO_PRICE_ITEM), t)
      else match PlanForPrice(plans, sub.priceIds[0])
        case None => Step(Failed(PlanNotFound(sub.priceIds[0])), t)
        case Some(planId) =>
          var row := Subscription(org, planId, sub.id, sub.customer, sub.status,
                                  FromStripeSeconds(sub.currentPeriodStart), FromStripeSeconds(sub.currentPeriodEnd),
                                  sub.cancelAtPeriodEnd, None, now);
          Step(Done, Commit(t, plans, orgAddons, sub.id, row, now))
  }

  /** `handleSubscriptionUpdated` (also used for `created`): the existing row takes the new
      plan, status, periods and cancel flag; its organization and grace deadline stay. */
  function SubscriptionUpdated(t: Tables, plans: map<string, Plan>, orgAddons: map<string, Option<seq<OrgAddon>>>,
                               sub: StripeSubscription, now: int): (s: Step)
    ensures s.outcome.Failed? ==> s.tables == t
    ensures s.outcome.Done? <==>
              sub.priceIds != [] && PlanForPrice(plans, sub.priceIds[0]).Some? && sub.id in t.subscriptions
    ensures s.outcome.Done? ==>
              && sub.id in s.tables.subscriptions
              && s.tables.subscriptions[sub.id].organizationId == t.subscriptions[sub.id].organizationId
              && s.tables.subscriptions[sub.id].gracePeriodUntil == t.subscriptions[sub.id].gracePeriodUntil
              && s.tables.subscriptions[sub.id].status == sub.status
              && s.tables.subscriptions[sub.id].planId == PlanForPrice(plans, sub.priceIds[0]).value
  {
    if sub.priceIds == [] then Step(Failed(NO_PRICE_ITEM), t)
    else match PlanForPrice(plans, sub.priceIds[0])
      case None => Step(Failed(PlanNotFound(sub.priceIds[0])), t)
      case Some(planId) =>
        if sub.id !in t.subscriptions then Step(Failed(SubscriptionNotFound(sub.id)), t)
        else
          var existing := t.subscriptions[sub.id];
          var row := existing.(planId := planId, status := sub.status,
                               currentPeriodStart := FromStripeSeconds(sub.currentPeriodStart),
                               currentPeriodEnd := FromStripeSeconds(sub.currentPeriodEnd),
                               cancelAtPeriodEnd := sub.cancelAtPeriodEnd, updatedAt := now);
          Step(Done, Commit(t, plans, orgAddons, sub.id, row, now))
  }

  /** `handleSubscriptionDeleted`: an unknown subscription is ignored; a known one is
      canceled with its grace deadline cleared. Never fails. */
  function SubscriptionDeleted(t: Tables, plans: map<string, Plan>, orgAddons: map<string, Option<seq<OrgAddon>>>,
                               id: string, now: int): (r: Tables)
    ensures id !in t.subscriptions ==> r == t
    ensures id in t.subscriptions ==> id in r.subscriptions && r.subscriptions[id].status == Canceled
                                      && r.subscriptions[id].gracePeriodUntil.None?
  {
    if id !in t.subscriptions then t
    else
      var row := t.subscriptions[id].(status := Canceled, gracePeriodUntil := None, updatedAt := now);
      Commit(t, plans, orgAddons, id, row, now)
  }

  /** `handleInvoicePaymentSucceeded`: a subscription invoice for a known subscription makes
      it active and clears its grace deadline; anything else is ignored. */
  function PaymentSucceeded(t: Tables, plans: map<string, Plan>, orgAddons: map<string, Option<seq<OrgAddon>>>,
                            invoiceSubscription: Option<string>, now: int): (r: Tables)
    ensures invoiceSubscription.None? || invoiceSubscription.value == "" || invoiceSubscription.value !in t.subscriptions ==> r == t
    ensures invoiceSubscription.Some? && invoiceSubscription.value != "" && invoiceSubscription.value in t.subscriptions ==>
              invoiceSubscription.value in r.subscriptions && r.subscriptions[invoiceSubscription.value].status == Active
              && r.subscriptions[invoiceSubscription.value].gracePeriodUntil.None?
  {
    if invoiceSubscription.None? || invoiceSubscription.value == "" then t
    else
      var id := invoiceSubscription.value;
      if id !in t.subscriptions then t
      else
        var row := t.subscriptions[id].(status := Active, gracePeriodUntil := None, updatedAt := now);
        Commit(t, plans, orgAddons, id, row, now)
  }

  /** `handleInvoicePaymentFailed`: a subscription invoice for a known subscription makes it
      past due with a grace deadline seven days after now; anything else is ignored. */
  function PaymentFailed(t: Tables, plans: map<string, Plan>, orgAddons: map<string, Option<seq<OrgAddon>>>,
                         invoiceSubscription: Option<string>, now: int): (r: Tables)
    ensures invoiceSubscription.None? || invoiceSubscription.value == "" || invoiceSubscription.value !in t.subscriptions ==> r == t
    ensures invoiceSubscription.Some? && invoiceSubscription.value != "" && invoiceSubscription.value in t.subscriptions ==>
              invoiceSubscription.value in r.subscriptions && r.subscriptions[invoiceSubscription.value].status == PastDue
              && r.subscriptions[invoiceSubscription.value].gracePeriodUntil == Some(now + 7 * 86_400_000)
  {
    if invoiceSubscription.None? || invoiceSubscription.value == "" then t
    else
      var id := invoiceSubscription.value;
      if id !in t.subscriptions then t
      else
        var row := t.subscriptions[id].(status := PastDue, gracePeriodUntil := Some(GraceDeadline(now)), updatedAt := now);
        Commit(t, plans, orgAddons, id, row, now)
  }

  /** `invoice.subscription` read from whatever object the event carries: a checkout session
      also has a `subscription` field; a subscription object has none. */
  function InvoiceSubscriptionOf(o: EventObject): Option<string> {
    match o
    case InvoiceObject(s) => s
    case CheckoutSession(_, sub) => Some(sub.id)
    case SubscriptionObject(_) => None
  }

  predicate IsHandledType(eventType: string) {
    eventType == CHECKOUT_COMPLETED || eventType == SUBSCRIPTION_CREATED || eventType == SUBSCRIPTION_UPDATED
    || eventType == SUBSCRIPTION_DELETED || eventType == PAYMENT_SUCCEEDED || eventType == PAYMENT_FAILED
  }

  /** `processStripeEvent`: dispatch on the event type; other types are accepted unchanged. */
  function Process(t: Tables, plans: map<string, Plan>, orgAddons: map<string, Option<seq<OrgAddon>>>,
                   event: Event, now: int): (s: Step)
    ensures s.outcome.Failed? ==> s.tables == t
    ensures !IsHandledType(event.eventType) ==> s == Step(Done, t)
    ensures s.outcome.Failed? ==>
              event.eventType == CHECKOUT_COMPLETED || event.eventType == SUBSCRIPTION_CREATED || event.eventType == SUBSCRIPTION_UPDATED
  {
    var eventType := event.eventType;
    if eventType == CHECKOUT_COMPLETED then
      match event.data
      case CheckoutSession(metadata, sub) => CheckoutCompleted(t, plans, orgAddons, metadata, sub, now)
      case _ => Step(Failed(MISSING_ORGANIZATION), t)
    else if eventType == SUBSCRIPTION_CREATED || eventType == SUBSCRIPTION_UPDATED then
      match event.data
      case SubscriptionObject(sub) => SubscriptionUpdated(t, plans, orgAddons, sub, now)
      case _ => Step(Failed(NO_ITEMS), t)
    else if eventType == SUBSCRIPTION_DELETED then
      match event.data
      case SubscriptionObject(sub) => Step(Done, SubscriptionDeleted(t, plans, orgAddons, sub.id, now))
      case _ => Step(Done, t)
    else if eventType == PAYMENT_SUCCEEDED then
      Step(Done, PaymentSucceeded(t, plans, orgAddons, InvoiceSubscriptionOf(event.data), now))
    else if eventType == PAYMENT_FAILED then
      Step(Done, PaymentFailed(t, plans, orgAddons, InvoiceSubscriptionOf(event.data), now))
    else Step(Done, t)
  }

  // ---------------------------------------------------------------------------
  // The endpoint

  /** The incoming request: the `stripe-signature` header and the event that verifying the
      body against it yields (`None`: verification throws). */
  datatype Request = Request(signature: Option<string>, verified: Option<Event>)

  datatype Response = Received | MissingSignature | InvalidSignature | ProcessingFailed(message: string)

  function StatusCode(r: Response): int {
    match r
    case Received => 200
    case MissingSignature => 400
    case InvalidSignature => 400
    case ProcessingFailed(_) => 500
  }

  datatype Delivery = Delivery(response: Response, events: map<string, EventRow>, tables: Tables)

  predicate IsProcessed(events: map<string, EventRow>, id: string) {
    id in events && events[id].processedAt.Some?
  }

  /** `POST`: the response and the tables after one delivery. */
  function Deliver(events: map<string, EventRow>, t: Tables, plans: map<string, Plan>,
                   orgAddons: map<string, Option<seq<OrgAddon>>>, req: Request, now: int): (d: Delivery)
    ensures d.response == MissingSignature <==> req.signature.None? || req.signature.value == ""
    ensures d.response == InvalidSignature <==> req.signature.Some? && req.signature.value != "" && req.verified.None?
    ensures d.response == MissingSignature || d.response == InvalidSignature ==> d.events == events && d.tables == t
    ensures req.verified.None? ==> d.events == events && d.tables == t
    ensures d.response == Received && req.verified.Some? ==> IsProcessed(d.events, req.verified.value.id)
    ensures d.response.ProcessingFailed? ==>
              && d.tables == t
              && req.verified.value.id in d.events
              && !IsProcessed(d.events, req.verified.value.id)
    ensures forall id :: id in d.events ==> id in events || (req.verified.Some? && id == req.verified.value.id)
    ensures forall id :: IsProcessed(events, id) ==> IsProcessed(d.events, id) && d.events[id] == events[id]
    ensures req.signature.Some? && req.signature.value != "" && req.verified.Some? && !IsProcessed(events, req.verified.value.id) ==>
              var s := Process(t, plans, orgAddons, req.verified.value, now);
              && d.tables == s.tables
              && (d.response == Received <==> s.outcome.Done?)
              && (s.outcome.Failed? ==> d.response == ProcessingFailed(s.outcome.message) && !IsProcessed(d.events, req.verified.value.id))
  {
    if req.signature.None? || req.signature.value == "" then Delivery(MissingSignature, events, t)
    else if req.verified.None? then Delivery(InvalidSignature, events, t)
    else
      var event := req.verified.value;
      if IsProcessed(events, event.id) then Delivery(Received, events, t)
      else
        var recorded := events[event.id := EventRow(GetEventType(event), event, now, None)];
        var s := Process(t, plans, orgAddons, event, now);
        match s.outcome
        case Done => Delivery(Received, recorded[event.id := recorded[event.id].(processedAt := Some(now))], s.tables)
        case Failed(message) => Delivery(ProcessingFailed(message), recorded, s.tables)
  }

  // ---------------------------------------------------------------------------
  // Properties of the pipeline

  /** A delivery of an event already marked processed answers 200 and changes nothing. */
  lemma ProcessedEventIsSkipped(events: map<string, EventRow>, t: Tables, plans: map<string, Plan>,
                                orgAddons: map<string, Option<seq<OrgAddon>>>, req: Request, now: int)
    requires req.signature.Some? && req.signature.value != "" && req.verified.Some?
    requires IsProcessed(events, req.verified.value.id)
    ensures Deliver(events, t, plans, orgAddons, req, now) == Delivery(Received, events, t)
  {
  }

  /** An accepted event is processed at most once: delivering the same request again, at any
      time, is answered 200 and leaves every table as the first delivery left it. */
  lemma {:induction false} RedeliveryIsIgnored(events: map<string, EventRow>, t: Tables, plans: map<string, Plan>,
                                               orgAddons: map<string, Option<seq<OrgAddon>>>, req: Request, now: int, later: int)
    requires req.verified.Some?
    requires Deliver(events, t, plans, orgAddons, req, now).response == Received
    ensures var d := Deliver(events, t, plans, orgAddons, req, now);
            Deliver(d.events, d.tables, plans, orgAddons, req, later) == Delivery(Received, d.events, d.tables)
  {
    var d := Deliver(events, t, plans, orgAddons, req, now);
    assert IsProcessed(d.events, req.verified.value.id);
    ProcessedEventIsSkipped(d.events, d.tables, plans, orgAddons, req, later);
  }

  /** A failed event is recorded but not marked processed, so Stripe's retry runs it again. */
  lemma {:induction false} FailedEventIsRetried(events: map<string, EventRow>, t: Tables, plans: map<string, Plan>,
                                                orgAddons: map<string, Option<seq<OrgAddon>>>, req: Request, now: int, later: int)
    requires Deliver(events, t, plans, orgAddons, req, now).response.ProcessingFailed?
    ensures var d := Deliver(events, t, plans, orgAddons, req, now);
            && d.tables == t
            && Deliver(d.events, d.tables, plans, orgAddons, req, later).tables == Process(t, plans, orgAddons, req.verified.value, later).tables
  {
    var d := Deliver(events, t, plans, orgAddons, req, now);
    assert !IsProcessed(d.events, req.verified.value.id);
  }

  /** An event type the endpoint does not handle is recorded, marked processed and answered
      200 without touching the billing tables. */
  lemma UnhandledTypeIsAcknowledged(events: map<string, EventRow>, t: Tables, plans: map<string, Plan>,
                                    orgAddons: map<string, Option<seq<OrgAddon>>>, req: Request, now: int)
    requires req.signature.Some? && req.signature.value != "" && req.verified.Some?
    requires !IsHandledType(req.verified.value.eventType)
    ensures var d := Deliver(events, t, plans, orgAddons, req, now);
            d.response == Received && d.tables == t && IsProcessed(d.events, req.verified.value.id)
  {
  }

  /** Replaying a successfully processed event at the same instant leaves the tables as they
      are: every handler writes values that depend only on the event and the instant. */
  lemma {:induction false} ReplayIsIdempotent(t: Tables, plans: map<string, Plan>, orgAddons: map<string, Option<seq<OrgAddon>>>,
                                              event: Event, now: int)
    requires Process(t, plans, orgAddons, event, now).outcome.Done?
    ensures var t1 := Process(t, plans, orgAddons, event, now).tables;
            Process(t1, plans, orgAddons, event, now) == Step(Done, t1)
  {
    var t1 := Process(t, plans, orgAddons, event, now).tables;
    var ty := event.eventType;
    if ty == CHECKOUT_COMPLETED {
      var sub := event.data.retrieved;
      var org := GetOrganizationIdFromMetadata(event.data.metadata).value;
      var row := Subscription(org, PlanForPrice(plans, sub.priceIds[0]).value, sub.id, sub.customer, sub.status,
                              FromStripeSeconds(sub.currentPeriodStart), FromStripeSeconds(sub.currentPeriodEnd),
                              sub.cancelAtPeriodEnd, None, now);
      CommitTwice(t, plans, orgAddons, sub.id, row, now);
    } else if ty == SUBSCRIPTION_CREATED || ty == SUBSCRIPTION_UPDATED {
      var sub := event.data.subscription;
      var row := t1.subscriptions[sub.id];
      assert t.subscriptions[sub.id].(planId := row.planId, status := row.status, currentPeriodStart := row.currentPeriodStart,
                                      currentPeriodEnd := row.currentPeriodEnd, cancelAtPeriodEnd := row.cancelAtPeriodEnd,
                                      updatedAt := now) == row;
      CommitTwice(t, plans, orgAddons, sub.id, row, now);
    } else if ty == SUBSCRIPTION_DELETED {
      if event.data.SubscriptionObject? && event.data.subscription.id in t.subscriptions {
        var id := event.data.subscription.id;
        CommitTwice(t, plans, orgAddons, id, t1.subscriptions[id], now);
      }
    } else if ty == PAYMENT_SUCCEEDED || ty == PAYMENT_FAILED {
      var inv := InvoiceSubscriptionOf(event.data);
      if inv.Some? && inv.value != "" && inv.value in t.subscriptions {
        CommitTwice(t, plans, orgAddons, inv.value, t1.subscriptions[inv.value], now);
      }
    }
  }

  /** Writing the same row twice and rebuilding twice is the same as doing it once. */
  lemma CommitTwice(t: Tables, plans: map<string, Plan>, orgAddons: map<string, Option<seq<OrgAddon>>>,
                    key: string, row: Subscription, now: int)
    ensures var t1 := Commit(t, plans, orgAddons, key, row, now);
            Commit(t1, plans, orgAddons, key, row, now) == t1
            && key in t1.subscriptions && t1.subscriptions[key] == row
  {
    var t1 := Commit(t, plans, orgAddons, key, row, now);
    assert t1.subscriptions[key := row] == t1.subscriptions;
  }

  /** A grace deadline is only ever recorded on a past-due subscription. */
  predicate GraceOnlyWhenPastDue(subs: map<string, Subscription>) {
    forall k :: k in subs && subs[k].gracePeriodUntil.Some? ==> subs[k].status == PastDue
  }

  /** Checkout, deletion and both invoice events keep a grace deadline only on past-due rows. */
  lemma {:induction false} GraceInvariantKept(t: Tables, plans: map<string, Plan>, orgAddons: map<string, Option<seq<OrgAddon>>>,
                                              event: Event, now: int)
    requires GraceOnlyWhenPastDue(t.subscriptions)
    requires event.eventType != SUBSCRIPTION_CREATED && event.eventType != SUBSCRIPTION_UPDATED
    ensures GraceOnlyWhenPastDue(Process(t, plans, orgAddons, event, now).tables.subscriptions)
  {
    var t1 := Process(t, plans, orgAddons, event, now).tables;
    forall k | k in t1.subscriptions && t1.subscriptions[k].gracePeriodUntil.Some?
      ensures t1.subscriptions[k].status == PastDue
    {
      if k !in t.subscriptions || t1.subscriptions[k] != t.subscriptions[k] {
        assert event.eventType == PAYMENT_FAILED;
      }
    }
  }

  /** The update handler does not clear the grace deadline: a past-due subscription in grace
      that Stripe reports active again keeps its deadline. */
  lemma UpdatedKeepsStaleGrace()
    ensures var row := Subscription("org", "plan", "sub", "cus", PastDue, 0, 0, false, Some(GraceDeadline(0)), 0);
            var t := Tables(map["sub" := row], map[]);
            var plans := map["plan" := Plan("starter", true, Some("price"), [])];
            var event := Event("evt", SUBSCRIPTION_UPDATED,
                               SubscriptionObject(StripeSubscription("sub", "cus", Active, ["price"], 0, 0, false)));
            var t1 := Process(t, plans, map[], event, 1).tables;
            && GraceOnlyWhenPastDue(t.subscriptions)
            && t1.subscriptions["sub"].status == Active
            && t1.subscriptions["sub"].gracePeriodUntil == Some(GraceDeadline(0))
            && !GraceOnlyWhenPastDue(t1.subscriptions)
  {
    var plans := map["plan" := Plan("starter", true, Some("price"), [])];
    assert PriceKeys(plans, "price") == {"plan"};
  }

  /** After a failed payment on an organization's only live subscription, the rebuilt
      entitlements are in `grace_period` (given the add-on query succeeds). */
  lemma {:induction false} PaymentFailureOpensGrace(t: Tables, plans: map<string, Plan>, orgAddons: map<string, Option<seq<OrgAddon>>>,
                                                    id: string, now: int)
    requires id in t.subscriptions && id != ""
    requires var org := t.subscriptions[id].organizationId;
             LiveKeys(t.subscriptions, org) <= {id} && AddonsFor(orgAddons, org).Some?
    ensures var org := t.subscriptions[id].organizationId;
            var t1 := PaymentFailed(t, plans, orgAddons, Some(id), now);
            org in t1.entitlements && t1.entitlements[org].status == GracePeriod
  {
    var org := t.subscriptions[id].organizationId;
    var t1 := PaymentFailed(t, plans, orgAddons, Some(id), now);
    assert LiveKeys(t1.subscriptions, org) == {id} by { LiveKeysAfterWrite(t.subscriptions, id, t1.subscriptions[id], org); }
  }

  /** After a successful payment on an organization's only live subscription, the rebuilt
      entitlements are `active`. */
  lemma {:induction false} PaymentSuccessActivates(t: Tables, plans: map<string, Plan>, orgAddons: map<string, Option<seq<OrgAddon>>>,
                                                   id: string, now: int)
    requires id in t.subscriptions && id != ""
    requires var org := t.subscriptions[id].organizationId;
             LiveKeys(t.subscriptions, org) <= {id} && AddonsFor(orgAddons, org).Some?
    ensures var org := t.subscriptions[id].organizationId;
            var t1 := PaymentSucceeded(t, plans, orgAddons, Some(id), now);
            org in t1.entitlements && t1.entitlements[org].status == Active
  {
    var org := t.subscriptions[id].organizationId;
    var t1 := PaymentSucceeded(t, plans, orgAddons, Some(id), now);
    assert LiveKeys(t1.subscriptions, org) == {id} by { LiveKeysAfterWrite(t.subscriptions, id, t1.subscriptions[id], org); }
  }

  /** Deleting an organization's only live subscription leaves its entitlements `inactive`
      with no plan, limits or add-ons. */
  lemma {:induction false} DeletionDeactivates(t: Tables, plans: map<string, Plan>, orgAddons: map<string, Option<seq<OrgAddon>>>,
                                               id: string, now: int)
    requires id in t.subscriptions
    requires LiveKeys(t.subscriptions, t.subscriptions[id].organizationId) <= {id}
    ensures var org := t.subscriptions[id].organizationId;
            var t1 := SubscriptionDeleted(t, plans, orgAddons, id, now);
            org in t1.entitlements && t1.entitlements[org] == Snapshot(None, Inactive, map[], map[], now)
  {
    var org := t.subscriptions[id].organizationId;
    var t1 := SubscriptionDeleted(t, plans, orgAddons, id, now);
    LiveKeysAfterWrite(t.subscriptions, id, t1.subscriptions[id], org);
    assert t1.subscriptions == t.subscriptions[id := t1.subscriptions[id]];
    assert LiveKeys(t.subscriptions, org) - {id} == {};
    assert id !in LiveKeys(t1.subscriptions, org);
    assert LiveKeys(t1.subscriptions, org) == {};
  }

  /** Writing one row changes the organization's live set only at that row's key. */
  lemma LiveKeysAfterWrite(subs: map<string, Subscription>, id: string, row: Subscription, org: string)
    ensures LiveKeys(subs[id := row], org) - {id} == LiveKeys(subs, org) - {id}
    ensures id in LiveKeys(subs[id := row], org) <==> row.organizationId == org && IsLive(row.status)
  {
  }

  // ---------------------------------------------------------------------------
  // The handlers as operations on the database

  method HandleCheckoutSessionCompleted(db: Db, metadata: Option<map<string, string>>, sub: StripeSubscription, now: int)
    returns (outcome: Outcome)
    modifies db`subscriptions, db`entitlements
    ensures Step(outcome, Tables(db.subscriptions, db.entitlements))
         == CheckoutCompleted(Tables(old(db.subscriptions), old(db.entitlements)), db.plans, db.orgAddons, metadata, sub, now)
  {
    var organizationId := GetOrganizationIdFromMetadata(metadata);
    if organizationId.None? {
      return Failed(MISSING_ORGANIZATION);
    }
    if sub.priceIds == [] {
      return Failed(NO_PRICE_ITEM);
    }
    var plan := PlanForPrice(db.plans, sub.priceIds[0]);
    if plan.None? {
      return Failed(PlanNotFound(sub.priceIds[0]));
    }
    var row := Subscription(organizationId.value, plan.value, sub.id, sub.customer, sub.status,
                            FromStripeSeconds(sub.currentPeriodStart), FromStripeSeconds(sub.currentPeriodEnd),
                            sub.cancelAtPeriodEnd, None, now);
    db.subscriptions := db.subscriptions[sub.id := row];
    RebuildEntitlements(db, organizationId.value, now);
    outcome := Done;
  }

  method HandleSubscriptionUpdated(db: Db, sub: StripeSubscription, now: int) returns (outcome: Outcome)
    modifies db`subscriptions, db`entitlements
    ensures Step(outcome, Tables(db.subscriptions, db.entitlements))
         == SubscriptionUpdated(Tables(old(db.subscriptions), old(db.entitlements)), db.plans, db.orgAddons, sub, now)
  {
    if sub.priceIds == [] {
      return Failed(NO_PRICE_ITEM);
    }
    var plan := PlanForPrice(db.plans, sub.priceIds[0]);
    if plan.None? {
      return Failed(PlanNotFound(sub.priceIds[0]));
    }
    if sub.id !in db.subscriptions {
      return Failed(SubscriptionNotFound(sub.id));
    }
    var existing := db.subscriptions[sub.id];
    var organizationId := existing.organizationId;
    db.subscriptions := db.subscriptions[sub.id := existing.(
      planId := plan.value, status := sub.status,
      currentPeriodStart := FromStripeSeconds(sub.currentPeriodStart),
      currentPeriodEnd := FromStripeSeconds(sub.currentPeriodEnd),
      cancelAtPeriodEnd := sub.cancelAtPeriodEnd, updatedAt := now)];
    RebuildEntitlements(db, organizationId, now);
    outcome := Done;
  }

  method HandleSubscriptionDeleted(db: Db, id: string, now: int)
    modifies db`subscriptions, db`entitlements
    ensures Tables(db.subscriptions, db.entitlements)
         == SubscriptionDeleted(Tables(old(db.subscriptions), old(db.entitlements)), db.plans, db.orgAddons, id, now)
  {
    if id !in db.subscriptions {
      return;
    }
    var organizationId := db.subscriptions[id].organizationId;
    db.subscriptions := db.subscriptions[id := db.subscriptions[id].(status := Canceled, gracePeriodUntil := None, updatedAt := now)];
    RebuildEntitlements(db, organizationId, now);
  }

  method HandleInvoicePaymentSucceeded(db: Db, invoiceSubscription: Option<string>, now: int)
    modifies db`subscriptions, db`entitlements
    ensures Tables(db.subscriptions, db.entitlements)
         == PaymentSucceeded(Tables(old(db.subscriptions), old(db.entitlements)), db.plans, db.orgAddons, invoiceSubscription, now)
  {
    if invoiceSubscription.None? || invoiceSubscription.value == "" {
      return;
    }
    var id := invoiceSubscription.value;
    if id !in db.subscriptions {
      return;
    }
    var organizationId := db.subscriptions[id].organizationId;
    db.subscriptions := db.subscriptions[id := db.subscriptions[id].(status := Active, gracePeriodUntil := None, updatedAt := now)];
    RebuildEntitlements(db, organizationId, now);
  }

  method HandleInvoicePaymentFailed(db: Db, invoiceSubscription: Option<string>, now: int)
    modifies db`subscriptions, db`entitlements
    ensures Tables(db.subscriptions, db.entitlements)
         == PaymentFailed(Tables(old(db.subscriptions), old(db.entitlements)), db.plans, db.orgAddons, invoiceSubscription, now)
  {
    if invoiceSubscription.None? || invoiceSubscription.value == "" {
      return;
    }
    var id := invoiceSubscription.value;
    if id !in db.subscriptions {
      return;
    }
    var organizationId := db.subscriptions[id].organizationId;
    var graceUntil := now + GRACE_DAYS * DAY_MS;
    db.subscriptions := db.subscriptions[id := db.subscriptions[id].(
      status := PastDue, gracePeriodUntil := Some(graceUntil), updatedAt := now)];
    RebuildEntitlements(db, organizationId, now);
  }

  method ProcessStripeEvent(db: Db, event: Event, now: int) returns (outcome: Outcome)
    modifies db`subscriptions, db`entitlements
    ensures Step(outcome, Tables(db.subscriptions, db.entitlements))
         == Process(Tables(old(db.subscriptions), old(db.entitlements)), db.plans, db.orgAddons, event, now)
  {
    var eventType := event.eventType;
    outcome := Done;
    if eventType == CHECKOUT_COMPLETED {
      if event.data.CheckoutSession? {
        outcome := HandleCheckoutSessionCompleted(db, event.data.metadata, event.data.retrieved, now);
      } else {
        outcome := Failed(MISSING_ORGANIZATION);
      }
    } else if eventType == SUBSCRIPTION_CREATED || eventType == SUBSCRIPTION_UPDATED {
      if event.data.SubscriptionObject? {
        outcome := HandleSubscriptionUpdated(db, event.data.subscription, now);
      } else {
        outcome := Failed(NO_ITEMS);
      }
    } else if eventType == SUBSCRIPTION_DELETED {
      if event.data.SubscriptionObject? {
        HandleSubscriptionDeleted(db, event.data.subscription.id, now);
      }
    } else if eventType == PAYMENT_SUCCEEDED {
      HandleInvoicePaymentSucceeded(db, InvoiceSubscriptionOf(event.data), now);
    } else if eventType == PAYMENT_FAILED {
      HandleInvoicePaymentFailed(db, InvoiceSubscriptionOf(event.data), now);
    }
  }

  /** The endpoint: one delivery against the database. */
  method Post(db: Db, req: Request, now: int) returns (response: Response)
    modifies db`events, db`subscriptions, db`entitlements
    ensures Delivery(response, db.events, Tables(db.subscriptions, db.entitlements))
         == Deliver(old(db.events), Tables(old(db.subscriptions), old(db.entitlements)), db.plans, db.orgAddons, req, now)
  {
    if req.signature.None? || req.signature.value == "" {
      return MissingSignature;
    }
    if req.verified.None? {
      return InvalidSignature;
    }
    var event := req.verified.value;
    var eventType := GetEventType(event);
    if event.id in db.events && db.events[event.id].processedAt.Some? {
      return Received;
    }
    db.events := db.events[event.id := EventRow(eventType, event, now, None)];
    var outcome := ProcessStripeEvent(db, event, now);
    if outcome.Failed? {
      return ProcessingFailed(outcome.message);
    }
    db.events := db.events[event.id := db.events[event.id].(processedAt := Some(now))];
    response := Received;
  }
}
