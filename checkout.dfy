/** `POST /api/billing/checkout`: validating the requested plan price, collecting the line
    items (the plan, then each requested add-on that is on sale) and the metadata that ties
    the Stripe session back to the organization. */
module Checkout {

  import opened Common
  import opened Billing

  /** A row of the add-on catalogue. */
  datatype Addon = Addon(active: bool, stripePriceId: Option<string>)

  datatype LineItem = LineItem(price: string, quantity: int)

  /** The request body's `price_id` and `addons` fields (`None`: absent). */
  datatype Body = Body(priceId: Option<Json>, addons: Option<Json>)

  /** What is sent to Stripe to open the session. */
  datatype SessionRequest = SessionRequest(
    lineItems: seq<LineItem>,
    metadataOrganizationId: string,
    subscriptionMetadataOrganizationId: string)

  datatype Result = BadRequest(error: string) | Create(session: SessionRequest)

  const PRICE_REQUIRED := "price_id is required"
  const INVALID_PLAN := "Invalid plan"

  /** Active plans selling `price`. */
  function ActivePlanKeys(plans: map<string, Plan>, price: string): set<string> {
    set k | k in plans && plans[k].active && plans[k].stripePriceId == Some(price)
  }

  /** Active add-ons selling `price`. */
  function ActiveAddonKeys(catalogue: map<string, Addon>, price: string): set<string> {
    set k | k in catalogue && catalogue[k].active && catalogue[k].stripePriceId == Some(price)
  }

  /** The add-on lookup with `.single()` succeeds: exactly one active add-on has this price.
      Entries that are not strings match no price. */
  predicate Purchasable(catalogue: map<string, Addon>, entry: Json) {
    entry.JStr? && |ActiveAddonKeys(catalogue, entry.s)| == 1
  }

  /** The line items added for the requested add-ons, in request order. */
  function AddonItems(catalogue: map<string, Addon>, entries: seq<Json>): seq<LineItem>
    decreases |entries|
  {
    if entries == [] then []
    else
      var prefix := AddonItems(catalogue, entries[..|entries| - 1]);
      var last := entries[|entries| - 1];
      if Purchasable(catalogue, last) then prefix + [LineItem(last.s, 1)] else prefix
  }

  /** Every add-on item is one unit of a requested, purchasable price; every purchasable
      requested price appears; no more items than requests. */
  lemma {:induction false} AddonItemsAreTheBuyableRequests(catalogue: map<string, Addon>, entries: seq<Json>)
    ensures |AddonItems(catalogue, entries)| <= |entries|
    ensures forall k :: 0 <= k < |AddonItems(catalogue, entries)| ==>
              AddonItems(catalogue, entries)[k].quantity == 1 &&
              Purchasable(catalogue, JStr(AddonItems(catalogue, entries)[k].price)) &&
              JStr(AddonItems(catalogue, entries)[k].price) in entries
    ensures forall i :: 0 <= i < |entries| && Purchasable(catalogue, entries[i]) ==>
              LineItem(entries[i].s, 1) in AddonItems(catalogue, entries)
    decreases |entries|
  {
    if entries != [] {
      var n := |entries| - 1;
      AddonItemsAreTheBuyableRequests(catalogue, entries[..n]);
      var items := AddonItems(catalogue, entries);
      var prefix := AddonItems(catalogue, entries[..n]);
      forall k | 0 <= k < |items|
        ensures items[k].quantity == 1 && Purchasable(catalogue, JStr(items[k].price)) && JStr(items[k].price) in entries
      {
        if k < |prefix| {
          assert items[k] == prefix[k];
          assert JStr(prefix[k].price) in entries[..n];
        }
      }
      forall i | 0 <= i < |entries| && Purchasable(catalogue, entries[i])
        ensures LineItem(entries[i].s, 1) in items
      {
        if i < n {
          assert entries[..n][i] == entries[i];
          assert LineItem(entries[i].s, 1) in prefix;
        }
      }
    }
  }

  /** The add-on list as the handler reads it: only an array contributes. */
  function RequestedAddons(body: Body): seq<Json> {
    if body.addons.Some? && body.addons.value.JArr? then body.addons.value.items else []
  }

  /** The outcome of a checkout request from `org`. */
  function CheckoutFor(org: string, body: Body, plans: map<string, Plan>, catalogue: map<string, Addon>): (r: Result)
    ensures r == BadRequest(PRICE_REQUIRED) <==> !(body.priceId.Some? && body.priceId.value.JStr? && body.priceId.value.s != "")
    ensures r == BadRequest(INVALID_PLAN) <==>
              body.priceId.Some? && body.priceId.value.JStr? && body.priceId.value.s != ""
              && |ActivePlanKeys(plans, body.priceId.value.s)| != 1
    ensures r.Create? ==>
              && |r.session.lineItems| >= 1
              && r.session.lineItems[0] == LineItem(body.priceId.value.s, 1)
              && r.session.lineItems[1..] == AddonItems(catalogue, RequestedAddons(body))
              && r.session.metadataOrganizationId == org
              && r.session.subscriptionMetadataOrganizationId == org
  {
    if !(body.priceId.Some? && body.priceId.value.JStr? && body.priceId.value.s != "") then BadRequest(PRICE_REQUIRED)
    else
      var price := body.priceId.value.s;
      if |ActivePlanKeys(plans, price)| != 1 then BadRequest(INVALID_PLAN)
      else Create(SessionRequest([LineItem(price, 1)] + AddonItems(catalogue, RequestedAddons(body)), org, org))
  }

  /** The `for` loop over the requested add-ons, pushing one item per purchasable entry. */
  method BuildLineItems(price: string, entries: seq<Json>, catalogue: map<string, Addon>) returns (items: seq<LineItem>)
    ensures items == [LineItem(price, 1)] + AddonItems(catalogue, entries)
  {
    items := [LineItem(price, 1)];
    var i := 0;
    while i < |entries|
      invariant 0 <= i <= |entries|
      invariant items == [LineItem(price, 1)] + AddonItems(catalogue, entries[..i])
    {
      assert entries[..i + 1][..i] == entries[..i];
      var entry := entries[i];
      if entry.JStr? && |ActiveAddonKeys(catalogue, entry.s)| == 1 {
        items := items + [LineItem(entry.s, 1)];
      }
      i := i + 1;
    }
    assert entries[..|entries|] == entries;
  }

  /** The handler. */
  method Post(org: string, body: Body, plans: map<string, Plan>, catalogue: map<string, Addon>) returns (r: Result)
    ensures r == CheckoutFor(org, body, plans, catalogue)
  {
    if body.priceId.None? || !body.priceId.value.JStr? || body.priceId.value.s == "" {
      return BadRequest(PRICE_REQUIRED);
    }
    var price := body.priceId.value.s;
    if |ActivePlanKeys(plans, price)| != 1 {
      return BadRequest(INVALID_PLAN);
    }
    var entries: seq<Json> := [];
    if body.addons.Some? && body.addons.value.JArr? {
      entries := body.addons.value.items;
    }
    var lineItems := BuildLineItems(price, entries, catalogue);
    r := Create(SessionRequest(lineItems, org, org));
  }

  /** An inactive plan's price is refused even when it is the only plan with that price. */
  lemma InactivePlanIsInvalid(org: string, price: string)
    requires price != ""
    ensures CheckoutFor(org, Body(Some(JStr(price)), None), map["p" := Plan("starter", false, Some(price), [])], map[])
         == BadRequest(INVALID_PLAN)
  {
    assert ActivePlanKeys(map["p" := Plan("starter", false, Some(price), [])], price) == {};
  }
}
