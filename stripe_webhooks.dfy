/** Helpers over verified Stripe events, and the billing constants. */
module StripeWebhooks {

  import opened Common
  import opened Billing

  /** Days of grace after a failed payment. */
  const GRACE_DAYS: int := 7
  /** Milliseconds in a day, `1000 * 60 * 60 * 24`. */
  const DAY_MS: int := 86_400_000

  /** `event.type`. */
  function GetEventType(event: Event): string {
    event.eventType
  }

  /** The tenant id carried in Stripe metadata: absent metadata, an absent key and an
      empty value all give null. */
  function GetOrganizationIdFromMetadata(metadata: Option<map<string, string>>): (r: Option<string>)
    ensures r.None? <==> metadata.None? || "organization_id" !in metadata.value || metadata.value["organization_id"] == ""
    ensures r.Some? ==> r.value == metadata.value["organization_id"] && r.value != ""
  {
    if metadata.None? then None
    else if "organization_id" in metadata.value && metadata.value["organization_id"] != "" then
      Some(metadata.value["organization_id"])
    else None
  }
}
