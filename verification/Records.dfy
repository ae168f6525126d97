/** The two billing tables, and the provider events that are applied to them. */
module Records {
  import opened Core

  // One row of `subscriptions`; user_id is UNIQUE.
  datatype Row = Row(
    id: string,
    userID: string,
    plan: string,
    provider: string,
    customerID: string,
    subID: string,
    status: string,
    periodEnd: Option<Instant>,
    trialEnd: Option<Instant>,
    cancelAtEnd: bool,
    autoRenews: bool,
    currency: string,
    interval: string,
    createdAt: Instant,
    updatedAt: Instant
  )

  // One row of `billing_events`; event_key is UNIQUE.
  datatype LogRow = LogRow(
    userID: string,
    provider: string,
    objectID: string,
    eventAt: Option<Instant>,
    createdAt: Instant,
    processed: bool
  )

  type Subscriptions = map<string, Row>   // by user id
  type EventLog = map<string, LogRow>     // by event key

  // billing.WebhookEvent; the timestamps are Unix seconds, 0 when absent.
  datatype WebhookEvent = WebhookEvent(
    userID: string,
    customerID: string,
    subscriptionID: string,
    plan: string,
    status: string,
    currency: string,
    interval: string,
    periodEnd: int,
    trialEnd: int,
    cancelAtEnd: bool,
    eventAt: int
  )

  // The object an event is ordered under: its subscription, else its customer.
  function ObjectID(ev: WebhookEvent): string {
    if ev.subscriptionID == "" then ev.customerID else ev.subscriptionID
  }

  function Timestamp(ev: WebhookEvent): Option<Instant> {
    if ev.eventAt > 0 then Some(FromUnix(ev.eventAt)) else None
  }

  // How long event rows are kept.
  const RETENTION: int := 90 * DAY

  // The hash is injective, so a key is represented by the text that is hashed.
  function ClaimKey(reference: string): string {
    "paystack-verify:" + reference
  }

  // What a body accepted by the JSON decoder must look like: an object, or
  // null, after optional JSON whitespace.
  predicate JsonDocument(payload: string) {
    payload != [] && payload[0] in " \t\r\n{n"
  }

  lemma ClaimsAreNotPayloads(payload: string, reference: string)
    requires JsonDocument(payload)
    ensures payload != ClaimKey(reference)
  {
    assert ClaimKey(reference)[0] == 'p';
  }
}
