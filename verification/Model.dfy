/** The entities the services exchange: payment rows, outbox rows, event
    envelopes, provider messages and webhook deliveries. */
module Model {

  type Uuid = nat

  /** Wall-clock instants.  Nothing below assumes two readers agree on them. */
  type Time = int

  datatype Option<+T> = None | Some(value: T)

  datatype Currency = RUB | USD | EUR

  /** What a client asks for.  The amount is in hundredths; metadata is its JSON text. */
  datatype PaymentData = PaymentData(
    amount: int,
    currency: Currency,
    description: Option<string>,
    metadata: string,
    url: string)

  datatype Status = Pending | Unknown | Succeeded | Failed

  predicate Terminal(status: Status) {
    status == Succeeded || status == Failed
  }

  /** The order in which a payment may move through its statuses. */
  predicate MayBecome(before: Status, after: Status) {
    || before == after
    || before == Pending
    || (before == Unknown && Terminal(after))
  }

  datatype PublicStatus = PublicPending | PublicSucceeded | PublicFailed

  /** The status shown to clients hides the internal `unknown`. */
  function ToPublic(status: Status): PublicStatus {
    match status
    case Pending => PublicPending
    case Unknown => PublicPending
    case Succeeded => PublicSucceeded
    case Failed => PublicFailed
  }

  /** A row of the payments table.  The fingerprint stands for the canonical
      request itself, that is, for an injective digest of it. */
  datatype Row = Row(
    data: PaymentData,
    key: string,
    fingerprint: PaymentData,
    status: Status,
    webhookId: Option<Uuid>,
    sentAt: Option<Time>,
    providerId: Option<Uuid>,
    updatedAt: Time,
    processedAt: Option<Time>,
    attempts: nat,
    review: bool,
    leaseToken: Option<Uuid>,
    leaseUntil: Option<Time>)

  datatype EventKind = ProcessRequested | WebhookRequested

  datatype Envelope = Envelope(
    eventId: Uuid,
    kind: EventKind,
    paymentId: Uuid,
    attempt: nat,
    occurredAt: Time)

  /** A row of the outbox_events table. */
  datatype OutboxRow = OutboxRow(
    kind: EventKind,
    paymentId: Uuid,
    payload: Envelope,
    createdAt: Time,
    publishedAt: Option<Time>)

  /** The database: payments by id, the unique index on the idempotency key,
      and the outbox by event id. */
  datatype Db = Db(rows: map<Uuid, Row>, byKey: map<string, Uuid>, outbox: map<Uuid, OutboxRow>)

  datatype ProviderStatus = Approved | Declined

  datatype ProviderRequest = ProviderRequest(paymentId: Uuid, amount: int, currency: Currency)

  datatype ProviderResponse = ProviderResponse(providerPaymentId: Uuid, status: ProviderStatus)

  /** What the provider remembers under one idempotency key. */
  datatype Record = Record(request: ProviderRequest, response: ProviderResponse)

  datatype WebhookType = PaymentSucceeded | PaymentFailed

  datatype WebhookPayload = WebhookPayload(
    eventId: Uuid,
    eventType: WebhookType,
    paymentId: Uuid,
    status: Status,
    amount: int,
    currency: Currency,
    processedAt: Time,
    metadata: string)

  datatype Delivery = Delivery(url: string, payload: WebhookPayload)

  /** The request the worker builds for a payment; its idempotency key is the payment id. */
  function RequestFor(pid: Uuid, r: Row): ProviderRequest {
    ProviderRequest(pid, r.data.amount, r.data.currency)
  }

  function StatusOf(answer: ProviderStatus): Status {
    if answer == Approved then Succeeded else Failed
  }
}
