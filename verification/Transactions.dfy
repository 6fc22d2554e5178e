/** What each database transaction does to the committed database when it runs
    alone: row lock, check, write, commit.  Clock readings and fresh ids are
    arguments; `at` is the database's own clock, which every write of a payment
    row stores in `updatedAt`. */
module Transactions {
  import opened Model
  import opened Selection

  /** How a transaction that must find its payment ends. */
  datatype TxResult = Committed | NothingToDo | PermanentError

  datatype LoadResult = MissingPayment | AlreadyProcessed | Request(request: ProviderRequest)

  datatype DeliveryLoad = BadEvent | AlreadySent | Deliver(delivery: Delivery)

  datatype PersistResult = LeaseLost | AttemptCounted | Reconciled

  // ----- queries -----------------------------------------------------------

  function CreatedTimes(outbox: map<Uuid, OutboxRow>): (times: map<Uuid, Time>)
    ensures times.Keys == outbox.Keys
  {
    map e | e in outbox :: outbox[e].createdAt
  }

  /** Unpublished rows that no other transaction has locked. */
  function Unpublished(outbox: map<Uuid, OutboxRow>, locked: set<Uuid>): (free: set<Uuid>)
    ensures free <= outbox.Keys
  {
    set e | e in outbox && outbox[e].publishedAt.None? && e !in locked
  }

  function UpdatedTimes(rows: map<Uuid, Row>): (times: map<Uuid, Time>)
    ensures times.Keys == rows.Keys
  {
    map p | p in rows :: rows[p].updatedAt
  }

  function ClaimCandidates(rows: map<Uuid, Row>, staleBefore: Time, now: Time): (c: set<Uuid>)
    ensures c <= rows.Keys
  {
    set p | p in rows && Claimable(rows[p], staleBefore, now)
  }

  /** The batch of an outbox query in terms of the rows: it holds unpublished rows that are
      not locked, and one that it leaves out comes after every row of a full batch. */
  lemma OldestUnpublished(outbox: map<Uuid, OutboxRow>, locked: set<Uuid>, limit: nat, batch: seq<Uuid>)
    requires IsFirst(CreatedTimes(outbox), Unpublished(outbox, locked), limit, batch)
    ensures forall i :: 0 <= i < |batch| ==>
              batch[i] in outbox && outbox[batch[i]].publishedAt.None? && batch[i] !in locked
    ensures forall e :: e in outbox && outbox[e].publishedAt.None? && e !in locked && e !in batch ==>
              && |batch| == limit
              && forall i :: 0 <= i < |batch| ==>
                   || outbox[batch[i]].createdAt < outbox[e].createdAt
                   || (outbox[batch[i]].createdAt == outbox[e].createdAt && batch[i] < e)
  {
  }

  /** The batch of a claim in terms of the rows: it holds stale UNKNOWN payments that need no
      review and whose lease, if any, has run out, and one that it leaves out, not being
      skipped as locked, comes after every row of a full batch. */
  lemma StalestUnknown(rows: map<Uuid, Row>, staleBefore: Time, now: Time, skipped: set<Uuid>, limit: nat,
                       batch: seq<Uuid>)
    requires IsFirst(UpdatedTimes(rows), ClaimCandidates(rows, staleBefore, now) - skipped, limit, batch)
    ensures forall i :: 0 <= i < |batch| ==>
              && batch[i] in rows && batch[i] !in skipped
              && var r := rows[batch[i]];
                 && r.status == Unknown && !r.review && r.updatedAt <= staleBefore
                 && (r.leaseUntil.Some? ==> r.leaseUntil.value <= now)
    ensures forall p ::
              (&& p in rows && p !in skipped && p !in batch
               && rows[p].status == Unknown && !rows[p].review && rows[p].updatedAt <= staleBefore
               && (rows[p].leaseUntil.Some? ==> rows[p].leaseUntil.value <= now)) ==>
              && |batch| == limit
              && forall i :: 0 <= i < |batch| ==>
                   || rows[batch[i]].updatedAt < rows[p].updatedAt
                   || (rows[batch[i]].updatedAt == rows[p].updatedAt && batch[i] < p)
  {
    hide Claimable;
    forall i | 0 <= i < |batch|
      ensures batch[i] in rows && batch[i] !in skipped && Claimable(rows[batch[i]], staleBefore, now)
    {
      assert batch[i] in ClaimCandidates(rows, staleBefore, now) - skipped;
    }
    ClaimableMeans(rows, staleBefore, now);
  }

  lemma ClaimableMeans(rows: map<Uuid, Row>, staleBefore: Time, now: Time)
    ensures forall p :: p in rows ==>
              (Claimable(rows[p], staleBefore, now) <==>
                 && rows[p].status == Unknown && !rows[p].review && rows[p].updatedAt <= staleBefore
                 && (rows[p].leaseUntil.Some? ==> rows[p].leaseUntil.value <= now))
  {
  }

  // ----- creation ---------------------------------------------------------

  function NewRow(data: PaymentData, key: string, at: Time): Row {
    Row(data, key, data, Pending, None, None, None, at, None, 0, false, None, None)
  }

  function NewEvent(eid: Uuid, kind: EventKind, pid: Uuid, occurredAt: Time, createdAt: Time): OutboxRow {
    OutboxRow(kind, pid, Envelope(eid, kind, pid, 1, occurredAt), createdAt, None)
  }

  /** Payment and process event in one transaction; None is the unique-key violation. */
  function CreatePayment(db: Db, pid: Uuid, eid: Uuid, key: string, data: PaymentData,
                         occurredAt: Time, at: Time): Option<Db>
  {
    if key in db.byKey then None
    else Some(Db(db.rows[pid := NewRow(data, key, at)],
                 db.byKey[key := pid],
                 db.outbox[eid := NewEvent(eid, ProcessRequested, pid, occurredAt, occurredAt)]))
  }

  // ----- outbox relay --------------------------------------------------------

  /** The marked rows get their publication time, the others none. */
  function MarkPublished(outbox: map<Uuid, OutboxRow>, stamps: map<Uuid, Time>): map<Uuid, OutboxRow> {
    map e | e in outbox ::
      if e in stamps then outbox[e].(publishedAt := Some(stamps[e])) else outbox[e]
  }

  // ----- payment event processor -------------------------------------------

  function LoadProviderRequest(rows: map<Uuid, Row>, pid: Uuid): LoadResult {
    if pid !in rows then MissingPayment
    else if rows[pid].status != Pending then AlreadyProcessed
    else Request(RequestFor(pid, rows[pid]))
  }

  function MarkUnknown(db: Db, pid: Uuid, at: Time): (Db, TxResult) {
    if pid !in db.rows then (db, PermanentError)
    else if db.rows[pid].status != Pending then (db, NothingToDo)
    else (db.(rows := db.rows[pid := db.rows[pid].(status := Unknown, updatedAt := at)]), Committed)
  }

  function Settled(r: Row, answer: ProviderResponse, wid: Uuid, processedAt: Time, at: Time): Row {
    r.(status := StatusOf(answer.status),
       providerId := Some(answer.providerPaymentId),
       processedAt := Some(processedAt),
       webhookId := Some(wid),
       updatedAt := at)
  }

  function ApplyProviderResult(db: Db, pid: Uuid, answer: ProviderResponse, wid: Uuid,
                               processedAt: Time, at: Time): (Db, TxResult)
  {
    if pid !in db.rows then (db, PermanentError)
    else if db.rows[pid].status != Pending then (db, NothingToDo)
    else (db.(rows := db.rows[pid := Settled(db.rows[pid], answer, wid, processedAt, at)],
              outbox := db.outbox[wid := NewEvent(wid, WebhookRequested, pid, processedAt, processedAt)]),
          Committed)
  }

  // ----- reconciliation ------------------------------------------------------

  predicate Claimable(r: Row, staleBefore: Time, now: Time) {
    && r.status == Unknown
    && !r.review
    && r.updatedAt <= staleBefore
    && (r.leaseUntil == None || r.leaseUntil.value <= now)
  }

  predicate HoldsLease(r: Row, token: Uuid, now: Time) {
    && r.status == Unknown
    && !r.review
    && r.leaseToken == Some(token)
    && r.leaseUntil != None
    && r.leaseUntil.value > now
  }

  function ClaimRows(rows: map<Uuid, Row>, ids: set<Uuid>, token: Uuid, until: Time, at: Time): map<Uuid, Row> {
    map p | p in rows ::
      if p in ids then rows[p].(leaseToken := Some(token), leaseUntil := Some(until), updatedAt := at)
      else rows[p]
  }

  function RenewLease(rows: map<Uuid, Row>, pid: Uuid, token: Uuid, now: Time, until: Time, at: Time)
    : (map<Uuid, Row>, bool)
  {
    if pid in rows && HoldsLease(rows[pid], token, now) then
      (rows[pid := rows[pid].(leaseUntil := Some(until), updatedAt := at)], true)
    else
      (rows, false)
  }

  /** A failed lookup costs one attempt; the last one sends the payment to manual review. */
  function CountAttempt(r: Row, budget: nat, at: Time): Row {
    r.(attempts := r.attempts + 1,
       review := r.review || r.attempts + 1 >= budget,
       leaseToken := None,
       leaseUntil := None,
       updatedAt := at)
  }

  function PersistResolution(db: Db, pid: Uuid, token: Uuid, answer: Option<ProviderResponse>,
                             budget: nat, now: Time, wid: Uuid, processedAt: Time, createdAt: Time, at: Time)
    : (Db, PersistResult)
  {
    if pid !in db.rows || !HoldsLease(db.rows[pid], token, now) then (db, LeaseLost)
    else match answer
      case None =>
        (db.(rows := db.rows[pid := CountAttempt(db.rows[pid], budget, at)]), AttemptCounted)
      case Some(a) =>
        var r := Settled(db.rows[pid], a, wid, processedAt, at).(leaseToken := None, leaseUntil := None);
        (db.(rows := db.rows[pid := r],
             outbox := db.outbox[wid := NewEvent(wid, WebhookRequested, pid, processedAt, createdAt)]),
         Reconciled)
  }

  // ----- webhook processor -----------------------------------------------------

  function DeliveryFor(pid: Uuid, r: Row): Delivery
    requires Terminal(r.status) && r.webhookId.Some? && r.processedAt.Some?
  {
    Delivery(r.data.url,
             WebhookPayload(r.webhookId.value,
                            if r.status == Succeeded then PaymentSucceeded else PaymentFailed,
                            pid, r.status, r.data.amount, r.data.currency,
                            r.processedAt.value, r.data.metadata))
  }

  function LoadDelivery(rows: map<Uuid, Row>, event: Envelope): DeliveryLoad {
    if event.paymentId !in rows then BadEvent
    else
      var r := rows[event.paymentId];
      if r.sentAt.Some? then AlreadySent
      else if !Terminal(r.status) then BadEvent
      else if r.webhookId.None? then BadEvent
      else if r.webhookId.value != event.eventId then BadEvent
      else if r.processedAt.None? then BadEvent
      else Deliver(DeliveryFor(event.paymentId, r))
  }

  function MarkSent(db: Db, pid: Uuid, eid: Uuid, now: Time, at: Time): (Db, TxResult) {
    if pid !in db.rows then (db, PermanentError)
    else if db.rows[pid].sentAt.Some? then (db, NothingToDo)
    else if db.rows[pid].webhookId != Some(eid) then (db, PermanentError)
    else if !Terminal(db.rows[pid].status) then (db, PermanentError)
    else (db.(rows := db.rows[pid := db.rows[pid].(sentAt := Some(now), updatedAt := at)]), Committed)
  }
}
