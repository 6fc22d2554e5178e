/** The inductive invariant of the system, one conjunct per concern, and the
    lemmas that say which changes of the database leave each conjunct alone. */
module Invariant {
  import opened Model
  import opened Transactions
  import opened Broker
  import opened System

  // ----- payments, outbox, provider records ---------------------------------------------

  /** A payment is terminal exactly when its result fields are set; its lease and
      its attempt counter are in order. */
  predicate RowOk(r: Row, budget: nat) {
    && r.fingerprint == r.data
    && (Terminal(r.status) <==> r.processedAt.Some?)
    && (Terminal(r.status) <==> r.providerId.Some?)
    && (Terminal(r.status) <==> r.webhookId.Some?)
    && (r.sentAt.Some? ==> Terminal(r.status))
    && (r.leaseToken.Some? <==> r.leaseUntil.Some?)
    && (r.leaseToken.Some? ==> r.status == Unknown && !r.review)
    && r.attempts <= budget
    && (r.review <==> r.attempts == budget)
    && (r.review ==> r.status == Unknown)
    && (r.status == Pending ==> r.attempts == 0)
  }

  /** The outbox holds this payment's process event and, once it is terminal, its webhook event. */
  predicate EventsOk(pid: Uuid, r: Row, outbox: map<Uuid, OutboxRow>, origin: map<Uuid, Origin>) {
    && pid in origin && origin[pid].eid in outbox
    && outbox[origin[pid].eid].kind == ProcessRequested
    && outbox[origin[pid].eid].paymentId == pid
    && (r.webhookId.Some? ==>
          && r.webhookId.value in outbox
          && outbox[r.webhookId.value].kind == WebhookRequested
          && outbox[r.webhookId.value].paymentId == pid)
  }

  /** A final status is the provider's. */
  predicate AgreesOk(pid: Uuid, r: Row, records: map<Uuid, Record>) {
    Terminal(r.status) ==>
      && pid in records
      && r.status == StatusOf(records[pid].response.status)
      && r.providerId == Some(records[pid].response.providerPaymentId)
  }

  ghost predicate RowsOk(rows: map<Uuid, Row>, outbox: map<Uuid, OutboxRow>,
                         origin: map<Uuid, Origin>, records: map<Uuid, Record>, budget: nat)
  {
    forall p :: p in rows ==>
      RowOk(rows[p], budget) && EventsOk(p, rows[p], outbox, origin) && AgreesOk(p, rows[p], records)
  }

  /** An outbox row is about an existing payment, and is that payment's only event of its kind. */
  predicate OutboxRowOk(e: Uuid, o: OutboxRow, rows: map<Uuid, Row>, origin: map<Uuid, Origin>) {
    && o.payload == Envelope(e, o.kind, o.paymentId, 1, o.payload.occurredAt)
    && o.paymentId in rows && o.paymentId in origin
    && (o.kind == ProcessRequested ==> origin[o.paymentId].eid == e)
    && (o.kind == WebhookRequested ==> rows[o.paymentId].webhookId == Some(e))
  }

  ghost predicate OutboxOk(rows: map<Uuid, Row>, outbox: map<Uuid, OutboxRow>, origin: map<Uuid, Origin>) {
    forall e :: e in outbox ==> OutboxRowOk(e, outbox[e], rows, origin)
  }

  predicate RecordOk(k: Uuid, rec: Record, rows: map<Uuid, Row>) {
    k in rows && rec.request == RequestFor(k, rows[k])
  }

  ghost predicate RecordsOk(rows: map<Uuid, Row>, records: map<Uuid, Record>) {
    && (forall k :: k in records ==> RecordOk(k, records[k], rows))
    && (forall j, k :: j in records && k in records && j != k ==>
          records[j].response.providerPaymentId != records[k].response.providerPaymentId)
  }

  predicate PostOk(rows: map<Uuid, Row>, request: ProviderRequest) {
    request.paymentId in rows && request == RequestFor(request.paymentId, rows[request.paymentId])
  }

  ghost predicate PostsOk(rows: map<Uuid, Row>, posts: set<ProviderRequest>) {
    forall q :: q in posts ==> PostOk(rows, q)
  }

  // ----- the idempotency-key index and the calls that use it ---------------------------

  ghost predicate IndexOk(rows: map<Uuid, Row>, byKey: map<string, Uuid>) {
    && (forall k :: k in byKey ==> byKey[k] in rows && rows[byKey[k]].key == k)
    && (forall p :: p in rows ==> rows[p].key in byKey && byKey[rows[p].key] == p)
  }

  predicate CallOk(c: nat, call: ApiCall, rows: map<Uuid, Row>, byKey: map<string, Uuid>,
                   origin: map<Uuid, Origin>)
  {
    match call.phase
    case Started => true
    case Inserting => true
    case Rereading => call.key in byKey
    case Returned(Created(p)) =>
      && p in rows && rows[p].key == call.key && rows[p].data == call.data
      && p in origin && origin[p].call == c
    case Returned(Existing(p)) =>
      p in rows && rows[p].key == call.key && rows[p].data == call.data
    case Returned(Conflict) =>
      call.key in byKey && byKey[call.key] in rows && rows[byKey[call.key]].data != call.data
    case Returned(Error) => true
    case Returned(KeyViolationReraised) => false
  }

  ghost predicate CallsOk(calls: map<nat, ApiCall>, rows: map<Uuid, Row>, byKey: map<string, Uuid>,
                          origin: map<Uuid, Origin>)
  {
    forall c :: c in calls ==> CallOk(c, calls[c], rows, byKey, origin)
  }

  // ----- message copies -----------------------------------------------------------------

  /** The event's work is done: its payment left PENDING, or its webhook was marked sent. */
  predicate Moved(rows: map<Uuid, Row>, event: Envelope) {
    && event.paymentId in rows
    && (event.kind == ProcessRequested ==> rows[event.paymentId].status != Pending)
    && (event.kind == WebhookRequested ==> rows[event.paymentId].sentAt.Some?)
  }

  predicate PhaseOk(rows: map<Uuid, Row>, records: map<Uuid, Record>, event: Envelope, phase: Phase) {
    var pid := event.paymentId;
    match phase
    case Calling(request) =>
      event.kind == ProcessRequested && pid in rows && request == RequestFor(pid, rows[pid])
    case Answered(answer) =>
      event.kind == ProcessRequested && pid in records && answer == records[pid].response
    case Uncertain => event.kind == ProcessRequested
    case Delivering(d) =>
      && event.kind == WebhookRequested && pid in rows && rows[pid].webhookId == Some(event.eventId)
      && Terminal(rows[pid].status) && rows[pid].processedAt.Some?
      && d == DeliveryFor(pid, rows[pid])
    case Delivered => event.kind == WebhookRequested
    case Finished(Done) => Moved(rows, event)
    case _ => true
  }

  predicate CopyOk(rows: map<Uuid, Row>, outbox: map<Uuid, OutboxRow>, records: map<Uuid, Record>, c: Copy) {
    && ShapeOk(c)
    && c.event.eventId in outbox
    && c.event.(attempt := 1) == outbox[c.event.eventId].payload
    && (c.place.InFlight? || c.place.Adrift? ==> PhaseOk(rows, records, c.event, c.place.phase))
  }

  ghost predicate CopiesOk(rows: map<Uuid, Row>, outbox: map<Uuid, OutboxRow>,
                           records: map<Uuid, Record>, copies: Copies)
  {
    forall c :: c in copies ==> CopyOk(rows, outbox, records, copies[c])
  }

  /** A copy that will come back to the consumer or lies in the dead-letter queue: every
      copy but one that is about to be acknowledged or whose handler is adrift. */
  predicate Alive(c: Copy) {
    !c.place.Adrift? && c.place != InFlight(AckDue) && c.place != InFlight(Finished(Done))
  }

  ghost predicate HasCopy(copies: Copies, e: Uuid) {
    exists c :: c in copies && copies[c].event.eventId == e && Alive(copies[c])
  }

  ghost predicate Handled(rows: map<Uuid, Row>, outbox: map<Uuid, OutboxRow>, copies: Copies, e: Uuid) {
    e in outbox && (Moved(rows, outbox[e].payload) || HasCopy(copies, e))
  }

  /** Nothing that reached the broker is forgotten, and only that is marked published. */
  ghost predicate SentOk(rows: map<Uuid, Row>, outbox: map<Uuid, OutboxRow>, copies: Copies,
                         sent: multiset<Uuid>)
  {
    && (forall e :: e in sent ==> Handled(rows, outbox, copies, e))
    && (forall e :: e in outbox && outbox[e].publishedAt.Some? ==> e in sent)
  }

  // ----- relays ----------------------------------------------------------------------------

  ghost predicate RelayTxOk(outbox: map<Uuid, OutboxRow>, sent: multiset<Uuid>, t: RelayTx) {
    && t.done <= |t.batch|
    && (forall i :: 0 <= i < |t.batch| ==> t.batch[i] in outbox && outbox[t.batch[i]].publishedAt.None?)
    && (forall i, j :: 0 <= i < j < |t.batch| ==> t.batch[i] != t.batch[j])
    && (forall i :: 0 <= i < t.done ==> t.batch[i] in sent)
  }

  ghost predicate RelaysOk(outbox: map<Uuid, OutboxRow>, sent: multiset<Uuid>, relays: map<nat, RelayTx>) {
    && (forall r :: r in relays ==> RelayTxOk(outbox, sent, relays[r]))
    && (forall q, r, e :: q in relays && r in relays && e in relays[q].batch && e in relays[r].batch ==> q == r)
  }

  // ----- reconciliation ----------------------------------------------------------------------

  ghost predicate TasksOk(records: map<Uuid, Record>, tasks: map<Task, TaskPhase>, tokens: set<Uuid>) {
    forall t :: t in tasks ==>
      && t.token in tokens
      && (tasks[t].LookedUp? && tasks[t].answer.Some? ==>
            t.pid in records && tasks[t].answer.value == records[t.pid].response)
  }

  predicate Touches(e: LeaseEvent, pid: Uuid) {
    match e
    case ClaimEvent(ids, _) => pid in ids
    case PersistEvent(p, _) => p == pid
  }

  /** The most recent claim or persist of a payment. */
  function LastTouch(log: seq<LeaseEvent>, pid: Uuid): Option<LeaseEvent> {
    if log == [] then None
    else if Touches(log[|log| - 1], pid) then Some(log[|log| - 1])
    else LastTouch(log[..|log| - 1], pid)
  }

  predicate LastClaimedWith(log: seq<LeaseEvent>, pid: Uuid, token: Uuid) {
    var last := LastTouch(log, pid);
    last.Some? && last.value.ClaimEvent? && last.value.token == token
  }

  /** Every persist so far was fenced: since its token's claim nobody else claimed
      or persisted the payment. */
  ghost predicate LogOk(log: seq<LeaseEvent>, tokens: set<Uuid>) {
    && (forall j :: 0 <= j < |log| && log[j].PersistEvent? ==>
          LastClaimedWith(log[..j], log[j].pid, log[j].token))
    && (forall i :: 0 <= i < |log| && log[i].ClaimEvent? ==> log[i].token in tokens)
    && (forall i, j :: 0 <= i < j < |log| && log[i].ClaimEvent? && log[j].ClaimEvent? ==>
          log[i].token != log[j].token)
  }

  ghost predicate LeasesOk(rows: map<Uuid, Row>, log: seq<LeaseEvent>) {
    forall p :: p in rows && rows[p].leaseToken.Some? ==>
      LastClaimedWith(log, p, rows[p].leaseToken.value)
  }

  // ----- webhooks -------------------------------------------------------------------------------

  predicate WebhookOk(rows: map<Uuid, Row>, w: WebhookPost) {
    && w.pid in rows && Terminal(rows[w.pid].status)
    && rows[w.pid].webhookId == Some(w.eventId) && rows[w.pid].processedAt.Some?
    && w.delivery == DeliveryFor(w.pid, rows[w.pid])
  }

  ghost predicate WebhooksOk(rows: map<Uuid, Row>, webhooks: seq<WebhookPost>) {
    forall i :: 0 <= i < |webhooks| ==> WebhookOk(rows, webhooks[i])
  }

  // ----- the whole ----------------------------------------------------------------------------------

  /** Database and provider: the part other conjuncts lean on. */
  ghost predicate CoreOk(s: State) {
    && s.budget >= 1
    && RowsOk(s.db.rows, s.db.outbox, s.origin, s.records, s.budget)
    && OutboxOk(s.db.rows, s.db.outbox, s.origin)
    && IndexOk(s.db.rows, s.db.byKey)
    && RecordsOk(s.db.rows, s.records)
    && PostsOk(s.db.rows, s.posts)
  }

  /** Work under way. */
  ghost predicate FlightOk(s: State) {
    && CopiesOk(s.db.rows, s.db.outbox, s.records, s.copies)
    && SentOk(s.db.rows, s.db.outbox, s.copies, s.sent)
    && RelaysOk(s.db.outbox, s.sent, s.relays)
    && CallsOk(s.calls, s.db.rows, s.db.byKey, s.origin)
    && TasksOk(s.records, s.tasks, s.tokens)
    && LogOk(s.leaseLog, s.tokens)
    && LeasesOk(s.db.rows, s.leaseLog)
    && WebhooksOk(s.db.rows, s.webhooks)
  }

  ghost predicate Inv(s: State) {
    CoreOk(s) && FlightOk(s)
  }

  // ----- how the database and the provider may change -------------------------------------------------

  /** What may happen to one payment row in one step. */
  predicate RowEvolves(r: Row, r': Row) {
    && r'.data == r.data && r'.key == r.key && r'.fingerprint == r.fingerprint
    && MayBecome(r.status, r'.status)
    && (Terminal(r.status) ==> r' == r.(sentAt := r'.sentAt, updatedAt := r'.updatedAt))
    && (r.sentAt.Some? ==> r' == r)
    && (r.review ==> r' == r)
    && r.attempts <= r'.attempts
  }

  ghost predicate RowsEvolve(rows: map<Uuid, Row>, rows': map<Uuid, Row>) {
    forall p :: p in rows ==> p in rows' && RowEvolves(rows[p], rows'[p])
  }

  ghost predicate OutboxEvolves(outbox: map<Uuid, OutboxRow>, outbox': map<Uuid, OutboxRow>) {
    forall e :: e in outbox ==>
      && e in outbox'
      && outbox'[e] == outbox[e].(publishedAt := outbox'[e].publishedAt)
      && (outbox[e].publishedAt.Some? ==> outbox'[e].publishedAt.Some?)
  }

  ghost predicate RecordsEvolve(records: map<Uuid, Record>, records': map<Uuid, Record>) {
    forall k :: k in records ==> k in records' && records'[k] == records[k]
  }

  lemma CopiesStable(rows: map<Uuid, Row>, outbox: map<Uuid, OutboxRow>, records: map<Uuid, Record>,
                     rows': map<Uuid, Row>, outbox': map<Uuid, OutboxRow>, records': map<Uuid, Record>,
                     copies: Copies)
    requires RowsEvolve(rows, rows') && OutboxEvolves(outbox, outbox') && RecordsEvolve(records, records')
    requires CopiesOk(rows, outbox, records, copies)
    ensures CopiesOk(rows', outbox', records', copies)
  {
  }

  lemma WebhooksStable(rows: map<Uuid, Row>, rows': map<Uuid, Row>, webhooks: seq<WebhookPost>)
    requires RowsEvolve(rows, rows') && WebhooksOk(rows, webhooks)
    ensures WebhooksOk(rows', webhooks)
  {
  }

  lemma CallsStable(calls: map<nat, ApiCall>, rows: map<Uuid, Row>, byKey: map<string, Uuid>,
                    origin: map<Uuid, Origin>,
                    rows': map<Uuid, Row>, byKey': map<string, Uuid>, origin': map<Uuid, Origin>)
    requires CallsOk(calls, rows, byKey, origin) && RowsEvolve(rows, rows')
    requires forall k :: k in byKey ==> k in byKey' && byKey'[k] == byKey[k]
    requires forall p :: p in origin && p in rows ==> p in origin' && origin'[p] == origin[p]
    ensures CallsOk(calls, rows', byKey', origin')
  {
  }

  lemma CoreFollows(rows: map<Uuid, Row>, rows': map<Uuid, Row>, records: map<Uuid, Record>,
                    posts: set<ProviderRequest>)
    requires RowsEvolve(rows, rows') && RecordsOk(rows, records) && PostsOk(rows, posts)
    ensures RecordsOk(rows', records) && PostsOk(rows', posts)
  {
  }

  lemma SentStable(rows: map<Uuid, Row>, outbox: map<Uuid, OutboxRow>,
                   rows': map<Uuid, Row>, outbox': map<Uuid, OutboxRow>, copies: Copies, sent: multiset<Uuid>)
    requires RowsEvolve(rows, rows') && OutboxEvolves(outbox, outbox')
    requires SentOk(rows, outbox, copies, sent)
    requires forall e :: e in outbox' && outbox'[e].publishedAt.Some? ==>
               e in sent || (e in outbox && outbox[e].publishedAt.Some?)
    ensures SentOk(rows', outbox', copies, sent)
  {
  }

  lemma RelaysStable(outbox: map<Uuid, OutboxRow>, outbox': map<Uuid, OutboxRow>, sent: multiset<Uuid>,
                     relays: map<nat, RelayTx>)
    requires RelaysOk(outbox, sent, relays)
    requires forall e :: e in outbox ==> e in outbox' && outbox'[e] == outbox[e]
    ensures RelaysOk(outbox', sent, relays)
  {
  }

  /** One copy is replaced; if the old one counted for its event, the new one does or
      the event's work is done. */
  lemma SentAfterMove(rows: map<Uuid, Row>, outbox: map<Uuid, OutboxRow>, copies: Copies, sent: multiset<Uuid>,
                      cid: nat, place: Place)
    requires SentOk(rows, outbox, copies, sent) && cid in copies
    requires CopyOk(rows, outbox, map[], Copy(copies[cid].event, InNew))
    requires Alive(copies[cid]) && !Alive(Copy(copies[cid].event, place)) ==> Moved(rows, copies[cid].event)
    ensures SentOk(rows, outbox, At(copies, cid, place), sent)
  {
    var copies' := At(copies, cid, place);
    forall e | e in sent
      ensures Handled(rows, outbox, copies', e)
    {
      assert Handled(rows, outbox, copies, e);
      if !Moved(rows, outbox[e].payload) {
        var c :| c in copies && copies[c].event.eventId == e && Alive(copies[c]);
        assert c in copies' && copies'[c].event.eventId == e && Alive(copies'[c]);
      }
    }
  }
}
