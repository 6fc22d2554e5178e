/** The whole system as a step machine: API calls, outbox relays, consumers,
    reconcilers and the provider act on one database, one broker and one record
    map.  Each database transaction is one step; provider and webhook calls lie
    between transactions.  Any number of each may be under way at once, may
    crash, and may lose the acknowledgement of a commit. */
module System {
  import opened Model
  import opened Selection
  import opened Transactions
  import opened Broker
  import MockProvider

  // ----- who is doing what ----------------------------------------------------------

  datatype CallResult =
    | Created(pid: Uuid)
    | Existing(pid: Uuid)
    | Conflict
    | Error
    | KeyViolationReraised

  datatype CallPhase = Started | Inserting | Rereading | Returned(result: CallResult)

  /** One `create_payment` call. */
  datatype ApiCall = ApiCall(key: string, data: PaymentData, phase: CallPhase)

  /** An open relay transaction: its locked batch and how many of it are published. */
  datatype RelayTx = RelayTx(batch: seq<Uuid>, done: nat)

  datatype TaskPhase = Claimed | Renewed | LookedUp(answer: Option<ProviderResponse>)

  /** One reconciler's work on one payment, identified by its lease token. */
  datatype Task = Task(token: Uuid, pid: Uuid)

  datatype LeaseEvent = ClaimEvent(ids: set<Uuid>, token: Uuid) | PersistEvent(pid: Uuid, token: Uuid)

  /** A webhook request that left the worker. */
  datatype WebhookPost = WebhookPost(pid: Uuid, delivery: Delivery, eventId: Uuid, attempt: nat)

  /** Who created a payment, and its process event. */
  datatype Origin = Origin(call: nat, eid: Uuid)

  /** `budget` is the reconciliation attempt limit.  The fields from `origin` on
      the last line are history: no step reads them except to keep fresh tokens fresh. */
  datatype State = State(
    budget: nat,
    db: Db,
    calls: map<nat, ApiCall>,
    relays: map<nat, RelayTx>,
    copies: Copies,
    posts: set<ProviderRequest>,
    records: map<Uuid, Record>,
    tasks: map<Task, TaskPhase>,
    origin: map<Uuid, Origin>, sent: multiset<Uuid>, failed: multiset<Uuid>,
    tokens: set<Uuid>, leaseLog: seq<LeaseEvent>, webhooks: seq<WebhookPost>)

  ghost predicate Init(s: State) {
    && s.budget >= 1
    && s.db == Db(map[], map[], map[])
    && s.calls == map[] && s.relays == map[] && s.copies == map[]
    && s.posts == {} && s.records == map[] && s.tasks == map[]
    && s.origin == map[] && s.sent == multiset{} && s.failed == multiset{}
    && s.tokens == {} && s.leaseLog == [] && s.webhooks == []
  }

  // ----- payment creation -------------------------------------------------------------

  /** `_resolve_existing_payment`. */
  function Resolve(rows: map<Uuid, Row>, pid: Uuid, data: PaymentData): CallResult
    requires pid in rows
  {
    if rows[pid].fingerprint != data then Conflict else Existing(pid)
  }

  datatype ApiStep =
    | Begin(call: nat, key: string, data: PaymentData)
    | Read(call: nat)
    | Insert(call: nat, pid: Uuid, eid: Uuid, occurredAt: Time, at: Time, acked: bool)
    | Reread(call: nat)
    | Fail(call: nat)

  function SetPhase(s: State, call: nat, phase: CallPhase): map<nat, ApiCall>
    requires call in s.calls
  {
    s.calls[call := s.calls[call].(phase := phase)]
  }

  ghost predicate ApiNext(s: State, a: ApiStep, s': State) {
    match a
    case Begin(c, key, data) =>
      && c !in s.calls
      && s' == s.(calls := s.calls[c := ApiCall(key, data, Started)])
    case Read(c) =>
      && c in s.calls && s.calls[c].phase == Started
      && var key := s.calls[c].key;
         if key in s.db.byKey then
           && s.db.byKey[key] in s.db.rows
           && s' == s.(calls := SetPhase(s, c, Returned(Resolve(s.db.rows, s.db.byKey[key], s.calls[c].data))))
         else s' == s.(calls := SetPhase(s, c, Inserting))
    case Insert(c, pid, eid, occurredAt, at, acked) =>
      && c in s.calls && s.calls[c].phase == Inserting
      && pid !in s.db.rows && eid !in s.db.outbox
      && var next := CreatePayment(s.db, pid, eid, s.calls[c].key, s.calls[c].data, occurredAt, at);
         if next.None? then s' == s.(calls := SetPhase(s, c, Rereading))
         else s' == s.(db := next.value,
                       calls := SetPhase(s, c, Returned(if acked then Created(pid) else Error)),
                       origin := s.origin[pid := Origin(c, eid)])
    case Reread(c) =>
      && c in s.calls && s.calls[c].phase == Rereading
      && var key := s.calls[c].key;
         if key in s.db.byKey then
           && s.db.byKey[key] in s.db.rows
           && s' == s.(calls := SetPhase(s, c, Returned(Resolve(s.db.rows, s.db.byKey[key], s.calls[c].data))))
         else s' == s.(calls := SetPhase(s, c, Returned(KeyViolationReraised)))
    case Fail(c) =>
      && c in s.calls && !s.calls[c].phase.Returned?
      && s' == s.(calls := SetPhase(s, c, Returned(Error)))
  }

  // ----- outbox relay -----------------------------------------------------------------

  /** The rows some open batch holds. */
  ghost function LockedRows(relays: map<nat, RelayTx>): set<Uuid> {
    set r, e | r in relays && e in relays[r].batch :: e
  }

  /** What an open transaction has published so far. */
  function Published(t: RelayTx): multiset<Uuid> {
    if t.done <= |t.batch| then multiset(t.batch[..t.done]) else multiset{}
  }

  datatype RelayStep =
    | Open(r: nat, batch: seq<Uuid>, limit: nat)
    | Send(r: nat, cid: nat)
    | SendFails(r: nat, cid: nat, stored: bool)
    | CommitBatch(r: nat, stamps: map<Uuid, Time>)
    | Rollback(r: nat)

  ghost predicate RelayNext(s: State, a: RelayStep, s': State) {
    match a
    case Open(r, batch, limit) =>
      && r !in s.relays && limit >= 1
      && IsFirst(CreatedTimes(s.db.outbox), Unpublished(s.db.outbox, LockedRows(s.relays)), limit, batch)
      && s' == s.(relays := s.relays[r := RelayTx(batch, 0)])
    case Send(r, cid) =>
      && r in s.relays && s.relays[r].done < |s.relays[r].batch|
      && var e := s.relays[r].batch[s.relays[r].done];
         && e in s.db.outbox && cid !in s.copies
         && s' == s.(relays := s.relays[r := s.relays[r].(done := s.relays[r].done + 1)],
                     copies := s.copies[cid := Copy(s.db.outbox[e].payload, InNew)],
                     sent := s.sent + multiset{e})
    case SendFails(r, cid, stored) =>
      && r in s.relays && s.relays[r].done < |s.relays[r].batch|
      && var e := s.relays[r].batch[s.relays[r].done];
         && e in s.db.outbox && cid !in s.copies
         && s' == s.(relays := s.relays - {r},
                     copies := if stored then s.copies[cid := Copy(s.db.outbox[e].payload, InNew)] else s.copies,
                     sent := if stored then s.sent + multiset{e} else s.sent,
                     failed := s.failed + Published(s.relays[r]) + if stored then multiset{e} else multiset{})
    case CommitBatch(r, stamps) =>
      && r in s.relays && s.relays[r].done == |s.relays[r].batch|
      && stamps.Keys == Elements(s.relays[r].batch)
      && s' == s.(relays := s.relays - {r},
                  db := s.db.(outbox := MarkPublished(s.db.outbox, stamps)))
    case Rollback(r) =>
      && r in s.relays
      && s' == s.(relays := s.relays - {r}, failed := s.failed + Published(s.relays[r]))
  }

  // ----- broker and consumer --------------------------------------------------------------

  /** Moves of a message that touch nothing but the broker. */
  ghost predicate BrokerMove(s: State, m: Move, s': State) {
    && !m.Publish? && !m.Work?
    && BrokerStep(s.copies, m, s'.copies)
    && s' == s.(copies := s'.copies)
  }

  // ----- processing an event ----------------------------------------------------------------

  function AfterTx(result: TxResult, acked: bool): ProcessOutcome {
    match result
    case PermanentError => PermanentFailure
    case NothingToDo => Done
    case Committed => if acked then Done else UnexpectedFailure
  }

  datatype WebhookReply = Accepted | RetryableReply | PermanentReply

  function AfterPost(reply: WebhookReply): Phase {
    match reply
    case Accepted => Delivered
    case RetryableReply => Finished(RetryableFailure)
    case PermanentReply => Finished(PermanentFailure)
  }

  datatype WorkStep =
    | Load(cid: nat)
    | Post(cid: nat)
    | Answer(cid: nat)
    | Ambiguous(cid: nat)
    | Raise(cid: nat, outcome: ProcessOutcome)
    | Unknowing(cid: nat, at: Time, acked: bool)
    | Apply(cid: nat, wid: Uuid, processedAt: Time, at: Time, acked: bool)
    | PostWebhook(cid: nat, reply: WebhookReply)
    | Sent(cid: nat, now: Time, at: Time, acked: bool)

  function AfterLoad(rows: map<Uuid, Row>, event: Envelope): Phase {
    match event.kind
    case ProcessRequested =>
      (match LoadProviderRequest(rows, event.paymentId)
       case MissingPayment => Finished(PermanentFailure)
       case AlreadyProcessed => Finished(Done)
       case Request(request) => Calling(request))
    case WebhookRequested =>
      (match LoadDelivery(rows, event)
       case BadEvent => Finished(PermanentFailure)
       case AlreadySent => Finished(Done)
       case Deliver(delivery) => Delivering(delivery))
  }

  function PhaseAt(s: State, cid: nat): Phase
    requires InPhase(s.copies, cid)
  {
    s.copies[cid].place.phase
  }

  ghost predicate WorkNext(s: State, a: WorkStep, s': State) {
    && InPhase(s.copies, a.cid)
    && var event := s.copies[a.cid].event;
       var phase := PhaseAt(s, a.cid);
       match a
       case Load(c) =>
         && phase == Received
         && s' == s.(copies := Goes(s.copies, c, AfterLoad(s.db.rows, event)))
       case Post(c) =>
         phase.Calling? && s' == s.(posts := s.posts + {phase.request})
       case Answer(c) =>
         && phase.Calling? && phase.request.paymentId in s.records
         && s.records[phase.request.paymentId].request == phase.request
         && s' == s.(copies := Goes(s.copies, c, Answered(s.records[phase.request.paymentId].response)))
       case Ambiguous(c) =>
         phase.Calling? && s' == s.(copies := Goes(s.copies, c, Uncertain))
       case Raise(c, outcome) =>
         && Working(phase) && outcome != Done
         && (phase.Calling? || outcome == UnexpectedFailure)
         && s' == s.(copies := Goes(s.copies, c, Finished(outcome)))
       case Unknowing(c, at, acked) =>
         && phase == Uncertain
         && var (db, result) := MarkUnknown(s.db, event.paymentId, at);
            s' == s.(db := db, copies := Goes(s.copies, c, Finished(AfterTx(result, acked))))
       case Apply(c, wid, processedAt, at, acked) =>
         && phase.Answered? && wid !in s.db.outbox
         && var (db, result) :=
              ApplyProviderResult(s.db, event.paymentId, phase.answer, wid, processedAt, at);
            s' == s.(db := db, copies := Goes(s.copies, c, Finished(AfterTx(result, acked))))
       case PostWebhook(c, reply) =>
         && phase.Delivering?
         && s' == s.(copies := Goes(s.copies, c, AfterPost(reply)),
                     webhooks := s.webhooks
                       + [WebhookPost(event.paymentId, phase.delivery, event.eventId, event.attempt)])
       case Sent(c, now, at, acked) =>
         && phase == Delivered
         && var (db, result) := MarkSent(s.db, event.paymentId, event.eventId, now, at);
            s' == s.(db := db, copies := Goes(s.copies, c, Finished(AfterTx(result, acked))))
  }

  /** What a work step makes of the database. */
  function DbAfterWork(s: State, a: WorkStep): Db
    requires InPhase(s.copies, a.cid) && (a.Apply? ==> PhaseAt(s, a.cid).Answered?)
  {
    var event := s.copies[a.cid].event;
    match a
    case Unknowing(_, at, _) => MarkUnknown(s.db, event.paymentId, at).0
    case Apply(c, wid, processedAt, at, _) =>
      ApplyProviderResult(s.db, event.paymentId, PhaseAt(s, c).answer, wid, processedAt, at).0
    case Sent(_, now, at, _) => MarkSent(s.db, event.paymentId, event.eventId, now, at).0
    case _ => s.db
  }

  /** All that a work step may change. */
  lemma WorkFrame(s: State, a: WorkStep, s': State)
    requires WorkNext(s, a, s')
    ensures InPhase(s.copies, a.cid) && (a.Apply? ==> PhaseAt(s, a.cid).Answered? && a.wid !in s.db.outbox)
    ensures s' == s.(db := DbAfterWork(s, a), copies := s'.copies, posts := s'.posts, webhooks := s'.webhooks)
  {
    hide MarkUnknown, ApplyProviderResult, MarkSent, AfterLoad, AfterPost, AfterTx, Goes;
  }

  /** All that an API step may change. */
  lemma ApiFrame(s: State, a: ApiStep, s': State)
    requires ApiNext(s, a, s')
    ensures s' == s.(db := s'.db, calls := s'.calls, origin := s'.origin)
    ensures s'.db == s.db
            || (&& a.Insert? && a.call in s.calls && a.pid !in s.db.rows && a.eid !in s.db.outbox
                && var call := s.calls[a.call];
                   CreatePayment(s.db, a.pid, a.eid, call.key, call.data, a.occurredAt, a.at) == Some(s'.db))
  {
    hide CreatePayment, Resolve, SetPhase;
  }

  // ----- provider ------------------------------------------------------------------------------

  ghost predicate FreshAnswer(records: map<Uuid, Record>, answer: ProviderResponse) {
    forall k :: k in records ==> records[k].response.providerPaymentId != answer.providerPaymentId
  }

  /** The provider serves a request that was posted, possibly long after the worker
      gave up on it. */
  ghost predicate ProviderNext(s: State, request: ProviderRequest, answer: ProviderResponse, s': State) {
    && request in s.posts && FreshAnswer(s.records, answer)
    && s' == s.(records := MockProvider.Serve(s.records, request, answer))
  }

  // ----- reconciliation ------------------------------------------------------------------------

  datatype ReconcileStep =
    | Claim(token: Uuid, batch: seq<Uuid>, limit: nat, skipped: set<Uuid>,
            staleBefore: Time, now: Time, until: Time, at: Time)
    | Renew(task: Task, now: Time, until: Time, at: Time, acked: bool)
    | Lookup(task: Task, found: bool)
    | Persist(task: Task, now: Time, wid: Uuid, processedAt: Time, createdAt: Time, at: Time)
    | Drop(task: Task)

  ghost predicate ReconcileNext(s: State, a: ReconcileStep, s': State) {
    match a
    case Claim(token, batch, limit, skipped, staleBefore, now, until, at) =>
      && token !in s.tokens
      && IsFirst(UpdatedTimes(s.db.rows),
                 ClaimCandidates(s.db.rows, staleBefore, now) - skipped, limit, batch)
      && var ids := Elements(batch);
         s' == s.(db := s.db.(rows := ClaimRows(s.db.rows, ids, token, until, at)),
                  tasks := map t | t in s.tasks.Keys + (set p | p in ids :: Task(token, p)) ::
                             if t in s.tasks then s.tasks[t] else Claimed,
                  tokens := s.tokens + {token},
                  leaseLog := s.leaseLog + [ClaimEvent(ids, token)])
    case Renew(t, now, until, at, acked) =>
      && t in s.tasks && s.tasks[t] == Claimed
      && var (rows, renewed) := RenewLease(s.db.rows, t.pid, t.token, now, until, at);
         s' == s.(db := s.db.(rows := rows),
                  tasks := if renewed && acked then s.tasks[t := Renewed] else s.tasks - {t})
    case Lookup(t, found) =>
      && t in s.tasks && s.tasks[t] == Renewed
      && (found ==> t.pid in s.records)
      && s' == s.(tasks := s.tasks[t := LookedUp(if found then Some(s.records[t.pid].response) else None)])
    case Persist(t, now, wid, processedAt, createdAt, at) =>
      && t in s.tasks && s.tasks[t].LookedUp? && wid !in s.db.outbox
      && var (db, result) := PersistResolution(s.db, t.pid, t.token, s.tasks[t].answer, s.budget,
                                               now, wid, processedAt, createdAt, at);
         s' == s.(db := db,
                  tasks := s.tasks - {t},
                  leaseLog := if result == LeaseLost then s.leaseLog
                              else s.leaseLog + [PersistEvent(t.pid, t.token)])
    case Drop(t) =>
      t in s.tasks && s' == s.(tasks := s.tasks - {t})
  }

  // ----- the step relation ------------------------------------------------------------------------

  datatype Step =
    | ApiDoes(api: ApiStep)
    | RelayDoes(relay: RelayStep)
    | BrokerDoes(move: Move)
    | WorkerDoes(work: WorkStep)
    | ProviderServes(request: ProviderRequest, answer: ProviderResponse)
    | ReconcilerDoes(reconcile: ReconcileStep)

  ghost predicate Next(s: State, step: Step, s': State) {
    match step
    case ApiDoes(a) => ApiNext(s, a, s')
    case RelayDoes(a) => RelayNext(s, a, s')
    case BrokerDoes(m) => BrokerMove(s, m, s')
    case WorkerDoes(a) => WorkNext(s, a, s')
    case ProviderServes(request, answer) => ProviderNext(s, request, answer, s')
    case ReconcilerDoes(a) => ReconcileNext(s, a, s')
  }

  ghost predicate IsRun(states: seq<State>, steps: seq<Step>) {
    && |states| == |steps| + 1
    && Init(states[0])
    && (forall i :: 0 <= i < |steps| ==> Next(states[i], steps[i], states[i + 1]))
  }
}
