/** Processing of `webhook.delivery_requested`: load the payment, post the webhook, mark it sent. */
module WebhookProcessing {
  import opened Model
  import opened Transactions
  import opened Broker
  import opened Storage
  import opened System

  /** How the HTTP request to the client's URL ended: a status code, no answer, or an
      exception that is not the HTTP client's. */
  datatype PostEnd = Replied(code: Option<int>) | PostRaised

  /** `WebhookClient.deliver`: transport errors (None), 408, 429 and 5xx may be retried,
      other answers that are not 2xx may not. */
  function Classify(code: Option<int>): WebhookReply {
    match code
    case None => RetryableReply
    case Some(c) =>
      if 200 <= c < 300 then Accepted
      else if c == 408 || c == 429 || 500 <= c < 600 then RetryableReply
      else PermanentReply
  }

  function AfterReply(post: PostEnd): ProcessOutcome {
    match post
    case PostRaised => UnexpectedFailure
    case Replied(code) =>
      match Classify(code)
      case Accepted => Done
      case RetryableReply => RetryableFailure
      case PermanentReply => PermanentFailure
  }

  /** What one `process` leaves in the database and how it ends, when other transactions
      turn the database from `before` into `between` while the webhook is posted.  Only an
      accepted webhook is marked sent. */
  function Processed(before: Db, event: Envelope, post: PostEnd, between: Db, now: Time, at: Time,
                     fate: CommitFate): (Db, ProcessOutcome)
  {
    if event.kind != WebhookRequested then (before, PermanentFailure)
    else match AfterLoad(before.rows, event)
      case Finished(outcome) => (before, outcome)
      case _ => Concluded(event, post, between, now, at, fate)
  }

  function Concluded(event: Envelope, post: PostEnd, db: Db, now: Time, at: Time, fate: CommitFate)
    : (Db, ProcessOutcome)
  {
    if AfterReply(post) != Done then (db, AfterReply(post))
    else
      var (after, result) := Transactions.MarkSent(db, event.paymentId, event.eventId, now, at);
      (if fate == RolledBack then db else after, AfterTx(result, fate == Acked))
  }

  /** The request that leaves the worker, if any. */
  function SentFor(rows: map<Uuid, Row>, event: Envelope): Option<Delivery> {
    if event.kind == WebhookRequested && LoadDelivery(rows, event).Deliver?
    then Some(LoadDelivery(rows, event).delivery) else None
  }

  class WebhookEventProcessor {
    const db: Database

    constructor (db: Database)
      ensures this.db == db
    {
      this.db := db;
    }

    method LoadDelivery(event: Envelope) returns (loaded: DeliveryLoad)
      ensures loaded == Transactions.LoadDelivery(db.rows, event)
    {
      var repository := new PaymentRepository(db);
      var found := repository.GetById(event.paymentId);
      if found == None {
        return BadEvent;
      }
      var payment := found.value;
      if payment.sentAt != None {
        return AlreadySent;
      }
      if payment.status != Succeeded && payment.status != Failed {
        return BadEvent;
      }
      if payment.webhookId == None || payment.webhookId.value != event.eventId {
        return BadEvent;
      }
      if payment.processedAt == None {
        return BadEvent;
      }
      var eventType := if payment.status == Succeeded then PaymentSucceeded else PaymentFailed;
      var payload := WebhookPayload(payment.webhookId.value, eventType, event.paymentId, payment.status,
                                    payment.data.amount, payment.data.currency, payment.processedAt.value,
                                    payment.data.metadata);
      return DeliveryLoad.Deliver(Delivery(payment.data.url, payload));
    }

    method MarkSent(pid: Uuid, eid: Uuid, now: Time, at: Time, fate: CommitFate) returns (outcome: ProcessOutcome)
      modifies db
      ensures var (after, result) := Transactions.MarkSent(old(db.Value()), pid, eid, now, at);
              && outcome == AfterTx(result, fate == Acked)
              && db.Value() == if fate == RolledBack then old(db.Value()) else after
    {
      var repository := new PaymentRepository(db);
      var found := repository.GetById(pid);
      if found == None {
        return PermanentFailure;
      }
      var payment := found.value;
      if payment.sentAt != None {
        return Done;
      }
      if payment.webhookId != Some(eid) {
        return PermanentFailure;
      }
      if payment.status != Succeeded && payment.status != Failed {
        return PermanentFailure;
      }
      payment := payment.(sentAt := Some(now), updatedAt := at);
      var acked := db.CommitRow(pid, payment, db.outbox, fate);
      return if acked then Done else UnexpectedFailure;
    }

    /** One `process`; `sent` is the request that left the worker, if any.  The message is
        reported done only if the payment's webhook is marked sent, and what is sent is
        what the payment said when it was loaded. */
    method Process(event: Envelope, post: PostEnd, between: Db, now: Time, at: Time, fate: CommitFate)
      returns (outcome: ProcessOutcome, sent: Option<Delivery>)
      modifies db
      ensures outcome == Done ==>
                && event.kind == WebhookRequested && event.paymentId in db.rows
                && db.rows[event.paymentId].sentAt.Some?
      ensures (db.Value(), outcome) == Processed(old(db.Value()), event, post, between, now, at, fate)
      ensures sent == SentFor(old(db.rows), event)
      ensures sent.Some? ==> sent.value.payload.eventId == event.eventId
      ensures outcome == Done && sent.Some? ==> post.Replied? && post.code.Some? && 200 <= post.code.value < 300
    {
      if event.kind != WebhookRequested {
        return PermanentFailure, None;
      }
      var loaded := LoadDelivery(event);
      match loaded {
        case BadEvent => return PermanentFailure, None;
        case AlreadySent => return Done, None;
        case Deliver(delivery) => sent := Some(delivery);
      }
      db.Interfere(between);
      if post == PostRaised {
        return UnexpectedFailure, sent;
      }
      match Classify(post.code) {
        case RetryableReply => outcome := RetryableFailure;
        case PermanentReply => outcome := PermanentFailure;
        case Accepted => outcome := MarkSent(event.paymentId, event.eventId, now, at, fate);
      }
    }
  }

  // ----- what a process run comes to ---------------------------------------------------------------

  /** What the client is told: the fields of the payment, under the event's id. */
  predicate Tells(d: Delivery, pid: Uuid, r: Row, eid: Uuid) {
    && d.url == r.data.url
    && d.payload.eventId == eid && d.payload.paymentId == pid
    && d.payload.status == r.status
    && d.payload.eventType == (if r.status == Succeeded then PaymentSucceeded else PaymentFailed)
    && d.payload.amount == r.data.amount && d.payload.currency == r.data.currency
    && d.payload.metadata == r.data.metadata
    && r.processedAt == Some(d.payload.processedAt)
  }

  /** A webhook is posted exactly for a final payment whose webhook event this is and whose
      webhook was not marked sent, and tells that payment; an event whose webhook was
      marked sent is done, and any other a permanent failure. */
  lemma PostedIff(before: Db, event: Envelope, post: PostEnd, between: Db, now: Time, at: Time, fate: CommitFate)
    ensures var pid := event.paymentId; var sent := SentFor(before.rows, event);
            && (sent.Some? <==>
                  && event.kind == WebhookRequested && pid in before.rows && before.rows[pid].sentAt.None?
                  && (before.rows[pid].status == Succeeded || before.rows[pid].status == Failed)
                  && before.rows[pid].webhookId == Some(event.eventId) && before.rows[pid].processedAt.Some?)
            && (sent.Some? ==> Tells(sent.value, pid, before.rows[pid], event.eventId))
            && (sent.None? ==>
                  Processed(before, event, post, between, now, at, fate)
                    == (before, if event.kind == WebhookRequested && pid in before.rows
                                   && before.rows[pid].sentAt.Some?
                                then Done else PermanentFailure))
  {
  }

  /** What the reply makes of a webhook that was posted: no answer, 408, 429 and 5xx are
      retried, other answers but 2xx are not, and nothing is written; after a 2xx the
      sending time is written, and the event is done exactly if that is acknowledged or
      was done before. */
  lemma CodeDecides(before: Db, event: Envelope, post: PostEnd, between: Db, now: Time, at: Time, fate: CommitFate)
    requires SentFor(before.rows, event).Some?
    requires event.paymentId in between.rows && Terminal(between.rows[event.paymentId].status)
    requires between.rows[event.paymentId].webhookId == Some(event.eventId)
    ensures var pid := event.paymentId; var r := between.rows[event.paymentId];
            var (db, result) := Processed(before, event, post, between, now, at, fate);
            if post == PostRaised then db == between && result == UnexpectedFailure
            else if post.code.None? || post.code.value == 408 || post.code.value == 429
                    || 500 <= post.code.value < 600 then
              db == between && result == RetryableFailure
            else if !(200 <= post.code.value < 300) then db == between && result == PermanentFailure
            else if r.sentAt.Some? then db == between && result == Done
            else
              && result == (if fate == Acked then Done else UnexpectedFailure)
              && db == if fate == RolledBack then between
                       else between.(rows := between.rows[pid := r.(sentAt := Some(now), updatedAt := at)])
  {
  }

  // ----- a process run as steps of the system --------------------------------------------------

  /** The run refines the worker steps of the system: the load is one step; after it, from
      any state `theirs` that others have reached with this delivery untouched, posting the
      webhook is one step, which logs the request, and what follows is one step more. */
  lemma ProcessRefinesSteps(s: State, cid: nat, theirs: State, post: PostEnd, now: Time, at: Time, fate: CommitFate)
    returns (loaded: State, mid: State, last: State)
    requires InPhase(s.copies, cid) && PhaseAt(s, cid) == Received
    requires s.copies[cid].event.kind == WebhookRequested
    requires InPhase(theirs.copies, cid) && theirs.copies[cid].event == s.copies[cid].event
    requires PhaseAt(theirs, cid) == AfterLoad(s.db.rows, s.copies[cid].event)
    ensures WorkNext(s, Load(cid), loaded)
    ensures InPhase(loaded.copies, cid) && InPhase(last.copies, cid)
    ensures var event := s.copies[cid].event;
            var (db, outcome) := Processed(s.db, event, post, theirs.db, now, at, fate);
            var sent := SentFor(s.db.rows, event);
            if sent.None? then
              PhaseAt(loaded, cid) == Finished(outcome) && loaded.db == db
            else
              && (exists a :: WorkNext(theirs, a, mid))
              && (mid == last || exists b :: WorkNext(mid, b, last))
              && PhaseAt(last, cid) == Finished(outcome) && last.db == db
              && last.webhooks == theirs.webhooks
                   + [WebhookPost(event.paymentId, sent.value, event.eventId, event.attempt)]
  {
    hide WorkNext, Goes, LoadDelivery, Concluded;
    var phase := AfterLoad(s.db.rows, s.copies[cid].event);
    loaded := s.(copies := Goes(s.copies, cid, phase));
    mid, last := loaded, loaded;
    LoadIsStep(s, cid);
    if phase.Delivering? {
      mid, last := PostAndMarkAreSteps(theirs, cid, post, now, at, fate);
    }
  }

  lemma PostAndMarkAreSteps(s: State, cid: nat, post: PostEnd, now: Time, at: Time, fate: CommitFate)
    returns (mid: State, last: State)
    requires InPhase(s.copies, cid) && PhaseAt(s, cid).Delivering?
    ensures exists a :: WorkNext(s, a, mid)
    ensures mid == last || exists b :: WorkNext(mid, b, last)
    ensures InPhase(last.copies, cid)
    ensures var event := s.copies[cid].event;
            var (db, outcome) := Concluded(event, post, s.db, now, at, fate);
            && PhaseAt(last, cid) == Finished(outcome) && last.db == db
            && last.webhooks == s.webhooks
                 + [WebhookPost(event.paymentId, PhaseAt(s, cid).delivery, event.eventId, event.attempt)]
  {
    hide WorkNext, Goes, Transactions.MarkSent;
    var reply := if post.PostRaised? then Accepted else Classify(post.code);
    mid := AfterPosting(s, cid, reply);
    PostingIsStep(s, cid, reply);
    last := mid;
    if reply == Accepted {
      last := AfterMarking(mid, cid, post, now, at, fate);
      MarkingIsStep(mid, cid, post, now, at, fate);
    }
  }

  lemma LoadIsStep(s: State, cid: nat)
    requires InPhase(s.copies, cid) && PhaseAt(s, cid) == Received
    ensures WorkNext(s, Load(cid), s.(copies := Goes(s.copies, cid, AfterLoad(s.db.rows, s.copies[cid].event))))
  {
  }

  lemma PostingIsStep(s: State, cid: nat, reply: WebhookReply)
    requires InPhase(s.copies, cid) && PhaseAt(s, cid).Delivering?
    ensures WorkNext(s, PostWebhook(cid, reply), AfterPosting(s, cid, reply))
  {
  }

  function AfterPosting(s: State, cid: nat, reply: WebhookReply): State
    requires InPhase(s.copies, cid) && PhaseAt(s, cid).Delivering?
  {
    var event := s.copies[cid].event;
    s.(copies := Goes(s.copies, cid, AfterPost(reply)),
       webhooks := s.webhooks + [WebhookPost(event.paymentId, PhaseAt(s, cid).delivery, event.eventId, event.attempt)])
  }

  /** The mark, or the exception that ends the run before it. */
  function AfterMarking(s: State, cid: nat, post: PostEnd, now: Time, at: Time, fate: CommitFate): State
    requires InPhase(s.copies, cid)
  {
    var event := s.copies[cid].event;
    var (after, result) := Transactions.MarkSent(s.db, event.paymentId, event.eventId, now, at);
    if post.PostRaised? then s.(copies := Goes(s.copies, cid, Finished(UnexpectedFailure)))
    else s.(db := if fate == RolledBack then s.db else after,
            copies := Goes(s.copies, cid, Finished(AfterTx(result, fate == Acked))))
  }

  lemma MarkingIsStep(s: State, cid: nat, post: PostEnd, now: Time, at: Time, fate: CommitFate)
    requires InPhase(s.copies, cid) && PhaseAt(s, cid) == Delivered
    ensures exists b :: WorkNext(s, b, AfterMarking(s, cid, post, now, at, fate))
  {
    var s' := AfterMarking(s, cid, post, now, at, fate);
    var raised := s'.db == s.db && PhaseAt(s', cid) == Finished(UnexpectedFailure);
    var b := if raised then Raise(cid, UnexpectedFailure) else Sent(cid, now, at, fate == Acked);
    assert WorkNext(s, b, s');
  }
}
