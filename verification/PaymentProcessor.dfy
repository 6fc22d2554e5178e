/** Processing of `payment.process_requested`: load, call the provider, write the result. */
module PaymentProcessing {
  import opened Model
  import opened Transactions
  import opened Broker
  import opened Storage
  import System
  import ProviderClient

  /** How the provider call through the circuit breaker ended. */
  datatype CallEnd =
    | Answer(answer: ProviderResponse)
    | BreakerOpen
    | Unavailable
    | Ambiguous
    | PermanentReply
    | UnexpectedError

  /** What the end of the call makes of the event: a result to write, or the outcome. */
  function AfterCall(call: CallEnd): Phase {
    match call
    case Answer(answer) => Answered(answer)
    case Ambiguous => Uncertain
    case BreakerOpen => Finished(RetryableFailure)
    case Unavailable => Finished(RetryableFailure)
    case PermanentReply => Finished(PermanentFailure)
    case UnexpectedError => Finished(UnexpectedFailure)
  }

  /** A transaction on `db` and what its caller is told: no effect if it is rolled back. */
  function Ended(db: Db, tx: (Db, TxResult), fate: CommitFate): (Db, ProcessOutcome) {
    (if fate == RolledBack then db else tx.0, System.AfterTx(tx.1, fate == Acked))
  }

  /** What one `process` leaves in the database and how it ends, when other transactions
      turn the database from `before` into `between` during the provider call. */
  function Processed(before: Db, event: Envelope, call: CallEnd, between: Db, wid: Uuid, processedAt: Time,
                     at: Time, fate: CommitFate): (Db, ProcessOutcome)
  {
    if event.kind != ProcessRequested then (before, PermanentFailure)
    else match System.AfterLoad(before.rows, event)
      case Finished(outcome) => (before, outcome)
      case _ => Concluded(event.paymentId, call, between, wid, processedAt, at, fate)
  }

  function Concluded(pid: Uuid, call: CallEnd, db: Db, wid: Uuid, processedAt: Time, at: Time,
                     fate: CommitFate): (Db, ProcessOutcome)
  {
    match call
    case Answer(answer) => Ended(db, ApplyProviderResult(db, pid, answer, wid, processedAt, at), fate)
    case Ambiguous => Ended(db, MarkUnknown(db, pid, at), fate)
    case BreakerOpen => (db, RetryableFailure)
    case Unavailable => (db, RetryableFailure)
    case PermanentReply => (db, PermanentFailure)
    case UnexpectedError => (db, UnexpectedFailure)
  }

  class PaymentEventProcessor {
    const db: Database

    constructor (db: Database)
      ensures this.db == db
    {
      this.db := db;
    }

    method LoadRequest(pid: Uuid) returns (loaded: LoadResult)
      ensures loaded == LoadProviderRequest(db.rows, pid)
    {
      var repository := new PaymentRepository(db);
      var found := repository.GetById(pid);
      if found == None {
        return MissingPayment;
      }
      var payment := found.value;
      if payment.status != Pending {
        return AlreadyProcessed;
      }
      return Request(ProviderRequest(pid, payment.data.amount, payment.data.currency));
    }

    method MarkUnknown(pid: Uuid, at: Time, fate: CommitFate) returns (outcome: ProcessOutcome)
      modifies db
      ensures var (after, result) := Transactions.MarkUnknown(old(db.Value()), pid, at);
              && outcome == System.AfterTx(result, fate == Acked)
              && db.Value() == if fate == RolledBack then old(db.Value()) else after
    {
      var repository := new PaymentRepository(db);
      var found := repository.GetById(pid);
      if found == None {
        return PermanentFailure;
      }
      var payment := found.value;
      if payment.status != Pending {
        return Done;
      }
      payment := payment.(status := Unknown, updatedAt := at);
      var acked := db.CommitRow(pid, payment, db.outbox, fate);
      return if acked then Done else UnexpectedFailure;
    }

    method ApplyProviderResult(pid: Uuid, answer: ProviderResponse, wid: Uuid, processedAt: Time, at: Time,
                               fate: CommitFate)
      returns (outcome: ProcessOutcome)
      modifies db
      ensures var (after, result) :=
                Transactions.ApplyProviderResult(old(db.Value()), pid, answer, wid, processedAt, at);
              && outcome == System.AfterTx(result, fate == Acked)
              && db.Value() == if fate == RolledBack then old(db.Value()) else after
    {
      var repository := new PaymentRepository(db);
      var found := repository.GetById(pid);
      if found == None {
        return PermanentFailure;
      }
      var payment := found.value;
      if payment.status != Pending {
        return Done;
      }
      if answer.status == Approved {
        payment := payment.(status := Succeeded);
      } else {
        payment := payment.(status := Failed);
      }
      payment := payment.(providerId := Some(answer.providerPaymentId), processedAt := Some(processedAt),
                          webhookId := Some(wid), updatedAt := at);
      var webhook := Envelope(wid, WebhookRequested, pid, 1, processedAt);
      var outbox := db.outbox[wid := OutboxRow(WebhookRequested, pid, webhook, processedAt, None)];
      var acked := db.CommitRow(pid, payment, outbox, fate);
      return if acked then Done else UnexpectedFailure;
    }

    /** One `process`.  While the provider works, other transactions turn the database
        into `between`.  Whatever they do: the message is reported done only if its
        payment has left PENDING, and the payment is written at most once, from PENDING,
        with what the provider said. */
    method Process(event: Envelope, call: CallEnd, between: Db, wid: Uuid, processedAt: Time, at: Time,
                   fate: CommitFate)
      returns (outcome: ProcessOutcome)
      modifies db
      ensures outcome == Done ==>
                && event.kind == ProcessRequested && event.paymentId in db.rows
                && db.rows[event.paymentId].status != Pending
      ensures (db.Value(), outcome)
           == Processed(old(db.Value()), event, call, between, wid, processedAt, at, fate)
    {
      if event.kind != ProcessRequested {
        return PermanentFailure;
      }
      var loaded := LoadRequest(event.paymentId);
      match loaded {
        case MissingPayment => return PermanentFailure;
        case AlreadyProcessed => return Done;
        case Request(_) =>
      }
      db.Interfere(between);
      match call {
        case BreakerOpen => return RetryableFailure;
        case Unavailable => return RetryableFailure;
        case PermanentReply => return PermanentFailure;
        case UnexpectedError => return UnexpectedFailure;
        case Ambiguous => outcome := MarkUnknown(event.paymentId, at, fate);
        case Answer(answer) => outcome := ApplyProviderResult(event.paymentId, answer, wid, processedAt, at, fate);
      }
    }
  }

  // ----- what a process run comes to ---------------------------------------------------------------

  /** The result or exception of the provider client, as it comes out of the breaker. */
  function EndOf(outcome: ProviderClient.Outcome): CallEnd {
    match outcome
    case Paid(answer) => Answer(answer)
    case Unavailable => Unavailable
    case Ambiguous => Ambiguous
    case Rejected(_) => PermanentReply
    case LoopFellThrough => UnexpectedError
  }

  /** An event that is not about a pending payment never gets to the provider: it is done
      if the payment has left PENDING, and a permanent failure if it is of another kind or
      there is no such payment. */
  lemma OnlyPendingIsCalled(before: Db, event: Envelope, call: CallEnd, between: Db, wid: Uuid,
                            processedAt: Time, at: Time, fate: CommitFate)
    requires !(event.kind == ProcessRequested && event.paymentId in before.rows
               && before.rows[event.paymentId].status == Pending)
    ensures Processed(before, event, call, between, wid, processedAt, at, fate)
         == (before, if event.kind == ProcessRequested && event.paymentId in before.rows
                     then Done else PermanentFailure)
  {
  }

  /** What the answer of the provider makes of a payment that is still pending. */
  predicate SettledAs(r: Row, r': Row, answer: ProviderResponse, wid: Uuid, processedAt: Time, at: Time) {
    && r'.status == (if answer.status == Approved then Succeeded else Failed)
    && r'.providerId == Some(answer.providerPaymentId) && r'.processedAt == Some(processedAt)
    && r'.webhookId == Some(wid) && r'.updatedAt == at
    && r'.data == r.data && r'.key == r.key && r'.fingerprint == r.fingerprint && r'.sentAt == r.sentAt
    && r'.attempts == r.attempts && r'.review == r.review
    && r'.leaseToken == r.leaseToken && r'.leaseUntil == r.leaseUntil
  }

  /** The webhook event that is stored with the answer. */
  predicate WebhookStored(o: OutboxRow, pid: Uuid, wid: Uuid, processedAt: Time) {
    && o.kind == WebhookRequested && o.paymentId == pid
    && o.createdAt == processedAt && o.publishedAt.None?
    && o.payload.eventId == wid && o.payload.kind == WebhookRequested && o.payload.paymentId == pid
    && o.payload.attempt == 1 && o.payload.occurredAt == processedAt
  }

  /** From the last reply of the provider to the database and the fate of the event, for a
      payment that is pending before the call and after it: an answer settles it, an open
      outcome makes it UNKNOWN, and both are reported done exactly if the commit is
      acknowledged; a request not taken is retried and a rejected one is not, the payment
      staying as it is. */
  lemma ReplyDecides(c: ProviderClient.Config, data: ProviderRequest, started: real,
                     turns: seq<ProviderClient.Turn>, posts: seq<ProviderClient.Post>, sleeps: seq<real>,
                     outcome: ProviderClient.Outcome, ended: real,
                     before: Db, event: Envelope, between: Db, wid: Uuid, processedAt: Time, at: Time, fate: CommitFate)
    requires |turns| == c.maxAttempts
    requires ProviderClient.CallOk(c, data, started, turns, posts, sleeps, outcome, ended)
    requires posts[|posts| - 1].over < started + c.totalTimeout
    requires event.kind == ProcessRequested
    requires event.paymentId in before.rows && before.rows[event.paymentId].status == Pending
    requires event.paymentId in between.rows && between.rows[event.paymentId].status == Pending
    ensures var pid := event.paymentId; var reply := turns[|posts| - 1].reply;
            var (db, result) := Processed(before, event, EndOf(outcome), between, wid, processedAt, at, fate);
            if ProviderClient.NotTaken(reply) then
              db == between && result == RetryableFailure
            else if ProviderClient.LeavesOpen(reply) then
              && result == (if fate == Acked then Done else UnexpectedFailure)
              && db == if fate == RolledBack then between
                       else between.(rows := between.rows[pid :=
                              between.rows[pid].(status := Unknown, updatedAt := at)])
            else if 200 <= reply.code < 300 then
              && result == (if fate == Acked then Done else UnexpectedFailure)
              && (fate == RolledBack ==> db == between)
              && (fate != RolledBack ==>
                    && pid in db.rows && wid in db.outbox && db.byKey == between.byKey
                    && db.rows == between.rows[pid := db.rows[pid]]
                    && db.outbox == between.outbox[wid := db.outbox[wid]]
                    && SettledAs(between.rows[pid], db.rows[pid], reply.body.value, wid, processedAt, at)
                    && WebhookStored(db.outbox[wid], pid, wid, processedAt))
            else
              db == between && result == PermanentFailure
  {
    ProviderClient.LastReplyDecides(c, data, started, turns, posts, sleeps, outcome, ended);
    hide ProviderClient.CallOk;
    var reply := turns[|posts| - 1].reply;
    if reply.Http? && !ProviderClient.NotTaken(reply) && !ProviderClient.LeavesOpen(reply) {
      if 200 <= reply.code < 300 {
        assert outcome == ProviderClient.Paid(reply.body.value);
      } else {
        assert outcome == ProviderClient.Rejected(reply.code);
      }
    }
    hide ProviderClient.NotTaken, ProviderClient.LeavesOpen;
    CallDecides(before, event, EndOf(outcome), between, wid, processedAt, at, fate);
  }

  /** The same from the end of the call, with the payment in any state when it is written:
      one that has left PENDING in the meantime stays as it is, and the event is done. */
  lemma CallDecides(before: Db, event: Envelope, call: CallEnd, between: Db, wid: Uuid, processedAt: Time, at: Time,
                    fate: CommitFate)
    requires event.kind == ProcessRequested
    requires event.paymentId in before.rows && before.rows[event.paymentId].status == Pending
    ensures var pid := event.paymentId;
            var (db, result) := Processed(before, event, call, between, wid, processedAt, at, fate);
            if call == BreakerOpen || call == Unavailable then db == between && result == RetryableFailure
            else if call == PermanentReply then db == between && result == PermanentFailure
            else if call == UnexpectedError then db == between && result == UnexpectedFailure
            else if pid !in between.rows then db == between && result == PermanentFailure
            else if between.rows[pid].status != Pending then db == between && result == Done
            else
              && result == (if fate == Acked then Done else UnexpectedFailure)
              && (fate == RolledBack ==> db == between)
              && (fate != RolledBack && call == Ambiguous ==>
                    db == between.(rows := between.rows[pid := between.rows[pid].(status := Unknown, updatedAt := at)]))
              && (fate != RolledBack && call.Answer? ==>
                    && pid in db.rows && wid in db.outbox && db.byKey == between.byKey
                    && db.rows == between.rows[pid := db.rows[pid]]
                    && db.outbox == between.outbox[wid := db.outbox[wid]]
                    && SettledAs(between.rows[pid], db.rows[pid], call.answer, wid, processedAt, at)
                    && WebhookStored(db.outbox[wid], pid, wid, processedAt))
  {
  }

  // ----- a process run as steps of the system --------------------------------------------------

  /** The run refines the worker steps of the system: the load is one step; after it, from
      any state `theirs` that others have reached with this delivery untouched, the end of
      the call is one step, and the write, where there is one, another. */
  lemma ProcessRefinesSteps(s: System.State, cid: nat, theirs: System.State, call: CallEnd,
                            wid: Uuid, processedAt: Time, at: Time, fate: CommitFate)
    returns (loaded: System.State, mid: System.State, last: System.State)
    requires InPhase(s.copies, cid) && System.PhaseAt(s, cid) == Received
    requires s.copies[cid].event.kind == ProcessRequested
    requires InPhase(theirs.copies, cid) && theirs.copies[cid].event == s.copies[cid].event
    requires System.PhaseAt(theirs, cid) == System.AfterLoad(s.db.rows, s.copies[cid].event)
    requires call.Answer? && System.PhaseAt(theirs, cid).Calling? ==>
               var request := System.PhaseAt(theirs, cid).request;
               request.paymentId in theirs.records && theirs.records[request.paymentId] == Record(request, call.answer)
    requires wid !in theirs.db.outbox
    ensures System.WorkNext(s, System.Load(cid), loaded)
    ensures InPhase(loaded.copies, cid) && InPhase(last.copies, cid)
    ensures var (db, outcome) := Processed(s.db, s.copies[cid].event, call, theirs.db, wid, processedAt, at, fate);
            if System.PhaseAt(loaded, cid).Finished? then
              System.PhaseAt(loaded, cid) == Finished(outcome) && loaded.db == db
            else
              && (exists a :: System.WorkNext(theirs, a, mid))
              && (mid == last || exists b :: System.WorkNext(mid, b, last))
              && System.PhaseAt(last, cid) == Finished(outcome) && last.db == db
  {
    hide System.WorkNext, Goes, Concluded, LoadProviderRequest;
    var phase := System.AfterLoad(s.db.rows, s.copies[cid].event);
    loaded := s.(copies := Goes(s.copies, cid, phase));
    mid, last := loaded, loaded;
    LoadIsStep(s, cid);
    if phase.Calling? {
      mid, last := ConclusionIsSteps(theirs, cid, call, wid, processedAt, at, fate);
    }
  }

  lemma ConclusionIsSteps(s: System.State, cid: nat, call: CallEnd, wid: Uuid, processedAt: Time, at: Time,
                          fate: CommitFate)
    returns (mid: System.State, last: System.State)
    requires InPhase(s.copies, cid) && System.PhaseAt(s, cid).Calling? && wid !in s.db.outbox
    requires call.Answer? ==>
               var request := System.PhaseAt(s, cid).request;
               request.paymentId in s.records && s.records[request.paymentId] == Record(request, call.answer)
    ensures exists a :: System.WorkNext(s, a, mid)
    ensures mid == last || exists b :: System.WorkNext(mid, b, last)
    ensures InPhase(last.copies, cid)
    ensures var (db, outcome) := Concluded(s.copies[cid].event.paymentId, call, s.db, wid, processedAt, at, fate);
            System.PhaseAt(last, cid) == Finished(outcome) && last.db == db
  {
    hide System.WorkNext, Goes, MarkUnknown, ApplyProviderResult;
    mid := s.(copies := Goes(s.copies, cid, AfterCall(call)));
    CallIsStep(s, cid, call, mid);
    if AfterCall(call).Finished? {
      last := mid;
    } else {
      last := AfterWrite(mid, cid, call, wid, processedAt, at, fate);
      WriteIsStep(mid, cid, call, wid, processedAt, at, fate);
    }
  }

  lemma LoadIsStep(s: System.State, cid: nat)
    requires InPhase(s.copies, cid) && System.PhaseAt(s, cid) == Received
    ensures System.WorkNext(s, System.Load(cid),
                            s.(copies := Goes(s.copies, cid, System.AfterLoad(s.db.rows, s.copies[cid].event))))
  {
  }

  lemma CallIsStep(s: System.State, cid: nat, call: CallEnd, s': System.State)
    requires InPhase(s.copies, cid) && System.PhaseAt(s, cid).Calling?
    requires call.Answer? ==>
               var request := System.PhaseAt(s, cid).request;
               request.paymentId in s.records && s.records[request.paymentId] == Record(request, call.answer)
    requires s' == s.(copies := Goes(s.copies, cid, AfterCall(call)))
    ensures exists a :: System.WorkNext(s, a, s')
  {
    match call
    case Answer(_) => assert System.WorkNext(s, System.WorkStep.Answer(cid), s');
    case Ambiguous => assert System.WorkNext(s, System.WorkStep.Ambiguous(cid), s');
    case _ => assert System.WorkNext(s, System.Raise(cid, AfterCall(call).outcome), s');
  }

  function AfterWrite(s: System.State, cid: nat, call: CallEnd, wid: Uuid, processedAt: Time, at: Time,
                      fate: CommitFate): System.State
    requires InPhase(s.copies, cid)
  {
    var (db, outcome) := Concluded(s.copies[cid].event.paymentId, call, s.db, wid, processedAt, at, fate);
    s.(db := db, copies := Goes(s.copies, cid, Finished(outcome)))
  }

  lemma WriteIsStep(s: System.State, cid: nat, call: CallEnd, wid: Uuid, processedAt: Time, at: Time, fate: CommitFate)
    requires InPhase(s.copies, cid) && System.PhaseAt(s, cid) == AfterCall(call)
    requires (call.Answer? || call.Ambiguous?) && wid !in s.db.outbox
    ensures exists b :: System.WorkNext(s, b, AfterWrite(s, cid, call, wid, processedAt, at, fate))
  {
    var s' := AfterWrite(s, cid, call, wid, processedAt, at, fate);
    var b := if s'.db == s.db && fate == RolledBack && s'.copies[cid].place.phase == Finished(UnexpectedFailure)
             then System.Raise(cid, UnexpectedFailure)
             else if call.Ambiguous? then System.Unknowing(cid, at, fate == Acked)
             else System.Apply(cid, wid, processedAt, at, fate == Acked);
    assert System.WorkNext(s, b, s');
  }
}
