/** The queues and the life of one message copy: published, delivered, worked
    on, settled.  Every physical copy has its own id, so redelivery and
    duplicates can be told apart. */
module Broker {
  import opened Model

  const MAX_ATTEMPTS := 3

  /** How `process` of an event ended: returned, or raised one of three kinds. */
  datatype ProcessOutcome = Done | PermanentFailure | RetryableFailure | UnexpectedFailure

  /** Where the handling of a delivered copy stands.  The first six phases lie
      between the awaits of the processors; the rest belong to the consumer. */
  datatype Phase =
    | Received
    | Calling(request: ProviderRequest)
    | Answered(answer: ProviderResponse)
    | Uncertain
    | Delivering(delivery: Delivery)
    | Delivered
    | Finished(outcome: ProcessOutcome)
    | AckDue
    | NackDue

  predicate Working(phase: Phase) {
    !phase.Finished? && !phase.AckDue? && !phase.NackDue?
  }

  /** A copy lies in a queue, or is with a handler.  A handler is adrift when its connection
      was lost and the message delivered anew: it goes on working and may still publish a
      retry copy, but nothing it settles reaches the broker. */
  datatype Place = InNew | InRetry1 | InRetry2 | InDlq | InFlight(phase: Phase) | Adrift(phase: Phase)

  datatype Copy = Copy(event: Envelope, place: Place)

  type Copies = map<nat, Copy>

  /** A publish is confirmed, or raises; when it raises the broker may still have
      stored the message. */
  datatype PublishFate = Confirmed | RaisedLost | RaisedStored

  datatype Settlement = AckNow | RejectNow | RetryAs(next: Envelope)

  function SettlementOf(event: Envelope, outcome: ProcessOutcome): Settlement {
    match outcome
    case Done => AckNow
    case PermanentFailure => RejectNow
    case _ => if event.attempt >= MAX_ATTEMPTS then RejectNow
              else RetryAs(event.(attempt := event.attempt + 1))
  }

  /** The queue `publish_retry` routes to; None is its ValueError. */
  function RetryQueue(event: Envelope): Option<Place> {
    if event.attempt == 2 then Some(InRetry1)
    else if event.attempt == 3 then Some(InRetry2)
    else None
  }

  datatype Move =
    | Publish(cid: nat, event: Envelope)
    | Expire(cid: nat)
    | Deliver(cid: nat)
    | Work(cid: nat, phase: Phase)
    | Settle(cid: nat)
    | Retry(cid: nat, copyId: nat, fate: PublishFate)
    | Ack(cid: nat)
    | Nack(cid: nat)
    | Crash(cid: nat)
    | Redeliver(cid: nat, copyId: nat)

  function At(copies: Copies, cid: nat, place: Place): Copies
    requires cid in copies
  {
    copies[cid := Copy(copies[cid].event, place)]
  }

  predicate InPhase(copies: Copies, cid: nat) {
    cid in copies && (copies[cid].place.InFlight? || copies[cid].place.Adrift?)
  }

  /** The handler goes on to a phase. */
  function Goes(copies: Copies, cid: nat, phase: Phase): (moved: Copies)
    requires InPhase(copies, cid)
    ensures InPhase(moved, cid) && moved[cid].place.phase == phase && moved[cid].event == copies[cid].event
  {
    At(copies, cid, copies[cid].place.(phase := phase))
  }

  /** The handler is done and the message goes to a queue, unless the handler is adrift. */
  function SentBack(copies: Copies, cid: nat, queue: Place): Copies
    requires cid in copies
  {
    if copies[cid].place.Adrift? then copies - {cid} else At(copies, cid, queue)
  }

  /** One step of the broker or of the consumer against the broker. */
  ghost predicate BrokerStep(s: Copies, m: Move, s': Copies) {
    match m
    case Publish(c, event) =>
      c !in s && s' == s[c := Copy(event, InNew)]
    case Expire(c) =>
      c in s && (s[c].place == InRetry1 || s[c].place == InRetry2) && s' == At(s, c, InNew)
    case Deliver(c) =>
      c in s && s[c].place == InNew && s' == At(s, c, InFlight(Received))
    case Work(c, phase) =>
      && InPhase(s, c) && Working(s[c].place.phase)
      && (Working(phase) || phase.Finished?)
      && s' == Goes(s, c, phase)
    case Settle(c) =>
      && InPhase(s, c) && s[c].place.phase.Finished?
      && var settlement := SettlementOf(s[c].event, s[c].place.phase.outcome);
         || (settlement == AckNow && s' == s - {c})
         || (settlement == RejectNow && s' == SentBack(s, c, InDlq))
    case Retry(c, copyId, fate) =>
      && InPhase(s, c) && s[c].place.phase.Finished? && copyId !in s
      && var settlement := SettlementOf(s[c].event, s[c].place.phase.outcome);
         && settlement.RetryAs?
         && s' == AfterRetry(s, c, copyId, settlement.next, fate)
    case Ack(c) =>
      InPhase(s, c) && s[c].place.phase == AckDue && s' == s - {c}
    case Nack(c) =>
      InPhase(s, c) && s[c].place.phase == NackDue && s' == SentBack(s, c, InNew)
    case Crash(c) =>
      InPhase(s, c) && s' == SentBack(s, c, InNew)
    case Redeliver(c, copyId) =>
      && InPhase(s, c) && s[c].place.InFlight? && copyId !in s
      && s' == At(s, c, Adrift(s[c].place.phase))[copyId := Copy(s[c].event, InNew)]
  }

  function AfterRetry(s: Copies, cid: nat, copyId: nat, next: Envelope, fate: PublishFate): Copies
    requires InPhase(s, cid)
  {
    match RetryQueue(next)
    case None => Goes(s, cid, NackDue)
    case Some(queue) =>
      match fate
      case Confirmed => Goes(s, cid, AckDue)[copyId := Copy(next, queue)]
      case RaisedLost => Goes(s, cid, NackDue)
      case RaisedStored => Goes(s, cid, NackDue)[copyId := Copy(next, queue)]
  }

  // ----- shape of the queues ---------------------------------------------------

  predicate ShapeOk(c: Copy) {
    && 1 <= c.event.attempt <= MAX_ATTEMPTS
    && (c.place == InRetry1 ==> c.event.attempt == 2)
    && (c.place == InRetry2 ==> c.event.attempt == 3)
    && (c.place == InFlight(AckDue) || c.place == Adrift(AckDue) ==> c.event.attempt < MAX_ATTEMPTS)
  }

  ghost predicate ShapesOk(s: Copies) {
    forall c :: c in s ==> ShapeOk(s[c])
  }

  /** What every broker step keeps, given that first publications carry attempt 1:
      retry.1 holds only second attempts, retry.2 only third ones. */
  lemma ShapesKept(s: Copies, m: Move, s': Copies)
    requires ShapesOk(s) && BrokerStep(s, m, s')
    requires m.Publish? ==> m.event.attempt == 1
    ensures ShapesOk(s')
  {
  }

  /** `publish_retry` never sees an attempt other than 2 or 3, and the queue it
      picks is the one for that attempt. */
  lemma RetryNeverRaisesValueError(s: Copies, cid: nat, outcome: ProcessOutcome)
    requires ShapesOk(s) && InPhase(s, cid)
    requires SettlementOf(s[cid].event, outcome).RetryAs?
    ensures var next := SettlementOf(s[cid].event, outcome).next;
            && RetryQueue(next).Some?
            && ShapeOk(Copy(next, RetryQueue(next).value))
            && next.attempt == s[cid].event.attempt + 1
  {
  }

  // ----- no copy is stuck ----------------------------------------------------------------------

  /** Every copy outside the dead-letter queue has its next step: a delivery from
      payments.new, the expiry in a retry queue, the settlement of a finished handling.
      And each step leads where it should. */
  lemma CopiesMove(s: Copies, c: nat)
    requires ShapesOk(s) && c in s
    ensures s[c].place == InNew ==> BrokerStep(s, Deliver(c), s[c := Copy(s[c].event, InFlight(Received))])
    ensures s[c].place == InRetry1 || s[c].place == InRetry2 ==>
              BrokerStep(s, Expire(c), s[c := Copy(s[c].event, InNew)])
    ensures s[c].place == InFlight(Finished(Done)) || s[c].place == Adrift(Finished(Done)) ==>
              BrokerStep(s, Settle(c), s - {c})
    ensures s[c].place == InFlight(Finished(PermanentFailure)) ==>
              BrokerStep(s, Settle(c), s[c := Copy(s[c].event, InDlq)])
    ensures s[c].place == InFlight(AckDue) || s[c].place == Adrift(AckDue) || s[c].place == Adrift(NackDue) ==>
              BrokerStep(s, if s[c].place.phase == AckDue then Ack(c) else Nack(c), s - {c})
    ensures s[c].place == InFlight(NackDue) ==> BrokerStep(s, Nack(c), s[c := Copy(s[c].event, InNew)])
    ensures s[c].place.InFlight? ==> BrokerStep(s, Crash(c), s[c := Copy(s[c].event, InNew)])
  {
  }

  /** A handling that failed, but not for good: after the third attempt the event can go to
      the dead-letter queue; before that it can be published anew, with the next attempt, to
      retry.1 and retry.2 in turn, whereupon it is acknowledged if that was confirmed and
      requeued if it raised. */
  lemma FailedCopiesMove(s: Copies, c: nat, copyId: nat, fate: PublishFate)
    requires ShapesOk(s) && c in s && copyId !in s
    requires s[c].place == InFlight(Finished(RetryableFailure)) || s[c].place == InFlight(Finished(UnexpectedFailure))
    ensures s[c].event.attempt == 3 ==> BrokerStep(s, Settle(c), s[c := Copy(s[c].event, InDlq)])
    ensures s[c].event.attempt < 3 ==>
              var next := s[c].event.(attempt := s[c].event.attempt + 1);
              var settled := s[c := Copy(s[c].event, InFlight(if fate == Confirmed then AckDue else NackDue))];
              BrokerStep(s, Retry(c, copyId, fate),
                         if fate == RaisedLost then settled
                         else settled[copyId := Copy(next, if next.attempt == 2 then InRetry1 else InRetry2)])
  {
    assert ShapeOk(s[c]);
  }
}
