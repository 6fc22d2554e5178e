/** Handling one delivery: validate, process, settle. */
module Consumer {
  import opened Model
  import opened Broker

  /** What the handler does to the broker, in order. */
  datatype Effect =
    | Published(event: Envelope, queue: Place, fate: PublishFate)
    | Acked
    | Nacked
    | Rejected

  predicate Settles(e: Effect) {
    !e.Published?
  }

  class Channel {
    var effects: seq<Effect>

    constructor ()
      ensures effects == []
    {
      effects := [];
    }

    method Do(effect: Effect)
      modifies this
      ensures effects == old(effects) + [effect]
    {
      effects := effects + [effect];
    }
  }

  class RabbitEventPublisher {
    const channel: Channel

    constructor (channel: Channel)
      ensures this.channel == channel
    {
      this.channel := channel;
    }

    /** False stands for an exception: a ValueError before anything is sent, or a publish
        that raises. */
    method PublishRetry(event: Envelope, fate: PublishFate) returns (ok: bool)
      modifies channel
      ensures ok <==> RetryQueue(event).Some? && fate == Confirmed
      ensures channel.effects == old(channel.effects)
                + if RetryQueue(event).Some? then [Published(event, RetryQueue(event).value, fate)] else []
    {
      var queue := InRetry1;
      if event.attempt == 2 {
        queue := InRetry1;
      } else if event.attempt == 3 {
        queue := InRetry2;
      } else {
        return false;
      }
      channel.Do(Published(event, queue, fate));
      return fate == Confirmed;
    }
  }

  /** What a delivery with this body and this outcome comes to on the broker. */
  function EffectsOf(body: Option<Envelope>, outcome: ProcessOutcome, fate: PublishFate): seq<Effect> {
    if body.None? then [Rejected]
    else match SettlementOf(body.value, outcome)
      case AckNow => [Acked]
      case RejectNow => [Rejected]
      case RetryAs(next) =>
        if RetryQueue(next).None? then [Nacked]
        else [Published(next, RetryQueue(next).value, fate), if fate == Confirmed then Acked else Nacked]
  }

  class PaymentQueueConsumer {
    const channel: Channel
    const publisher: RabbitEventPublisher

    constructor (channel: Channel)
      ensures this.channel == channel && publisher.channel == channel
    {
      this.channel := channel;
      publisher := new RabbitEventPublisher(channel);
    }

    /** `body` is None when it does not validate; `outcome` is how the processor ended. */
    method Handle(body: Option<Envelope>, outcome: ProcessOutcome, fate: PublishFate)
      requires publisher.channel == channel
      modifies channel
      ensures channel.effects == old(channel.effects) + EffectsOf(body, outcome, fate)
    {
      if body == None {
        channel.Do(Rejected);
        return;
      }
      match outcome {
        case Done => channel.Do(Acked);
        case PermanentFailure => channel.Do(Rejected);
        case RetryableFailure => RetryOrReject(body.value, fate);
        case UnexpectedFailure => RetryOrReject(body.value, fate);
      }
    }

    method RetryOrReject(event: Envelope, fate: PublishFate)
      requires publisher.channel == channel
      modifies channel
      ensures channel.effects == old(channel.effects) + EffectsOf(Some(event), RetryableFailure, fate)
    {
      if event.attempt >= MAX_ATTEMPTS {
        channel.Do(Rejected);
        return;
      }
      var next := event.(attempt := event.attempt + 1);
      var ok := publisher.PublishRetry(next, fate);
      if !ok {
        channel.Do(Nacked);
        return;
      }
      channel.Do(Acked);
    }
  }

  // ----- what the effects amount to ------------------------------------------------------------

  /** Every delivery is settled exactly once, as the last thing that happens; it is
      acknowledged only if processing is done or a retry copy is confirmed, and then
      that copy carries the next attempt and lies in the queue for it. */
  lemma SettledOnce(body: Option<Envelope>, outcome: ProcessOutcome, fate: PublishFate)
    ensures var effects := EffectsOf(body, outcome, fate);
            && effects != []
            && (forall i :: 0 <= i < |effects| ==> (Settles(effects[i]) <==> i == |effects| - 1))
            && (effects[|effects| - 1] == Acked ==>
                  && body.Some?
                  && (outcome == Done
                      || (|effects| == 2 && effects[0].Published? && effects[0].fate == Confirmed
                          && effects[0].event == body.value.(attempt := body.value.attempt + 1)
                          && RetryQueue(effects[0].event) == Some(effects[0].queue)
                          && body.value.attempt < MAX_ATTEMPTS)))
            && (effects[|effects| - 1] == Nacked ==> body.Some? && outcome != Done && outcome != PermanentFailure)
            && (body.Some? && outcome == PermanentFailure ==> effects == [Rejected])
  {
  }

  /** When a delivery is done, retried and rejected: an event whose processing is done is
      acknowledged and nothing else; one that fails for good, or for the third time, or is
      not an event at all, is rejected and nothing else; any other failure first publishes
      the event with the next attempt, to retry.1 after the first failure and to retry.2
      after the second, and then acknowledges if that is confirmed and requeues if not. */
  lemma FailureDecides(event: Envelope, outcome: ProcessOutcome, fate: PublishFate)
    requires 1 <= event.attempt <= 3
    ensures EffectsOf(None, outcome, fate) == [Rejected]
    ensures var effects := EffectsOf(Some(event), outcome, fate);
            && (effects == [Acked] <==> outcome == Done)
            && (effects == [Rejected] <==>
                  outcome == PermanentFailure
                  || (event.attempt == 3 && (outcome == RetryableFailure || outcome == UnexpectedFailure)))
            && (event.attempt < 3 && (outcome == RetryableFailure || outcome == UnexpectedFailure) ==>
                  effects == [Published(event.(attempt := event.attempt + 1),
                                        if event.attempt == 1 then InRetry1 else InRetry2, fate),
                              if fate == Confirmed then Acked else Nacked])
  {
  }

  /** The effect of the handler's actions on the queues: `cid` is the delivered copy,
      `copyId` the id of a copy it may publish. */
  function Perform(s: Copies, cid: nat, copyId: nat, e: Effect): Copies {
    match e
    case Published(event, queue, fate) => if fate == RaisedLost then s else s[copyId := Copy(event, queue)]
    case Acked => s - {cid}
    case Nacked => if cid in s then SentBack(s, cid, InNew) else s
    case Rejected => if cid in s then SentBack(s, cid, InDlq) else s
  }

  function PerformAll(s: Copies, cid: nat, copyId: nat, effects: seq<Effect>): Copies {
    if effects == [] then s
    else Perform(PerformAll(s, cid, copyId, effects[..|effects| - 1]), cid, copyId, effects[|effects| - 1])
  }

  lemma PerformOne(s: Copies, cid: nat, copyId: nat, e: Effect)
    ensures PerformAll(s, cid, copyId, [e]) == Perform(s, cid, copyId, e)
  {
  }

  lemma PerformTwo(s: Copies, cid: nat, copyId: nat, d: Effect, e: Effect)
    ensures PerformAll(s, cid, copyId, [d, e]) == Perform(Perform(s, cid, copyId, d), cid, copyId, e)
  {
    assert [d, e][..|[d, e]| - 1] == [d];
    PerformOne(s, cid, copyId, d);
  }

  /** The handler refines the broker steps of the system: its effects are one Settle, or
      a Retry followed by an Ack or a Nack. */
  lemma HandlerRefinesSteps(s: Copies, cid: nat, copyId: nat, outcome: ProcessOutcome, fate: PublishFate)
    requires InPhase(s, cid) && s[cid].place.phase == Finished(outcome) && copyId !in s
    ensures var s' := PerformAll(s, cid, copyId, EffectsOf(Some(s[cid].event), outcome, fate));
            || BrokerStep(s, Settle(cid), s')
            || exists mid :: BrokerStep(s, Retry(cid, copyId, fate), mid)
                 && (BrokerStep(mid, Ack(cid), s') || BrokerStep(mid, Nack(cid), s'))
  {
    var event := s[cid].event;
    var effects := EffectsOf(Some(event), outcome, fate);
    var s' := PerformAll(s, cid, copyId, effects);
    var settlement := SettlementOf(event, outcome);
    if settlement.RetryAs? {
      var mid := AfterRetry(s, cid, copyId, settlement.next, fate);
      assert BrokerStep(s, Retry(cid, copyId, fate), mid);
      RetryEffects(s, cid, copyId, settlement.next, fate);
    } else {
      PerformOne(s, cid, copyId, effects[0]);
      assert BrokerStep(s, Settle(cid), s');
    }
  }

  lemma RetryEffects(s: Copies, cid: nat, copyId: nat, next: Envelope, fate: PublishFate)
    requires InPhase(s, cid) && s[cid].place.phase.Finished? && copyId !in s
    requires SettlementOf(s[cid].event, s[cid].place.phase.outcome) == RetryAs(next)
    ensures var effects := EffectsOf(Some(s[cid].event), s[cid].place.phase.outcome, fate);
            var mid := AfterRetry(s, cid, copyId, next, fate);
            var s' := PerformAll(s, cid, copyId, effects);
            BrokerStep(mid, Ack(cid), s') || BrokerStep(mid, Nack(cid), s')
  {
    var effects := EffectsOf(Some(s[cid].event), s[cid].place.phase.outcome, fate);
    var mid := AfterRetry(s, cid, copyId, next, fate);
    hide PerformAll, SettlementOf;
    if RetryQueue(next).None? {
      PerformOne(s, cid, copyId, effects[0]);
    } else {
      PerformTwo(s, cid, copyId, effects[0], effects[1]);
    }
    HandlerGone(s, mid, cid, copyId);
  }

  /** Removing or returning the copy comes to the same before and after its last phase. */
  lemma HandlerGone(s: Copies, mid: Copies, cid: nat, copyId: nat)
    requires InPhase(s, cid) && InPhase(mid, cid) && copyId != cid && mid[cid].event == s[cid].event
    requires mid[cid].place.Adrift? == s[cid].place.Adrift?
    requires mid.Keys == s.Keys || mid.Keys == s.Keys + {copyId}
    requires forall c :: c in s && c != cid ==> c in mid && mid[c] == s[c]
    ensures copyId !in mid || copyId in s ==>
              mid - {cid} == s - {cid} && SentBack(mid, cid, InNew) == SentBack(s, cid, InNew)
    ensures copyId in mid ==>
              && mid - {cid} == s[copyId := mid[copyId]] - {cid}
              && SentBack(mid, cid, InNew) == SentBack(s[copyId := mid[copyId]], cid, InNew)
  {
  }
}
