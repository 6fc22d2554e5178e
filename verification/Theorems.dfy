/** What holds in every run of the whole system. */
module Theorems {
  import opened Model
  import opened Transactions
  import opened Broker
  import opened RetryBound
  import opened System
  import opened Invariant
  import opened Preservation
  import opened Evolution
  import opened Exclusivity
  import ProviderClient

  // ----- no work is lost --------------------------------------------------------------------

  /** The event still waits in the outbox, or some copy of it lies in payments.new, in a
      retry queue, in the dead-letter queue, or with a consumer that will not drop it. */
  ghost predicate Waiting(s: State, e: Uuid, kind: EventKind, pid: Uuid) {
    && e in s.db.outbox && s.db.outbox[e].kind == kind && s.db.outbox[e].paymentId == pid
    && (s.db.outbox[e].publishedAt.None? || HasCopy(s.copies, e))
  }

  /** A pending payment still has its process event; a final one whose webhook was not
      marked sent still has its webhook event; an unknown one is left to manual review or
      a reconciler's claim can take it, the step being enabled on every clock on which it
      is stale and its lease, if any, has run out. */
  lemma NoLostWork(states: seq<State>, steps: seq<Step>, k: nat, pid: Uuid)
    requires IsRun(states, steps) && k < |states| && pid in states[k].db.rows
    ensures var s := states[k]; var r := s.db.rows[pid];
            && pid in s.origin
            && (r.status == Pending ==> Waiting(s, s.origin[pid].eid, ProcessRequested, pid))
            && (Terminal(r.status) && r.sentAt.None? ==>
                  r.webhookId.Some? && Waiting(s, r.webhookId.value, WebhookRequested, pid))
            && (r.status == Unknown ==>
                  || r.review
                  || forall stale, now :: r.updatedAt <= stale && (r.leaseUntil.Some? ==> r.leaseUntil.value <= now)
                       ==> CanBeTaken(s, pid, stale, now))
  {
    hide Next, Init, OutboxRowOk, RecordsOk, PostsOk, IndexOk, CopiesOk, RelaysOk, CallsOk, TasksOk, LogOk,
         LeasesOk, WebhooksOk, HasCopy;
    RunKeeps(states, steps, k);
    var s := states[k];
    var r := s.db.rows[pid];
    assert EventsOk(pid, r, s.db.outbox, s.origin) && RowOk(r, s.budget);
    PayloadNames(s, s.origin[pid].eid);
    if Terminal(r.status) {
      PayloadNames(s, r.webhookId.value);
    }
    hide CanBeTaken;
    forall stale, now
      ensures CanBeTaken(s, pid, stale, now) <==> Claimable(r, stale, now)
    {
      TakenIffClaimable(s, pid, stale, now);
    }
  }

  lemma PayloadNames(s: State, e: Uuid)
    requires CoreOk(s) && e in s.db.outbox
    ensures s.db.outbox[e].payload.paymentId == s.db.outbox[e].paymentId
    ensures s.db.outbox[e].payload.kind == s.db.outbox[e].kind
  {
  }

  // ----- the provider and the database agree --------------------------------------------------

  /** A final status and provider id are those of the provider's one record for the
      payment, and that record is for this payment's own amount and currency. */
  lemma ProviderAgreement(states: seq<State>, steps: seq<Step>, k: nat, pid: Uuid)
    requires IsRun(states, steps) && k < |states| && pid in states[k].db.rows
    ensures var s := states[k]; var r := s.db.rows[pid];
            Terminal(r.status) ==>
              && pid in s.records
              && s.records[pid].request == RequestFor(pid, r)
              && s.records[pid].request.paymentId == pid
              && s.records[pid].request.amount == r.data.amount && s.records[pid].request.currency == r.data.currency
              && (r.status == Succeeded <==> s.records[pid].response.status == Approved)
              && (r.status == Failed <==> s.records[pid].response.status == Declined)
              && r.providerId == Some(s.records[pid].response.providerPaymentId)
  {
    hide Next, Init, FlightOk, OutboxOk, PostsOk, IndexOk, RowOk, EventsOk;
    RunKeeps(states, steps, k);
    assert AgreesOk(pid, states[k].db.rows[pid], states[k].records);
    if pid in states[k].records {
      assert RecordOk(pid, states[k].records[pid], states[k].db.rows);
    }
  }

  /** Two final payments never share a provider payment. */
  lemma ProviderPaymentsDistinct(states: seq<State>, steps: seq<Step>, k: nat, p: Uuid, q: Uuid)
    requires IsRun(states, steps) && k < |states|
    requires p in states[k].db.rows && q in states[k].db.rows && p != q
    requires Terminal(states[k].db.rows[p].status) && Terminal(states[k].db.rows[q].status)
    ensures states[k].db.rows[p].providerId != states[k].db.rows[q].providerId
  {
    hide Next, Init, FlightOk, OutboxOk, PostsOk, IndexOk, RowOk, EventsOk, RecordOk;
    RunKeeps(states, steps, k);
    assert AgreesOk(p, states[k].db.rows[p], states[k].records);
    assert AgreesOk(q, states[k].db.rows[q], states[k].records);
  }

  /** Whatever the workers posted is for an existing payment, its amount and currency, and
      the provider's 409 branch (key known with another
      payload) is never taken, now or for a request still to be served. */
  lemma ProviderNeverConflicts(states: seq<State>, steps: seq<Step>, k: nat, request: ProviderRequest)
    requires IsRun(states, steps) && k < |states| && request in states[k].posts
    ensures request.paymentId in states[k].db.rows
    ensures var data := states[k].db.rows[request.paymentId].data;
            request.amount == data.amount && request.currency == data.currency
    ensures request.paymentId in states[k].records ==> states[k].records[request.paymentId].request == request
  {
    hide Next, Init, FlightOk, OutboxOk, RowsOk, IndexOk;
    RunKeeps(states, steps, k);
    assert PostOk(states[k].db.rows, request);
    if request.paymentId in states[k].records {
      assert RecordOk(request.paymentId, states[k].records[request.paymentId], states[k].db.rows);
    }
  }

  /** Every POST the client makes for a request the system posted passes the provider's
      checks: never the 422 branch (key and payment differ), nor the 409 branch. */
  lemma WorkerNeverRefused(states: seq<State>, steps: seq<Step>, k: nat,
                           c: ProviderClient.Config, data: ProviderRequest, started: real,
                           turns: seq<ProviderClient.Turn>, posts: seq<ProviderClient.Post>, sleeps: seq<real>,
                           outcome: ProviderClient.Outcome, ended: real, i: nat, scenario: MockProvider.Scenario)
    requires IsRun(states, steps) && k < |states| && data in states[k].posts
    requires |turns| == c.maxAttempts
    requires ProviderClient.CallOk(c, data, started, turns, posts, sleeps, outcome, ended) && i < |posts|
    ensures MockProvider.Refusal(posts[i].request, posts[i].key, scenario) != Some(MockProvider.KeyMismatch)
    ensures posts[i].request.paymentId in states[k].records ==>
              states[k].records[posts[i].request.paymentId].request == posts[i].request
  {
    ProviderNeverConflicts(states, steps, k, data);
    hide IsRun, ProviderClient.CallOk;
    ProviderClient.TraceShape(c, data, started, turns, posts, sleeps, outcome, ended);
  }

  // ----- the status machine ------------------------------------------------------------------------

  /** Between any two moments of a run a payment only moves forward; once final, its
      result never changes; once its webhook is marked sent or it is left to manual
      review, nothing about it changes; and what the client sees never goes back. */
  lemma StatusMachine(states: seq<State>, steps: seq<Step>, i: nat, j: nat, pid: Uuid)
    requires IsRun(states, steps) && i <= j < |states| && pid in states[i].db.rows
    ensures pid in states[j].db.rows
    ensures var r := states[i].db.rows[pid]; var r' := states[j].db.rows[pid];
            && r'.data == r.data && r'.key == r.key
            && MayBecome(r.status, r'.status)
            && (r'.status == Pending ==> r.status == Pending)
            && (r.status == Succeeded || r.status == Failed ==>
                  && r'.status == r.status && r'.providerId == r.providerId
                  && r'.processedAt == r.processedAt && r'.webhookId == r.webhookId)
            && (r.sentAt.Some? || r.review ==> r' == r)
            && (ToPublic(r.status) != PublicPending ==> ToPublic(r'.status) == ToPublic(r.status))
  {
    hide Next, Init, OutboxEvolves, RecordsEvolve;
    RunEvolves(states, steps, i, j);
    assert RowEvolves(states[i].db.rows[pid], states[j].db.rows[pid]);
  }

  /** What a client sees is what the provider did: success is shown exactly for a payment
      the provider approved and the service has settled, failure for one it declined, and
      until then the payment is shown as pending. */
  lemma PublicStatusTruthful(states: seq<State>, steps: seq<Step>, k: nat, pid: Uuid)
    requires IsRun(states, steps) && k < |states| && pid in states[k].db.rows
    ensures var r := states[k].db.rows[pid]; var records := states[k].records;
            match ToPublic(r.status)
            case PublicPending => r.processedAt.None?
            case PublicSucceeded => r.processedAt.Some? && pid in records && records[pid].response.status == Approved
            case PublicFailed => r.processedAt.Some? && pid in records && records[pid].response.status == Declined
  {
    ProviderAgreement(states, steps, k, pid);
    OneEventOfEachKind(states, steps, k, pid, 0);
    hide IsRun;
  }

  /** The provider's records are write-once over a run. */
  lemma RecordsWriteOnce(states: seq<State>, steps: seq<Step>, i: nat, j: nat, k: Uuid)
    requires IsRun(states, steps) && i <= j < |states| && k in states[i].records
    ensures k in states[j].records && states[j].records[k] == states[i].records[k]
  {
    hide Next, Init, OutboxEvolves, RowsEvolve;
    RunEvolves(states, steps, i, j);
  }

  /** A payment has exactly one process event; it has exactly one webhook event when it
      is final and none before, and that event's id is the stored one. */
  lemma OneEventOfEachKind(states: seq<State>, steps: seq<Step>, k: nat, pid: Uuid, e: Uuid)
    requires IsRun(states, steps) && k < |states| && pid in states[k].db.rows
    ensures var s := states[k]; var r := s.db.rows[pid];
            && pid in s.origin
            && (e in s.db.outbox && s.db.outbox[e].kind == ProcessRequested && s.db.outbox[e].paymentId == pid
                <==> e == s.origin[pid].eid)
            && (e in s.db.outbox && s.db.outbox[e].kind == WebhookRequested && s.db.outbox[e].paymentId == pid
                <==> r.webhookId == Some(e))
            && (Terminal(r.status) <==> r.webhookId.Some? && r.providerId.Some? && r.processedAt.Some?)
            && (Terminal(r.status) <==> r.webhookId.Some? || r.providerId.Some? || r.processedAt.Some?)
  {
    hide Next, Init, FlightOk, RecordsOk, PostsOk, IndexOk, AgreesOk;
    RunKeeps(states, steps, k);
    var s := states[k];
    assert RowOk(s.db.rows[pid], s.budget) && EventsOk(pid, s.db.rows[pid], s.db.outbox, s.origin);
    if e in s.db.outbox {
      assert OutboxRowOk(e, s.db.outbox[e], s.db.rows, s.origin);
    }
  }

  // ----- webhooks -------------------------------------------------------------------------------------

  /** For events that came through the outbox no permanent-error branch of
      `_load_delivery` or `_mark_sent` is ever taken. */
  lemma WebhookErrorsUnreachable(states: seq<State>, steps: seq<Step>, k: nat, cid: nat, now: Time, at: Time)
    requires IsRun(states, steps) && k < |states| && cid in states[k].copies
    requires states[k].copies[cid].event.kind == WebhookRequested
    ensures var s := states[k]; var event := s.copies[cid].event;
            && LoadDelivery(s.db.rows, event) != BadEvent
            && MarkSent(s.db, event.paymentId, event.eventId, now, at).1 != PermanentError
  {
    hide Next, Init, RowsOk, OutboxOk, RecordsOk, PostsOk, IndexOk, FlightOk;
    RunKeeps(states, steps, k);
    EventKnown(states[k], cid);
  }

  /** All webhook requests ever sent for one payment carry the same URL, event id and
      payload, and they match the payment as it stands. */
  lemma WebhooksConsistent(states: seq<State>, steps: seq<Step>, k: nat, i: nat, j: nat)
    requires IsRun(states, steps) && k < |states|
    requires i < |states[k].webhooks| && j < |states[k].webhooks|
    requires states[k].webhooks[i].pid == states[k].webhooks[j].pid
    ensures var s := states[k]; var w := s.webhooks[i]; var x := s.webhooks[j];
            && w.delivery == x.delivery && w.eventId == x.eventId
            && w.pid in s.db.rows && w.delivery.url == s.db.rows[w.pid].data.url
            && w.delivery.payload.eventId == w.eventId && Some(w.eventId) == s.db.rows[w.pid].webhookId
            && w.delivery.payload.status == s.db.rows[w.pid].status
            && (w.delivery.payload.eventType == PaymentSucceeded <==> s.db.rows[w.pid].status == Succeeded)
            && w.delivery.payload.paymentId == w.pid
            && w.delivery.payload.amount == s.db.rows[w.pid].data.amount
            && w.delivery.payload.currency == s.db.rows[w.pid].data.currency
            && w.delivery.payload.metadata == s.db.rows[w.pid].data.metadata
            && Some(w.delivery.payload.processedAt) == s.db.rows[w.pid].processedAt
  {
    hide Next, Init, CoreOk, CopiesOk, SentOk, RelaysOk, CallsOk, TasksOk, LogOk, LeasesOk;
    RunKeeps(states, steps, k);
    assert WebhookOk(states[k].db.rows, states[k].webhooks[i]);
    assert WebhookOk(states[k].db.rows, states[k].webhooks[j]);
  }

  // ----- the dead-letter queue -----------------------------------------------------------------

  /** The only ways into the dead-letter queue, in every run: the handling of the event
      failed for good, or it failed for the third time. */
  lemma DeadLetters(states: seq<State>, steps: seq<Step>, k: nat, cid: nat)
    requires IsRun(states, steps) && k < |steps|
    requires cid in states[k + 1].copies && states[k + 1].copies[cid].place == InDlq
    requires !(cid in states[k].copies && states[k].copies[cid].place == InDlq)
    ensures steps[k] == BrokerDoes(Settle(cid))
    ensures cid in states[k].copies && states[k].copies[cid].place.InFlight?
    ensures var c := states[k].copies[cid];
            && states[k + 1].copies[cid].event == c.event && c.place.phase.Finished?
            && var outcome := c.place.phase.outcome;
               || outcome == PermanentFailure
               || (c.event.attempt == 3 && (outcome == RetryableFailure || outcome == UnexpectedFailure))
  {
    hide Next, Init, Inv;
    RunKeeps(states, steps, k);
    ShapesOfCopies(states[k]);
    IntoDlq(states[k], steps[k], states[k + 1], cid);
  }

  lemma IntoDlq(s: State, step: Step, s': State, cid: nat)
    requires Inv(s) && ShapesOk(s.copies) && Next(s, step, s')
    requires cid in s'.copies && s'.copies[cid].place == InDlq
    requires !(cid in s.copies && s.copies[cid].place == InDlq)
    ensures step == BrokerDoes(Settle(cid)) && cid in s.copies && s.copies[cid].place.InFlight?
    ensures var c := s.copies[cid];
            && s'.copies[cid].event == c.event && c.place.phase.Finished?
            && var outcome := c.place.phase.outcome;
               || outcome == PermanentFailure
               || (c.event.attempt == 3 && (outcome == RetryableFailure || outcome == UnexpectedFailure))
  {
    hide Inv, Next, BrokerStep, ShapesOk;
    SystemRefinesBroker(s, step, s');
    var m := MoveOf(s, step);
    if m.Some? {
      MovesIntoDlq(s.copies, m.value, s'.copies, cid);
    } else if s'.copies != s.copies {
      var phase :| BrokerStep(s.copies, Move.Work(step.work.cid, phase), s'.copies);
      MovesIntoDlq(s.copies, Move.Work(step.work.cid, phase), s'.copies, cid);
    }
  }

  lemma MovesIntoDlq(s: Copies, m: Move, s': Copies, cid: nat)
    requires ShapesOk(s) && BrokerStep(s, m, s')
    requires cid in s' && s'[cid].place == InDlq && !(cid in s && s[cid].place == InDlq)
    ensures m == Settle(cid) && cid in s && s[cid].place.InFlight?
    ensures s'[cid].event == s[cid].event && s[cid].place.phase.Finished?
    ensures var outcome := s[cid].place.phase.outcome;
            || outcome == PermanentFailure
            || (s[cid].event.attempt == 3 && (outcome == RetryableFailure || outcome == UnexpectedFailure))
  {
  }

  // ----- retries ------------------------------------------------------------------------------------------

  /** What a step of the system is to the broker; None if the broker sees nothing. */
  function MoveOf(s: State, step: Step): Option<Move> {
    match step
    case BrokerDoes(m) => Some(m)
    case RelayDoes(Send(r, cid)) =>
      if r in s.relays && s.relays[r].done < |s.relays[r].batch|
         && s.relays[r].batch[s.relays[r].done] in s.db.outbox
      then Some(Publish(cid, s.db.outbox[s.relays[r].batch[s.relays[r].done]].payload)) else None
    case RelayDoes(SendFails(r, cid, stored)) =>
      if stored && r in s.relays && s.relays[r].done < |s.relays[r].batch|
         && s.relays[r].batch[s.relays[r].done] in s.db.outbox
      then Some(Publish(cid, s.db.outbox[s.relays[r].batch[s.relays[r].done]].payload)) else None
    case _ => None
  }

  /** Seen from the broker, every step of the system is a broker step, a change of
      phase of one delivered copy, or nothing. */
  lemma SystemRefinesBroker(s: State, step: Step, s': State)
    requires Inv(s) && Next(s, step, s')
    ensures var m := MoveOf(s, step);
            && (m.Some? ==> BrokerStep(s.copies, m.value, s'.copies))
            && (m.Some? && m.value.Publish? ==> m.value.event.attempt == 1)
            && (m.None? && !step.WorkerDoes? ==> s'.copies == s.copies)
            && (step.WorkerDoes? ==>
                  || s'.copies == s.copies
                  || exists phase :: BrokerStep(s.copies, Move.Work(step.work.cid, phase), s'.copies))
  {
    hide FlightOk, CoreOk, ApiNext, RelayNext, WorkNext, ReconcileNext, BrokerStep;
    match step
    case WorkerDoes(a) =>
      WorkRefines(s, a, s');
    case RelayDoes(a) =>
      RelayRefines(s, a, s');
    case ApiDoes(a) =>
      ApiLeavesBroker(s, a, s');
    case ReconcilerDoes(a) =>
      ReconcilerLeavesBroker(s, a, s');
    case _ =>
  }

  lemma ApiLeavesBroker(s: State, a: ApiStep, s': State)
    requires ApiNext(s, a, s')
    ensures s'.copies == s.copies
  {
  }

  lemma ReconcilerLeavesBroker(s: State, a: ReconcileStep, s': State)
    requires ReconcileNext(s, a, s')
    ensures s'.copies == s.copies
  {
  }

  lemma WorkRefines(s: State, a: WorkStep, s': State)
    requires WorkNext(s, a, s')
    ensures || s'.copies == s.copies
            || exists phase :: BrokerStep(s.copies, Move.Work(a.cid, phase), s'.copies)
  {
    hide MarkUnknown, ApplyProviderResult, MarkSent, LoadDelivery, LoadProviderRequest;
    if !a.Post? {
      var phase := s'.copies[a.cid].place.phase;
      assert BrokerStep(s.copies, Move.Work(a.cid, phase), s'.copies);
    }
  }

  lemma RelayRefines(s: State, a: RelayStep, s': State)
    requires CoreOk(s) && RelayNext(s, a, s')
    ensures var m := MoveOf(s, RelayDoes(a));
            && (m.Some? ==> m.value.Publish? && m.value.event.attempt == 1)
            && (m.Some? ==> BrokerStep(s.copies, m.value, s'.copies))
            && (m.None? ==> s'.copies == s.copies)
  {
  }

  /** Sum of a per-move count over the first `k` steps of a run. */
  function Count(states: seq<State>, steps: seq<Step>, k: nat, eid: Uuid,
                 measure: (Copies, Move, Uuid) -> nat): nat
    requires k <= |steps| && |states| == |steps| + 1
  {
    if k == 0 then 0
    else
      var m := MoveOf(states[k - 1], steps[k - 1]);
      Count(states, steps, k - 1, eid, measure)
      + if m.Some? then measure(states[k - 1].copies, m.value, eid) else 0
  }

  lemma ShapesOfCopies(s: State)
    requires Inv(s)
    ensures ShapesOk(s.copies)
  {
  }

  /** An event published P times, F of whose handlings lost their worker or connection or
      failed to hand over a retry copy, is handled at most 3P + 3F times, whatever else the system does. */
  lemma {:induction false} HandlingBound(states: seq<State>, steps: seq<Step>, k: nat, eid: Uuid)
    requires IsRun(states, steps) && k <= |steps|
    ensures ShapesOk(states[k].copies)
    ensures Count(states, steps, k, eid, Handles)
         <= 3 * Count(states, steps, k, eid, Publishes) + 3 * Count(states, steps, k, eid, Faults)
    ensures Count(states, steps, k, eid, Handles) + Potential(states[k].copies, eid)
         <= 3 * Count(states, steps, k, eid, Publishes) + 3 * Count(states, steps, k, eid, Faults)
  {
    hide Next, CoreOk, FlightOk, ShapesOk, MoveOf, BrokerStep, Handles, Publishes, Faults;
    RunKeeps(states, steps, k);
    ShapesOfCopies(states[k]);
    if k > 0 {
      var s, step, s' := states[k - 1], steps[k - 1], states[k];
      HandlingBound(states, steps, k - 1, eid);
      RunKeeps(states, steps, k - 1);
      SystemStepPays(s, step, s', eid);
    }
  }

  lemma SystemStepPays(s: State, step: Step, s': State, eid: Uuid)
    requires Inv(s) && Next(s, step, s') && ShapesOk(s.copies) && ShapesOk(s'.copies)
    ensures var m := MoveOf(s, step);
            && (m.Some? ==>
                  Handles(s.copies, m.value, eid) + Potential(s'.copies, eid)
                    <= Potential(s.copies, eid) + 3 * Publishes(s.copies, m.value, eid)
                     + 3 * Faults(s.copies, m.value, eid))
            && (m.None? ==> Potential(s'.copies, eid) <= Potential(s.copies, eid))
  {
    hide Next, Inv, ShapesOk, BrokerStep, Handles, Publishes, Faults;
    SystemRefinesBroker(s, step, s');
    var m := MoveOf(s, step);
    if m.Some? {
      StepPays(s.copies, m.value, s'.copies, eid);
    } else if s'.copies != s.copies {
      var phase :| BrokerStep(s.copies, Move.Work(step.work.cid, phase), s'.copies);
      WorkIsFree(s.copies, step.work.cid, phase, s'.copies, eid);
    }
  }

  lemma WorkIsFree(s: Copies, cid: nat, phase: Phase, s': Copies, eid: Uuid)
    requires ShapesOk(s) && ShapesOk(s') && BrokerStep(s, Move.Work(cid, phase), s')
    ensures Potential(s', eid) <= Potential(s, eid)
  {
    PotentialChanged(s, eid, cid, s'[cid]);
  }

  /** F never counts a handling twice: the faults of an event are among its handlings. */
  lemma {:induction false} FaultsAreHandlings(states: seq<State>, steps: seq<Step>, k: nat, eid: Uuid)
    requires IsRun(states, steps) && k <= |steps|
    ensures Count(states, steps, k, eid, Faults) + |Sound(states[k].copies, eid)|
         <= Count(states, steps, k, eid, Handles)
  {
    hide Next, Inv, MoveOf, Handles, Faults;
    if k > 0 {
      FaultsAreHandlings(states, steps, k - 1, eid);
      RunKeeps(states, steps, k - 1);
      StepFaultsOnce(states[k - 1], steps[k - 1], states[k], eid);
    } else {
      assert Sound(states[0].copies, eid) == {};
    }
  }

  lemma StepFaultsOnce(s: State, step: Step, s': State, eid: Uuid)
    requires Inv(s) && Next(s, step, s')
    ensures var m := MoveOf(s, step);
            |Sound(s'.copies, eid)| + (if m.Some? then Faults(s.copies, m.value, eid) else 0)
              <= |Sound(s.copies, eid)| + if m.Some? then Handles(s.copies, m.value, eid) else 0
  {
    hide Next, Inv, MoveOf, BrokerStep, Handles, Faults, Sound;
    SystemRefinesBroker(s, step, s');
    var m := MoveOf(s, step);
    if m.Some? {
      SoundSize(s.copies, m.value, s'.copies, eid);
    } else if s'.copies != s.copies {
      var phase :| BrokerStep(s.copies, Move.Work(step.work.cid, phase), s'.copies);
      WorkIsNoFault(s.copies, step.work.cid, phase, eid);
      SoundSize(s.copies, Move.Work(step.work.cid, phase), s'.copies, eid);
    }
  }

  lemma WorkIsNoFault(s: Copies, cid: nat, phase: Phase, eid: Uuid)
    ensures Handles(s, Move.Work(cid, phase), eid) == 0
  {
  }

  lemma SoundSize(s: Copies, m: Move, s': Copies, eid: Uuid)
    requires BrokerStep(s, m, s')
    ensures |Sound(s', eid)| + Faults(s, m, eid) <= |Sound(s, eid)| + Handles(s, m, eid)
  {
    FaultIsOnce(s, m, s', eid);
    hide BrokerStep, Sound;
    if Faults(s, m, eid) == 1 {
      Starvation.SubsetSize(Sound(s', eid), Sound(s, eid) - {m.cid});
    } else {
      Starvation.SubsetSize(Sound(s', eid), Sound(s, eid) + if Handles(s, m, eid) == 1 then {m.cid} else {});
    }
  }
}
