/** What no step ever undoes: payment rows only move forward, outbox rows and
    provider records are never rewritten. */
module Evolution {
  import opened Model
  import opened Selection
  import opened Transactions
  import opened Broker
  import opened System
  import opened Invariant
  import opened Preservation

  ghost predicate Evolves(s: State, s': State) {
    && RowsEvolve(s.db.rows, s'.db.rows)
    && OutboxEvolves(s.db.outbox, s'.db.outbox)
    && RecordsEvolve(s.records, s'.records)
  }

  ghost predicate DbEvolves(db: Db, db': Db) {
    RowsEvolve(db.rows, db'.rows) && OutboxEvolves(db.outbox, db'.outbox)
  }

  lemma StepEvolves(s: State, step: Step, s': State)
    requires CoreOk(s) && Next(s, step, s')
    ensures Evolves(s, s')
  {
    hide CoreOk, RowEvolves, RowsEvolve, OutboxEvolves, RecordsEvolve, ApiNext, RelayNext, WorkNext,
         ReconcileNext, BrokerStep;
    Same(s);
    match step
    case ApiDoes(a) => ApiEvolves(s, a, s');
    case RelayDoes(a) => RelayEvolves(s, a, s');
    case BrokerDoes(m) =>
    case WorkerDoes(a) => WorkEvolves(s, a, s');
    case ProviderServes(request, answer) => ServeKeepsRecords(s.records, request, answer);
    case ReconcilerDoes(a) => ReconcileEvolves(s, a, s');
  }

  lemma ServeKeepsRecords(records: map<Uuid, Record>, request: ProviderRequest, answer: ProviderResponse)
    ensures RecordsEvolve(records, MockProvider.Serve(records, request, answer))
  {
  }

  lemma ApiEvolves(s: State, a: ApiStep, s': State)
    requires ApiNext(s, a, s')
    ensures Evolves(s, s')
  {
    hide RowsEvolve, OutboxEvolves, RecordsEvolve, ApiNext, CreatePayment;
    Same(s);
    ApiFrame(s, a, s');
    if s'.db != s.db {
      CreationEvolves(s.db, a.pid, a.eid, s.calls[a.call].key, s.calls[a.call].data, a.occurredAt, a.at);
    }
  }

  lemma CreationEvolves(db: Db, pid: Uuid, eid: Uuid, key: string, data: PaymentData, occurredAt: Time, at: Time)
    requires pid !in db.rows && eid !in db.outbox
    ensures var next := CreatePayment(db, pid, eid, key, data, occurredAt, at);
            next.Some? ==> DbEvolves(db, next.value)
  {
  }

  lemma RelayEvolves(s: State, a: RelayStep, s': State)
    requires RelayNext(s, a, s')
    ensures Evolves(s, s')
  {
  }

  lemma TransactionsEvolve(db: Db, pid: Uuid, budget: nat, at: Time)
    requires pid in db.rows ==> RowOk(db.rows[pid], budget)
    ensures DbEvolves(db, MarkUnknown(db, pid, at).0)
    ensures forall eid, now :: DbEvolves(db, MarkSent(db, pid, eid, now, at).0)
    ensures forall token, now, until ::
              RowsEvolve(db.rows, RenewLease(db.rows, pid, token, now, until, at).0)
  {
  }

  lemma SettlingEvolves(db: Db, pid: Uuid, budget: nat, answer: ProviderResponse, wid: Uuid,
                        processedAt: Time, at: Time)
    requires pid in db.rows ==> RowOk(db.rows[pid], budget)
    requires wid !in db.outbox
    ensures DbEvolves(db, ApplyProviderResult(db, pid, answer, wid, processedAt, at).0)
  {
  }

  lemma ResolutionEvolves(db: Db, pid: Uuid, token: Uuid, answer: Option<ProviderResponse>, budget: nat,
                          now: Time, wid: Uuid, processedAt: Time, createdAt: Time, at: Time)
    requires pid in db.rows ==> RowOk(db.rows[pid], budget)
    requires wid !in db.outbox
    ensures DbEvolves(db, PersistResolution(db, pid, token, answer, budget, now, wid,
                                            processedAt, createdAt, at).0)
  {
  }

  lemma KnownRow(s: State, pid: Uuid)
    requires CoreOk(s)
    ensures pid in s.db.rows ==> RowOk(s.db.rows[pid], s.budget)
  {
  }

  lemma WorkEvolves(s: State, a: WorkStep, s': State)
    requires CoreOk(s) && WorkNext(s, a, s')
    ensures Evolves(s, s')
  {
    hide CoreOk, RowOk, RowEvolves, RowsEvolve, OutboxEvolves, RecordsEvolve, AfterLoad, AfterPost, AfterTx,
         MarkUnknown, ApplyProviderResult, MarkSent;
    Same(s);
    var pid := s.copies[a.cid].event.paymentId;
    KnownRow(s, pid);
    match a
    case Unknowing(_, at, _) => TransactionsEvolve(s.db, pid, s.budget, at);
    case Sent(_, _, at, _) => TransactionsEvolve(s.db, pid, s.budget, at);
    case Apply(_, wid, processedAt, at, _) =>
      SettlingEvolves(s.db, pid, s.budget, PhaseAt(s, a.cid).answer, wid, processedAt, at);
    case _ =>
  }

  lemma ReconcileEvolves(s: State, a: ReconcileStep, s': State)
    requires CoreOk(s) && ReconcileNext(s, a, s')
    ensures Evolves(s, s')
  {
    hide CoreOk, RowOk, RowEvolves, RowsEvolve, OutboxEvolves, RecordsEvolve, RenewLease, PersistResolution,
         IsFirst, ClaimRows;
    Same(s);
    match a
    case Claim(_, _, _, _, _, _, _, _) =>
      ClaimedCore(s, a, Elements(a.batch), s');
    case Renew(t, _, _, at, _) =>
      KnownRow(s, t.pid);
      TransactionsEvolve(s.db, t.pid, s.budget, at);
    case Persist(t, now, wid, processedAt, createdAt, at) =>
      KnownRow(s, t.pid);
      ResolutionEvolves(s.db, t.pid, t.token, s.tasks[t].answer, s.budget, now, wid,
                        processedAt, createdAt, at);
    case _ =>
  }

  lemma EvolvesTwice(s: State, t: State, u: State)
    requires Evolves(s, t) && Evolves(t, u)
    ensures Evolves(s, u)
  {
  }

  /** From any state of a run to any later one. */
  lemma {:induction false} RunEvolves(states: seq<State>, steps: seq<Step>, i: nat, j: nat)
    requires IsRun(states, steps) && i <= j < |states|
    ensures Evolves(states[i], states[j])
  {
    hide Next, CoreOk, FlightOk, RowsEvolve, OutboxEvolves, RecordsEvolve, Init;
    if i == j {
      Same(states[i]);
    } else {
      RunEvolves(states, steps, i, j - 1);
      RunKeeps(states, steps, j - 1);
      StepEvolves(states[j - 1], steps[j - 1], states[j]);
      EvolvesTwice(states[i], states[j - 1], states[j]);
    }
  }

  lemma Same(s: State)
    ensures Evolves(s, s)
  {
  }
}
