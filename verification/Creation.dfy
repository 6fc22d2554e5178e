/** Concurrent `create_payment` calls behave as if each were one atomic
    get-or-create on a map from idempotency key to payment. */
module Creation {
  import opened Model
  import opened Transactions
  import opened System
  import opened Invariant
  import opened Preservation

  /** What a client could know about a key: the payment and the request behind it. */
  datatype Entry = Entry(pid: Uuid, data: PaymentData)

  ghost function Store(db: Db): map<string, Entry>
    requires IndexOk(db.rows, db.byKey)
  {
    map k | k in db.byKey :: Entry(db.byKey[k], db.rows[db.byKey[k]].data)
  }

  /** The atomic operation.  An error may hide a creation whose commit was not acknowledged. */
  ghost predicate GetOrCreate(before: map<string, Entry>, key: string, data: PaymentData,
                              after: map<string, Entry>, result: CallResult)
  {
    match result
    case Created(pid) => key !in before && after == before[key := Entry(pid, data)]
    case Existing(pid) => after == before && key in before && before[key] == Entry(pid, data)
    case Conflict => after == before && key in before && before[key].data != data
    case Error => after == before || (key !in before && exists pid :: after == before[key := Entry(pid, data)])
    case KeyViolationReraised => false
  }

  ghost predicate Answers(s: State, s': State, c: nat) {
    && c in s.calls && !s.calls[c].phase.Returned?
    && c in s'.calls && s'.calls[c].phase.Returned?
    && s'.calls[c].key == s.calls[c].key && s'.calls[c].data == s.calls[c].data
  }

  /** Call `c` returns, by the atomic operation. */
  ghost predicate AnswersAtomically(s: State, c: nat, s': State)
    requires IndexOk(s.db.rows, s.db.byKey) && IndexOk(s'.db.rows, s'.db.byKey)
  {
    && Answers(s, s', c)
    && s'.calls == s.calls[c := s'.calls[c]]
    && GetOrCreate(Store(s.db), s.calls[c].key, s.calls[c].data, Store(s'.db), s'.calls[c].phase.result)
  }

  /** No call returns and the store stays as it is. */
  ghost predicate Silent(s: State, s': State)
    requires IndexOk(s.db.rows, s.db.byKey) && IndexOk(s'.db.rows, s'.db.byKey)
  {
    && Store(s'.db) == Store(s.db)
    && forall c :: c in s'.calls && s'.calls[c].phase.Returned? ==> c in s.calls && s.calls[c] == s'.calls[c]
  }

  /** Each step either answers one call, and is then the atomic operation with that
      answer, or leaves the store as it is. */
  lemma CreationLinearises(s: State, step: Step, s': State)
    requires Inv(s) && Next(s, step, s')
    ensures IndexOk(s.db.rows, s.db.byKey) && IndexOk(s'.db.rows, s'.db.byKey)
    ensures Silent(s, s') || exists c :: AnswersAtomically(s, c, s')
  {
    hide FlightOk, RowsOk, OutboxOk, RecordsOk, PostsOk, AnswersAtomically, ApiNext, RelayNext, WorkNext, ReconcileNext,
         BrokerMove, ProviderNext, IndexOk, RowsKeepKeys;
    StepKeeps(s, step, s');
    if step.ApiDoes? {
      ApiLinearises(s, step.api, s');
    } else {
      OthersKeepStore(s, step, s');
    }
  }

  ghost predicate RowsKeepKeys(rows: map<Uuid, Row>, rows': map<Uuid, Row>) {
    forall p :: p in rows ==> p in rows' && rows'[p].data == rows[p].data
  }

  lemma OthersKeepStore(s: State, step: Step, s': State)
    requires CoreOk(s) && CoreOk(s') && Next(s, step, s') && !step.ApiDoes?
    ensures s'.calls == s.calls && Store(s'.db) == Store(s.db)
  {
    hide RowsOk, OutboxOk, RecordsOk, PostsOk, RelayNext, WorkNext, ReconcileNext, BrokerMove, ApiNext;
    match step
    case RelayDoes(a) => RelayKeepsKeys(s, a, s');
    case WorkerDoes(a) => WorkKeepsKeys(s, a, s');
    case ReconcilerDoes(a) => ReconcileKeepsKeys(s, a, s');
    case BrokerDoes(m) => BrokerKeepsDb(s, m, s');
    case ProviderServes(request, answer) =>
  }

  lemma BrokerKeepsDb(s: State, m: Broker.Move, s': State)
    requires BrokerMove(s, m, s')
    ensures s'.db == s.db && s'.calls == s.calls
  {
  }

  lemma RelayKeepsKeys(s: State, a: RelayStep, s': State)
    requires RelayNext(s, a, s')
    ensures s'.db.byKey == s.db.byKey && RowsKeepKeys(s.db.rows, s'.db.rows) && s'.calls == s.calls
  {
  }

  lemma WorkKeepsKeys(s: State, a: WorkStep, s': State)
    requires WorkNext(s, a, s')
    ensures s'.db.byKey == s.db.byKey && RowsKeepKeys(s.db.rows, s'.db.rows) && s'.calls == s.calls
  {
    WorkFrame(s, a, s');
    hide WorkNext;
  }

  lemma ReconcileKeepsKeys(s: State, a: ReconcileStep, s': State)
    requires ReconcileNext(s, a, s')
    ensures s'.db.byKey == s.db.byKey && RowsKeepKeys(s.db.rows, s'.db.rows) && s'.calls == s.calls
  {
  }

  lemma ApiLinearises(s: State, a: ApiStep, s': State)
    requires Inv(s) && ApiNext(s, a, s') && IndexOk(s'.db.rows, s'.db.byKey)
    ensures Silent(s, s') || AnswersAtomically(s, a.call, s')
  {
    hide FlightOk, RowsOk, OutboxOk, RecordsOk, PostsOk, GetOrCreate, IndexOk, Resolve;
    if a.Read? || a.Reread? {
      LookupLinearises(s, a, s');
    } else if a.Insert? {
      InsertLinearises(s, a, s');
    } else if a.Fail? {
      ErrorIsAtomic(s, a.call);
    }
  }

  lemma ErrorIsAtomic(s: State, c: nat)
    requires IndexOk(s.db.rows, s.db.byKey) && c in s.calls
    ensures GetOrCreate(Store(s.db), s.calls[c].key, s.calls[c].data, Store(s.db), Error)
  {
  }

  lemma ResolveIsAtomic(db: Db, key: string, data: PaymentData)
    requires IndexOk(db.rows, db.byKey) && key in db.byKey
    requires db.rows[db.byKey[key]].fingerprint == db.rows[db.byKey[key]].data
    ensures GetOrCreate(Store(db), key, data, Store(db), Resolve(db.rows, db.byKey[key], data))
  {
  }

  lemma InsertIsAtomic(db: Db, pid: Uuid, eid: Uuid, key: string, data: PaymentData, occurredAt: Time, at: Time)
    requires IndexOk(db.rows, db.byKey) && pid !in db.rows && key !in db.byKey
    ensures var next := CreatePayment(db, pid, eid, key, data, occurredAt, at);
            && next.Some? && IndexOk(next.value.rows, next.value.byKey)
            && GetOrCreate(Store(db), key, data, Store(next.value), Created(pid))
            && GetOrCreate(Store(db), key, data, Store(next.value), Error)
  {
    var next := CreatePayment(db, pid, eid, key, data, occurredAt, at);
    IndexAfterCreate(db.rows, db.byKey, pid, NewRow(data, key, at));
    StoreAfterCreate(db, next.value, pid, key, data);
    hide IndexOk, Store;
  }

  lemma StoreAfterCreate(db: Db, db': Db, pid: Uuid, key: string, data: PaymentData)
    requires IndexOk(db.rows, db.byKey) && IndexOk(db'.rows, db'.byKey) && pid !in db.rows && key !in db.byKey
    requires db'.byKey == db.byKey[key := pid] && pid in db'.rows && db'.rows[pid].data == data
    requires forall p :: p in db.rows ==> p in db'.rows && db'.rows[p] == db.rows[p]
    ensures Store(db') == Store(db)[key := Entry(pid, data)]
  {
  }

  lemma LookupLinearises(s: State, a: ApiStep, s': State)
    requires Inv(s) && (a.Read? || a.Reread?) && ApiNext(s, a, s')
    ensures IndexOk(s.db.rows, s.db.byKey) && IndexOk(s'.db.rows, s'.db.byKey)
    ensures Silent(s, s') || AnswersAtomically(s, a.call, s')
  {
    hide Inv, IndexOk, CallOk, GetOrCreate, Store, Resolve, ApiNext;
    IndexKnown(s);
    LookupMoves(s, a, s');
    LookupKeeps(s, a.call);
    var key := s.calls[a.call].key;
    if key in s.db.byKey {
      FingerprintKept(s, s.db.byKey[key]);
      ResolveIsAtomic(s.db, key, s.calls[a.call].data);
    }
  }

  lemma IndexKnown(s: State)
    requires Inv(s)
    ensures IndexOk(s.db.rows, s.db.byKey)
  {
    hide FlightOk, RowsOk, OutboxOk, RecordsOk, PostsOk, IndexOk;
  }

  /** A lookup answers the call if it finds the key, and lets a first lookup go on to the insert. */
  lemma LookupMoves(s: State, a: ApiStep, s': State)
    requires (a.Read? || a.Reread?) && ApiNext(s, a, s')
    ensures a.call in s.calls && s'.db == s.db
    ensures s.calls[a.call].phase == if a.Read? then Started else Rereading
    ensures var c := a.call; var call := s.calls[c];
            if call.key in s.db.byKey then
              && s.db.byKey[call.key] in s.db.rows
              && var result := Resolve(s.db.rows, s.db.byKey[call.key], call.data);
                 s'.calls == s.calls[c := call.(phase := Returned(result))]
            else a.Read? ==> s'.calls == s.calls[c := call.(phase := Inserting)]
  {
    hide Resolve;
  }

  lemma FingerprintKept(s: State, pid: Uuid)
    requires Inv(s) && pid in s.db.rows
    ensures s.db.rows[pid].fingerprint == s.db.rows[pid].data
  {
    hide FlightOk, OutboxOk, RecordsOk, PostsOk, IndexOk;
    assert RowOk(s.db.rows[pid], s.budget);
  }

  lemma InsertLinearises(s: State, a: ApiStep, s': State)
    requires IndexOk(s.db.rows, s.db.byKey) && IndexOk(s'.db.rows, s'.db.byKey)
    requires a.Insert? && ApiNext(s, a, s')
    ensures Silent(s, s') || AnswersAtomically(s, a.call, s')
  {
    hide GetOrCreate, Store, IndexOk;
    if s.calls[a.call].key !in s.db.byKey {
      InsertIsAtomic(s.db, a.pid, a.eid, s.calls[a.call].key, s.calls[a.call].data, a.occurredAt, a.at);
    }
  }

  /** However many calls race with one key, at most one of them reports a creation, and
      every payment any of them reports is the one the key belongs to. */
  lemma OneCreationPerKey(states: seq<State>, steps: seq<Step>, k: nat, c: nat, d: nat)
    requires IsRun(states, steps) && k < |states| && c in states[k].calls && d in states[k].calls
    requires states[k].calls[c].key == states[k].calls[d].key
    ensures var s := states[k]; var x := s.calls[c].phase; var y := s.calls[d].phase;
            && (x.Returned? && x.result.Created? && y.Returned? && y.result.Created? ==> c == d)
            && (x.Returned? && (x.result.Created? || x.result.Existing?) ==>
                  && s.calls[c].key in s.db.byKey && s.db.byKey[s.calls[c].key] == x.result.pid
                  && x.result.pid in s.db.rows
                  && s.db.rows[x.result.pid].data == s.calls[c].data)
            && (x.Returned? && x.result.Conflict? ==>
                  && s.calls[c].key in s.db.byKey && s.db.byKey[s.calls[c].key] in s.db.rows
                  && s.db.rows[s.db.byKey[s.calls[c].key]].data != s.calls[c].data)
            && x != Returned(KeyViolationReraised)
  {
    hide Next, Init, CopiesOk, SentOk, RelaysOk, TasksOk, LogOk, LeasesOk, WebhooksOk, OutboxOk, RecordsOk,
         PostsOk, RowsOk;
    RunKeeps(states, steps, k);
    var s := states[k];
    assert CallOk(c, s.calls[c], s.db.rows, s.db.byKey, s.origin);
    assert CallOk(d, s.calls[d], s.db.rows, s.db.byKey, s.origin);
  }
}
