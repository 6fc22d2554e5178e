/** `create_payment`: read by key, insert payment and event, read again on a key violation. */
module PaymentCreation {
  import opened Model
  import opened Transactions
  import opened System
  import opened Invariant
  import opened Storage
  import opened Creation

  class PaymentService {
    const db: Database

    constructor (db: Database)
      ensures this.db == db
    {
      this.db := db;
    }

    /** While the call runs, others turn the database into `between` before the insert and
        into `later` before the second read; keys never disappear.  The call is one atomic
        get-or-create on the state `decidedOn` that its last transaction found. */
    method CreatePayment(data: PaymentData, key: string, pid: Uuid, eid: Uuid, occurredAt: Time, at: Time,
                         between: Db, later: Db, fate: CommitFate)
      returns (result: CallResult, ghost decidedOn: Db)
      requires IndexOk(db.rows, db.byKey) && IndexOk(between.rows, between.byKey)
      requires IndexOk(later.rows, later.byKey)
      requires between.byKey.Keys <= later.byKey.Keys
      requires forall p :: p in db.rows ==> db.rows[p].fingerprint == db.rows[p].data
      requires forall p :: p in later.rows ==> later.rows[p].fingerprint == later.rows[p].data
      requires pid !in between.rows && eid !in between.outbox
      modifies db
      ensures result != KeyViolationReraised
      ensures decidedOn == if key in old(db.byKey) then old(db.Value())
                           else if key in between.byKey then later else between
      ensures IndexOk(decidedOn.rows, decidedOn.byKey) && IndexOk(db.rows, db.byKey)
      ensures GetOrCreate(Store(decidedOn), key, data, Store(db.Value()), result)
      ensures (db.Value(), result)
           == Called(old(db.Value()), between, later, key, data, pid, eid, occurredAt, at, fate)
      ensures result == if key in decidedOn.byKey then Resolve(decidedOn.rows, decidedOn.byKey[key], data)
                        else if fate == Acked then Created(pid) else Error
      ensures Some(db.Value()) == if key in decidedOn.byKey || fate == RolledBack then Some(decidedOn)
                                  else Transactions.CreatePayment(between, pid, eid, key, data, occurredAt, at)
      ensures result.Created? || (result.Error? && fate == LostAck) ==>
                && pid in db.rows && db.rows[pid].status == Pending
                && db.rows[pid].data == data && db.rows[pid].key == key && db.rows[pid].fingerprint == data
                && db.rows[pid].attempts == 0 && !db.rows[pid].review && db.rows[pid].sentAt.None?
                && db.rows[pid].updatedAt == at
                && eid in db.outbox && db.outbox[eid].kind == ProcessRequested && db.outbox[eid].paymentId == pid
                && db.outbox[eid].createdAt == occurredAt && db.outbox[eid].publishedAt.None?
                && db.outbox[eid].payload == Envelope(eid, ProcessRequested, pid, 1, occurredAt)
    {
      hide GetOrCreate, Store, IndexOk;
      var repository := new PaymentRepository(db);
      decidedOn := db.Value();
      var existing := repository.GetByIdempotencyKey(key);
      if existing != None {
        OwnerOf(db.Value(), key);
        ResolveIsAtomic(db.Value(), key, data);
        return Resolve(db.rows, existing.value, data), decidedOn;
      }
      db.Interfere(between);
      decidedOn := between;
      if key in db.byKey {
        db.Interfere(later);
        decidedOn := later;
        existing := repository.GetByIdempotencyKey(key);
        if existing == None {
          return KeyViolationReraised, decidedOn;
        }
        OwnerOf(db.Value(), key);
        ResolveIsAtomic(db.Value(), key, data);
        return Resolve(db.rows, existing.value, data), decidedOn;
      }
      InsertIsAtomic(between, pid, eid, key, data, occurredAt, at);
      NothingIsAtomic(between, key, data);
      if fate == RolledBack {
        return Error, decidedOn;
      }
      var payment := NewRow(data, key, at);
      var event := Envelope(eid, ProcessRequested, pid, 1, occurredAt);
      db.rows := db.rows[pid := payment];
      db.byKey := db.byKey[key := pid];
      db.outbox := db.outbox[eid := OutboxRow(ProcessRequested, pid, event, occurredAt, None)];
      return if fate == Acked then Created(pid) else Error, decidedOn;
    }
  }

  // ----- a call as steps of the system -----------------------------------------------------------

  /** What a call leaves in the database and returns. */
  ghost function Called(before: Db, between: Db, later: Db, key: string, data: PaymentData, pid: Uuid, eid: Uuid,
                        occurredAt: Time, at: Time, fate: CommitFate): (Db, CallResult)
    requires IndexOk(before.rows, before.byKey) && IndexOk(later.rows, later.byKey)
    requires between.byKey.Keys <= later.byKey.Keys
  {
    if key in before.byKey then (before, Resolve(before.rows, before.byKey[key], data))
    else if key in between.byKey then (later, Resolve(later.rows, later.byKey[key], data))
    else if fate == RolledBack then (between, Error)
    else (Transactions.CreatePayment(between, pid, eid, key, data, occurredAt, at).value,
          if fate == Acked then Created(pid) else Error)
  }

  /** A call refines the API steps of the system: the first read, the insert, and after a
      key violation the second read are one step each, from the states that others have
      made of the system by then: `s`, `inserting` and `rereading`. */
  lemma CallRefinesSteps(s: State, inserting: State, rereading: State, c: nat, key: string, data: PaymentData,
                         pid: Uuid, eid: Uuid, occurredAt: Time, at: Time, fate: CommitFate)
    returns (read: State, inserted: State, last: State)
    requires c in s.calls && s.calls[c] == ApiCall(key, data, Started)
    requires c in inserting.calls && inserting.calls[c] == ApiCall(key, data, Inserting)
    requires c in rereading.calls && rereading.calls[c] == ApiCall(key, data, Rereading)
    requires IndexOk(s.db.rows, s.db.byKey) && IndexOk(rereading.db.rows, rereading.db.byKey)
    requires inserting.db.byKey.Keys <= rereading.db.byKey.Keys
    requires pid !in inserting.db.rows && eid !in inserting.db.outbox
    ensures ApiNext(s, Read(c), read) && c in read.calls && c in last.calls
    ensures exists a :: ApiNext(inserting, a, inserted)
    ensures var (db, result) := Called(s.db, inserting.db, rereading.db, key, data, pid, eid, occurredAt, at, fate);
            if key in s.db.byKey then
              read.db == db && read.calls[c].phase == Returned(result)
            else
              && read.calls[c].phase == Inserting
              && (if key in inserting.db.byKey then
                    && c in inserted.calls && inserted.calls[c].phase == Rereading
                    && ApiNext(rereading, Reread(c), last)
                  else last == inserted)
              && last.db == db && last.calls[c].phase == Returned(result)
  {
    hide ApiNext, Resolve, Transactions.CreatePayment;
    read := FirstRead(s, c, key, data);
    inserted := InsertIsStep(inserting, c, key, data, pid, eid, occurredAt, at, fate);
    last := inserted;
    if key in inserting.db.byKey {
      last := SecondRead(rereading, c, key, data);
    }
  }

  lemma SecondRead(s: State, c: nat, key: string, data: PaymentData) returns (last: State)
    requires c in s.calls && s.calls[c] == ApiCall(key, data, Rereading)
    requires IndexOk(s.db.rows, s.db.byKey) && key in s.db.byKey
    ensures s.db.byKey[key] in s.db.rows
    ensures ApiNext(s, Reread(c), last) && last.db == s.db && c in last.calls
    ensures last.calls[c].phase == Returned(Resolve(s.db.rows, s.db.byKey[key], data))
  {
    last := s.(calls := SetPhase(s, c, Returned(Resolve(s.db.rows, s.db.byKey[key], data))));
  }

  lemma FirstRead(s: State, c: nat, key: string, data: PaymentData) returns (read: State)
    requires c in s.calls && s.calls[c] == ApiCall(key, data, Started) && IndexOk(s.db.rows, s.db.byKey)
    ensures ApiNext(s, Read(c), read) && read.db == s.db && c in read.calls
    ensures read.calls[c].phase == if key in s.db.byKey
                                   then Returned(Resolve(s.db.rows, s.db.byKey[key], data)) else Inserting
  {
    read := s.(calls := SetPhase(s, c, if key in s.db.byKey
                                       then Returned(Resolve(s.db.rows, s.db.byKey[key], data)) else Inserting));
  }

  lemma InsertIsStep(s: State, c: nat, key: string, data: PaymentData, pid: Uuid, eid: Uuid, occurredAt: Time,
                     at: Time, fate: CommitFate)
    returns (s': State)
    requires c in s.calls && s.calls[c] == ApiCall(key, data, Inserting)
    requires pid !in s.db.rows && eid !in s.db.outbox
    ensures (exists a :: ApiNext(s, a, s')) && c in s'.calls
    ensures key in s.db.byKey ==> s'.db == s.db && s'.calls[c].phase == Rereading
    ensures key !in s.db.byKey ==>
              && Some(s'.db) == (if fate == RolledBack then Some(s.db)
                                 else Transactions.CreatePayment(s.db, pid, eid, key, data, occurredAt, at))
              && s'.calls[c].phase == Returned(if fate == Acked then Created(pid) else Error)
  {
    var next := Transactions.CreatePayment(s.db, pid, eid, key, data, occurredAt, at);
    if next.None? {
      s' := s.(calls := SetPhase(s, c, Rereading));
      assert ApiNext(s, Insert(c, pid, eid, occurredAt, at, fate == Acked), s');
    } else if fate == RolledBack {
      s' := s.(calls := SetPhase(s, c, Returned(Error)));
      assert ApiNext(s, Fail(c), s');
    } else {
      s' := s.(db := next.value, calls := SetPhase(s, c, Returned(if fate == Acked then Created(pid) else Error)),
               origin := s.origin[pid := Origin(c, eid)]);
      assert ApiNext(s, Insert(c, pid, eid, occurredAt, at, fate == Acked), s');
    }
  }

  lemma OwnerOf(db: Db, key: string)
    requires IndexOk(db.rows, db.byKey) && key in db.byKey
    ensures db.byKey[key] in db.rows && db.rows[db.byKey[key]].key == key
  {
  }

  lemma NothingIsAtomic(db: Db, key: string, data: PaymentData)
    requires IndexOk(db.rows, db.byKey)
    ensures GetOrCreate(Store(db), key, data, Store(db), Error)
  {
  }
}
