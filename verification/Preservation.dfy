/** Every step keeps the invariant.  A step that writes the database and moves a
    message is proved as two: first the database, then the message.  A lemma hides the
    conjuncts it only carries along, so that the solver need not look into them. */
module Preservation {
  import opened Model
  import opened Selection
  import opened Transactions
  import opened Broker
  import opened System
  import opened Invariant

  // ----- two building blocks -------------------------------------------------------------

  /** Some payment rows change and outbox rows may be added, nothing else. */
  lemma DbChanged(s: State, db: Db)
    requires Inv(s) && CoreOk(s.(db := db)) && LeasesOk(db.rows, s.leaseLog)
    requires RowsEvolve(s.db.rows, db.rows) && db.byKey == s.db.byKey
    requires forall e :: e in s.db.outbox ==> e in db.outbox && db.outbox[e] == s.db.outbox[e]
    requires forall e :: e in db.outbox && e !in s.db.outbox ==> db.outbox[e].publishedAt.None?
    ensures Inv(s.(db := db))
  {
    hide RowsOk, OutboxOk, IndexOk, RecordsOk, PostsOk, CopiesOk, SentOk, RelaysOk, CallsOk, TasksOk,
         LogOk, LeasesOk, WebhooksOk, RowOk, EventsOk, AgreesOk, OutboxRowOk, RecordOk, PostOk, CallOk,
         Moved, PhaseOk, CopyOk, HasCopy, Handled, RelayTxOk, Touches, LastTouch, LastClaimedWith,
         WebhookOk, RowEvolves, RowsEvolve, OutboxEvolves, RecordsEvolve;
    CopiesStable(s.db.rows, s.db.outbox, s.records, db.rows, db.outbox, s.records, s.copies);
    SentStable(s.db.rows, s.db.outbox, db.rows, db.outbox, s.copies, s.sent);
    RelaysStable(s.db.outbox, db.outbox, s.sent, s.relays);
    CallsStable(s.calls, s.db.rows, s.db.byKey, s.origin, db.rows, db.byKey, s.origin);
    WebhooksStable(s.db.rows, db.rows, s.webhooks);
  }

  /** One copy changes place. */
  lemma CopyMoved(s: State, cid: nat, place: Place)
    requires Inv(s) && cid in s.copies
    requires CopyOk(s.db.rows, s.db.outbox, s.records, Copy(s.copies[cid].event, place))
    requires Alive(s.copies[cid]) && !Alive(Copy(s.copies[cid].event, place)) ==>
               Moved(s.db.rows, s.copies[cid].event)
    ensures Inv(s.(copies := At(s.copies, cid, place)))
  {
    hide RowsOk, OutboxOk, IndexOk, RecordsOk, PostsOk, SentOk, RelaysOk, CallsOk, TasksOk, LogOk,
         LeasesOk, WebhooksOk, RowOk, EventsOk, AgreesOk, OutboxRowOk, RecordOk, PostOk, CallOk, Moved,
         PhaseOk, HasCopy, Handled, RelayTxOk, Touches, LastTouch, LastClaimedWith, WebhookOk,
         RowEvolves, RowsEvolve, OutboxEvolves, RecordsEvolve;
    SentAfterMove(s.db.rows, s.db.outbox, s.copies, s.sent, cid, place);
  }

  /** What the outbox may gain when the row of one payment changes: its webhook event. */
  ghost predicate EventEnters(pid: Uuid, r: Row, r': Row,
                              outbox: map<Uuid, OutboxRow>, outbox': map<Uuid, OutboxRow>)
  {
    || (outbox' == outbox && r'.webhookId == r.webhookId)
    || (&& r.webhookId.None? && r'.webhookId.Some? && r'.webhookId.value !in outbox
        && r'.webhookId.value in outbox'
        && var wid := r'.webhookId.value;
           && outbox' == outbox[wid := outbox'[wid]]
           && outbox'[wid] == NewEvent(wid, WebhookRequested, pid, outbox'[wid].payload.occurredAt,
                                       outbox'[wid].createdAt))
  }

  lemma RowsAfterChange(rows: map<Uuid, Row>, outbox: map<Uuid, OutboxRow>, origin: map<Uuid, Origin>,
                        records: map<Uuid, Record>, budget: nat, pid: Uuid, r: Row, outbox': map<Uuid, OutboxRow>)
    requires RowsOk(rows, outbox, origin, records, budget) && pid in rows
    requires RowOk(r, budget) && AgreesOk(pid, r, records) && EventEnters(pid, rows[pid], r, outbox, outbox')
    ensures RowsOk(rows[pid := r], outbox', origin, records, budget)
  {
  }

  lemma OutboxAfterChange(rows: map<Uuid, Row>, outbox: map<Uuid, OutboxRow>, origin: map<Uuid, Origin>,
                          pid: Uuid, r: Row, outbox': map<Uuid, OutboxRow>)
    requires OutboxOk(rows, outbox, origin) && pid in rows && pid in origin
    requires EventEnters(pid, rows[pid], r, outbox, outbox')
    ensures OutboxOk(rows[pid := r], outbox', origin)
  {
  }

  lemma IndexAfterChange(rows: map<Uuid, Row>, byKey: map<string, Uuid>, pid: Uuid, r: Row)
    requires IndexOk(rows, byKey) && pid in rows && r.key == rows[pid].key
    ensures IndexOk(rows[pid := r], byKey)
  {
  }

  /** A row moves on, keeps or gives up its lease, and the outbox stays. */
  lemma RowWritten(s: State, pid: Uuid, r: Row)
    requires Inv(s) && pid in s.db.rows && r.webhookId == s.db.rows[pid].webhookId
    requires RowEvolves(s.db.rows[pid], r) && RowOk(r, s.budget) && AgreesOk(pid, r, s.records)
    requires r.leaseToken == s.db.rows[pid].leaseToken || r.leaseToken.None?
    ensures Inv(s.(db := s.db.(rows := s.db.rows[pid := r])))
  {
    hide CoreOk, FlightOk, RowOk, AgreesOk, RowEvolves, RowsEvolve, LeasesOk;
    var db := s.db.(rows := s.db.rows[pid := r]);
    RowChanged(s, pid, r, s.db.outbox);
    LeasesInv(s);
    LeasesUntouched(s.db.rows, pid, r, s.leaseLog);
    DbChanged(s, db);
  }

  /** The row of one payment changes; with it a webhook event may enter the outbox. */
  lemma RowChanged(s: State, pid: Uuid, r: Row, outbox: map<Uuid, OutboxRow>)
    requires CoreOk(s) && pid in s.db.rows
    requires RowEvolves(s.db.rows[pid], r) && RowOk(r, s.budget) && AgreesOk(pid, r, s.records)
    requires EventEnters(pid, s.db.rows[pid], r, s.db.outbox, outbox)
    ensures CoreOk(s.(db := s.db.(rows := s.db.rows[pid := r], outbox := outbox)))
    ensures RowsEvolve(s.db.rows, s.db.rows[pid := r])
  {
    hide OutboxOk, IndexOk, RecordsOk, PostsOk, RowOk, AgreesOk, EventEnters;
    var rows := s.db.rows[pid := r];
    assert EventsOk(pid, s.db.rows[pid], s.db.outbox, s.origin);
    RowsAfterChange(s.db.rows, s.db.outbox, s.origin, s.records, s.budget, pid, r, outbox);
    OutboxAfterChange(s.db.rows, s.db.outbox, s.origin, pid, r, outbox);
    IndexAfterChange(s.db.rows, s.db.byKey, pid, r);
    CoreFollows(s.db.rows, rows, s.records, s.posts);
  }

  lemma LeasesUntouched(rows: map<Uuid, Row>, pid: Uuid, r: Row, log: seq<LeaseEvent>)
    requires LeasesOk(rows, log) && pid in rows
    requires r.leaseToken == rows[pid].leaseToken || r.leaseToken.None?
    ensures LeasesOk(rows[pid := r], log)
  {
  }

  // ----- API calls -----------------------------------------------------------------------------

  lemma CallMoved(s: State, c: nat, call: ApiCall)
    requires Inv(s) && CallOk(c, call, s.db.rows, s.db.byKey, s.origin)
    ensures Inv(s.(calls := s.calls[c := call]))
  {
  }

  lemma ApiKeeps(s: State, a: ApiStep, s': State)
    requires Inv(s) && ApiNext(s, a, s')
    ensures Inv(s')
  {
    hide Inv, CreatePayment, Resolve, CallOk;
    match a
    case Begin(c, key, data) =>
      CallIdle(c, ApiCall(key, data, Started), s.db.rows, s.db.byKey, s.origin);
      CallMoved(s, c, ApiCall(key, data, Started));
    case Insert(c, _, _, _, _, _) =>
      InsertKeeps(s, a, s');
    case Read(c) =>
      LookupKeeps(s, c);
      CallIdle(c, s.calls[c].(phase := Inserting), s.db.rows, s.db.byKey, s.origin);
      CallMoved(s, c, s'.calls[c]);
    case Reread(c) =>
      LookupKeeps(s, c);
      CallMoved(s, c, s'.calls[c]);
    case Fail(c) =>
      CallIdle(c, s.calls[c].(phase := Returned(Error)), s.db.rows, s.db.byKey, s.origin);
      CallMoved(s, c, s'.calls[c]);
  }

  /** A call that has reported nothing claims nothing. */
  lemma CallIdle(c: nat, call: ApiCall, rows: map<Uuid, Row>, byKey: map<string, Uuid>, origin: map<Uuid, Origin>)
    requires call.phase == Started || call.phase == Inserting || call.phase == Returned(Error)
    ensures CallOk(c, call, rows, byKey, origin)
  {
  }

  lemma InsertKeeps(s: State, a: ApiStep, s': State)
    requires Inv(s) && a.Insert? && ApiNext(s, a, s')
    ensures Inv(s')
  {
    hide RowsOk, OutboxOk, IndexOk, RecordsOk, PostsOk, CallsOk, CopiesOk, SentOk, RelaysOk, TasksOk,
         LogOk, LeasesOk, WebhooksOk;
    var c := a.call;
    var next := CreatePayment(s.db, a.pid, a.eid, s.calls[c].key, s.calls[c].data, a.occurredAt, a.at);
    if next.None? {
      CallMoved(s, c, s'.calls[c]);
    } else {
      var mid := s.(db := next.value, origin := s.origin[a.pid := Origin(c, a.eid)]);
      PaymentCreated(s, c, a.pid, a.eid, a.occurredAt, a.at, mid);
      CallMoved(mid, c, s'.calls[c]);
    }
  }

  /** Reading a payment by its key resolves to that payment or to a conflict with it. */
  lemma LookupKeeps(s: State, c: nat)
    requires Inv(s) && c in s.calls
    requires s.calls[c].phase == Started || s.calls[c].phase == Rereading
    ensures s.calls[c].phase == Rereading ==> s.calls[c].key in s.db.byKey
    ensures s.calls[c].key in s.db.byKey ==>
              var pid := s.db.byKey[s.calls[c].key];
              && pid in s.db.rows
              && CallOk(c, s.calls[c].(phase := Returned(Resolve(s.db.rows, pid, s.calls[c].data))),
                        s.db.rows, s.db.byKey, s.origin)
  {
  }

  lemma PaymentCreated(s: State, c: nat, pid: Uuid, eid: Uuid, occurredAt: Time, at: Time, s': State)
    requires Inv(s) && c in s.calls && pid !in s.db.rows && eid !in s.db.outbox
    requires var next := CreatePayment(s.db, pid, eid, s.calls[c].key, s.calls[c].data, occurredAt, at);
             next.Some? && s' == s.(db := next.value, origin := s.origin[pid := Origin(c, eid)])
    ensures Inv(s')
  {
    hide CoreOk, FlightOk, RowsEvolve, OutboxEvolves, LeasesOk;
    CreatedCore(s, c, pid, eid, occurredAt, at, s');
    CreatedGrows(s.db, pid, eid, s.calls[c].key, s.calls[c].data, occurredAt, at);
    LeasesInv(s);
    LeasesAfterCreate(s.db.rows, pid, NewRow(s.calls[c].data, s.calls[c].key, at), s.leaseLog);
    hide CreatePayment;
    FlightAfterCreate(s, s'.db, s'.origin);
  }

  lemma LeasesInv(s: State)
    requires Inv(s)
    ensures LeasesOk(s.db.rows, s.leaseLog)
  {
    hide CoreOk, LeasesOk;
  }

  lemma FlightAfterCreate(s: State, db: Db, origin: map<Uuid, Origin>)
    requires Inv(s) && CoreOk(s.(db := db, origin := origin)) && LeasesOk(db.rows, s.leaseLog)
    requires RowsEvolve(s.db.rows, db.rows) && OutboxEvolves(s.db.outbox, db.outbox)
    requires forall e :: e in s.db.outbox ==> e in db.outbox && db.outbox[e] == s.db.outbox[e]
    requires forall e :: e in db.outbox && db.outbox[e].publishedAt.Some? ==> e in s.db.outbox
    requires forall k :: k in s.db.byKey ==> k in db.byKey && db.byKey[k] == s.db.byKey[k]
    requires forall p :: p in s.origin && p in s.db.rows ==> p in origin && origin[p] == s.origin[p]
    ensures Inv(s.(db := db, origin := origin))
  {
    hide CoreOk, CopiesOk, SentOk, RelaysOk, CallsOk, TasksOk, LogOk, LeasesOk, WebhooksOk, RowsEvolve,
         OutboxEvolves, RecordsEvolve;
    assert RecordsEvolve(s.records, s.records) by { RecordsSame(s.records); }
    CopiesStable(s.db.rows, s.db.outbox, s.records, db.rows, db.outbox, s.records, s.copies);
    SentStable(s.db.rows, s.db.outbox, db.rows, db.outbox, s.copies, s.sent);
    RelaysStable(s.db.outbox, db.outbox, s.sent, s.relays);
    CallsStable(s.calls, s.db.rows, s.db.byKey, s.origin, db.rows, db.byKey, origin);
    WebhooksStable(s.db.rows, db.rows, s.webhooks);
  }

  lemma RecordsSame(records: map<Uuid, Record>)
    ensures RecordsEvolve(records, records)
  {
  }

  lemma LeasesAfterCreate(rows: map<Uuid, Row>, pid: Uuid, r: Row, log: seq<LeaseEvent>)
    requires LeasesOk(rows, log) && r.leaseToken.None?
    ensures LeasesOk(rows[pid := r], log)
  {
    hide LastClaimedWith;
  }

  lemma CreatedGrows(db: Db, pid: Uuid, eid: Uuid, key: string, data: PaymentData, occurredAt: Time, at: Time)
    requires eid !in db.outbox && key !in db.byKey
    ensures var next := CreatePayment(db, pid, eid, key, data, occurredAt, at);
            && next.Some? && OutboxEvolves(db.outbox, next.value.outbox)
            && (forall e :: e in db.outbox ==> e in next.value.outbox && next.value.outbox[e] == db.outbox[e])
            && (forall e :: e in next.value.outbox && next.value.outbox[e].publishedAt.Some? ==> e in db.outbox)
            && (forall k :: k in db.byKey ==> k in next.value.byKey && next.value.byKey[k] == db.byKey[k])
  {
  }

  lemma CreatedCore(s: State, c: nat, pid: Uuid, eid: Uuid, occurredAt: Time, at: Time, s': State)
    requires CoreOk(s) && c in s.calls && pid !in s.db.rows && eid !in s.db.outbox
    requires var next := CreatePayment(s.db, pid, eid, s.calls[c].key, s.calls[c].data, occurredAt, at);
             next.Some? && s' == s.(db := next.value, origin := s.origin[pid := Origin(c, eid)])
    ensures CoreOk(s') && RowsEvolve(s.db.rows, s'.db.rows)
  {
    hide RowsOk, OutboxOk, IndexOk, RecordsOk, PostsOk, RowOk, EventsOk, AgreesOk, OutboxRowOk;
    var r := NewRow(s.calls[c].data, s.calls[c].key, at);
    var o := NewEvent(eid, ProcessRequested, pid, occurredAt, occurredAt);
    NewRowOk(s.calls[c].data, s.calls[c].key, at, s.budget);
    CoreFollows(s.db.rows, s'.db.rows, s.records, s.posts);
    RowsAfterCreate(s.db.rows, s.db.outbox, s.origin, s.records, s.budget, pid, r, o, Origin(c, eid));
    OutboxAfterCreate(s.db.rows, s.db.outbox, s.origin, pid, r, eid, o, Origin(c, eid));
    IndexAfterCreate(s.db.rows, s.db.byKey, pid, r);
  }

  lemma NewRowOk(data: PaymentData, key: string, at: Time, budget: nat)
    requires budget >= 1
    ensures RowOk(NewRow(data, key, at), budget)
  {
  }

  lemma RowsAfterCreate(rows: map<Uuid, Row>, outbox: map<Uuid, OutboxRow>, origin: map<Uuid, Origin>,
                        records: map<Uuid, Record>, budget: nat, pid: Uuid, r: Row, o: OutboxRow, from: Origin)
    requires RowsOk(rows, outbox, origin, records, budget) && pid !in rows && from.eid !in outbox
    requires RowOk(r, budget) && r.status == Pending && o.kind == ProcessRequested && o.paymentId == pid
    ensures RowsOk(rows[pid := r], outbox[from.eid := o], origin[pid := from], records, budget)
  {
  }

  lemma OutboxAfterCreate(rows: map<Uuid, Row>, outbox: map<Uuid, OutboxRow>, origin: map<Uuid, Origin>,
                          pid: Uuid, r: Row, eid: Uuid, o: OutboxRow, from: Origin)
    requires OutboxOk(rows, outbox, origin) && pid !in rows && from.eid == eid
    requires o == NewEvent(eid, ProcessRequested, pid, o.payload.occurredAt, o.createdAt)
    ensures OutboxOk(rows[pid := r], outbox[eid := o], origin[pid := from])
  {
  }

  lemma IndexAfterCreate(rows: map<Uuid, Row>, byKey: map<string, Uuid>, pid: Uuid, r: Row)
    requires IndexOk(rows, byKey) && pid !in rows && r.key !in byKey
    ensures IndexOk(rows[pid := r], byKey[r.key := pid])
  {
  }

  // ----- relays ----------------------------------------------------------------------------------

  lemma RelayKeeps(s: State, a: RelayStep, s': State)
    requires Inv(s) && RelayNext(s, a, s')
    ensures Inv(s')
  {
    hide Inv, IsFirst;
    match a
    case Open(r, batch, limit) =>
      BatchOpened(s, r, batch, limit);
    case Send(r, cid) =>
      SendKeeps(s, r, cid, s');
    case SendFails(r, cid, stored) =>
      if stored {
        CopySent(s, s.relays[r].batch[s.relays[r].done], cid);
        BatchDropped(s.(copies := s'.copies, sent := s'.sent), r);
      } else {
        BatchDropped(s, r);
      }
    case CommitBatch(r, stamps) =>
      BatchCommitted(s, r, stamps, s');
    case Rollback(r) =>
      BatchDropped(s, r);
  }

  lemma BatchDropped(s: State, r: nat)
    requires Inv(s) && r in s.relays
    ensures forall failed :: Inv(s.(relays := s.relays - {r}, failed := failed))
  {
    hide RowsOk, OutboxOk, IndexOk, RecordsOk, PostsOk, CopiesOk, SentOk, CallsOk, TasksOk, LogOk, LeasesOk,
         WebhooksOk, RelayTxOk;
  }

  lemma SendKeeps(s: State, r: nat, cid: nat, s': State)
    requires Inv(s) && RelayNext(s, Send(r, cid), s')
    ensures Inv(s')
  {
    hide Inv;
    CopySent(s, s.relays[r].batch[s.relays[r].done], cid);
    BatchAdvanced(s.(copies := s'.copies, sent := s'.sent), r);
  }

  lemma BatchAdvanced(s: State, r: nat)
    requires Inv(s) && r in s.relays && s.relays[r].done < |s.relays[r].batch|
    requires s.relays[r].batch[s.relays[r].done] in s.sent
    ensures Inv(s.(relays := s.relays[r := s.relays[r].(done := s.relays[r].done + 1)]))
  {
    hide RowsOk, OutboxOk, IndexOk, RecordsOk, PostsOk, CopiesOk, SentOk, CallsOk, TasksOk, LogOk, LeasesOk,
         WebhooksOk;
    assert RelayTxOk(s.db.outbox, s.sent, s.relays[r]);
  }

  lemma BatchOpened(s: State, r: nat, batch: seq<Uuid>, limit: nat)
    requires Inv(s) && r !in s.relays
    requires IsFirst(CreatedTimes(s.db.outbox), Unpublished(s.db.outbox, LockedRows(s.relays)), limit, batch)
    ensures Inv(s.(relays := s.relays[r := RelayTx(batch, 0)]))
  {
    hide RowsOk, OutboxOk, IndexOk, RecordsOk, PostsOk, CopiesOk, SentOk, CallsOk, TasksOk, LogOk,
         LeasesOk, WebhooksOk, RowOk, EventsOk, AgreesOk, OutboxRowOk, RecordOk, PostOk, CallOk, Moved,
         PhaseOk, CopyOk, HasCopy, Handled, Touches, LastTouch, LastClaimedWith, WebhookOk, RowEvolves,
         RowsEvolve, OutboxEvolves, RecordsEvolve;
    forall e | e in batch
      ensures e !in LockedRows(s.relays)
    {
      assert e in Unpublished(s.db.outbox, LockedRows(s.relays));
    }
    forall q | q in s.relays
      ensures forall e :: e in batch ==> e !in s.relays[q].batch
    {
    }
    assert RelayTxOk(s.db.outbox, s.sent, RelayTx(batch, 0));
  }

  /** A publication reaches payments.new. */
  lemma CopySent(s: State, e: Uuid, cid: nat)
    requires Inv(s) && e in s.db.outbox && cid !in s.copies
    ensures Inv(s.(copies := s.copies[cid := Copy(s.db.outbox[e].payload, InNew)], sent := s.sent + multiset{e}))
  {
    hide RowsOk, IndexOk, RecordsOk, PostsOk, RelaysOk, CallsOk, TasksOk, LogOk, LeasesOk, WebhooksOk,
         RowOk, EventsOk, AgreesOk, RecordOk, PostOk, CallOk, Moved, PhaseOk, RelayTxOk, Touches,
         LastTouch, LastClaimedWith, WebhookOk, RowEvolves, RowsEvolve, OutboxEvolves, RecordsEvolve;
    SentGrows(s, e);
    var copies := s.copies[cid := Copy(s.db.outbox[e].payload, InNew)];
    assert OutboxRowOk(e, s.db.outbox[e], s.db.rows, s.origin);
    forall d | d in s.sent + multiset{e}
      ensures Handled(s.db.rows, s.db.outbox, copies, d)
    {
      if d == e {
        assert cid in copies && Alive(copies[cid]);
      } else {
        assert Handled(s.db.rows, s.db.outbox, s.copies, d);
        if !Moved(s.db.rows, s.db.outbox[d].payload) {
          var c :| c in s.copies && s.copies[c].event.eventId == d && Alive(s.copies[c]);
          assert c in copies && copies[c] == s.copies[c];
        }
      }
    }
  }

  /** Open batches do not mind further publications. */
  lemma SentGrows(s: State, e: Uuid)
    requires RelaysOk(s.db.outbox, s.sent, s.relays)
    ensures RelaysOk(s.db.outbox, s.sent + multiset{e}, s.relays)
  {
    forall r | r in s.relays
      ensures RelayTxOk(s.db.outbox, s.sent + multiset{e}, s.relays[r])
    {
      assert RelayTxOk(s.db.outbox, s.sent, s.relays[r]);
    }
  }

  lemma BatchCommitted(s: State, r: nat, stamps: map<Uuid, Time>, s': State)
    requires Inv(s) && r in s.relays && s.relays[r].done == |s.relays[r].batch|
    requires stamps.Keys == Elements(s.relays[r].batch)
    requires s' == s.(relays := s.relays - {r}, db := s.db.(outbox := MarkPublished(s.db.outbox, stamps)))
    ensures Inv(s')
  {
    hide RowsOk, OutboxOk, IndexOk, RecordsOk, PostsOk, CopiesOk, CallsOk, TasksOk, LogOk, LeasesOk,
         WebhooksOk, RowOk, EventsOk, AgreesOk, OutboxRowOk, RecordOk, PostOk, CallOk, Moved, PhaseOk,
         CopyOk, HasCopy, Handled, Touches, LastTouch, LastClaimedWith, WebhookOk, OutboxEvolves,
         RecordsEvolve;
    OutboxMarked(s.db.outbox, s.sent, s.relays, r, stamps);
    CommittedCore(s, r, stamps, s');
    hide OutboxEvolves, RelaysOk, MarkPublished, CoreOk;
    CopiesStable(s.db.rows, s.db.outbox, s.records, s'.db.rows, s'.db.outbox, s.records, s.copies);
    SentStable(s.db.rows, s.db.outbox, s'.db.rows, s'.db.outbox, s.copies, s.sent);
  }

  /** What the marks of a whole batch do to the outbox and to the other batches. */
  lemma OutboxMarked(outbox: map<Uuid, OutboxRow>, sent: multiset<Uuid>, relays: map<nat, RelayTx>, r: nat,
                     stamps: map<Uuid, Time>)
    requires RelaysOk(outbox, sent, relays) && r in relays && relays[r].done == |relays[r].batch|
    requires stamps.Keys == Elements(relays[r].batch)
    ensures var outbox' := MarkPublished(outbox, stamps);
            && OutboxEvolves(outbox, outbox') && RelaysOk(outbox', sent, relays - {r})
            && (forall e :: e in outbox' && outbox'[e].publishedAt.Some? ==>
                  e in sent || (e in outbox && outbox[e].publishedAt.Some?))
  {
    var outbox' := MarkPublished(outbox, stamps);
    assert RelayTxOk(outbox, sent, relays[r]);
    forall q | q in relays - {r}
      ensures RelayTxOk(outbox', sent, relays[q])
    {
      assert RelayTxOk(outbox, sent, relays[q]);
      forall i | 0 <= i < |relays[q].batch|
        ensures relays[q].batch[i] !in relays[r].batch
      {
        assert relays[q].batch[i] in relays[q].batch;
      }
    }
  }

  lemma CommittedCore(s: State, r: nat, stamps: map<Uuid, Time>, s': State)
    requires CoreOk(s) && r in s.relays
    requires stamps.Keys == Elements(s.relays[r].batch)
    requires s' == s.(relays := s.relays - {r}, db := s.db.(outbox := MarkPublished(s.db.outbox, stamps)))
    ensures CoreOk(s')
  {
    hide IndexOk, RecordsOk, PostsOk, CopiesOk, SentOk, RelaysOk, CallsOk, TasksOk, LogOk, LeasesOk,
         WebhooksOk, RowOk, AgreesOk, RecordOk, PostOk, CallOk, Moved, PhaseOk, CopyOk, HasCopy,
         Handled, RelayTxOk, Touches, LastTouch, LastClaimedWith, WebhookOk, RowEvolves, RowsEvolve,
         OutboxEvolves, RecordsEvolve;
    forall e | e in s'.db.outbox
      ensures OutboxRowOk(e, s'.db.outbox[e], s.db.rows, s.origin)
    {
      assert OutboxRowOk(e, s.db.outbox[e], s.db.rows, s.origin);
    }
    forall p | p in s.db.rows
      ensures EventsOk(p, s.db.rows[p], s'.db.outbox, s.origin)
    {
      assert EventsOk(p, s.db.rows[p], s.db.outbox, s.origin);
    }
  }

  // ----- broker moves -------------------------------------------------------------------------------

  lemma BrokerKeeps(s: State, m: Move, s': State)
    requires Inv(s) && BrokerMove(s, m, s')
    ensures Inv(s')
  {
    hide RowsOk, OutboxOk, IndexOk, RecordsOk, PostsOk, SentOk, RelaysOk, CallsOk, TasksOk, LogOk,
         LeasesOk, WebhooksOk, RowOk, EventsOk, AgreesOk, OutboxRowOk, RecordOk, PostOk, CallOk, Moved,
         HasCopy, Handled, RelayTxOk, Touches, LastTouch, LastClaimedWith, WebhookOk, RowEvolves,
         RowsEvolve, OutboxEvolves, RecordsEvolve;
    var c := m.cid;
    match m
    case Settle(_) =>
      if s.copies[c].place.phase.outcome == Done {
        CopyGone(s, c);
      } else {
        CopySentBack(s, c, InDlq);
      }
    case Ack(_) =>
      CopyGone(s, c);
    case Retry(_, copyId, fate) =>
      RetryKeeps(s, c, copyId, fate, s');
    case Redeliver(_, copyId) =>
      RedeliverKeeps(s, c, copyId, s');
    case Deliver(_) =>
      CopyRequeued(s, c, InFlight(Received));
    case _ =>
      CopySentBack(s, c, InNew);
  }

  /** A copy may always be delivered, and return to payments.new or the dead-letter queue. */
  lemma CopyRequeued(s: State, c: nat, place: Place)
    requires Inv(s) && c in s.copies && (place == InNew || place == InDlq || place == InFlight(Received))
    ensures Inv(s.(copies := At(s.copies, c, place)))
  {
    hide Inv, CopyOk, Alive, Moved;
    CopyKnown(s, c);
    RequeuedCopy(s.db.rows, s.db.outbox, s.records, s.copies[c], place);
    CopyMoved(s, c, place);
  }

  lemma RequeuedCopy(rows: map<Uuid, Row>, outbox: map<Uuid, OutboxRow>, records: map<Uuid, Record>,
                     copy: Copy, place: Place)
    requires CopyOk(rows, outbox, records, copy)
    requires place == InNew || place == InDlq || place == InFlight(Received)
    ensures CopyOk(rows, outbox, records, Copy(copy.event, place)) && Alive(Copy(copy.event, place))
  {
  }

  lemma CopySentBack(s: State, c: nat, queue: Place)
    requires Inv(s) && c in s.copies && (queue == InNew || queue == InDlq)
    ensures Inv(s.(copies := SentBack(s.copies, c, queue)))
  {
    hide Inv;
    if s.copies[c].place.Adrift? {
      CopyGone(s, c);
    } else {
      CopyRequeued(s, c, queue);
    }
  }

  lemma CopyKnown(s: State, c: nat)
    requires Inv(s) && c in s.copies
    ensures CopyOk(s.db.rows, s.db.outbox, s.records, s.copies[c])
  {
    hide CoreOk, SentOk, RelaysOk, CallsOk, TasksOk, LogOk, LeasesOk, WebhooksOk, CopyOk;
  }

  /** A copy that no longer counted for its event is removed. */
  lemma CopyGone(s: State, c: nat)
    requires Inv(s) && c in s.copies && !Alive(s.copies[c])
    ensures Inv(s.(copies := s.copies - {c}))
  {
    hide RowsOk, OutboxOk, IndexOk, RecordsOk, PostsOk, RelaysOk, CallsOk, TasksOk, LogOk, LeasesOk,
         WebhooksOk, RowOk, EventsOk, AgreesOk, OutboxRowOk, RecordOk, PostOk, CallOk, Moved, PhaseOk,
         CopyOk, RelayTxOk, Touches, LastTouch, LastClaimedWith, WebhookOk, RowEvolves, RowsEvolve,
         OutboxEvolves, RecordsEvolve;
    var copies := s.copies - {c};
    forall e | e in s.sent
      ensures Handled(s.db.rows, s.db.outbox, copies, e)
    {
      assert Handled(s.db.rows, s.db.outbox, s.copies, e);
      if !Moved(s.db.rows, s.db.outbox[e].payload) {
        var d :| d in s.copies && s.copies[d].event.eventId == e && Alive(s.copies[d]);
        assert d in copies && copies[d] == s.copies[d];
      }
    }
  }

  /** The retry copy takes over before the original stops counting. */
  lemma RetryKeeps(s: State, c: nat, copyId: nat, fate: PublishFate, s': State)
    requires Inv(s) && BrokerMove(s, Retry(c, copyId, fate), s')
    ensures Inv(s')
  {
    hide Inv, CopyOk, Alive, Moved, RetryQueue, SettlementOf;
    CopyKnown(s, c);
    var copy := s.copies[c];
    var next := SettlementOf(copy.event, copy.place.phase.outcome).next;
    RetryCopies(s.db.rows, s.db.outbox, s.records, copy, next);
    var queue := RetryQueue(next).value;
    if fate == RaisedLost {
      CopyMoved(s, c, copy.place.(phase := NackDue));
    } else {
      var mid := s.(copies := s.copies[copyId := Copy(next, queue)]);
      CopyAdded(s, copyId, Copy(next, queue));
      var place := copy.place.(phase := if fate == Confirmed then AckDue else NackDue);
      RetryTakesOver(mid, c, copyId, place);
      assert s'.copies == At(mid.copies, c, place);
    }
  }

  /** What a retry turns a copy into is in order: the copy itself and the one published. */
  lemma RetryCopies(rows: map<Uuid, Row>, outbox: map<Uuid, OutboxRow>, records: map<Uuid, Record>,
                    copy: Copy, next: Envelope)
    requires CopyOk(rows, outbox, records, copy) && (copy.place.InFlight? || copy.place.Adrift?)
    requires copy.place.phase.Finished? && SettlementOf(copy.event, copy.place.phase.outcome) == RetryAs(next)
    ensures RetryQueue(next).Some? && next.eventId == copy.event.eventId
    ensures CopyOk(rows, outbox, records, Copy(next, RetryQueue(next).value))
    ensures Alive(Copy(next, RetryQueue(next).value))
    ensures CopyOk(rows, outbox, records, Copy(copy.event, copy.place.(phase := AckDue)))
    ensures CopyOk(rows, outbox, records, Copy(copy.event, copy.place.(phase := NackDue)))
    ensures Alive(copy) ==> Alive(Copy(copy.event, copy.place.(phase := NackDue)))
  {
  }

  /** The redelivered message takes over before its first handler goes adrift. */
  lemma RedeliverKeeps(s: State, c: nat, copyId: nat, s': State)
    requires Inv(s) && BrokerMove(s, Redeliver(c, copyId), s')
    ensures Inv(s')
  {
    hide Inv, CopyOk, Alive, Moved;
    CopyKnown(s, c);
    var copy := s.copies[c];
    RedeliveredCopies(s.db.rows, s.db.outbox, s.records, copy);
    var mid := s.(copies := s.copies[copyId := Copy(copy.event, InNew)]);
    CopyAdded(s, copyId, Copy(copy.event, InNew));
    RetryTakesOver(mid, c, copyId, Adrift(copy.place.phase));
    assert s'.copies == At(mid.copies, c, Adrift(copy.place.phase));
  }

  lemma RedeliveredCopies(rows: map<Uuid, Row>, outbox: map<Uuid, OutboxRow>, records: map<Uuid, Record>, copy: Copy)
    requires CopyOk(rows, outbox, records, copy) && copy.place.InFlight?
    ensures CopyOk(rows, outbox, records, Copy(copy.event, InNew)) && Alive(Copy(copy.event, InNew))
    ensures CopyOk(rows, outbox, records, Copy(copy.event, Adrift(copy.place.phase)))
  {
  }

  lemma CopyAdded(s: State, cid: nat, copy: Copy)
    requires Inv(s) && cid !in s.copies && CopyOk(s.db.rows, s.db.outbox, s.records, copy)
    ensures Inv(s.(copies := s.copies[cid := copy]))
  {
    hide RowsOk, OutboxOk, IndexOk, RecordsOk, PostsOk, RelaysOk, CallsOk, TasksOk, LogOk, LeasesOk,
         WebhooksOk, RowOk, EventsOk, AgreesOk, OutboxRowOk, RecordOk, PostOk, CallOk, Moved, PhaseOk,
         CopyOk, RelayTxOk, Touches, LastTouch, LastClaimedWith, WebhookOk, RowEvolves, RowsEvolve,
         OutboxEvolves, RecordsEvolve;
    var copies := s.copies[cid := copy];
    forall e | e in s.sent
      ensures Handled(s.db.rows, s.db.outbox, copies, e)
    {
      assert Handled(s.db.rows, s.db.outbox, s.copies, e);
      if !Moved(s.db.rows, s.db.outbox[e].payload) {
        var d :| d in s.copies && s.copies[d].event.eventId == e && Alive(s.copies[d]);
        assert d in copies && copies[d] == s.copies[d];
      }
    }
  }

  lemma RetryTakesOver(s: State, c: nat, copyId: nat, place: Place)
    requires Inv(s) && c in s.copies && copyId in s.copies && c != copyId
    requires s.copies[copyId].event.eventId == s.copies[c].event.eventId && Alive(s.copies[copyId])
    requires CopyOk(s.db.rows, s.db.outbox, s.records, Copy(s.copies[c].event, place))
    ensures Inv(s.(copies := At(s.copies, c, place)))
  {
    hide RowsOk, OutboxOk, IndexOk, RecordsOk, PostsOk, RelaysOk, CallsOk, TasksOk, LogOk, LeasesOk,
         WebhooksOk, RowOk, EventsOk, AgreesOk, OutboxRowOk, RecordOk, PostOk, CallOk, Moved, PhaseOk,
         CopyOk, RelayTxOk, Touches, LastTouch, LastClaimedWith, WebhookOk, RowEvolves, RowsEvolve,
         OutboxEvolves, RecordsEvolve;
    var copies := At(s.copies, c, place);
    forall e | e in s.sent
      ensures Handled(s.db.rows, s.db.outbox, copies, e)
    {
      assert Handled(s.db.rows, s.db.outbox, s.copies, e);
      if !Moved(s.db.rows, s.db.outbox[e].payload) {
        var d :| d in s.copies && s.copies[d].event.eventId == e && Alive(s.copies[d]);
        var keeper := if d == c then copyId else d;
        assert keeper in copies && copies[keeper] == s.copies[keeper];
      }
    }
  }

  // ----- processing events -----------------------------------------------------------------------------

  lemma WorkKeeps(s: State, a: WorkStep, s': State)
    requires Inv(s) && WorkNext(s, a, s')
    ensures Inv(s')
  {
    hide Inv, WorkNext;
    match a
    case Load(c) =>
      LoadKeeps(s, c, s');
    case Unknowing(c, at, acked) =>
      UnknowingKeeps(s, c, at, acked, s');
    case Apply(c, wid, processedAt, at, acked) =>
      ApplyKeeps(s, c, wid, processedAt, at, acked, s');
    case PostWebhook(c, reply) =>
      PostWebhookKeeps(s, c, reply, s');
    case Sent(c, now, at, acked) =>
      SentKeeps(s, c, now, at, acked, s');
    case _ =>
      CallKeeps(s, a, s');
  }

  /** Posting the payment request, and the end of that call. */
  lemma CallKeeps(s: State, a: WorkStep, s': State)
    requires Inv(s) && WorkNext(s, a, s') && (a.Post? || a.Answer? || a.Ambiguous? || a.Raise?)
    ensures Inv(s')
  {
    hide RowsOk, OutboxOk, IndexOk, RecordsOk, SentOk, RelaysOk, CallsOk, TasksOk, LogOk, LeasesOk, CopiesOk,
         WebhooksOk, Moved;
    CopyKnown(s, a.cid);
    if a.Post? {
      assert PostOk(s.db.rows, s.copies[a.cid].place.phase.request);
    } else {
      CopyMoved(s, a.cid, s'.copies[a.cid].place);
    }
  }

  /** The payment of a delivered message exists and is fit for its kind. */
  lemma EventKnown(s: State, c: nat)
    requires Inv(s) && c in s.copies
    ensures var event := s.copies[c].event;
            && event.paymentId in s.db.rows && RowOk(s.db.rows[event.paymentId], s.budget)
            && AgreesOk(event.paymentId, s.db.rows[event.paymentId], s.records)
            && (event.kind == WebhookRequested ==>
                  s.db.rows[event.paymentId].webhookId == Some(event.eventId))
    ensures CopyOk(s.db.rows, s.db.outbox, s.records, s.copies[c])
    ensures LeasesOk(s.db.rows, s.leaseLog)
  {
    hide RecordsOk, PostsOk, IndexOk, SentOk, RelaysOk, CallsOk, TasksOk, LogOk, LeasesOk, WebhooksOk,
         RowOk, AgreesOk, EventsOk, Broker.ShapeOk, PhaseOk;
    assert CopyOk(s.db.rows, s.db.outbox, s.records, s.copies[c]);
    var e := s.copies[c].event.eventId;
    assert OutboxRowOk(e, s.db.outbox[e], s.db.rows, s.origin);
    assert s.copies[c].event.paymentId == s.db.outbox[e].paymentId;
  }

  /** Settling a payment with the provider's own answer. */
  lemma SettledRow(pid: Uuid, r: Row, budget: nat, records: map<Uuid, Record>, answer: ProviderResponse,
                   wid: Uuid, processedAt: Time, at: Time)
    requires RowOk(r, budget) && !Terminal(r.status) && !r.review
    requires pid in records && answer == records[pid].response
    ensures var r' := Settled(r, answer, wid, processedAt, at).(leaseToken := None, leaseUntil := None);
            && RowOk(r', budget) && AgreesOk(pid, r', records) && RowEvolves(r, r')
            && r.webhookId.None? && r'.webhookId == Some(wid)
            && (r.status == Pending ==> r' == Settled(r, answer, wid, processedAt, at))
  {
  }

  lemma NotReviewed(r: Row, budget: nat)
    requires RowOk(r, budget) && r.status == Pending
    ensures !r.review
  {
  }

  lemma FinalWithEvent(r: Row, budget: nat)
    requires RowOk(r, budget) && r.webhookId.Some?
    ensures Terminal(r.status)
  {
  }

  /** The other ways in which a transaction changes a row. */
  lemma MovedRow(pid: Uuid, r: Row, budget: nat, records: map<Uuid, Record>, at: Time)
    requires RowOk(r, budget) && AgreesOk(pid, r, records)
    ensures r.status == Pending ==>
              var r' := r.(status := Unknown, updatedAt := at);
              RowOk(r', budget) && AgreesOk(pid, r', records) && RowEvolves(r, r')
    ensures forall now :: Terminal(r.status) && r.sentAt.None? ==>
              var r' := r.(sentAt := Some(now), updatedAt := at);
              RowOk(r', budget) && AgreesOk(pid, r', records) && RowEvolves(r, r')
    ensures forall until :: r.status == Unknown && r.leaseToken.Some? ==>
              var r' := r.(leaseUntil := Some(until), updatedAt := at);
              RowOk(r', budget) && AgreesOk(pid, r', records) && RowEvolves(r, r')
    ensures r.status == Unknown && !r.review ==>
              var r' := CountAttempt(r, budget, at);
              RowOk(r', budget) && AgreesOk(pid, r', records) && RowEvolves(r, r')
  {
  }

  lemma LoadKeeps(s: State, c: nat, s': State)
    requires Inv(s) && WorkNext(s, Load(c), s')
    ensures Inv(s')
  {
    hide Inv, RowOk, AgreesOk, LeasesOk, RowsEvolve;
    EventKnown(s, c);
    var phase := AfterLoad(s.db.rows, s.copies[c].event);
    LoadedPhase(s.db.rows, s.db.outbox, s.records, s.copies[c], s.budget, phase);
    hide CopyOk, AfterLoad, Alive, Moved;
    CopyMoved(s, c, s.copies[c].place.(phase := phase));
  }

  lemma LoadedPhase(rows: map<Uuid, Row>, outbox: map<Uuid, OutboxRow>, records: map<Uuid, Record>,
                    copy: Copy, budget: nat, phase: Phase)
    requires CopyOk(rows, outbox, records, copy) && (copy.place.InFlight? || copy.place.Adrift?)
    requires phase == AfterLoad(rows, copy.event)
    requires copy.event.paymentId in rows && RowOk(rows[copy.event.paymentId], budget)
    requires copy.event.kind == WebhookRequested ==>
               rows[copy.event.paymentId].webhookId == Some(copy.event.eventId)
    ensures CopyOk(rows, outbox, records, Copy(copy.event, copy.place.(phase := phase)))
    ensures Alive(copy) && !Alive(Copy(copy.event, copy.place.(phase := phase))) ==> Moved(rows, copy.event)
  {
  }

  /** The processor ends; it reports the event done only if its work is done. */
  lemma HandlerFinishes(s: State, c: nat, outcome: ProcessOutcome)
    requires Inv(s) && InPhase(s.copies, c) && (outcome == Done ==> Moved(s.db.rows, s.copies[c].event))
    ensures Inv(s.(copies := Goes(s.copies, c, Finished(outcome))))
  {
    CopyKnown(s, c);
    FinishedCopy(s.db.rows, s.db.outbox, s.records, s.copies[c], outcome);
    hide Inv, CopyOk, Alive, Moved;
    CopyMoved(s, c, s.copies[c].place.(phase := Finished(outcome)));
  }

  lemma FinishedCopy(rows: map<Uuid, Row>, outbox: map<Uuid, OutboxRow>, records: map<Uuid, Record>,
                     copy: Copy, outcome: ProcessOutcome)
    requires CopyOk(rows, outbox, records, copy) && (copy.place.InFlight? || copy.place.Adrift?)
    requires outcome == Done ==> Moved(rows, copy.event)
    ensures CopyOk(rows, outbox, records, Copy(copy.event, copy.place.(phase := Finished(outcome))))
    ensures outcome != Done && Alive(copy) ==> Alive(Copy(copy.event, copy.place.(phase := Finished(outcome))))
  {
  }

  lemma UnknowingKeeps(s: State, c: nat, at: Time, acked: bool, s': State)
    requires Inv(s) && WorkNext(s, Unknowing(c, at, acked), s')
    ensures Inv(s')
  {
    hide CoreOk, FlightOk, RowOk, AgreesOk, RowEvolves, RowsEvolve, LeasesOk;
    EventKnown(s, c);
    var pid := s.copies[c].event.paymentId;
    MovedRow(pid, s.db.rows[pid], s.budget, s.records, at);
    if s.db.rows[pid].status == Pending {
      RowChanged(s, pid, s'.db.rows[pid], s.db.outbox);
      LeasesUntouched(s.db.rows, pid, s'.db.rows[pid], s.leaseLog);
      DbChanged(s, s'.db);
    }
    HandlerFinishes(s.(db := s'.db), c, s'.copies[c].place.phase.outcome);
  }

  lemma ApplyKeeps(s: State, c: nat, wid: Uuid, processedAt: Time, at: Time, acked: bool, s': State)
    requires Inv(s) && WorkNext(s, Apply(c, wid, processedAt, at, acked), s')
    ensures Inv(s')
  {
    hide CoreOk, FlightOk, RowOk, AgreesOk, RowEvolves, RowsEvolve, LeasesOk;
    EventKnown(s, c);
    var pid := s.copies[c].event.paymentId;
    if s.db.rows[pid].status == Pending {
      NotReviewed(s.db.rows[pid], s.budget);
      SettledRow(pid, s.db.rows[pid], s.budget, s.records, PhaseAt(s, c).answer, wid, processedAt, at);
      RowChanged(s, pid, s'.db.rows[pid], s'.db.outbox);
      LeasesUntouched(s.db.rows, pid, s'.db.rows[pid], s.leaseLog);
      DbChanged(s, s'.db);
    }
    HandlerFinishes(s.(db := s'.db), c, s'.copies[c].place.phase.outcome);
  }

  lemma PostWebhookKeeps(s: State, c: nat, reply: WebhookReply, s': State)
    requires Inv(s) && WorkNext(s, PostWebhook(c, reply), s')
    ensures Inv(s')
  {
    hide Inv, Moved, PhaseOk, Broker.ShapeOk;
    CopyKnown(s, c);
    var copy := s.copies[c];
    PostedOk(s.db.rows, s.records, copy.event, copy.place.phase.delivery, AfterPost(reply));
    WebhookLogged(s, WebhookPost(copy.event.paymentId, copy.place.phase.delivery, copy.event.eventId,
                                 copy.event.attempt));
    PostedShape(copy, AfterPost(reply));
    CopyMoved(s.(webhooks := s'.webhooks), c, copy.place.(phase := AfterPost(reply)));
  }

  lemma PostedOk(rows: map<Uuid, Row>, records: map<Uuid, Record>, event: Envelope, delivery: Delivery, phase: Phase)
    requires PhaseOk(rows, records, event, Delivering(delivery))
    requires phase == Delivered || (phase.Finished? && phase.outcome != Done)
    ensures WebhookOk(rows, WebhookPost(event.paymentId, delivery, event.eventId, event.attempt))
    ensures PhaseOk(rows, records, event, phase)
  {
  }

  lemma PostedShape(copy: Copy, phase: Phase)
    requires Broker.ShapeOk(copy) && (copy.place.InFlight? || copy.place.Adrift?) && phase != AckDue
    ensures Broker.ShapeOk(Copy(copy.event, copy.place.(phase := phase)))
  {
  }

  lemma WebhookLogged(s: State, w: WebhookPost)
    requires Inv(s) && WebhookOk(s.db.rows, w)
    ensures Inv(s.(webhooks := s.webhooks + [w]))
  {
    hide RowsOk, OutboxOk, IndexOk, RecordsOk, PostsOk, CopiesOk, SentOk, RelaysOk, CallsOk, TasksOk, LogOk,
         LeasesOk, WebhooksOk;
    WebhooksGrow(s.db.rows, s.webhooks, w);
  }

  lemma WebhooksGrow(rows: map<Uuid, Row>, webhooks: seq<WebhookPost>, w: WebhookPost)
    requires WebhooksOk(rows, webhooks) && WebhookOk(rows, w)
    ensures WebhooksOk(rows, webhooks + [w])
  {
    hide WebhookOk;
  }

  lemma SentKeeps(s: State, c: nat, now: Time, at: Time, acked: bool, s': State)
    requires Inv(s) && WorkNext(s, Sent(c, now, at, acked), s')
    ensures Inv(s')
  {
    hide Inv, CopyOk, RowOk, AgreesOk, RowEvolves, LeasesOk, WorkNext, MarkSent;
    SentFrame(s, c, now, at, acked, s');
    EventKnown(s, c);
    DeliveredKind(s.db.rows, s.db.outbox, s.records, s.copies[c]);
    var pid := s.copies[c].event.paymentId;
    var r := s.db.rows[pid];
    FinalWithEvent(r, s.budget);
    MarkSentWrites(s.db, pid, s.copies[c].event.eventId, now, at);
    if r.sentAt.None? {
      MovedRow(pid, r, s.budget, s.records, at);
      RowWritten(s, pid, r.(sentAt := Some(now), updatedAt := at));
    }
    HandlerFinishes(s.(db := s'.db), c, s'.copies[c].place.phase.outcome);
  }

  lemma DeliveredKind(rows: map<Uuid, Row>, outbox: map<Uuid, OutboxRow>, records: map<Uuid, Record>, copy: Copy)
    requires CopyOk(rows, outbox, records, copy)
    ensures copy.place == InFlight(Delivered) || copy.place == Adrift(Delivered) ==> copy.event.kind == WebhookRequested
  {
  }

  lemma MarkSentWrites(db: Db, pid: Uuid, eid: Uuid, now: Time, at: Time)
    requires pid in db.rows && Terminal(db.rows[pid].status) && db.rows[pid].webhookId == Some(eid)
    ensures MarkSent(db, pid, eid, now, at)
         == if db.rows[pid].sentAt.Some? then (db, NothingToDo)
            else (db.(rows := db.rows[pid := db.rows[pid].(sentAt := Some(now), updatedAt := at)]), Committed)
  {
  }

  lemma SentFrame(s: State, c: nat, now: Time, at: Time, acked: bool, s': State)
    requires WorkNext(s, Sent(c, now, at, acked), s')
    ensures InPhase(s.copies, c) && s.copies[c].place.phase == Delivered
    ensures var event := s.copies[c].event;
            var (db, result) := MarkSent(s.db, event.paymentId, event.eventId, now, at);
            s' == s.(db := db, copies := Goes(s.copies, c, Finished(AfterTx(result, acked))))
  {
  }

  // ----- provider --------------------------------------------------------------------------------------

  /** A record is added for a payment the provider did not know, or none. */
  lemma RecordServed(rows: map<Uuid, Row>, records: map<Uuid, Record>, request: ProviderRequest,
                     answer: ProviderResponse)
    requires RecordsOk(rows, records) && PostOk(rows, request) && FreshAnswer(records, answer)
    ensures RecordsOk(rows, MockProvider.Serve(records, request, answer))
    ensures RecordsEvolve(records, MockProvider.Serve(records, request, answer))
  {
  }

  lemma RowsStillAgree(rows: map<Uuid, Row>, outbox: map<Uuid, OutboxRow>, origin: map<Uuid, Origin>,
                       records: map<Uuid, Record>, records': map<Uuid, Record>, budget: nat)
    requires RowsOk(rows, outbox, origin, records, budget) && RecordsEvolve(records, records')
    ensures RowsOk(rows, outbox, origin, records', budget)
  {
    hide RowOk, EventsOk;
  }

  lemma CopiesOutlast(rows: map<Uuid, Row>, outbox: map<Uuid, OutboxRow>, records: map<Uuid, Record>,
                      records': map<Uuid, Record>, copies: Copies)
    requires CopiesOk(rows, outbox, records, copies) && RecordsEvolve(records, records')
    ensures CopiesOk(rows, outbox, records', copies)
  {
    hide CopiesOk, RecordsEvolve;
    CopiesStable(rows, outbox, records, rows, outbox, records', copies);
  }

  lemma ProviderKeeps(s: State, request: ProviderRequest, answer: ProviderResponse, s': State)
    requires Inv(s) && ProviderNext(s, request, answer, s')
    ensures Inv(s')
  {
    var records := s'.records;
    PostKnown(s, request);
    hide RowsOk, OutboxOk, IndexOk, RecordsOk, PostOk, CopiesOk, SentOk, RelaysOk, CallsOk, LogOk, LeasesOk,
         WebhooksOk, RecordsEvolve, PostsOk, FreshAnswer, TasksOk, MockProvider.Serve;
    RecordServed(s.db.rows, s.records, request, answer);
    RowsStillAgree(s.db.rows, s.db.outbox, s.origin, s.records, records, s.budget);
    CopiesOutlast(s.db.rows, s.db.outbox, s.records, records, s.copies);
    TasksOutlast(s.records, records, s.tasks, s.tokens);
  }

  lemma PostKnown(s: State, request: ProviderRequest)
    requires Inv(s) && request in s.posts
    ensures PostOk(s.db.rows, request)
  {
    hide FlightOk, RowsOk, OutboxOk, IndexOk, RecordsOk, PostOk;
  }

  lemma TasksOutlast(records: map<Uuid, Record>, records': map<Uuid, Record>, tasks: map<Task, TaskPhase>,
                     tokens: set<Uuid>)
    requires TasksOk(records, tasks, tokens) && RecordsEvolve(records, records')
    ensures TasksOk(records', tasks, tokens)
  {
  }

  // ----- reconciliation ----------------------------------------------------------------------------------

  lemma ReconcileKeeps(s: State, a: ReconcileStep, s': State)
    requires Inv(s) && ReconcileNext(s, a, s')
    ensures Inv(s')
  {
    hide Inv;
    match a
    case Claim(_, _, _, _, _, _, _, _) => ClaimKeeps(s, a, s');
    case Renew(_, _, _, _, _) => RenewKeeps(s, a, s');
    case Lookup(t, _) => TaskMoves(s, t, s'.tasks[t]);
    case Persist(_, _, _, _, _, _) => PersistKeeps(s, a, s');
    case Drop(t) => TaskMoves(s, t, Claimed);
  }

  lemma ClaimKeeps(s: State, a: ReconcileStep, s': State)
    requires Inv(s) && a.Claim? && ReconcileNext(s, a, s')
    ensures Inv(s')
  {
    hide RowsOk, OutboxOk, IndexOk, RecordsOk, PostsOk, CopiesOk, RelaysOk, CallsOk, LogOk, WebhooksOk,
         RowOk, EventsOk, AgreesOk, OutboxRowOk, RecordOk, PostOk, CallOk, Moved, PhaseOk, CopyOk,
         HasCopy, Handled, RelayTxOk, LastTouch, WebhookOk, RowEvolves, RowsEvolve;
    var ids := Elements(a.batch);
    ClaimedCore(s, a, ids, s');
    LogGrows(s.leaseLog, ClaimEvent(ids, a.token), s.tokens, s'.tokens);
    forall p | p in s'.db.rows && s'.db.rows[p].leaseToken.Some?
      ensures LastClaimedWith(s'.leaseLog, p, s'.db.rows[p].leaseToken.value)
    {
      LastTouchGrows(s.leaseLog, ClaimEvent(ids, a.token), p);
    }
    CopiesStable(s.db.rows, s.db.outbox, s.records, s'.db.rows, s.db.outbox, s.records, s.copies);
    SentStable(s.db.rows, s.db.outbox, s'.db.rows, s.db.outbox, s.copies, s.sent);
    CallsStable(s.calls, s.db.rows, s.db.byKey, s.origin, s'.db.rows, s.db.byKey, s.origin);
    WebhooksStable(s.db.rows, s'.db.rows, s.webhooks);
  }

  lemma ClaimedCore(s: State, a: ReconcileStep, ids: set<Uuid>, s': State)
    requires CoreOk(s) && a.Claim? && ReconcileNext(s, a, s') && ids == Elements(a.batch)
    ensures CoreOk(s') && RowsEvolve(s.db.rows, s'.db.rows)
  {
    hide RowsOk, OutboxOk, IndexOk, RecordsOk, PostsOk, RowOk, EventsOk, AgreesOk, OutboxRowOk, RowEvolves;
    forall p | p in ids
      ensures p in s.db.rows && Claimable(s.db.rows[p], a.staleBefore, a.now)
    {
      assert p in ClaimCandidates(s.db.rows, a.staleBefore, a.now);
    }
    assert s'.db.rows == ClaimRows(s.db.rows, ids, a.token, a.until, a.at);
    ClaimedRows(s.db.rows, s.db.outbox, s.origin, s.records, s.budget, ids, a.token, a.until, a.at);
    CoreFollows(s.db.rows, s'.db.rows, s.records, s.posts);
    ClaimedLinks(s.db.rows, s.db.byKey, s.db.outbox, s.origin, ids, a.token, a.until, a.at);
  }

  lemma ClaimedRows(rows: map<Uuid, Row>, outbox: map<Uuid, OutboxRow>, origin: map<Uuid, Origin>,
                    records: map<Uuid, Record>, budget: nat, ids: set<Uuid>, token: Uuid, until: Time, at: Time)
    requires RowsOk(rows, outbox, origin, records, budget)
    requires forall p :: p in ids ==> p in rows && rows[p].status == Unknown && !rows[p].review
    ensures var rows' := ClaimRows(rows, ids, token, until, at);
            RowsOk(rows', outbox, origin, records, budget) && RowsEvolve(rows, rows')
  {
    var rows' := ClaimRows(rows, ids, token, until, at);
    forall p | p in rows
      ensures RowEvolves(rows[p], rows'[p])
      ensures RowOk(rows'[p], budget) && EventsOk(p, rows'[p], outbox, origin) && AgreesOk(p, rows'[p], records)
    {
      assert RowOk(rows[p], budget) && EventsOk(p, rows[p], outbox, origin);
    }
  }

  lemma ClaimedLinks(rows: map<Uuid, Row>, byKey: map<string, Uuid>, outbox: map<Uuid, OutboxRow>,
                     origin: map<Uuid, Origin>, ids: set<Uuid>, token: Uuid, until: Time, at: Time)
    requires OutboxOk(rows, outbox, origin) && IndexOk(rows, byKey)
    ensures var rows' := ClaimRows(rows, ids, token, until, at);
            OutboxOk(rows', outbox, origin) && IndexOk(rows', byKey)
  {
  }

  lemma LastTouchGrows(log: seq<LeaseEvent>, e: LeaseEvent, p: Uuid)
    ensures LastTouch(log + [e], p) == if Touches(e, p) then Some(e) else LastTouch(log, p)
  {
  }

  lemma LogGrows(log: seq<LeaseEvent>, e: LeaseEvent, tokens: set<Uuid>, tokens': set<Uuid>)
    requires LogOk(log, tokens) && tokens <= tokens'
    requires e.ClaimEvent? ==> e.token !in tokens && e.token in tokens'
    requires e.PersistEvent? ==> LastClaimedWith(log, e.pid, e.token)
    ensures LogOk(log + [e], tokens')
  {
    forall j | 0 <= j < |log + [e]| && (log + [e])[j].PersistEvent?
      ensures LastClaimedWith((log + [e])[..j], (log + [e])[j].pid, (log + [e])[j].token)
    {
      assert (log + [e])[..j] == log[..j];
      assert log[..|log|] == log;
    }
  }

  /** What reconciliation may rely on about a payment. */
  lemma RowKnown(s: State, pid: Uuid)
    requires Inv(s) && pid in s.db.rows
    ensures RowOk(s.db.rows[pid], s.budget) && AgreesOk(pid, s.db.rows[pid], s.records)
    ensures LeasesOk(s.db.rows, s.leaseLog)
  {
    hide OutboxOk, RecordsOk, PostsOk, IndexOk, CopiesOk, SentOk, RelaysOk, CallsOk, TasksOk, LogOk, LeasesOk,
         WebhooksOk, RowOk, AgreesOk, EventsOk;
  }

  lemma TasksChanged(s: State, tasks: map<Task, TaskPhase>)
    requires Inv(s) && TasksOk(s.records, tasks, s.tokens)
    ensures Inv(s.(tasks := tasks))
  {
    hide RowsOk, OutboxOk, IndexOk, RecordsOk, PostsOk, CopiesOk, SentOk, RelaysOk, CallsOk, TasksOk, LogOk,
         LeasesOk, WebhooksOk;
  }

  lemma LogChanged(s: State, log: seq<LeaseEvent>)
    requires Inv(s) && LogOk(log, s.tokens) && LeasesOk(s.db.rows, log)
    ensures Inv(s.(leaseLog := log))
  {
    hide RowsOk, OutboxOk, IndexOk, RecordsOk, PostsOk, CopiesOk, SentOk, RelaysOk, CallsOk, TasksOk, LogOk,
         LeasesOk, WebhooksOk;
  }

  /** A reconciler's task is dropped, or takes a phase that is in order. */
  lemma TaskMoves(s: State, t: Task, phase: TaskPhase)
    requires Inv(s) && t in s.tasks
    requires phase.LookedUp? && phase.answer.Some? ==>
               t.pid in s.records && phase.answer.value == s.records[t.pid].response
    ensures Inv(s.(tasks := s.tasks - {t})) && Inv(s.(tasks := s.tasks[t := phase]))
  {
    hide CoreOk, CopiesOk, SentOk, RelaysOk, CallsOk, LogOk, LeasesOk, WebhooksOk;
    TasksChanged(s, s.tasks - {t});
    TasksChanged(s, s.tasks[t := phase]);
  }

  lemma RenewKeeps(s: State, a: ReconcileStep, s': State)
    requires Inv(s) && a.Renew? && ReconcileNext(s, a, s')
    ensures Inv(s')
  {
    hide CoreOk, FlightOk, RowOk, AgreesOk, RowEvolves, RowsEvolve, LeasesOk;
    var t := a.task;
    if t.pid in s.db.rows && HoldsLease(s.db.rows[t.pid], t.token, a.now) {
      RowKnown(s, t.pid);
      MovedRow(t.pid, s.db.rows[t.pid], s.budget, s.records, a.at);
      RowChanged(s, t.pid, s'.db.rows[t.pid], s.db.outbox);
      LeasesUntouched(s.db.rows, t.pid, s'.db.rows[t.pid], s.leaseLog);
      DbChanged(s, s'.db);
    }
    TaskMoves(s.(db := s'.db), t, Renewed);
  }

  /** The lease log after a persist, whose row has no lease any more. */
  lemma PersistLogged(rows: map<Uuid, Row>, log: seq<LeaseEvent>, pid: Uuid, token: Uuid)
    requires LeasesOk(rows, log) && (pid in rows ==> rows[pid].leaseToken.None?)
    ensures LeasesOk(rows, log + [PersistEvent(pid, token)])
  {
    hide LastTouch;
    forall p | p in rows && rows[p].leaseToken.Some?
      ensures LastClaimedWith(log + [PersistEvent(pid, token)], p, rows[p].leaseToken.value)
    {
      LastTouchGrows(log, PersistEvent(pid, token), p);
    }
  }

  lemma PersistKeeps(s: State, a: ReconcileStep, s': State)
    requires Inv(s) && a.Persist? && ReconcileNext(s, a, s')
    ensures Inv(s')
  {
    hide CoreOk, FlightOk, RowOk, AgreesOk, RowEvolves, RowsEvolve, LeasesOk, LogOk, LastClaimedWith;
    var t := a.task;
    if t.pid in s.db.rows && HoldsLease(s.db.rows[t.pid], t.token, a.now) {
      PersistWrites(s, a, s'.db);
      LogChanged(s.(db := s'.db), s'.leaseLog);
    }
    TaskMoves(s.(db := s'.db, leaseLog := s'.leaseLog), t, Claimed);
  }

  lemma PersistWrites(s: State, a: ReconcileStep, db: Db)
    requires Inv(s) && a.Persist? && a.task in s.tasks && s.tasks[a.task].LookedUp? && a.wid !in s.db.outbox
    requires var (after, result) :=
               PersistResolution(s.db, a.task.pid, a.task.token, s.tasks[a.task].answer, s.budget, a.now, a.wid,
                                 a.processedAt, a.createdAt, a.at);
             db == after && result != LeaseLost
    ensures Inv(s.(db := db))
    ensures var log := s.leaseLog + [PersistEvent(a.task.pid, a.task.token)];
            LogOk(log, s.tokens) && LeasesOk(db.rows, log)
  {
    hide CoreOk, FlightOk, RowOk, AgreesOk, RowEvolves, RowsEvolve, LeasesOk, LogOk, LastClaimedWith;
    var t := a.task;
    var r := s.db.rows[t.pid];
    RowKnown(s, t.pid);
    MovedRow(t.pid, r, s.budget, s.records, a.at);
    AnswerKnown(s, t);
    if s.tasks[t].answer.Some? {
      SettledRow(t.pid, r, s.budget, s.records, s.tasks[t].answer.value, a.wid, a.processedAt, a.at);
    }
    RowChanged(s, t.pid, db.rows[t.pid], db.outbox);
    LeasesUntouched(s.db.rows, t.pid, db.rows[t.pid], s.leaseLog);
    DbChanged(s, db);
    LeaseKnown(s, t.pid, t.token);
    LogGrows(s.leaseLog, PersistEvent(t.pid, t.token), s.tokens, s.tokens);
    PersistLogged(db.rows, s.leaseLog, t.pid, t.token);
  }

  lemma AnswerKnown(s: State, t: Task)
    requires Inv(s) && t in s.tasks
    ensures s.tasks[t].LookedUp? && s.tasks[t].answer.Some? ==>
              t.pid in s.records && s.tasks[t].answer.value == s.records[t.pid].response
  {
    hide CoreOk, CopiesOk, SentOk, RelaysOk, CallsOk, LogOk, LeasesOk, WebhooksOk;
  }

  lemma LeaseKnown(s: State, pid: Uuid, token: Uuid)
    requires Inv(s) && pid in s.db.rows && s.db.rows[pid].leaseToken == Some(token)
    ensures LastClaimedWith(s.leaseLog, pid, token) && LogOk(s.leaseLog, s.tokens)
  {
    hide CoreOk, CopiesOk, SentOk, RelaysOk, CallsOk, LogOk, TasksOk, WebhooksOk, LastClaimedWith;
  }

  // ----- all steps, all runs --------------------------------------------------------------------------------

  lemma InitOk(s: State)
    requires Init(s)
    ensures Inv(s)
  {
  }

  lemma StepKeeps(s: State, step: Step, s': State)
    requires Inv(s) && Next(s, step, s')
    ensures Inv(s')
  {
    hide Inv;
    match step
    case ApiDoes(a) => ApiKeeps(s, a, s');
    case RelayDoes(a) => RelayKeeps(s, a, s');
    case BrokerDoes(m) => BrokerKeeps(s, m, s');
    case WorkerDoes(a) => WorkKeeps(s, a, s');
    case ProviderServes(request, answer) => ProviderKeeps(s, request, answer, s');
    case ReconcilerDoes(a) => ReconcileKeeps(s, a, s');
  }

  /** The invariant holds in every state of every run. */
  lemma {:induction false} RunKeeps(states: seq<State>, steps: seq<Step>, k: nat)
    requires IsRun(states, steps) && k < |states|
    ensures Inv(states[k])
  {
    hide Inv;
    if k == 0 {
      InitOk(states[0]);
    } else {
      RunKeeps(states, steps, k - 1);
      StepKeeps(states[k - 1], steps[k - 1], states[k]);
    }
  }
}
