/** The shared database as an object, and the two repositories over it.  Between two
    transactions of one caller others may commit anything: `Interfere` puts the
    database into the state they leave behind. */
module Storage {
  import opened Model
  import opened Selection
  import opened Transactions

  /** A commit takes effect and is acknowledged, or raises; when it raises it may still
      have taken effect. */
  datatype CommitFate = Acked | LostAck | RolledBack

  /** One committed change of a payment row. */
  datatype Change = Change(pid: Uuid, before: Row, after: Row)

  class Database {
    var rows: map<Uuid, Row>
    var byKey: map<string, Uuid>
    var outbox: map<Uuid, OutboxRow>
    /** What this process did to payment rows by `CommitRow`, that is, in its own transactions
        other than claims and renewals. */
    ghost var journal: seq<Change>

    ghost function Value(): Db
      reads this
    {
      Db(rows, byKey, outbox)
    }

    constructor (db: Db)
      ensures Value() == db && journal == []
    {
      rows, byKey, outbox, journal := db.rows, db.byKey, db.outbox, [];
    }

    method Interfere(theirs: Db)
      modifies this
      ensures Value() == theirs && journal == old(journal)
    {
      rows, byKey, outbox := theirs.rows, theirs.byKey, theirs.outbox;
    }

    /** Ends a transaction that changed the row of `pid` and perhaps the outbox. */
    method CommitRow(pid: Uuid, r: Row, newOutbox: map<Uuid, OutboxRow>, fate: CommitFate) returns (acked: bool)
      requires pid in rows
      modifies this
      ensures acked <==> fate == Acked
      ensures fate == RolledBack ==> Value() == old(Value()) && journal == old(journal)
      ensures fate != RolledBack ==>
                && Value() == old(Value()).(rows := old(rows)[pid := r], outbox := newOutbox)
                && journal == old(journal) + [Change(pid, old(rows)[pid], r)]
    {
      if fate != RolledBack {
        journal := journal + [Change(pid, rows[pid], r)];
        rows, outbox := rows[pid := r], newOutbox;
      }
      acked := fate == Acked;
    }
  }

  class PaymentRepository {
    const db: Database

    constructor (db: Database)
      ensures this.db == db
    {
      this.db := db;
    }

    method GetByIdempotencyKey(key: string) returns (pid: Option<Uuid>)
      ensures pid == if key in db.byKey then Some(db.byKey[key]) else None
    {
      return if key in db.byKey then Some(db.byKey[key]) else None;
    }

    /** Also `get_by_id_for_update`: the caller's transaction is not interrupted. */
    method GetById(pid: Uuid) returns (r: Option<Row>)
      ensures r == if pid in db.rows then Some(db.rows[pid]) else None
    {
      return if pid in db.rows then Some(db.rows[pid]) else None;
    }

    method ClaimReconciliationBatch(staleBefore: Time, now: Time, token: Uuid, until: Time, batchSize: nat,
                                    skipped: set<Uuid>, at: Time)
      returns (ids: seq<Uuid>)
      modifies db`rows
      ensures IsFirst(UpdatedTimes(old(db.rows)), ClaimCandidates(old(db.rows), staleBefore, now) - skipped,
                      batchSize, ids)
      ensures db.rows == ClaimRows(old(db.rows), Elements(ids), token, until, at)
    {
      var selected := db.rows;
      var candidates := set p | p in selected && p !in skipped
        && selected[p].status == Unknown && selected[p].review == false && selected[p].updatedAt <= staleBefore
        && (selected[p].leaseUntil == None || selected[p].leaseUntil.value <= now);
      assert candidates == ClaimCandidates(selected, staleBefore, now) - skipped;
      ids := SelectFirst(UpdatedTimes(selected), candidates, batchSize);
      for i := 0 to |ids|
        invariant db.rows == ClaimRows(selected, Elements(ids[..i]), token, until, at)
      {
        var p := ids[i];
        assert Elements(ids[..i + 1]) == Elements(ids[..i]) + {p};
        assert p in candidates;
        db.rows := db.rows[p := selected[p].(leaseToken := Some(token), leaseUntil := Some(until), updatedAt := at)];
      }
      assert ids[..|ids|] == ids;
    }

    method RenewReconciliationLease(pid: Uuid, token: Uuid, now: Time, until: Time, at: Time) returns (renewed: bool)
      modifies db`rows
      ensures (db.rows, renewed) == RenewLease(old(db.rows), pid, token, now, until, at)
    {
      if pid !in db.rows {
        return false;
      }
      var payment := db.rows[pid];
      if payment.status == Unknown && !payment.review && payment.leaseToken == Some(token)
         && payment.leaseUntil != None && now < payment.leaseUntil.value {
        db.rows := db.rows[pid := payment.(leaseUntil := Some(until), updatedAt := at)];
        return true;
      }
      return false;
    }

    method GetClaimedPaymentForUpdate(pid: Uuid, token: Uuid, now: Time) returns (r: Option<Row>)
      ensures r.Some? <==> pid in db.rows && HoldsLease(db.rows[pid], token, now)
      ensures r.Some? ==> r.value == db.rows[pid]
    {
      var payment := GetById(pid);
      if payment == None || payment.value.status != Unknown || payment.value.review
         || payment.value.leaseToken != Some(token)
         || payment.value.leaseUntil == None || payment.value.leaseUntil.value <= now {
        return None;
      }
      return payment;
    }
  }

  class OutboxRepository {
    const db: Database

    constructor (db: Database)
      ensures this.db == db
    {
      this.db := db;
    }

    /** The first unpublished rows that no other open batch has locked; None is the
        ValueError for an empty limit. */
    method GetUnpublishedBatch(limit: nat, locked: set<Uuid>) returns (batch: Option<seq<Uuid>>)
      ensures batch.None? <==> limit < 1
      ensures batch.Some? ==>
                IsFirst(CreatedTimes(db.outbox), Unpublished(db.outbox, locked), limit, batch.value)
    {
      if limit < 1 {
        return None;
      }
      var free := set e | e in db.outbox && db.outbox[e].publishedAt == None && e !in locked;
      var first := SelectFirst(CreatedTimes(db.outbox), free, limit);
      return Some(first);
    }
  }
}
