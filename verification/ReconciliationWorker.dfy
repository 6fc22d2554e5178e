/** One reconciliation batch: claim, then for each payment renew the lease, look the
    payment up at the provider, and persist what was found. */
module Reconciliation {
  import opened Model
  import opened Selection
  import opened Transactions
  import opened Storage
  import ProviderClient
  import MockProvider
  import System

  /** How the lookup through the circuit breaker ended. */
  datatype LookupEnd = Looked(outcome: ProviderClient.LookupOutcome) | BreakerOpen | Crashed

  /** One transaction: the state others leave before it, its clock readings, its fate. */
  datatype Turn = Turn(theirs: Db, now: Time, at: Time, fate: CommitFate)

  /** What happens around one payment of the batch. */
  datatype Visit = Visit(
    renewal: Turn,
    lookup: LookupEnd,
    persist: Turn, wid: Uuid, processedAt: Time, createdAt: Time)

  /** A finished step, or the exception that `process_batch` swallows. */
  datatype Step<T> = Value(value: T) | Raised

  /** How many changes of a journal moved a payment to a final status. */
  function Resolutions(journal: seq<Change>): nat {
    if journal == [] then 0
    else
      var last := journal[|journal| - 1];
      Resolutions(journal[..|journal| - 1])
      + if !Terminal(last.before.status) && Terminal(last.after.status) then 1 else 0
  }

  lemma ResolutionsGrow(journal: seq<Change>, change: Change)
    ensures Resolutions(journal + [change]) ==
              Resolutions(journal)
              + if !Terminal(change.before.status) && Terminal(change.after.status) then 1 else 0
  {
  }

  class PaymentReconciliationWorker {
    const db: Database
    const batchSize: nat
    const maxAttempts: nat

    constructor (db: Database, batchSize: nat, maxAttempts: nat)
      requires batchSize >= 1 && maxAttempts >= 1
      ensures this.db == db && this.batchSize == batchSize && this.maxAttempts == maxAttempts
    {
      this.db, this.batchSize, this.maxAttempts := db, batchSize, maxAttempts;
    }

    /** `taken` is the batch the claim selected, whether or not its commit is acknowledged. */
    method ClaimBatch(turn: Turn, token: Uuid, staleAfter: nat, leaseTime: nat, skipped: set<Uuid>)
      returns (claim: Step<seq<Uuid>>, ghost taken: seq<Uuid>)
      modifies db
      ensures db.journal == old(db.journal)
      ensures claim == if turn.fate == Acked then Value(taken) else Raised
      ensures db.Value() == if turn.fate == RolledBack then turn.theirs else AfterClaim(turn, taken, token, leaseTime)
      ensures IsFirst(UpdatedTimes(turn.theirs.rows),
                      ClaimCandidates(turn.theirs.rows, turn.now - staleAfter, turn.now) - skipped, batchSize, taken)
      ensures turn.fate != RolledBack ==>
                forall p :: p in taken ==>
                  && p in turn.theirs.rows && p in db.rows
                  && db.rows[p] == turn.theirs.rows[p].(leaseToken := Some(token), updatedAt := turn.at,
                                                        leaseUntil := Some(turn.now + leaseTime))
    {
      db.Interfere(turn.theirs);
      var repository := new PaymentRepository(db);
      var ids := repository.ClaimReconciliationBatch(turn.now - staleAfter, turn.now, token,
                                                     turn.now + leaseTime, batchSize, skipped, turn.at);
      taken := ids;
      if turn.fate == RolledBack {
        db.rows := turn.theirs.rows;
      }
      claim := if turn.fate == Acked then Value(ids) else Raised;
    }

    method RenewClaim(turn: Turn, pid: Uuid, token: Uuid, leaseTime: nat) returns (valid: Step<bool>)
      modifies db
      ensures db.journal == old(db.journal)
      ensures var (rows, renewed) := RenewLease(turn.theirs.rows, pid, token, turn.now, turn.now + leaseTime, turn.at);
              && (valid == Value(true) <==> renewed && turn.fate == Acked)
              && (valid == Value(false) <==> !renewed)
              && db.Value() == turn.theirs.(rows := if turn.fate == RolledBack then turn.theirs.rows else rows)
    {
      db.Interfere(turn.theirs);
      var repository := new PaymentRepository(db);
      var renewed := repository.RenewReconciliationLease(pid, token, turn.now, turn.now + leaseTime, turn.at);
      if !renewed {
        return Value(false);
      }
      if turn.fate == RolledBack {
        db.rows := turn.theirs.rows;
        return Raised;
      }
      return if turn.fate == Acked then Value(true) else Raised;
    }

    /** A failed lookup, for whatever known reason, reads like an unknown payment; an
        unexpected error is raised on. */
    method LookupProvider(end: LookupEnd) returns (answer: Step<Option<ProviderResponse>>)
      ensures answer == if end == Crashed then Raised else Value(Answered(end))
    {
      match end {
        case BreakerOpen => return Value(None);
        case Crashed => return Raised;
        case Looked(Found(response)) => return Value(Some(response));
        case Looked(_) => return Value(None);
      }
    }

    /** True exactly when the payment was moved to a final status and the commit acknowledged. */
    method PersistResolution(turn: Turn, pid: Uuid, token: Uuid, answer: Option<ProviderResponse>,
                             wid: Uuid, processedAt: Time, createdAt: Time)
      returns (reconciled: Step<bool>)
      modifies db
      ensures var (after, result) := Transactions.PersistResolution(
                turn.theirs, pid, token, answer, maxAttempts, turn.now, wid, processedAt, createdAt, turn.at);
              && (reconciled == Value(true) <==> result == Reconciled && turn.fate == Acked)
              && (reconciled == Raised <==> result != LeaseLost && turn.fate != Acked)
              && db.Value() == (if turn.fate == RolledBack then turn.theirs else after)
      ensures db.journal == old(db.journal)
                + PersistChanges(turn, pid, token, answer, maxAttempts, wid, processedAt, createdAt)
    {
      db.Interfere(turn.theirs);
      var repository := new PaymentRepository(db);
      var claimed := repository.GetClaimedPaymentForUpdate(pid, token, turn.now);
      if claimed == None {
        return Value(false);
      }
      var payment := claimed.value;
      if answer == None {
        payment := payment.(attempts := payment.attempts + 1);
        if payment.attempts >= maxAttempts {
          payment := payment.(review := true);
        }
        payment := payment.(leaseToken := None, leaseUntil := None, updatedAt := turn.at);
        var acked := db.CommitRow(pid, payment, db.outbox, turn.fate);
        return if acked then Value(false) else Raised;
      }
      var response := answer.value;
      if response.status == Approved {
        payment := payment.(status := Succeeded);
      } else {
        payment := payment.(status := Failed);
      }
      payment := payment.(providerId := Some(response.providerPaymentId), processedAt := Some(processedAt),
                          webhookId := Some(wid), leaseToken := None, leaseUntil := None, updatedAt := turn.at);
      var webhook := Envelope(wid, WebhookRequested, pid, 1, processedAt);
      var outbox := db.outbox[wid := OutboxRow(WebhookRequested, pid, webhook, createdAt, None)];
      var acked := db.CommitRow(pid, payment, outbox, turn.fate);
      return if acked then Value(true) else Raised;
    }

    /** The body of the loop over the batch, with the exceptions it swallows. */
    method ReconcilePayment(visit: Visit, pid: Uuid, token: Uuid, leaseTime: nat) returns (settled: bool)
      modifies db
      ensures settled <==> Resolves(visit, pid, token, maxAttempts) && visit.persist.fate == Acked
      ensures db.journal == old(db.journal) + VisitChanges(visit, pid, token, maxAttempts)
      ensures db.Value() == if Persists(visit, pid, token) then PersistLeaves(visit, pid, token, maxAttempts)
                            else RenewalLeaves(visit, pid, token, leaseTime)
    {
      hide HoldsLease, Transactions.PersistResolution, PersistChanges;
      var valid := RenewClaim(visit.renewal, pid, token, leaseTime);
      if valid != Value(true) {
        return false;
      }
      var answer := LookupProvider(visit.lookup);
      if answer == Raised {
        return false;
      }
      var persisted := PersistResolution(visit.persist, pid, token, answer.value,
                                         visit.wid, visit.processedAt, visit.createdAt);
      return persisted == Value(true);
    }

    /** `visits[i]` belongs to the i-th payment of the claimed batch.  Whatever others do
        in between and whichever steps raise, the process writes exactly the changes of its
        visits, leaves the database as its last transaction does, and counts the settlements
        whose commit was acknowledged. */
    method ProcessBatch(claim: Turn, token: Uuid, staleAfter: nat, leaseTime: nat, skipped: set<Uuid>,
                        visits: seq<Visit>)
      returns (count: Step<nat>, ghost ids: seq<Uuid>)
      requires |visits| >= batchSize
      modifies db
      ensures |ids| <= batchSize
      ensures IsFirst(UpdatedTimes(claim.theirs.rows),
                      ClaimCandidates(claim.theirs.rows, claim.now - staleAfter, claim.now) - skipped, batchSize, ids)
      ensures count == Raised <==> claim.fate != Acked
      ensures count == Raised ==>
                && db.journal == old(db.journal)
                && db.Value() == if claim.fate == RolledBack then claim.theirs
                                 else AfterClaim(claim, ids, token, leaseTime)
      ensures count.Value? ==>
                && db.journal == old(db.journal) + Changes(visits, ids, token, maxAttempts)
                && db.Value() == BatchLeaves(AfterClaim(claim, ids, token, leaseTime), visits, ids, token, leaseTime,
                                             maxAttempts)
                && count.value == Reported(visits, ids, token, maxAttempts)
                && Resolutions(db.journal) == Resolutions(old(db.journal)) + Resolved(visits, ids, token, maxAttempts)
      ensures count.Value? ==>
                var settled := Resolutions(db.journal) - Resolutions(old(db.journal));
                && count.value <= settled
                && (count.value == settled <==> !AcknowledgementLost(visits, ids, token, maxAttempts))
    {
      hide IsFirst, Resolutions, Resolves, Persists, VisitChanges, PersistLeaves, RenewalLeaves;
      var claimed;
      claimed, ids := ClaimBatch(claim, token, staleAfter, leaseTime, skipped);
      BatchLimit(claim, staleAfter, skipped, ids);
      if claimed == Raised {
        return Raised, ids;
      }
      var payments := claimed.value;
      var reconciled := 0;
      for i := 0 to |payments|
        invariant reconciled == Reported(visits, ids[..i], token, maxAttempts)
        invariant db.journal == old(db.journal) + Changes(visits, ids[..i], token, maxAttempts)
        invariant db.Value()
               == BatchLeaves(AfterClaim(claim, ids, token, leaseTime), visits, ids[..i], token, leaseTime, maxAttempts)
      {
        assert ids[..i + 1][..i] == ids[..i];
        var visit := visits[i];
        var settled := ReconcilePayment(visit, payments[i], token, leaseTime);
        if settled {
          reconciled := reconciled + 1;
        }
      }
      assert ids[..|ids|] == ids;
      count := Value(reconciled);
      ResolutionsOfChanges(old(db.journal), visits, ids, token, maxAttempts);
      CountExactIff(visits, ids, token, maxAttempts);
    }

    lemma BatchLimit(claim: Turn, staleAfter: nat, skipped: set<Uuid>, ids: seq<Uuid>)
      requires IsFirst(UpdatedTimes(claim.theirs.rows),
                       ClaimCandidates(claim.theirs.rows, claim.now - staleAfter, claim.now) - skipped,
                       batchSize, ids)
      ensures |ids| <= batchSize
    {
    }
  }

  // ----- what a batch writes --------------------------------------------------------------------

  function AfterClaim(turn: Turn, ids: seq<Uuid>, token: Uuid, leaseTime: nat): Db {
    turn.theirs.(rows := ClaimRows(turn.theirs.rows, Elements(ids), token, turn.now + leaseTime, turn.at))
  }

  /** The one change of a persist that finds its lease and whose commit takes effect. */
  function PersistChanges(turn: Turn, pid: Uuid, token: Uuid, answer: Option<ProviderResponse>, maxAttempts: nat,
                          wid: Uuid, processedAt: Time, createdAt: Time): seq<Change>
  {
    var (after, result) := Transactions.PersistResolution(
      turn.theirs, pid, token, answer, maxAttempts, turn.now, wid, processedAt, createdAt, turn.at);
    if result == LeaseLost || turn.fate == RolledBack then []
    else [Change(pid, turn.theirs.rows[pid], after.rows[pid])]
  }

  function VisitChanges(v: Visit, pid: Uuid, token: Uuid, maxAttempts: nat): seq<Change> {
    if Persists(v, pid, token)
    then PersistChanges(v.persist, pid, token, Answered(v.lookup), maxAttempts, v.wid, v.processedAt, v.createdAt)
    else []
  }

  function Changes(visits: seq<Visit>, ids: seq<Uuid>, token: Uuid, maxAttempts: nat): seq<Change>
    requires |ids| <= |visits|
  {
    if ids == [] then []
    else
      var n := |ids| - 1;
      Changes(visits, ids[..n], token, maxAttempts) + VisitChanges(visits[n], ids[n], token, maxAttempts)
  }

  function RenewalLeaves(v: Visit, pid: Uuid, token: Uuid, leaseTime: nat): Db {
    var t := v.renewal;
    if t.fate == RolledBack then t.theirs
    else t.theirs.(rows := RenewLease(t.theirs.rows, pid, token, t.now, t.now + leaseTime, t.at).0)
  }

  function PersistLeaves(v: Visit, pid: Uuid, token: Uuid, maxAttempts: nat): Db {
    if v.persist.fate == RolledBack then v.persist.theirs else PersistTx(v, pid, token, maxAttempts).0
  }

  /** The database after the last transaction of the batch, which began with `claimed`. */
  function BatchLeaves(claimed: Db, visits: seq<Visit>, ids: seq<Uuid>, token: Uuid, leaseTime: nat,
                       maxAttempts: nat): Db
    requires |ids| <= |visits|
  {
    if ids == [] then claimed
    else
      var n := |ids| - 1;
      if Persists(visits[n], ids[n], token) then PersistLeaves(visits[n], ids[n], token, maxAttempts)
      else RenewalLeaves(visits[n], ids[n], token, leaseTime)
  }

  /** What a visit writes, if it writes: an UNKNOWN payment gives up its lease and is
      settled as the provider says, or it costs one attempt, the last of which sends the
      payment to manual review. */
  lemma ChangeIsResolutionOrAttempt(v: Visit, pid: Uuid, token: Uuid, maxAttempts: nat)
    requires VisitChanges(v, pid, token, maxAttempts) != []
    ensures |VisitChanges(v, pid, token, maxAttempts)| == 1
    ensures var c := VisitChanges(v, pid, token, maxAttempts)[0];
            && c.pid == pid && c.before.status == Unknown && c.before.leaseToken == Some(token)
            && c.after.leaseToken.None? && c.after.leaseUntil.None?
            && (match Answered(v.lookup)
                case Some(a) =>
                  && Resolves(v, pid, token, maxAttempts)
                  && c.after.status == StatusOf(a.status) && c.after.providerId == Some(a.providerPaymentId)
                  && c.after.webhookId == Some(v.wid) && c.after.processedAt == Some(v.processedAt)
                  && c.after.attempts == c.before.attempts
                case None =>
                  && !Resolves(v, pid, token, maxAttempts)
                  && c.after.status == Unknown && c.after.attempts == c.before.attempts + 1
                  && (c.after.review <==> c.after.attempts >= maxAttempts))
  {
  }

  /** The token still holds an unexpired lease on the payment. */
  predicate StillLeased(turn: Turn, pid: Uuid, token: Uuid) {
    && pid in turn.theirs.rows
    && var r := turn.theirs.rows[pid];
       && r.status == Unknown && !r.review && r.leaseToken == Some(token)
       && r.leaseUntil.Some? && r.leaseUntil.value > turn.now
  }

  /** A visit writes exactly if it finds its lease unexpired both when it renews it, with
      acknowledgement, and when it persists, the lookup not having crashed in between, and
      the commit takes effect. */
  lemma VisitWritesIff(v: Visit, pid: Uuid, token: Uuid, maxAttempts: nat)
    ensures VisitChanges(v, pid, token, maxAttempts) != [] <==>
              && StillLeased(v.renewal, pid, token) && v.renewal.fate == Acked
              && v.lookup != Crashed
              && StillLeased(v.persist, pid, token) && v.persist.fate != RolledBack
  {
  }

  /** The webhook event that is stored with a resolution. */
  lemma ResolutionStoresEvent(v: Visit, pid: Uuid, token: Uuid, maxAttempts: nat)
    requires Resolves(v, pid, token, maxAttempts)
    ensures var outbox := PersistLeaves(v, pid, token, maxAttempts).outbox;
            && v.wid in outbox && outbox == v.persist.theirs.outbox[v.wid := outbox[v.wid]]
            && var o := outbox[v.wid];
               && o.kind == WebhookRequested && o.paymentId == pid
               && o.createdAt == v.createdAt && o.publishedAt.None?
               && o.payload.eventId == v.wid && o.payload.kind == WebhookRequested && o.payload.paymentId == pid
               && o.payload.attempt == 1 && o.payload.occurredAt == v.processedAt
  {
  }

  lemma {:induction false} ResolutionsOfChanges(journal: seq<Change>, visits: seq<Visit>, ids: seq<Uuid>,
                                                token: Uuid, maxAttempts: nat)
    requires |ids| <= |visits|
    ensures Resolutions(journal + Changes(visits, ids, token, maxAttempts))
         == Resolutions(journal) + Resolved(visits, ids, token, maxAttempts)
  {
    var changes := Changes(visits, ids, token, maxAttempts);
    if ids == [] {
      assert journal + changes == journal;
    } else {
      var n := |ids| - 1;
      var before := journal + Changes(visits, ids[..n], token, maxAttempts);
      var last := VisitChanges(visits[n], ids[n], token, maxAttempts);
      ResolutionsOfChanges(journal, visits, ids[..n], token, maxAttempts);
      assert journal + changes == before + last;
      ResolutionsOfVisit(before, visits[n], ids[n], token, maxAttempts);
    }
  }

  lemma ResolutionsOfVisit(journal: seq<Change>, v: Visit, pid: Uuid, token: Uuid, maxAttempts: nat)
    ensures Resolutions(journal + VisitChanges(v, pid, token, maxAttempts))
         == Resolutions(journal) + if Resolves(v, pid, token, maxAttempts) then 1 else 0
  {
    var changes := VisitChanges(v, pid, token, maxAttempts);
    if changes == [] {
      assert journal + changes == journal;
    } else {
      ChangeIsResolutionOrAttempt(v, pid, token, maxAttempts);
      ResolutionsGrow(journal, changes[0]);
    }
  }

  // ----- a visit as steps of the system -----------------------------------------------------------

  /** A well-formed 2xx reply to a lookup is the provider's record; any other reply, and no
      reply (None), may come at any time. */
  predicate FromProvider(records: map<Uuid, Record>, key: Uuid, reply: Option<ProviderClient.Reply>) {
    reply.Some? && reply.value.Http? && 200 <= reply.value.code < 300 && reply.value.body.Some? ==>
      reply.value.body == MockProvider.Recorded(records, key)
  }

  /** However a lookup ends that was answered by the provider, or not at all, it yields
      nothing or the provider's record. */
  lemma LookupYieldsRecord(records: map<Uuid, Record>, key: Uuid, reply: Option<ProviderClient.Reply>, end: LookupEnd)
    requires FromProvider(records, key, reply)
    requires end == Looked(ProviderClient.Lookup(reply)) || end == BreakerOpen
    ensures Answered(end) == None || Answered(end) == MockProvider.Recorded(records, key)
    ensures forall a :: Answered(end) == Some(a) <==>
              && end != BreakerOpen
              && reply.Some? && reply.value.Http? && 200 <= reply.value.code < 300 && reply.value.body == Some(a)
  {
  }

  ghost predicate Reconciles(s: System.State, s': System.State) {
    exists a :: System.ReconcileNext(s, a, s')
  }

  /** A visit refines the reconciliation steps of the system.  Its three parts start in the
      states that others have made of the system by then: `s` before the renewal, `looking`
      before the lookup, `writing` before the persist.  Each part is one step, leaves the
      database and the task as the visit does, and the persist is logged exactly when the
      visit writes its change. */
  lemma VisitRefinesSteps(v: Visit, t: System.Task, leaseTime: nat, maxAttempts: nat,
                          s: System.State, looking: System.State, writing: System.State)
    returns (renewed: System.State, looked: System.State, written: System.State)
    requires t in s.tasks && s.tasks[t] == System.Claimed && s.db == v.renewal.theirs
    requires t in looking.tasks && looking.tasks[t] == System.Renewed
    requires Answered(v.lookup) == None || Answered(v.lookup) == MockProvider.Recorded(looking.records, t.pid)
    requires t in writing.tasks && writing.tasks[t] == System.LookedUp(Answered(v.lookup))
    requires writing.db == v.persist.theirs && writing.budget == maxAttempts && v.wid !in writing.db.outbox
    ensures Reconciles(s, renewed) && renewed.db == RenewalLeaves(v, t.pid, t.token, leaseTime)
    ensures if Renews(v, t.pid, t.token) then renewed.tasks == s.tasks[t := System.Renewed]
            else renewed.tasks == s.tasks - {t}
    ensures Reconciles(looking, looked) && looked.db == looking.db
    ensures if v.lookup == Crashed then looked.tasks == looking.tasks - {t}
            else looked.tasks == looking.tasks[t := System.LookedUp(Answered(v.lookup))]
    ensures Reconciles(writing, written) && written.tasks == writing.tasks - {t}
    ensures Persists(v, t.pid, t.token) ==>
              && written.db == PersistLeaves(v, t.pid, t.token, maxAttempts)
              && written.leaseLog == writing.leaseLog
                   + if VisitChanges(v, t.pid, t.token, maxAttempts) == [] then []
                     else [System.PersistEvent(t.pid, t.token)]
  {
    renewed := RenewalIsStep(v, t, leaseTime, s);
    looked := LookupIsStep(v, t, looking);
    written := PersistIsStep(v, t, maxAttempts, writing);
  }

  /** A claim whose commit takes effect is one claim step of the system. */
  lemma ClaimIsStep(turn: Turn, token: Uuid, staleAfter: nat, leaseTime: nat, limit: nat, skipped: set<Uuid>,
                    ids: seq<Uuid>, s: System.State)
    returns (s': System.State)
    requires s.db == turn.theirs && token !in s.tokens
    requires IsFirst(UpdatedTimes(turn.theirs.rows),
                     ClaimCandidates(turn.theirs.rows, turn.now - staleAfter, turn.now) - skipped, limit, ids)
    ensures Reconciles(s, s') && s'.db == AfterClaim(turn, ids, token, leaseTime)
    ensures forall p :: p in ids && System.Task(token, p) !in s.tasks ==>
              System.Task(token, p) in s'.tasks && s'.tasks[System.Task(token, p)] == System.Claimed
  {
    hide IsFirst;
    var taken := Elements(ids);
    s' := s.(db := AfterClaim(turn, ids, token, leaseTime),
             tasks := map t | t in s.tasks.Keys + (set p | p in taken :: System.Task(token, p)) ::
                        if t in s.tasks then s.tasks[t] else System.Claimed,
             tokens := s.tokens + {token},
             leaseLog := s.leaseLog + [System.ClaimEvent(taken, token)]);
    assert System.ReconcileNext(
        s, System.Claim(token, ids, limit, skipped, turn.now - staleAfter, turn.now, turn.now + leaseTime, turn.at), s');
  }

  lemma RenewalIsStep(v: Visit, t: System.Task, leaseTime: nat, s: System.State) returns (s': System.State)
    requires t in s.tasks && s.tasks[t] == System.Claimed && s.db == v.renewal.theirs
    ensures Reconciles(s, s') && s'.db == RenewalLeaves(v, t.pid, t.token, leaseTime)
    ensures if Renews(v, t.pid, t.token) then s'.tasks == s.tasks[t := System.Renewed]
            else s'.tasks == s.tasks - {t}
  {
    s' := s.(db := RenewalLeaves(v, t.pid, t.token, leaseTime),
             tasks := if Renews(v, t.pid, t.token) then s.tasks[t := System.Renewed] else s.tasks - {t});
    if v.renewal.fate == RolledBack {
      assert System.ReconcileNext(s, System.Drop(t), s');
    } else {
      assert System.ReconcileNext(
          s, System.Renew(t, v.renewal.now, v.renewal.now + leaseTime, v.renewal.at, v.renewal.fate == Acked), s');
    }
  }

  lemma LookupIsStep(v: Visit, t: System.Task, s: System.State) returns (s': System.State)
    requires t in s.tasks && s.tasks[t] == System.Renewed
    requires Answered(v.lookup) == None || Answered(v.lookup) == MockProvider.Recorded(s.records, t.pid)
    ensures Reconciles(s, s') && s'.db == s.db
    ensures if v.lookup == Crashed then s'.tasks == s.tasks - {t}
            else s'.tasks == s.tasks[t := System.LookedUp(Answered(v.lookup))]
  {
    var answer := Answered(v.lookup);
    if v.lookup == Crashed {
      s' := s.(tasks := s.tasks - {t});
      assert System.ReconcileNext(s, System.Drop(t), s');
    } else {
      s' := s.(tasks := s.tasks[t := System.LookedUp(answer)]);
      assert System.ReconcileNext(s, System.Lookup(t, answer.Some?), s');
    }
  }

  lemma PersistIsStep(v: Visit, t: System.Task, maxAttempts: nat, s: System.State) returns (s': System.State)
    requires t in s.tasks && s.tasks[t] == System.LookedUp(Answered(v.lookup))
    requires s.db == v.persist.theirs && s.budget == maxAttempts && v.wid !in s.db.outbox
    ensures Reconciles(s, s') && s'.tasks == s.tasks - {t}
    ensures s'.db == PersistLeaves(v, t.pid, t.token, maxAttempts)
    ensures Persists(v, t.pid, t.token) ==>
              s'.leaseLog == s.leaseLog + if VisitChanges(v, t.pid, t.token, maxAttempts) == [] then []
                                          else [System.PersistEvent(t.pid, t.token)]
  {
    hide Transactions.PersistResolution;
    var (after, result) := PersistTx(v, t.pid, t.token, maxAttempts);
    if v.persist.fate == RolledBack {
      s' := s.(tasks := s.tasks - {t});
      assert System.ReconcileNext(s, System.Drop(t), s');
    } else {
      s' := s.(db := after, tasks := s.tasks - {t},
               leaseLog := if result == LeaseLost then s.leaseLog
                           else s.leaseLog + [System.PersistEvent(t.pid, t.token)]);
      assert System.ReconcileNext(
          s, System.Persist(t, v.persist.now, v.wid, v.processedAt, v.createdAt, v.persist.at), s');
    }
  }

  // ----- which visits count -------------------------------------------------------------------

  /** What a lookup hands on to the persist step. */
  function Answered(end: LookupEnd): Option<ProviderResponse> {
    if end.Looked? && end.outcome.Found? then Some(end.outcome.answer) else None
  }

  /** The visit gets as far as the persist: the lease is renewed, with acknowledgement,
      and the lookup does not crash. */
  predicate Persists(v: Visit, pid: Uuid, token: Uuid) {
    Renews(v, pid, token) && v.lookup != Crashed
  }

  predicate Renews(v: Visit, pid: Uuid, token: Uuid) {
    && pid in v.renewal.theirs.rows && HoldsLease(v.renewal.theirs.rows[pid], token, v.renewal.now)
    && v.renewal.fate == Acked
  }

  function PersistTx(v: Visit, pid: Uuid, token: Uuid, maxAttempts: nat): (Db, PersistResult) {
    Transactions.PersistResolution(v.persist.theirs, pid, token, Answered(v.lookup), maxAttempts, v.persist.now,
                                   v.wid, v.processedAt, v.createdAt, v.persist.at)
  }

  /** The visit persists, still holds the lease then, has an answer, and its commit takes effect. */
  predicate Resolves(v: Visit, pid: Uuid, token: Uuid, maxAttempts: nat) {
    && Persists(v, pid, token)
    && PersistTx(v, pid, token, maxAttempts).1 == Reconciled
    && v.persist.fate != RolledBack
  }

  function Resolved(visits: seq<Visit>, ids: seq<Uuid>, token: Uuid, maxAttempts: nat): nat
    requires |ids| <= |visits|
  {
    if ids == [] then 0
    else
      var n := |ids| - 1;
      Resolved(visits, ids[..n], token, maxAttempts)
      + if Resolves(visits[n], ids[n], token, maxAttempts) then 1 else 0
  }

  function Reported(visits: seq<Visit>, ids: seq<Uuid>, token: Uuid, maxAttempts: nat): nat
    requires |ids| <= |visits|
  {
    if ids == [] then 0
    else
      var n := |ids| - 1;
      Reported(visits, ids[..n], token, maxAttempts)
      + if Resolves(visits[n], ids[n], token, maxAttempts) && visits[n].persist.fate == Acked then 1 else 0
  }

  /** The visit settles its payment by a commit whose acknowledgement is lost. */
  predicate Unreported(v: Visit, pid: Uuid, token: Uuid, maxAttempts: nat) {
    Resolves(v, pid, token, maxAttempts) && v.persist.fate == LostAck
  }

  ghost predicate AcknowledgementLost(visits: seq<Visit>, ids: seq<Uuid>, token: Uuid, maxAttempts: nat)
    requires |ids| <= |visits|
  {
    exists i :: 0 <= i < |ids| && Unreported(visits[i], ids[i], token, maxAttempts)
  }

  /** The count never overstates, and it is exact if and only if no resolving commit lost
      its acknowledgement. */
  lemma {:induction false} CountExactIff(visits: seq<Visit>, ids: seq<Uuid>, token: Uuid, maxAttempts: nat)
    requires |ids| <= |visits|
    ensures Reported(visits, ids, token, maxAttempts) <= Resolved(visits, ids, token, maxAttempts)
    ensures Reported(visits, ids, token, maxAttempts) == Resolved(visits, ids, token, maxAttempts) <==>
              !AcknowledgementLost(visits, ids, token, maxAttempts)
  {
    if ids != [] {
      var n := |ids| - 1;
      CountExactIff(visits, ids[..n], token, maxAttempts);
      LostAtLast(visits, ids, token, maxAttempts);
      VisitCounts(visits[n], ids[n], token, maxAttempts);
      hide Resolves, Unreported, AcknowledgementLost;
    }
  }

  lemma VisitCounts(v: Visit, pid: Uuid, token: Uuid, maxAttempts: nat)
    ensures Resolves(v, pid, token, maxAttempts) <==>
              || Unreported(v, pid, token, maxAttempts)
              || (Resolves(v, pid, token, maxAttempts) && v.persist.fate == Acked)
    ensures !(Unreported(v, pid, token, maxAttempts) && v.persist.fate == Acked)
  {
  }

  lemma LostAtLast(visits: seq<Visit>, ids: seq<Uuid>, token: Uuid, maxAttempts: nat)
    requires 1 <= |ids| <= |visits|
    ensures var n := |ids| - 1;
            AcknowledgementLost(visits, ids, token, maxAttempts) <==>
              || AcknowledgementLost(visits, ids[..n], token, maxAttempts)
              || Unreported(visits[n], ids[n], token, maxAttempts)
  {
    hide Unreported;
    var n := |ids| - 1;
    if i :| 0 <= i < n && Unreported(visits[i], ids[i], token, maxAttempts) {
      assert ids[..n][i] == ids[i];
    }
  }

  /** The other case is possible: a batch call that settles one payment, by a commit that
      takes effect but is not acknowledged, and returns zero. */
  method CountCanFallShort() returns (count: Step<nat>, db: Database, ghost visits: seq<Visit>, ghost ids: seq<Uuid>)
    ensures ids == [7] && |visits| == 1
    ensures db.journal == Changes(visits, ids, 1, 5) && Resolutions(db.journal) == Resolved(visits, ids, 1, 5) == 1
    ensures count == Value(0) && Reported(visits, ids, 1, 5) == 0
    ensures 7 in db.rows && db.rows[7].status == Succeeded
  {
    var data := PaymentData(100, USD, None, "{}", "https://client.example/hook");
    var row := NewRow(data, "order-1", 0).(status := Unknown);
    var before := Db(map[7 := row], map["order-1" := 7], map[]);
    var held := before.(rows := map[7 := row.(leaseToken := Some(1), leaseUntil := Some(160))]);
    var lookup := Looked(ProviderClient.Found(ProviderResponse(9, Approved)));
    var visit := Visit(Turn(held, 110, 110, Acked), lookup, Turn(held, 120, 120, LostAck), 8, 120, 120);
    visits := [visit];
    db := new Database(before);
    var worker := new PaymentReconciliationWorker(db, 1, 5);
    count, ids := worker.ProcessBatch(Turn(before, 100, 100, Acked), 1, 30, 60, {}, [visit]);
    hide IsFirst, Changes, BatchLeaves, Reported, Resolved, Resolutions, AcknowledgementLost;
    OnlyCandidate(before.rows, ids);
    LostVisit(visit, held);
    OneVisit(AfterClaim(Turn(before, 100, 100, Acked), ids, 1, 60), visit);
    assert Resolutions([]) == 0 by { NothingResolved(); }
  }

  lemma NothingResolved()
    ensures Resolutions([]) == 0
  {
  }

  lemma OnlyCandidate(rows: map<Uuid, Row>, ids: seq<Uuid>)
    requires rows.Keys == {7} && Claimable(rows[7], 70, 100)
    requires IsFirst(UpdatedTimes(rows), ClaimCandidates(rows, 70, 100) - {}, 1, ids)
    ensures ids == [7]
  {
    assert 7 in ClaimCandidates(rows, 70, 100) - {};
  }

  lemma OneVisit(claimed: Db, visit: Visit)
    requires Persists(visit, 7, 1) && Resolves(visit, 7, 1, 5) && visit.persist.fate == LostAck
    ensures Resolved([visit], [7], 1, 5) == 1 && Reported([visit], [7], 1, 5) == 0
    ensures BatchLeaves(claimed, [visit], [7], 1, 60, 5) == PersistLeaves(visit, 7, 1, 5)
  {
    hide Persists, Resolves, PersistLeaves;
    assert [7][..0] == [];
  }

  lemma LostVisit(visit: Visit, held: Db)
    requires 7 in held.rows && held.rows[7].status == Unknown && !held.rows[7].review
    requires held.rows[7].leaseToken == Some(1) && held.rows[7].leaseUntil == Some(160)
    requires visit.renewal == Turn(held, 110, 110, Acked) && visit.persist == Turn(held, 120, 120, LostAck)
    requires visit.lookup == Looked(ProviderClient.Found(ProviderResponse(9, Approved)))
    ensures Persists(visit, 7, 1) && Resolves(visit, 7, 1, 5)
    ensures var db := PersistLeaves(visit, 7, 1, 5); 7 in db.rows && db.rows[7].status == Succeeded
  {
  }
}
