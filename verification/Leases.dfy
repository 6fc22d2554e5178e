/** Reconciliation leases: fencing without trusting any clock, and the attempt budget. */
module Leases {
  import opened Model
  import opened Transactions
  import opened System
  import opened Invariant
  import opened Preservation
  import opened Evolution

  /** `log[i]` is the claim of `pid` with `token`, and nobody claimed or persisted that
      payment after it and before position `j`. */
  predicate UndisturbedSince(log: seq<LeaseEvent>, i: nat, j: nat, pid: Uuid, token: Uuid)
    requires i < j <= |log|
  {
    && log[i].ClaimEvent? && log[i].token == token && pid in log[i].ids
    && forall m :: i < m < j ==> !Touches(log[m], pid)
  }

  lemma {:induction false} LastTouchAt(log: seq<LeaseEvent>, pid: Uuid) returns (i: nat)
    requires LastTouch(log, pid).Some?
    ensures i < |log| && log[i] == LastTouch(log, pid).value && Touches(log[i], pid)
    ensures forall m :: i < m < |log| ==> !Touches(log[m], pid)
  {
    i := |log| - 1;
    if !Touches(log[i], pid) {
      i := LastTouchAt(log[..|log| - 1], pid);
      assert forall m :: i < m < |log| - 1 ==> log[m] == log[..|log| - 1][m];
    }
  }

  lemma LogFenced(log: seq<LeaseEvent>, tokens: set<Uuid>, j: nat) returns (i: nat)
    requires LogOk(log, tokens) && j < |log| && log[j].PersistEvent?
    ensures i < j && UndisturbedSince(log, i, j, log[j].pid, log[j].token)
  {
    i := LastTouchAt(log[..j], log[j].pid);
    assert log[i] == log[..j][i];
    assert forall m :: i < m < j ==> log[m] == log[..j][m];
  }

  /** In every run, whatever the clocks say: a persist that took effect was preceded by
      its token's claim of the payment with no claim or persist of it in between. */
  lemma Fencing(states: seq<State>, steps: seq<Step>, k: nat, j: nat)
    requires IsRun(states, steps) && k < |states|
    requires j < |states[k].leaseLog| && states[k].leaseLog[j].PersistEvent?
    ensures var log := states[k].leaseLog;
            exists i :: 0 <= i < j && UndisturbedSince(log, i, j, log[j].pid, log[j].token)
  {
    hide Next, Init, CoreOk, CopiesOk, SentOk, RelaysOk, CallsOk, TasksOk, LogOk, LeasesOk, WebhooksOk,
         UndisturbedSince;
    RunKeeps(states, steps, k);
    var i := LogFenced(states[k].leaseLog, states[k].tokens, j);
  }

  /** No token persists the same payment twice. */
  lemma PersistsOnce(states: seq<State>, steps: seq<Step>, k: nat, i: nat, j: nat)
    requires IsRun(states, steps) && k < |states| && i < j < |states[k].leaseLog|
    requires states[k].leaseLog[i].PersistEvent? && states[k].leaseLog[j].PersistEvent?
    ensures states[k].leaseLog[i] != states[k].leaseLog[j]
  {
    hide Next, Init, CoreOk, CopiesOk, SentOk, RelaysOk, CallsOk, TasksOk, LeasesOk, WebhooksOk,
         LastTouch, LastClaimedWith;
    RunKeeps(states, steps, k);
    var log := states[k].leaseLog;
    if log[i].pid == log[j].pid {
      var a := LogFenced(log, states[k].tokens, i);
      var b := LogFenced(log, states[k].tokens, j);
      assert a < b;
    }
  }

  /** The log is what happened: a persist that finds its lease is logged, gives the lease
      up, and settles the payment or costs it one attempt; any other persist changes nothing. */
  lemma PersistIsLogged(s: State, a: ReconcileStep, s': State)
    requires LeasesOk(s.db.rows, s.leaseLog) && a.Persist? && ReconcileNext(s, a, s')
    ensures var t := a.task;
            || (s'.leaseLog == s.leaseLog && s'.db == s.db)
            || (&& s'.leaseLog == s.leaseLog + [PersistEvent(t.pid, t.token)]
                && LastClaimedWith(s.leaseLog, t.pid, t.token)
                && t.pid in s.db.rows && s.db.rows[t.pid].leaseToken == Some(t.token)
                && s.db.rows[t.pid].status == Unknown
                && s'.db.rows[t.pid].leaseToken.None?
                && (s.tasks[t].answer.None? ==>
                      && s'.db.rows[t.pid].status == Unknown && s'.db.outbox == s.db.outbox
                      && s'.db.rows[t.pid].attempts == s.db.rows[t.pid].attempts + 1)
                && (s.tasks[t].answer.Some? ==>
                      && Terminal(s'.db.rows[t.pid].status)
                      && s'.db.rows[t.pid].attempts == s.db.rows[t.pid].attempts
                      && s'.db.outbox.Keys == s.db.outbox.Keys + {a.wid}))
  {
  }

  // ----- the attempt budget -----------------------------------------------------------------------

  /** Attempts never exceed the budget; manual review is required exactly when they
      reach it; such a payment is never claimable, holds no lease, and never changes again. */
  lemma AttemptBudget(states: seq<State>, steps: seq<Step>, i: nat, j: nat, pid: Uuid, now: Time, stale: Time)
    requires IsRun(states, steps) && i <= j < |states| && pid in states[i].db.rows
    ensures var r := states[i].db.rows[pid];
            && r.attempts <= states[i].budget
            && (r.review <==> r.attempts == states[i].budget)
            && (r.review ==>
                  && r.status == Unknown && r.leaseToken.None? && !Claimable(r, stale, now)
                  && (forall token :: !HoldsLease(r, token, now))
                  && pid in states[j].db.rows && states[j].db.rows[pid] == r)
            && pid in states[j].db.rows && r.attempts <= states[j].db.rows[pid].attempts
  {
    hide Next, Init, FlightOk, OutboxOk, RecordsOk, PostsOk, IndexOk, EventsOk, AgreesOk, OutboxEvolves,
         RecordsEvolve;
    RunKeeps(states, steps, i);
    RunEvolves(states, steps, i, j);
    assert RowOk(states[i].db.rows[pid], states[i].budget);
    assert RowEvolves(states[i].db.rows[pid], states[j].db.rows[pid]);
  }
}
