/** Do leases keep two reconcilers off one payment?  Only while every task is over before
    its lease runs out: what an overlap needs, when one can come about, and one run in
    which it does. */
module Exclusivity {
  import opened Model
  import opened Selection
  import opened Transactions
  import opened System
  import opened Invariant
  import opened Starvation

  /** The task has renewed its lease and is looking its payment up or about to persist. */
  predicate Active(s: State, t: Task) {
    t in s.tasks && !s.tasks[t].Claimed?
  }

  predicate Overlap(s: State, p: Task, q: Task) {
    p != q && p.pid == q.pid && Active(s, p) && Active(s, q)
  }

  /** Since `s0` no other task has become active on the payment of `t`. */
  ghost predicate NoNewcomer(s0: State, s: State, t: Task) {
    forall q :: Active(s, q) && q.pid == t.pid ==> q == t || Active(s0, q)
  }

  /** The row still carries the task's token. */
  predicate Holds(s: State, t: Task) {
    && t.pid in s.db.rows
    && s.db.rows[t.pid].leaseToken == Some(t.token)
    && s.db.rows[t.pid].status == Unknown
  }

  // ----- when a claim can take a payment ------------------------------------------------------

  ghost predicate Takes(s: State, a: ReconcileStep, s': State, pid: Uuid, staleBefore: Time, now: Time) {
    && a.Claim? && pid in a.batch && a.staleBefore == staleBefore && a.now == now
    && ReconcileNext(s, a, s')
  }

  ghost predicate CanBeTaken(s: State, pid: Uuid, staleBefore: Time, now: Time) {
    exists a, s' :: Takes(s, a, s', pid, staleBefore, now)
  }

  lemma {:induction false} UpperBound(ids: set<Uuid>) returns (bound: Uuid)
    ensures forall x :: x in ids ==> x < bound
  {
    if ids == {} {
      bound := 0;
    } else {
      var x :| x in ids;
      bound := UpperBound(ids - {x});
      assert forall y :: y in ids ==> y == x || y in ids - {x};
      if bound <= x {
        bound := x + 1;
      }
    }
  }

  function WithTasks(tasks: map<Task, TaskPhase>, token: Uuid, ids: set<Uuid>): map<Task, TaskPhase> {
    map t | t in tasks.Keys + (set p | p in ids :: Task(token, p)) :: if t in tasks then tasks[t] else Claimed
  }

  /** A claim with room for the whole `batch`, when no row is locked. */
  function FullClaim(token: Uuid, batch: seq<Uuid>, staleBefore: Time, now: Time, until: Time): ReconcileStep {
    Claim(token, batch, |batch|, {}, staleBefore, now, until, now)
  }

  function AfterFullClaim(s: State, token: Uuid, ids: set<Uuid>, until: Time, now: Time): State {
    s.(db := s.db.(rows := ClaimRows(s.db.rows, ids, token, until, now)),
       tasks := WithTasks(s.tasks, token, ids),
       tokens := s.tokens + {token},
       leaseLog := s.leaseLog + [ClaimEvent(ids, token)])
  }

  lemma FullClaimTakes(s: State, pid: Uuid, token: Uuid, batch: seq<Uuid>, staleBefore: Time, now: Time, until: Time)
    requires IsFirst(UpdatedTimes(s.db.rows), ClaimCandidates(s.db.rows, staleBefore, now), |batch|, batch)
    requires pid in batch && token !in s.tokens
    ensures Takes(s, FullClaim(token, batch, staleBefore, now, until),
                  AfterFullClaim(s, token, Elements(batch), until, now), pid, staleBefore, now)
  {
    hide IsFirst, ClaimCandidates, UpdatedTimes, ClaimRows;
    assert ClaimCandidates(s.db.rows, staleBefore, now) - {} == ClaimCandidates(s.db.rows, staleBefore, now);
  }

  /** All that can be claimed, in order. */
  lemma CandidatesInOrder(s: State, pid: Uuid, staleBefore: Time, now: Time) returns (batch: seq<Uuid>)
    requires pid in s.db.rows && Claimable(s.db.rows[pid], staleBefore, now)
    ensures pid in batch
    ensures IsFirst(UpdatedTimes(s.db.rows), ClaimCandidates(s.db.rows, staleBefore, now), |batch|, batch)
  {
    batch := InOrder(UpdatedTimes(s.db.rows), ClaimCandidates(s.db.rows, staleBefore, now));
    assert pid in Elements(batch);
  }

  /** A claim can take a payment, whoever may be working on it, if and only if the payment
      is stale and its lease has run out on the claimer's clock. */
  lemma TakenIffClaimable(s: State, pid: Uuid, staleBefore: Time, now: Time)
    requires pid in s.db.rows
    ensures CanBeTaken(s, pid, staleBefore, now) <==> Claimable(s.db.rows[pid], staleBefore, now)
  {
    if Claimable(s.db.rows[pid], staleBefore, now) {
      var token := UpperBound(s.tokens);
      var batch := CandidatesInOrder(s, pid, staleBefore, now);
      FullClaimTakes(s, pid, token, batch, staleBefore, now, now);
    }
    if CanBeTaken(s, pid, staleBefore, now) {
      var a, s' :| Takes(s, a, s', pid, staleBefore, now);
      ClaimNeedsExpiry(s, a, s', pid);
    }
  }

  lemma ClaimNeedsExpiry(s: State, a: ReconcileStep, s': State, pid: Uuid)
    requires a.Claim? && pid in a.batch && ReconcileNext(s, a, s')
    ensures pid in s.db.rows && Claimable(s.db.rows[pid], a.staleBefore, a.now)
  {
    assert pid in ClaimCandidates(s.db.rows, a.staleBefore, a.now);
  }

  // ----- one step --------------------------------------------------------------------------------

  predicate RenewsWith(step: Step, t: Task, until: Time) {
    && step.ReconcilerDoes? && step.reconcile.Renew?
    && step.reconcile.task == t && step.reconcile.until == until && step.reconcile.acked
  }

  /** A task becomes active by an acknowledged renewal and in no other way. */
  lemma BecomesActive(s: State, step: Step, s': State, t: Task)
    requires Next(s, step, s') && Active(s', t)
    ensures if Active(s, t) then !(step.ReconcilerDoes? && step.reconcile.Renew? && step.reconcile.task == t)
            else step.ReconcilerDoes? && step.reconcile.Renew? && RenewsWith(step, t, step.reconcile.until)
                 && Holds(s', t) && s'.db.rows[t.pid].leaseUntil == Some(step.reconcile.until)
  {
    hide ApiNext, RelayNext, WorkNext, ReconcileNext, Broker.BrokerStep;
    if step.ReconcilerDoes? {
      ReconcilerActivates(s, step.reconcile, s', t);
    } else {
      TasksAside(s, step, s');
    }
  }

  lemma ReconcilerActivates(s: State, a: ReconcileStep, s': State, t: Task)
    requires ReconcileNext(s, a, s') && Active(s', t)
    ensures if Active(s, t) then !(a.Renew? && a.task == t)
            else a.Renew? && RenewsWith(ReconcilerDoes(a), t, a.until)
                 && Holds(s', t) && s'.db.rows[t.pid].leaseUntil == Some(a.until)
  {
    hide IsFirst, PersistResolution, ClaimRows;
  }

  lemma TasksAside(s: State, step: Step, s': State)
    requires Next(s, step, s') && !step.ReconcilerDoes?
    ensures s'.tasks == s.tasks
  {
    hide ApiNext, RelayNext, WorkNext, Broker.BrokerStep;
    match step
    case ApiDoes(a) => ApiLeavesTasks(s, a, s');
    case RelayDoes(a) => RelayLeavesTasks(s, a, s');
    case WorkerDoes(a) => WorkLeavesTasks(s, a, s');
    case _ =>
  }

  lemma ApiLeavesTasks(s: State, a: ApiStep, s': State)
    requires ApiNext(s, a, s')
    ensures s'.tasks == s.tasks
  {
  }

  lemma RelayLeavesTasks(s: State, a: RelayStep, s': State)
    requires RelayNext(s, a, s')
    ensures s'.tasks == s.tasks
  {
  }

  lemma WorkLeavesTasks(s: State, a: WorkStep, s': State)
    requires WorkNext(s, a, s')
    ensures s'.tasks == s.tasks
  {
  }

  /** While a task goes on and holds its lease, only a claim changes the row. */
  lemma HeldRowStays(s: State, step: Step, s': State, t: Task)
    requires Next(s, step, s') && Active(s, t) && Active(s', t) && Holds(s, t) && !Claims(step, t.pid)
    ensures t.pid in s'.db.rows && s'.db.rows[t.pid] == s.db.rows[t.pid]
  {
    hide ApiNext, RelayNext, WorkNext, ReconcileNext, Broker.BrokerStep;
    match step
    case ApiDoes(a) => ApiSpares(s, a, s', t.pid);
    case RelayDoes(a) => RelayTouches(s, a, s');
    case WorkerDoes(a) => WorkSpares(s, a, s', t.pid);
    case ReconcilerDoes(a) => HeldRowSpared(s, a, s', t);
    case _ =>
  }

  lemma HeldRowSpared(s: State, a: ReconcileStep, s': State, t: Task)
    requires ReconcileNext(s, a, s') && Active(s, t) && Active(s', t) && Holds(s, t)
    requires !Claims(ReconcilerDoes(a), t.pid)
    ensures t.pid in s'.db.rows && s'.db.rows[t.pid] == s.db.rows[t.pid]
  {
  }

  lemma NobodyComes(s0: State, s: State, step: Step, s': State, t: Task)
    requires Next(s, step, s') && Active(s, t) && Active(s', t) && Holds(s, t) && !Claims(step, t.pid)
    requires NoNewcomer(s0, s, t)
    ensures NoNewcomer(s0, s', t)
  {
    hide Next;
    HeldRowStays(s, step, s', t);
    forall q | Active(s', q) && q.pid == t.pid
      ensures q == t || Active(s0, q)
    {
      BecomesActive(s, step, s', q);
    }
  }

  // ----- an overlap needs an overrun ---------------------------------------------------------------

  /** The expiry of the task's last acknowledged renewal in the first `k` steps. */
  function RenewedUntil(steps: seq<Step>, k: nat, t: Task): Option<Time>
    requires k <= |steps|
  {
    if k == 0 then None
    else
      var step := steps[k - 1];
      if step.ReconcilerDoes? && step.reconcile.Renew? && RenewsWith(step, t, step.reconcile.until)
      then Some(step.reconcile.until)
      else RenewedUntil(steps, k - 1, t)
  }

  /** Step `m` claims the payment while the task is active, and the claimer's clock is at
      or past the expiry of the task's last acknowledged renewal. */
  ghost predicate Overrun(states: seq<State>, steps: seq<Step>, m: nat, t: Task)
    requires m < |steps| < |states|
  {
    && Active(states[m], t) && Claims(steps[m], t.pid)
    && RenewedUntil(steps, m, t).Some?
    && RenewedUntil(steps, m, t).value <= steps[m].reconcile.now
  }

  lemma {:induction false} HeldOrOverrun(states: seq<State>, steps: seq<Step>, k: nat, t: Task)
    requires IsRun(states, steps) && k < |states| && Active(states[k], t)
    ensures RenewedUntil(steps, k, t).Some?
    ensures || (Holds(states[k], t) && states[k].db.rows[t.pid].leaseUntil == RenewedUntil(steps, k, t))
            || exists m :: 0 <= m < k && Overrun(states, steps, m, t)
  {
    hide Next, Claimable;
    if k > 0 {
      var s, step, s' := states[k - 1], steps[k - 1], states[k];
      BecomesActive(s, step, s', t);
      if Active(s, t) {
        HeldOrOverrun(states, steps, k - 1, t);
        if Holds(s, t) && s.db.rows[t.pid].leaseUntil == RenewedUntil(steps, k - 1, t) {
          if Claims(step, t.pid) {
            ClaimIsLate(s, step, s', t);
            assert Overrun(states, steps, k - 1, t);
          } else {
            HeldRowStays(s, step, s', t);
          }
        }
      }
    }
  }

  lemma ClaimIsLate(s: State, step: Step, s': State, t: Task)
    requires Next(s, step, s') && Claims(step, t.pid)
    ensures t.pid in s.db.rows
    ensures s.db.rows[t.pid].leaseUntil.Some? ==> s.db.rows[t.pid].leaseUntil.value <= step.reconcile.now
  {
    ClaimNeedsExpiry(s, step.reconcile, s', t.pid);
  }

  /** Whatever the clocks say: if two tasks are active on one payment, then one of them had
      been overrun, a claim having read a time at or past the expiry of its last renewal
      while it was still active. */
  lemma OverlapNeedsOverrun(states: seq<State>, steps: seq<Step>, k: nat, p: Task, q: Task)
    requires IsRun(states, steps) && k < |states| && Overlap(states[k], p, q)
    ensures exists m :: 0 <= m < k && (Overrun(states, steps, m, p) || Overrun(states, steps, m, q))
  {
    hide Next;
    HeldOrOverrun(states, steps, k, p);
    HeldOrOverrun(states, steps, k, q);
  }

  /** If no claimer's clock is ahead of `clock`, and every task is over before the expiry
      of its last acknowledged renewal, then leases exclude: at no time are two tasks
      active on one payment. */
  lemma InTimeExcludes(states: seq<State>, steps: seq<Step>, clock: seq<Time>, k: nat, p: Task, q: Task)
    requires IsRun(states, steps) && |clock| == |steps| && k < |states|
    requires forall m :: 0 <= m < k && steps[m].ReconcilerDoes? && steps[m].reconcile.Claim? ==>
               steps[m].reconcile.now <= clock[m]
    requires forall m, t :: 0 <= m < k && Active(states[m], t) && RenewedUntil(steps, m, t).Some? ==>
               clock[m] < RenewedUntil(steps, m, t).value
    ensures !Overlap(states[k], p, q)
  {
    hide Next;
    if Overlap(states[k], p, q) {
      OverlapNeedsOverrun(states, steps, k, p, q);
    }
  }

  // ----- when an overlap can come about ----------------------------------------------------------------

  /** Reconcilers read clocks up to `deadline` and set staleness and expiry as configured. */
  predicate ByClock(step: Step, deadline: Time, staleAfter: nat, lease: nat) {
    match step
    case ReconcilerDoes(Claim(_, _, _, _, staleBefore, now, until, _)) =>
      now <= deadline && staleBefore == now - staleAfter && until == now + lease
    case ReconcilerDoes(Renew(_, now, until, _, _)) => now <= deadline && until == now + lease
    case _ => true
  }

  /** The system may go on from `s`, with the task active all the time, to a state in which
      another task has become active on the same payment. */
  ghost predicate Joined(s: State, t: Task, deadline: Time, staleAfter: nat, lease: nat,
                         states: seq<State>, steps: seq<Step>)
  {
    && |states| == |steps| + 1 && states[0] == s
    && (forall i :: 0 <= i < |steps| ==>
          Next(states[i], steps[i], states[i + 1]) && ByClock(steps[i], deadline, staleAfter, lease))
    && (forall i :: 0 <= i < |states| ==> Active(states[i], t))
    && !NoNewcomer(s, states[|steps|], t)
  }

  predicate Expired(r: Row, deadline: Time, staleAfter: nat) {
    && r.leaseUntil.Some? && r.leaseUntil.value <= deadline
    && r.updatedAt + staleAfter <= deadline
  }

  /** A task that is active and holds the lease can be joined by another one
      before the clocks pass `deadline` if and only if by then its lease has run out and
      the staleness time since the row was last written has passed. */
  lemma JoinedIff(s: State, t: Task, deadline: Time, staleAfter: nat, lease: nat)
    requires Inv(s) && lease >= 1 && Active(s, t) && Holds(s, t)
    ensures (exists states, steps :: Joined(s, t, deadline, staleAfter, lease, states, steps))
       <==> Expired(s.db.rows[t.pid], deadline, staleAfter)
  {
    hide Next, Inv;
    if Expired(s.db.rows[t.pid], deadline, staleAfter) {
      Join(s, t, deadline, staleAfter, lease);
    } else if states, steps :| Joined(s, t, deadline, staleAfter, lease, states, steps) {
      LeaseKnownToLast(s, t);
      NotJoined(s, t, deadline, staleAfter, lease, states, steps, |steps|);
    }
  }

  lemma LeaseKnownToLast(s: State, t: Task)
    requires Inv(s) && Holds(s, t)
    ensures s.db.rows[t.pid].leaseUntil.Some? && !s.db.rows[t.pid].review
  {
    hide FlightOk, OutboxOk, IndexOk, RecordsOk, PostsOk, EventsOk, AgreesOk;
    assert RowOk(s.db.rows[t.pid], s.budget);
  }

  lemma Join(s: State, t: Task, deadline: Time, staleAfter: nat, lease: nat)
    requires Inv(s) && lease >= 1 && Active(s, t) && Holds(s, t)
    requires Expired(s.db.rows[t.pid], deadline, staleAfter)
    ensures exists states, steps :: Joined(s, t, deadline, staleAfter, lease, states, steps)
  {
    hide Inv, ReconcileNext, IsFirst, FullClaim, AfterFullClaim, Joined, Takes;
    LeaseKnownToLast(s, t);
    TokenKnown(s, t);
    var token := UpperBound(s.tokens);
    var q := Task(token, t.pid);
    TokenFresh(s, q);
    var batch := CandidatesInOrder(s, t.pid, deadline - staleAfter, deadline);
    var claim := FullClaim(token, batch, deadline - staleAfter, deadline, deadline + lease);
    var s1 := AfterFullClaim(s, token, Elements(batch), deadline + lease, deadline);
    FullClaimStep(s, t.pid, token, batch, deadline, staleAfter, lease);
    FullClaimLeases(s, q, Elements(batch), deadline, lease);
    RenewsAtOnce(s1, q, deadline, lease);
    InTwoSteps(s, t, q, deadline, staleAfter, lease, s1, AfterRenewal(s1, q, deadline, lease),
               ReconcilerDoes(claim), Renewal(q, deadline, lease));
  }

  lemma FullClaimStep(s: State, pid: Uuid, token: Uuid, batch: seq<Uuid>, deadline: Time, staleAfter: nat, lease: nat)
    requires IsFirst(UpdatedTimes(s.db.rows), ClaimCandidates(s.db.rows, deadline - staleAfter, deadline), |batch|,
                     batch)
    requires pid in batch && token !in s.tokens
    ensures var claim := ReconcilerDoes(FullClaim(token, batch, deadline - staleAfter, deadline, deadline + lease));
            && Next(s, claim, AfterFullClaim(s, token, Elements(batch), deadline + lease, deadline))
            && ByClock(claim, deadline, staleAfter, lease)
  {
    hide ReconcileNext, AfterFullClaim, IsFirst;
    FullClaimTakes(s, pid, token, batch, deadline - staleAfter, deadline, deadline + lease);
  }

  lemma FullClaimLeases(s: State, q: Task, ids: set<Uuid>, now: Time, lease: nat)
    requires q !in s.tasks && q.pid in ids && q.pid in s.db.rows && lease >= 1
    requires s.db.rows[q.pid].status == Unknown && !s.db.rows[q.pid].review
    ensures var s1 := AfterFullClaim(s, q.token, ids, now + lease, now);
            && (forall t :: t in s.tasks ==> t in s1.tasks && s1.tasks[t] == s.tasks[t])
            && q in s1.tasks && s1.tasks[q] == Claimed
            && q.pid in s1.db.rows && HoldsLease(s1.db.rows[q.pid], q.token, now)
  {
  }

  lemma InTwoSteps(s: State, t: Task, q: Task, deadline: Time, staleAfter: nat, lease: nat,
                   s1: State, s2: State, claim: Step, renewal: Step)
    requires Active(s, t) && q !in s.tasks && q.pid == t.pid
    requires forall p :: p in s.tasks ==> p in s1.tasks && s1.tasks[p] == s.tasks[p]
    requires s2.tasks == s1.tasks[q := Renewed]
    requires Next(s, claim, s1) && ByClock(claim, deadline, staleAfter, lease)
    requires Next(s1, renewal, s2) && ByClock(renewal, deadline, staleAfter, lease)
    ensures Joined(s, t, deadline, staleAfter, lease, [s, s1, s2], [claim, renewal])
  {
    hide Next, ByClock;
    assert Active(s2, q);
  }

  /** The task renews its lease at the time `now` and is told so. */
  function Renewal(q: Task, now: Time, lease: nat): Step {
    ReconcilerDoes(Renew(q, now, now + lease, now, true))
  }

  function AfterRenewal(s: State, q: Task, now: Time, lease: nat): State {
    s.(db := s.db.(rows := RenewLease(s.db.rows, q.pid, q.token, now, now + lease, now).0),
       tasks := s.tasks[q := Renewed])
  }

  lemma RenewsAtOnce(s: State, q: Task, now: Time, lease: nat)
    requires q in s.tasks && s.tasks[q] == Claimed && q.pid in s.db.rows
    requires HoldsLease(s.db.rows[q.pid], q.token, now)
    ensures Next(s, Renewal(q, now, lease), AfterRenewal(s, q, now, lease))
  {
  }

  lemma TokenFresh(s: State, q: Task)
    requires Inv(s) && q.token !in s.tokens
    ensures q !in s.tasks
  {
    if q in s.tasks {
      TokenKnown(s, q);
    }
  }

  lemma TokenKnown(s: State, t: Task)
    requires Inv(s) && t in s.tasks
    ensures t.token in s.tokens
  {
    hide CoreOk, CopiesOk, SentOk, RelaysOk, CallsOk, LogOk, LeasesOk, WebhooksOk;
  }

  lemma {:induction false} NotJoined(s: State, t: Task, deadline: Time, staleAfter: nat, lease: nat,
                                     states: seq<State>, steps: seq<Step>, k: nat)
    requires Active(s, t) && Holds(s, t) && s.db.rows[t.pid].leaseUntil.Some?
    requires Joined(s, t, deadline, staleAfter, lease, states, steps) && k < |states|
    requires !Expired(s.db.rows[t.pid], deadline, staleAfter)
    ensures Holds(states[k], t) && NoNewcomer(s, states[k], t) && states[k].db.rows[t.pid] == s.db.rows[t.pid]
  {
    hide Next;
    if k > 0 {
      NotJoined(s, t, deadline, staleAfter, lease, states, steps, k - 1);
      if Claims(steps[k - 1], t.pid) {
        ClaimByClock(states[k - 1], steps[k - 1], states[k], t.pid, deadline, staleAfter, lease);
      } else {
        HeldRowStays(states[k - 1], steps[k - 1], states[k], t);
        NobodyComes(s, states[k - 1], steps[k - 1], states[k], t);
      }
    }
  }

  lemma ClaimByClock(s: State, step: Step, s': State, pid: Uuid, deadline: Time, staleAfter: nat, lease: nat)
    requires Next(s, step, s') && Claims(step, pid) && ByClock(step, deadline, staleAfter, lease)
    ensures pid in s.db.rows && (s.db.rows[pid].leaseUntil.Some? ==> Expired(s.db.rows[pid], deadline, staleAfter))
  {
    ClaimNeedsExpiry(s, step.reconcile, s', pid);
  }
}
