/** Every write of a payment row moves it to the end of the claim order, so a stale
    payment that nobody holds is reached after a bounded number of claims. */
module Starvation {
  import opened Model
  import opened Selection
  import opened Transactions
  import opened System

  /** A step taken when the one clock everybody reads shows `t`, by reconcilers with the
      given batch size and staleness, and with no row lock held by a concurrent claim. */
  predicate AtClock(step: Step, t: Time, batchSize: nat, staleAfter: nat) {
    match step
    case ApiDoes(Insert(_, _, _, _, at, _)) => at == t
    case WorkerDoes(Unknowing(_, at, _)) => at == t
    case WorkerDoes(Apply(_, _, _, at, _)) => at == t
    case WorkerDoes(Sent(_, _, at, _)) => at == t
    case ReconcilerDoes(Claim(_, _, limit, skipped, staleBefore, now, _, at)) =>
      limit == batchSize && skipped == {} && staleBefore == t - staleAfter && now == t && at == t
    case ReconcilerDoes(Renew(_, now, _, at, _)) => now == t && at == t
    case ReconcilerDoes(Persist(_, now, _, _, _, at)) => now == t && at == t
    case _ => true
  }

  ghost predicate IsTimedRun(states: seq<State>, steps: seq<Step>, clock: seq<Time>,
                             batchSize: nat, staleAfter: nat)
  {
    && IsRun(states, steps) && |clock| == |steps|
    && (forall i, j :: 0 <= i < j < |clock| ==> clock[i] < clock[j])
    && (forall i :: 0 <= i < |steps| ==> AtClock(steps[i], clock[i], batchSize, staleAfter))
  }

  ghost predicate UpdatedBefore(rows: map<Uuid, Row>, t: Time) {
    forall p :: p in rows ==> rows[p].updatedAt < t
  }

  /** Unresolved payments a claim would consider before `pid`. */
  ghost function Ahead(rows: map<Uuid, Row>, pid: Uuid): set<Uuid>
    requires pid in rows
  {
    set q | q in rows && rows[q].status == Unknown && !rows[q].review
            && Precedes(rows[q].updatedAt, q, rows[pid].updatedAt, pid)
  }

  predicate Claims(step: Step, pid: Uuid) {
    step.ReconcilerDoes? && step.reconcile.Claim? && pid in step.reconcile.batch
  }

  // ----- one step ---------------------------------------------------------------------------

  /** A row that a step touches gets the current clock reading. */
  ghost predicate TouchedAt(rows: map<Uuid, Row>, rows': map<Uuid, Row>, t: Time) {
    && (forall q :: q in rows ==> q in rows')
    && (forall q :: q in rows' ==> (q in rows && rows'[q] == rows[q]) || rows'[q].updatedAt == t)
  }

  lemma StepTouches(s: State, step: Step, s': State, t: Time, batchSize: nat, staleAfter: nat)
    requires Next(s, step, s') && AtClock(step, t, batchSize, staleAfter)
    ensures TouchedAt(s.db.rows, s'.db.rows, t)
  {
    hide ApiNext, RelayNext, WorkNext, ReconcileNext, Broker.BrokerStep;
    match step
    case ApiDoes(a) => ApiTouches(s, a, s', t, batchSize, staleAfter);
    case RelayDoes(a) => RelayTouches(s, a, s');
    case WorkerDoes(a) => WorkTouches(s, a, s', t, batchSize, staleAfter);
    case ReconcilerDoes(a) => ReconcileTouches(s, a, s', t, batchSize, staleAfter);
    case _ =>
  }

  lemma ApiTouches(s: State, a: ApiStep, s': State, t: Time, batchSize: nat, staleAfter: nat)
    requires ApiNext(s, a, s') && AtClock(ApiDoes(a), t, batchSize, staleAfter)
    ensures TouchedAt(s.db.rows, s'.db.rows, t)
  {
    hide TouchedAt, Resolve, SetPhase;
    RowsSame(s.db.rows, t);
    if a.Insert? {
      RowAdded(s.db.rows, a.pid, NewRow(s.calls[a.call].data, s.calls[a.call].key, a.at), t);
    }
  }

  lemma RowsSame(rows: map<Uuid, Row>, t: Time)
    ensures TouchedAt(rows, rows, t)
  {
  }

  lemma RowAdded(rows: map<Uuid, Row>, pid: Uuid, r: Row, t: Time)
    requires r.updatedAt == t
    ensures TouchedAt(rows, rows[pid := r], t)
  {
  }

  lemma RelayTouches(s: State, a: RelayStep, s': State)
    requires RelayNext(s, a, s')
    ensures s'.db.rows == s.db.rows
  {
  }

  lemma WorkTouches(s: State, a: WorkStep, s': State, t: Time, batchSize: nat, staleAfter: nat)
    requires WorkNext(s, a, s') && AtClock(WorkerDoes(a), t, batchSize, staleAfter)
    ensures TouchedAt(s.db.rows, s'.db.rows, t)
  {
    WorkFrame(s, a, s');
    hide WorkNext;
  }

  lemma ReconcileTouches(s: State, a: ReconcileStep, s': State, t: Time, batchSize: nat, staleAfter: nat)
    requires ReconcileNext(s, a, s') && AtClock(ReconcilerDoes(a), t, batchSize, staleAfter)
    ensures TouchedAt(s.db.rows, s'.db.rows, t)
  {
  }

  /** A claimable payment is changed by nothing but a claim of it. */
  lemma OnlyClaimTouches(s: State, step: Step, s': State, pid: Uuid, t: Time, batchSize: nat, staleAfter: nat)
    requires Next(s, step, s') && AtClock(step, t, batchSize, staleAfter)
    requires pid in s.db.rows && Claimable(s.db.rows[pid], t - staleAfter, t)
    ensures Claims(step, pid) || (pid in s'.db.rows && s'.db.rows[pid] == s.db.rows[pid])
  {
    hide ApiNext, RelayNext, WorkNext, ReconcileNext, Broker.BrokerStep;
    match step
    case ApiDoes(a) => ApiSpares(s, a, s', pid);
    case RelayDoes(a) => RelayTouches(s, a, s');
    case WorkerDoes(a) => WorkSpares(s, a, s', pid);
    case ReconcilerDoes(a) => ReconcileSpares(s, a, s', pid, t, batchSize, staleAfter);
    case _ =>
  }

  lemma ApiSpares(s: State, a: ApiStep, s': State, pid: Uuid)
    requires ApiNext(s, a, s') && pid in s.db.rows
    ensures pid in s'.db.rows && s'.db.rows[pid] == s.db.rows[pid]
  {
  }

  lemma WorkSpares(s: State, a: WorkStep, s': State, pid: Uuid)
    requires WorkNext(s, a, s') && pid in s.db.rows && s.db.rows[pid].status == Unknown
    ensures pid in s'.db.rows && s'.db.rows[pid] == s.db.rows[pid]
  {
  }

  lemma ReconcileSpares(s: State, a: ReconcileStep, s': State, pid: Uuid, t: Time, batchSize: nat, staleAfter: nat)
    requires ReconcileNext(s, a, s') && AtClock(ReconcilerDoes(a), t, batchSize, staleAfter)
    requires pid in s.db.rows && Claimable(s.db.rows[pid], t - staleAfter, t)
    ensures Claims(ReconcilerDoes(a), pid) || (pid in s'.db.rows && s'.db.rows[pid] == s.db.rows[pid])
  {
  }

  /** Nothing gets ahead of an untouched payment. */
  lemma AheadShrinks(rows: map<Uuid, Row>, rows': map<Uuid, Row>, pid: Uuid, t: Time)
    requires TouchedAt(rows, rows', t) && pid in rows && rows'[pid] == rows[pid] && rows[pid].updatedAt < t
    ensures Ahead(rows', pid) <= Ahead(rows, pid)
  {
  }

  /** A claim that misses a claimable payment takes a whole batch from those ahead of it. */
  lemma ClaimTakesFromAhead(s: State, a: ReconcileStep, s': State, pid: Uuid, t: Time,
                            batchSize: nat, staleAfter: nat)
    requires a.Claim? && ReconcileNext(s, a, s') && AtClock(ReconcilerDoes(a), t, batchSize, staleAfter)
    requires pid in s.db.rows && Claimable(s.db.rows[pid], t - staleAfter, t) && pid !in a.batch
    requires UpdatedBefore(s.db.rows, t)
    ensures pid in s'.db.rows && s'.db.rows[pid] == s.db.rows[pid]
    ensures |Ahead(s'.db.rows, pid)| + batchSize <= |Ahead(s.db.rows, pid)|
  {
    hide IsFirst, Ahead, Precedes, UpdatedBefore, ClaimCandidates, Claimable;
    var rows, rows' := s.db.rows, s'.db.rows;
    var candidates := ClaimCandidates(rows, t - staleAfter, t);
    assert candidates - {} == candidates;
    var taken := Elements(a.batch);
    BatchIsAhead(rows, candidates, batchSize, a.batch, pid, t, staleAfter);
    BatchSize(UpdatedTimes(rows), candidates, batchSize, a.batch);
    ClaimedFallBehind(rows, taken, a.token, a.until, t, pid);
    SubsetSize(Ahead(rows', pid), Ahead(rows, pid) - taken);
    assert Ahead(rows, pid) == (Ahead(rows, pid) - taken) + taken;
  }

  lemma BatchIsAhead(rows: map<Uuid, Row>, candidates: set<Uuid>, n: nat, batch: seq<Uuid>,
                     pid: Uuid, t: Time, staleAfter: nat)
    requires candidates == ClaimCandidates(rows, t - staleAfter, t)
    requires IsFirst(UpdatedTimes(rows), candidates, n, batch)
    requires pid in rows && Claimable(rows[pid], t - staleAfter, t) && pid !in batch
    ensures |batch| == n && Elements(batch) <= Ahead(rows, pid)
  {
  }

  lemma ClaimedFallBehind(rows: map<Uuid, Row>, ids: set<Uuid>, token: Uuid, until: Time, t: Time, pid: Uuid)
    requires pid in rows && pid !in ids && UpdatedBefore(rows, t)
    ensures pid in ClaimRows(rows, ids, token, until, t)
    ensures Ahead(ClaimRows(rows, ids, token, until, t), pid) <= Ahead(rows, pid) - ids
  {
  }

  lemma SubsetSize(a: set<Uuid>, b: set<Uuid>)
    requires a <= b
    ensures |a| <= |b|
  {
    if a != b {
      assert |b| == |a| + |b - a| by {
        assert a + (b - a) == b;
      }
    }
  }

  /** A batch has no duplicates. */
  lemma BatchSize(times: map<Uuid, Time>, candidates: set<Uuid>, n: nat, batch: seq<Uuid>)
    requires candidates <= times.Keys && IsFirst(times, candidates, n, batch)
    ensures |Elements(batch)| == |batch|
  {
    forall i, j | 0 <= i < j < |batch|
      ensures batch[i] != batch[j]
    {
      assert Precedes(times[batch[i]], batch[i], times[batch[j]], batch[j]);
    }
    DistinctSize(batch);
  }

  lemma {:induction false} DistinctSize(batch: seq<Uuid>)
    requires forall i, j :: 0 <= i < j < |batch| ==> batch[i] != batch[j]
    ensures |Elements(batch)| == |batch|
  {
    if batch == [] {
      assert Elements(batch) == {};
    } else {
      var rest := batch[..|batch| - 1];
      var last := batch[|batch| - 1];
      DistinctSize(rest);
      assert batch == rest + [last];
      assert Elements(batch) == Elements(rest) + {last};
    }
  }

  // ----- many steps ----------------------------------------------------------------------------

  lemma {:induction false} ClockBounds(states: seq<State>, steps: seq<Step>, clock: seq<Time>,
                                       batchSize: nat, staleAfter: nat, k: nat)
    requires IsTimedRun(states, steps, clock, batchSize, staleAfter) && k < |steps|
    ensures UpdatedBefore(states[k].db.rows, clock[k])
  {
    hide Next, AtClock;
    if k > 0 {
      ClockBounds(states, steps, clock, batchSize, staleAfter, k - 1);
      StepTouches(states[k - 1], steps[k - 1], states[k], clock[k - 1], batchSize, staleAfter);
    }
  }

  /** How many claims the steps `i..j` contain. */
  function ClaimCount(steps: seq<Step>, i: nat, j: nat): nat
    requires i <= j <= |steps|
    decreases j
  {
    if i == j then 0
    else
      ClaimCount(steps, i, j - 1)
      + if steps[j - 1].ReconcilerDoes? && steps[j - 1].reconcile.Claim? then 1 else 0
  }

  lemma OneStep(states: seq<State>, steps: seq<Step>, clock: seq<Time>, batchSize: nat, staleAfter: nat,
                k: nat, pid: Uuid)
    requires IsTimedRun(states, steps, clock, batchSize, staleAfter) && k < |steps|
    requires pid in states[k].db.rows && Claimable(states[k].db.rows[pid], clock[k] - staleAfter, clock[k])
    requires !Claims(steps[k], pid)
    ensures pid in states[k + 1].db.rows && states[k + 1].db.rows[pid] == states[k].db.rows[pid]
    ensures |Ahead(states[k + 1].db.rows, pid)| + batchSize * ClaimCount(steps, k, k + 1)
         <= |Ahead(states[k].db.rows, pid)|
  {
    hide ApiNext, RelayNext, WorkNext, ReconcileNext, Broker.BrokerStep, AtClock;
    var s, step, s', t := states[k], steps[k], states[k + 1], clock[k];
    ClockBounds(states, steps, clock, batchSize, staleAfter, k);
    OnlyClaimTouches(s, step, s', pid, t, batchSize, staleAfter);
    StepTouches(s, step, s', t, batchSize, staleAfter);
    AheadShrinks(s.db.rows, s'.db.rows, pid, t);
    SubsetSize(Ahead(s'.db.rows, pid), Ahead(s.db.rows, pid));
    assert ClaimCount(steps, k, k) == 0;
    if step.ReconcilerDoes? && step.reconcile.Claim? {
      ClaimTakesFromAhead(s, step.reconcile, s', pid, t, batchSize, staleAfter);
    }
  }

  lemma {:induction false} UnclaimedMoves(states: seq<State>, steps: seq<Step>, clock: seq<Time>,
                                          batchSize: nat, staleAfter: nat, i: nat, j: nat, pid: Uuid)
    requires IsTimedRun(states, steps, clock, batchSize, staleAfter) && i <= j <= |steps| && i < |steps|
    requires pid in states[i].db.rows && Claimable(states[i].db.rows[pid], clock[i] - staleAfter, clock[i])
    requires forall n :: i <= n < j ==> !Claims(steps[n], pid)
    ensures pid in states[j].db.rows && states[j].db.rows[pid] == states[i].db.rows[pid]
    ensures |Ahead(states[j].db.rows, pid)| + batchSize * ClaimCount(steps, i, j)
         <= |Ahead(states[i].db.rows, pid)|
    decreases j
  {
    hide Next, AtClock;
    if i < j {
      UnclaimedMoves(states, steps, clock, batchSize, staleAfter, i, j - 1, pid);
      OneStep(states, steps, clock, batchSize, staleAfter, j - 1, pid);
      assert ClaimCount(steps, j - 1, j - 1) == 0;
      assert ClaimCount(steps, i, j) == ClaimCount(steps, i, j - 1) + ClaimCount(steps, j - 1, j);
    }
  }

  /** With one strictly advancing clock: a stale UNKNOWN payment that nobody holds, with r
      unresolved payments ahead of it, is claimed within r / batchSize + 1 further claims,
      whatever else happens in between. */
  lemma NoStarvation(states: seq<State>, steps: seq<Step>, clock: seq<Time>, batchSize: nat, staleAfter: nat,
                     i: nat, j: nat, pid: Uuid)
    requires IsTimedRun(states, steps, clock, batchSize, staleAfter) && batchSize >= 1
    requires i <= j <= |steps| && i < |steps|
    requires pid in states[i].db.rows && Claimable(states[i].db.rows[pid], clock[i] - staleAfter, clock[i])
    requires ClaimCount(steps, i, j) >= |Ahead(states[i].db.rows, pid)| / batchSize + 1
    ensures exists n :: i <= n < j && Claims(steps[n], pid)
  {
    hide Next, AtClock;
    if forall n :: i <= n < j ==> !Claims(steps[n], pid) {
      UnclaimedMoves(states, steps, clock, batchSize, staleAfter, i, j, pid);
      TooMany(|Ahead(states[i].db.rows, pid)|, batchSize, ClaimCount(steps, i, j));
    }
  }

  lemma TooMany(r: nat, b: nat, claims: nat)
    requires b >= 1 && claims >= r / b + 1
    ensures b * claims > r
  {
    assert b * claims >= b * (r / b + 1);
  }
}
