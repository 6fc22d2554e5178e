/** No event is passed over for ever: the relays take the oldest unpublished rows first, so
    an event is reached after a bounded number of committed batches, of either kind. */
module RelayProgress {
  import opened Model
  import opened Selection
  import opened Transactions
  import opened Broker
  import opened System
  import opened Invariant
  import opened Preservation
  import opened RelayExactness
  import Starvation

  /** A step taken when the one clock that stamps new outbox rows shows `t`, by relays with
      the given batch size. */
  predicate AtClock(step: Step, t: Time, limit: nat) {
    match step
    case ApiDoes(Insert(_, _, _, occurredAt, _, _)) => occurredAt == t
    case WorkerDoes(Apply(_, _, processedAt, _, _)) => processedAt == t
    case ReconcilerDoes(Persist(_, _, _, _, createdAt, _)) => createdAt == t
    case RelayDoes(Open(_, _, n)) => n == limit
    case _ => true
  }

  ghost predicate IsTimedRun(states: seq<State>, steps: seq<Step>, clock: seq<Time>, limit: nat) {
    && IsRun(states, steps) && |clock| == |steps|
    && (forall i, j :: 0 <= i < j < |clock| ==> clock[i] < clock[j])
    && (forall i :: 0 <= i < |steps| ==> AtClock(steps[i], clock[i], limit))
  }

  ghost predicate CreatedBefore(outbox: map<Uuid, OutboxRow>, t: Time) {
    forall e :: e in outbox ==> outbox[e].createdAt < t
  }

  /** The event waits to be selected. */
  ghost predicate Unselected(s: State, e: Uuid) {
    && e in s.db.outbox && s.db.outbox[e].publishedAt.None?
    && forall r :: r in s.relays ==> e !in s.relays[r].batch
  }

  predicate Selects(step: Step, e: Uuid) {
    step.RelayDoes? && step.relay.Open? && e in step.relay.batch
  }

  /** Unpublished rows that come before `e`. */
  ghost function Ahead(outbox: map<Uuid, OutboxRow>, e: Uuid): set<Uuid>
    requires e in outbox
  {
    set d | d in outbox && outbox[d].publishedAt.None?
            && (outbox[d].createdAt < outbox[e].createdAt || (outbox[d].createdAt == outbox[e].createdAt && d < e))
  }

  /** An open transaction with a full batch of rows ahead of `e`. */
  ghost predicate Passing(tx: RelayTx, outbox: map<Uuid, OutboxRow>, e: Uuid, limit: nat)
    requires e in outbox
  {
    |tx.batch| == limit && Elements(tx.batch) <= Ahead(outbox, e)
  }

  /** Open transactions whose commit may do nothing for `e`. */
  ghost function Others(s: State, e: Uuid, limit: nat): set<nat>
    requires e in s.db.outbox
  {
    set r | r in s.relays && !Passing(s.relays[r], s.db.outbox, e, limit)
  }

  // ----- one step -------------------------------------------------------------------------------

  /** Rows may be added that come after all others; the rest of the outbox stays. */
  ghost predicate RowsArrive(outbox: map<Uuid, OutboxRow>, outbox': map<Uuid, OutboxRow>, t: Time) {
    && (forall e :: e in outbox ==> e in outbox' && outbox'[e] == outbox[e])
    && (forall e :: e in outbox' && e !in outbox ==> outbox'[e].createdAt == t && outbox'[e].publishedAt.None?)
  }

  lemma OthersAddRows(s: State, step: Step, s': State, t: Time, limit: nat)
    requires Next(s, step, s') && AtClock(step, t, limit) && !step.RelayDoes?
    ensures s'.relays == s.relays && RowsArrive(s.db.outbox, s'.db.outbox, t)
  {
    hide ApiNext, RelayNext, WorkNext, ReconcileNext, BrokerStep, RowsArrive;
    match step
    case ApiDoes(a) => ApiAddsRows(s, a, s', t, limit);
    case WorkerDoes(a) => WorkAddsRows(s, a, s', t, limit);
    case ReconcilerDoes(a) => ReconcilerAddsRows(s, a, s', t, limit);
    case _ => NoRowsArrive(s.db.outbox, t);
  }

  lemma NoRowsArrive(outbox: map<Uuid, OutboxRow>, t: Time)
    ensures RowsArrive(outbox, outbox, t)
  {
  }

  lemma ApiAddsRows(s: State, a: ApiStep, s': State, t: Time, limit: nat)
    requires ApiNext(s, a, s') && AtClock(ApiDoes(a), t, limit)
    ensures s'.relays == s.relays && RowsArrive(s.db.outbox, s'.db.outbox, t)
  {
    ApiFrame(s, a, s');
    hide ApiNext;
  }

  lemma WorkAddsRows(s: State, a: WorkStep, s': State, t: Time, limit: nat)
    requires WorkNext(s, a, s') && AtClock(WorkerDoes(a), t, limit)
    ensures s'.relays == s.relays && RowsArrive(s.db.outbox, s'.db.outbox, t)
  {
    WorkFrame(s, a, s');
    hide WorkNext;
  }

  lemma ReconcilerAddsRows(s: State, a: ReconcileStep, s': State, t: Time, limit: nat)
    requires ReconcileNext(s, a, s') && AtClock(ReconcilerDoes(a), t, limit)
    ensures s'.relays == s.relays && RowsArrive(s.db.outbox, s'.db.outbox, t)
  {
    hide IsFirst, ClaimRows, RenewLease;
  }

  /** What a step of the relays does for an event it does not select. */
  lemma RowsArrived(s: State, s': State, e: Uuid, t: Time, limit: nat)
    requires s'.relays == s.relays && RowsArrive(s.db.outbox, s'.db.outbox, t)
    requires Unselected(s, e) && CreatedBefore(s.db.outbox, t)
    ensures Unselected(s', e)
    ensures Ahead(s'.db.outbox, e) == Ahead(s.db.outbox, e) && Others(s', e, limit) == Others(s, e, limit)
  {
    assert s'.db.outbox[e] == s.db.outbox[e];
    assert Ahead(s'.db.outbox, e) == Ahead(s.db.outbox, e);
    hide Ahead, RowsArrive;
  }

  lemma RelayStepPasses(s: State, a: RelayStep, s': State, e: Uuid, limit: nat)
    requires RelaysOk(s.db.outbox, s.sent, s.relays) && RelayNext(s, a, s')
    requires Unselected(s, e) && !Selects(RelayDoes(a), e) && (a.Open? ==> a.limit == limit)
    ensures Unselected(s', e)
    ensures |Ahead(s'.db.outbox, e)| + limit * |Others(s', e, limit)| + (if a.CommitBatch? then limit else 0)
         <= |Ahead(s.db.outbox, e)| + limit * |Others(s, e, limit)|
  {
    hide IsFirst, MarkPublished, RelaysOk, Ahead, Others;
    match a
    case Open(r, batch, n) => OpenPasses(s, r, batch, limit, s', e);
    case CommitBatch(r, stamps) => CommitPasses(s, r, stamps, s', e, limit);
    case _ => TxMoves(s, s', e, limit);
  }

  lemma OpenPasses(s: State, r: nat, batch: seq<Uuid>, limit: nat, s': State, e: Uuid)
    requires IsFirst(CreatedTimes(s.db.outbox), Unpublished(s.db.outbox, LockedRows(s.relays)), limit, batch)
    requires Unselected(s, e) && e !in batch && r !in s.relays
    requires s'.db == s.db && s'.relays == s.relays[r := RelayTx(batch, 0)]
    ensures Unselected(s', e) && Others(s', e, limit) == Others(s, e, limit)
  {
    OldestUnpublished(s.db.outbox, LockedRows(s.relays), limit, batch);
    assert e !in LockedRows(s.relays);
    hide IsFirst;
    assert Passing(RelayTx(batch, 0), s.db.outbox, e, limit);
    hide Passing;
  }

  /** Publications and failures leave the table; they close transactions or let them go on. */
  lemma TxMoves(s: State, s': State, e: Uuid, limit: nat)
    requires Unselected(s, e) && s'.db == s.db
    requires forall r :: r in s'.relays ==> r in s.relays && s'.relays[r].batch == s.relays[r].batch
    ensures Unselected(s', e)
    ensures limit * |Others(s', e, limit)| <= limit * |Others(s, e, limit)|
  {
    Starvation.SubsetSize(Others(s', e, limit), Others(s, e, limit));
    Scaled(limit, |Others(s', e, limit)|, |Others(s, e, limit)|);
  }

  lemma Scaled(n: nat, a: nat, b: nat)
    requires a <= b
    ensures n * a <= n * b
  {
  }

  lemma CommitPasses(s: State, r: nat, stamps: map<Uuid, Time>, s': State, e: Uuid, limit: nat)
    requires RelaysOk(s.db.outbox, s.sent, s.relays) && Unselected(s, e) && r in s.relays && e in s.db.outbox
    requires stamps.Keys == Elements(s.relays[r].batch)
    requires s'.relays == s.relays - {r} && s'.db == s.db.(outbox := MarkPublished(s.db.outbox, stamps))
    ensures Unselected(s', e)
    ensures |Ahead(s'.db.outbox, e)| + limit * |Others(s', e, limit)| + limit
         <= |Ahead(s.db.outbox, e)| + limit * |Others(s, e, limit)|
  {
    hide RelaysOk, MarkPublished, Ahead, Unselected, Others, Passing, Elements;
    AheadAfterCommit(s, r, stamps, e);
    RowStillThere(s, r, stamps, s', e);
    OthersAfterCommit(s, r, s', e, limit);
    BatchSize(s, r);
    PassesOrNot(s, r, e, limit);
    var taken := Elements(s.relays[r].batch);
    var ahead, ahead' := Ahead(s.db.outbox, e), Ahead(s'.db.outbox, e);
    var others, others' := Others(s, e, limit), Others(s', e, limit);
    if r in others {
      Starvation.SubsetSize(ahead', ahead);
      Starvation.SubsetSize(others', others - {r});
    } else {
      SizeWithout(ahead, taken);
      Starvation.SubsetSize(others', others);
    }
    NetLoss(|ahead'|, |others'|, |ahead|, |others|, limit);
  }

  lemma SizeWithout(a: set<Uuid>, b: set<Uuid>)
    requires b <= a
    ensures |a - b| + |b| == |a|
  {
    assert a == (a - b) + b;
  }

  lemma PassesOrNot(s: State, r: nat, e: Uuid, limit: nat)
    requires r in s.relays && e in s.db.outbox
    ensures r in Others(s, e, limit)
            || (|s.relays[r].batch| == limit && Elements(s.relays[r].batch) <= Ahead(s.db.outbox, e))
  {
  }

  lemma NetLoss(ahead': nat, others': nat, ahead: nat, others: nat, limit: nat)
    requires (ahead' + limit == ahead && others' <= others) || (ahead' <= ahead && others' + 1 <= others)
    ensures ahead' + limit * others' + limit <= ahead + limit * others
  {
    if others' + 1 <= others {
      Scaled(limit, others' + 1, others);
      assert limit * (others' + 1) == limit * others' + limit;
    } else {
      Scaled(limit, others', others);
    }
  }

  lemma RowStillThere(s: State, r: nat, stamps: map<Uuid, Time>, s': State, e: Uuid)
    requires Unselected(s, e) && r in s.relays && stamps.Keys == Elements(s.relays[r].batch)
    requires s'.relays == s.relays - {r} && s'.db == s.db.(outbox := MarkPublished(s.db.outbox, stamps))
    ensures Unselected(s', e)
  {
    assert e !in stamps.Keys;
  }

  lemma AheadAfterCommit(s: State, r: nat, stamps: map<Uuid, Time>, e: Uuid)
    requires Unselected(s, e) && r in s.relays && stamps.Keys == Elements(s.relays[r].batch)
    ensures var outbox' := MarkPublished(s.db.outbox, stamps);
            e in outbox' && Ahead(outbox', e) == Ahead(s.db.outbox, e) - Elements(s.relays[r].batch)
  {
    assert e !in stamps.Keys;
  }

  lemma OthersAfterCommit(s: State, r: nat, s': State, e: Uuid, limit: nat)
    requires RelaysOk(s.db.outbox, s.sent, s.relays) && r in s.relays && e in s.db.outbox && e in s'.db.outbox
    requires s'.relays == s.relays - {r}
    requires Ahead(s'.db.outbox, e) == Ahead(s.db.outbox, e) - Elements(s.relays[r].batch)
    ensures Others(s', e, limit) <= Others(s, e, limit) && r !in Others(s', e, limit)
  {
    hide Ahead, RelayTxOk;
    forall q | q in s'.relays && Passing(s.relays[q], s.db.outbox, e, limit)
      ensures Passing(s'.relays[q], s'.db.outbox, e, limit)
    {
      forall d | d in Elements(s.relays[q].batch)
        ensures d in Ahead(s'.db.outbox, e)
      {
        assert d in s.relays[q].batch && d !in s.relays[r].batch;
      }
    }
  }

  lemma BatchSize(s: State, r: nat)
    requires RelaysOk(s.db.outbox, s.sent, s.relays) && r in s.relays
    ensures |Elements(s.relays[r].batch)| == |s.relays[r].batch|
  {
    assert RelayTxOk(s.db.outbox, s.sent, s.relays[r]);
    Starvation.DistinctSize(s.relays[r].batch);
  }

  // ----- many steps ---------------------------------------------------------------------------------

  lemma {:induction false} ClockBounds(states: seq<State>, steps: seq<Step>, clock: seq<Time>, limit: nat, k: nat)
    requires IsTimedRun(states, steps, clock, limit) && k < |steps|
    ensures CreatedBefore(states[k].db.outbox, clock[k])
  {
    hide Next, AtClock;
    if k > 0 {
      ClockBounds(states, steps, clock, limit, k - 1);
      StaysBefore(states[k - 1], steps[k - 1], states[k], clock[k - 1], clock[k], limit);
    } else {
      NoRowsAtFirst(states[0]);
    }
  }

  lemma StaysBefore(s: State, step: Step, s': State, t: Time, t': Time, limit: nat)
    requires Next(s, step, s') && AtClock(step, t, limit) && CreatedBefore(s.db.outbox, t) && t < t'
    ensures CreatedBefore(s'.db.outbox, t')
  {
    hide ApiNext, RelayNext, WorkNext, ReconcileNext, BrokerStep;
    if step.RelayDoes? {
      RelayKeepsTimes(s, step.relay, s');
    } else {
      OthersAddRows(s, step, s', t, limit);
    }
  }

  lemma RelayKeepsTimes(s: State, a: RelayStep, s': State)
    requires RelayNext(s, a, s')
    ensures s'.db.outbox.Keys == s.db.outbox.Keys
    ensures forall e :: e in s.db.outbox ==> s'.db.outbox[e].createdAt == s.db.outbox[e].createdAt
  {
    hide IsFirst;
  }

  /** How many batches the steps `i..j` commit. */
  function CommitCount(steps: seq<Step>, i: nat, j: nat): nat
    requires i <= j <= |steps|
    decreases j
  {
    if i == j then 0
    else
      CommitCount(steps, i, j - 1)
      + if steps[j - 1].RelayDoes? && steps[j - 1].relay.CommitBatch? then 1 else 0
  }

  lemma StepPasses(s: State, step: Step, s': State, e: Uuid, t: Time, limit: nat)
    requires Inv(s) && Next(s, step, s') && AtClock(step, t, limit) && CreatedBefore(s.db.outbox, t)
    requires Unselected(s, e) && !Selects(step, e)
    ensures Unselected(s', e)
    ensures |Ahead(s'.db.outbox, e)| + limit * |Others(s', e, limit)|
            + (if step.RelayDoes? && step.relay.CommitBatch? then limit else 0)
         <= |Ahead(s.db.outbox, e)| + limit * |Others(s, e, limit)|
  {
    hide Inv, ApiNext, RelayNext, WorkNext, ReconcileNext, BrokerStep, Ahead, Others, Unselected, RelaysOk;
    if step.RelayDoes? {
      RelaysKnown(s);
      RelayStepPasses(s, step.relay, s', e, limit);
    } else {
      OthersAddRows(s, step, s', t, limit);
      UnselectedIsThere(s, e);
      RowsArrived(s, s', e, t, limit);
    }
  }

  lemma UnselectedIsThere(s: State, e: Uuid)
    requires Unselected(s, e)
    ensures e in s.db.outbox
  {
  }

  lemma RelaysKnown(s: State)
    requires Inv(s)
    ensures RelaysOk(s.db.outbox, s.sent, s.relays)
  {
    hide CoreOk, CopiesOk, SentOk, RelaysOk, CallsOk, TasksOk, LogOk, LeasesOk, WebhooksOk;
  }

  lemma {:induction false} UnselectedMoves(states: seq<State>, steps: seq<Step>, clock: seq<Time>, limit: nat,
                                           i: nat, j: nat, e: Uuid)
    requires IsTimedRun(states, steps, clock, limit) && i <= j <= |steps|
    requires Unselected(states[i], e) && forall n :: i <= n < j ==> !Selects(steps[n], e)
    ensures Unselected(states[j], e)
    ensures |Ahead(states[j].db.outbox, e)| + limit * |Others(states[j], e, limit)| + limit * CommitCount(steps, i, j)
         <= |Ahead(states[i].db.outbox, e)| + limit * |Others(states[i], e, limit)|
    decreases j
  {
    hide Next, AtClock, Inv, Ahead, Others;
    if i < j {
      UnselectedMoves(states, steps, clock, limit, i, j - 1, e);
      RunKeeps(states, steps, j - 1);
      ClockBounds(states, steps, clock, limit, j - 1);
      StepPasses(states[j - 1], steps[j - 1], states[j], e, clock[j - 1], limit);
      var c := CommitCount(steps, i, j - 1);
      assert limit * (c + 1) == limit * c + limit;
    }
  }

  /** With one strictly advancing clock stamping the rows: an unpublished event that no open
      transaction has selected, with r unpublished ones ahead of it, is selected before the
      relays have committed more batches than r / limit and the transactions open now,
      whatever else happens and however many transactions fail in between. */
  lemma EventSelected(states: seq<State>, steps: seq<Step>, clock: seq<Time>, limit: nat, i: nat, j: nat, e: Uuid)
    requires IsTimedRun(states, steps, clock, limit) && limit >= 1 && i <= j <= |steps|
    requires Unselected(states[i], e)
    requires CommitCount(steps, i, j) >= |Ahead(states[i].db.outbox, e)| / limit + |states[i].relays| + 1
    ensures exists n :: i <= n < j && Selects(steps[n], e)
  {
    hide Next, AtClock, Ahead;
    if forall n :: i <= n < j ==> !Selects(steps[n], e) {
      UnselectedMoves(states, steps, clock, limit, i, j, e);
      var s, s' := states[i], states[j];
      hide Unselected, IsTimedRun, Others;
      OthersAreOpen(s, e, limit);
      TooManyCommits(|Ahead(s.db.outbox, e)|, |Others(s, e, limit)|, |s.relays|, CommitCount(steps, i, j), limit,
                     |Ahead(s'.db.outbox, e)|, |Others(s', e, limit)|);
    }
  }

  lemma OthersAreOpen(s: State, e: Uuid, limit: nat)
    requires e in s.db.outbox
    ensures |Others(s, e, limit)| <= |s.relays|
  {
    hide Passing;
    Starvation.SubsetSize(Others(s, e, limit), s.relays.Keys);
    assert |s.relays.Keys| == |s.relays|;
  }

  lemma TooManyCommits(r: nat, others: nat, open: nat, commits: nat, limit: nat, left: nat, leftOthers: nat)
    requires limit >= 1 && others <= open && commits >= r / limit + open + 1
    ensures left + limit * leftOthers + limit * commits > r + limit * others
  {
    Starvation.TooMany(r, limit, r / limit + 1);
    Scaled(limit, others, open);
    Scaled(limit, r / limit + 1 + open, commits);
    assert limit * (r / limit + 1 + open) == limit * (r / limit + 1) + limit * open;
  }
}
