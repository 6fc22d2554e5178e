/** Outbox relays running side by side: disjoint batches, publication before the
    mark, and exactly one publication per event while nothing fails. */
module RelayExactness {
  import opened Model
  import opened Selection
  import opened Transactions
  import opened Broker
  import opened System
  import opened Invariant
  import opened Preservation

  /** Some open batch has already published the event. */
  ghost predicate SentByOpenBatch(relays: map<nat, RelayTx>, e: Uuid) {
    exists r :: r in relays && SentBy(relays[r], e)
  }

  predicate SentBy(t: RelayTx, e: Uuid) {
    t.done <= |t.batch| && e in t.batch[..t.done]
  }

  ghost predicate Accounted(outbox: map<Uuid, OutboxRow>, relays: map<nat, RelayTx>, e: Uuid) {
    (e in outbox && outbox[e].publishedAt.Some?) || SentByOpenBatch(relays, e)
  }

  ghost predicate Exact(s: State) {
    forall e :: s.sent[e] == s.failed[e] + if Accounted(s.db.outbox, s.relays, e) then 1 else 0
  }

  lemma ExactKept(s: State, step: Step, s': State)
    requires Inv(s) && Exact(s) && Next(s, step, s')
    ensures Exact(s')
  {
    hide CoreOk, CopiesOk, SentOk, CallsOk, TasksOk, LogOk, LeasesOk, WebhooksOk, RelaysOk, Accounted, Exact,
         ApiNext, RelayNext, WorkNext, ReconcileNext, BrokerStep;
    match step
    case RelayDoes(a) => RelayExact(s, a, s');
    case ApiDoes(a) =>
      ApiAddsUnpublished(s, a, s');
      ExactWhenAdded(s, s');
    case WorkerDoes(a) =>
      WorkAddsUnpublished(s, a, s');
      ExactWhenAdded(s, s');
    case ReconcilerDoes(a) =>
      ReconcileAddsUnpublished(s, a, s');
      ExactWhenAdded(s, s');
    case _ =>
      ExactWhenAdded(s, s');
  }

  /** Outbox rows may be added unpublished; nothing else about relays changes. */
  ghost predicate AddsUnpublished(s: State, s': State) {
    && s'.relays == s.relays && s'.sent == s.sent && s'.failed == s.failed
    && (forall e :: e in s.db.outbox ==> e in s'.db.outbox && s'.db.outbox[e] == s.db.outbox[e])
    && (forall e :: e in s'.db.outbox && e !in s.db.outbox ==> s'.db.outbox[e].publishedAt.None?)
  }

  lemma ApiAddsUnpublished(s: State, a: ApiStep, s': State)
    requires ApiNext(s, a, s')
    ensures AddsUnpublished(s, s')
  {
    ApiFrame(s, a, s');
    hide ApiNext;
  }

  lemma WorkAddsUnpublished(s: State, a: WorkStep, s': State)
    requires WorkNext(s, a, s')
    ensures AddsUnpublished(s, s')
  {
  }

  lemma ReconcileAddsUnpublished(s: State, a: ReconcileStep, s': State)
    requires ReconcileNext(s, a, s')
    ensures AddsUnpublished(s, s')
  {
  }

  lemma ExactWhenAdded(s: State, s': State)
    requires Exact(s) && AddsUnpublished(s, s')
    ensures Exact(s')
  {
  }

  lemma RelayExact(s: State, a: RelayStep, s': State)
    requires Inv(s) && Exact(s) && RelayNext(s, a, s')
    ensures Exact(s')
  {
    hide CoreOk, CopiesOk, SentOk, CallsOk, TasksOk, LogOk, LeasesOk, WebhooksOk, RelaysOk, Exact, IsFirst,
         MarkPublished, Published;
    match a
    case Open(r, batch, limit) => OpenExact(s, r, batch, s');
    case Send(r, cid) => SendExact(s, r, s');
    case SendFails(r, cid, stored) =>
      FailureExact(s, r, if stored then multiset{s.relays[r].batch[s.relays[r].done]} else multiset{}, s');
    case CommitBatch(r, stamps) => CommitExact(s, r, stamps, s');
    case Rollback(r) => FailureExact(s, r, multiset{}, s');
  }

  /** A transaction fails: what it had published, and perhaps one event more, has been
      published in vain. */
  lemma FailureExact(s: State, r: nat, more: multiset<Uuid>, s': State)
    requires RelaysOk(s.db.outbox, s.sent, s.relays) && Exact(s) && r in s.relays
    requires s'.relays == s.relays - {r} && s'.db == s.db && s'.sent == s.sent + more
    requires s'.failed == s.failed + Published(s.relays[r]) + more
    ensures Exact(s')
  {
    var t := s.relays[r];
    hide RelayTxOk;
    forall e
      ensures Published(t)[e] == if SentBy(t, e) then 1 else 0
      ensures Accounted(s.db.outbox, s.relays, e) <==> Accounted(s'.db.outbox, s'.relays, e) || SentBy(t, e)
      ensures !(Accounted(s'.db.outbox, s'.relays, e) && SentBy(t, e))
    {
      PublishedOnce(s, r, e);
      BatchCloses(s, r, e);
    }
    hide Accounted, Published, SentBy, RelaysOk;
  }

  lemma PublishedOnce(s: State, r: nat, e: Uuid)
    requires RelaysOk(s.db.outbox, s.sent, s.relays) && r in s.relays
    ensures Published(s.relays[r])[e] == if SentBy(s.relays[r], e) then 1 else 0
  {
    var t := s.relays[r];
    assert RelayTxOk(s.db.outbox, s.sent, t);
    DistinctCount(t.batch[..t.done], e);
  }

  lemma {:induction false} DistinctCount(ids: seq<Uuid>, e: Uuid)
    requires forall i, j :: 0 <= i < j < |ids| ==> ids[i] != ids[j]
    ensures multiset(ids)[e] == if e in ids then 1 else 0
  {
    if ids != [] {
      var n := |ids| - 1;
      DistinctCount(ids[..n], e);
      assert ids == ids[..n] + [ids[n]];
    }
  }

  lemma BatchCloses(s: State, r: nat, e: Uuid)
    requires RelaysOk(s.db.outbox, s.sent, s.relays) && r in s.relays
    ensures Accounted(s.db.outbox, s.relays, e)
       <==> Accounted(s.db.outbox, s.relays - {r}, e) || SentBy(s.relays[r], e)
    ensures !(Accounted(s.db.outbox, s.relays - {r}, e) && SentBy(s.relays[r], e))
  {
    var t := s.relays[r];
    var rest := s.relays - {r};
    assert RelayTxOk(s.db.outbox, s.sent, t);
    if q :| q in s.relays && SentBy(s.relays[q], e) && q != r {
      assert q in rest && SentBy(rest[q], e);
    }
    if SentBy(t, e) {
      assert e in t.batch;
      forall q | q in rest
        ensures !SentBy(rest[q], e)
      {
        assert e !in s.relays[q].batch;
      }
    }
  }

  lemma OpenExact(s: State, r: nat, batch: seq<Uuid>, s': State)
    requires Exact(s) && r !in s.relays
    requires s'.relays == s.relays[r := RelayTx(batch, 0)] && s'.db == s.db && s'.sent == s.sent
    requires s'.failed == s.failed
    ensures Exact(s')
  {
    forall e
      ensures SentByOpenBatch(s'.relays, e) == SentByOpenBatch(s.relays, e)
    {
      if SentByOpenBatch(s.relays, e) {
        var q :| q in s.relays && SentBy(s.relays[q], e);
        assert q in s'.relays && SentBy(s'.relays[q], e);
      }
    }
  }

  lemma SendExact(s: State, r: nat, s': State)
    requires RelaysOk(s.db.outbox, s.sent, s.relays) && Exact(s)
    requires r in s.relays && s.relays[r].done < |s.relays[r].batch|
    requires s'.relays == s.relays[r := s.relays[r].(done := s.relays[r].done + 1)]
    requires s'.db == s.db && s'.sent == s.sent + multiset{s.relays[r].batch[s.relays[r].done]}
    requires s'.failed == s.failed
    ensures Exact(s')
  {
    var t := s.relays[r];
    var now := t.batch[t.done];
    assert RelayTxOk(s.db.outbox, s.sent, t);
    NotYetSent(s, r);
    assert SentBy(s'.relays[r], now) by {
      assert t.batch[..t.done + 1][t.done] == now;
    }
    forall e | e != now
      ensures SentByOpenBatch(s'.relays, e) == SentByOpenBatch(s.relays, e)
    {
      assert t.batch[..t.done + 1] == t.batch[..t.done] + [now];
      assert SentBy(s'.relays[r], e) == SentBy(t, e);
      SameElsewhere(s.relays, s'.relays, r, e);
    }
  }

  lemma SameElsewhere(relays: map<nat, RelayTx>, relays': map<nat, RelayTx>, r: nat, e: Uuid)
    requires relays.Keys == relays'.Keys && r in relays
    requires forall q :: q in relays && q != r ==> relays'[q] == relays[q]
    requires SentBy(relays'[r], e) == SentBy(relays[r], e)
    ensures SentByOpenBatch(relays', e) == SentByOpenBatch(relays, e)
  {
  }

  /** The next event of an open batch is not accounted for yet. */
  lemma NotYetSent(s: State, r: nat)
    requires RelaysOk(s.db.outbox, s.sent, s.relays)
    requires r in s.relays && s.relays[r].done < |s.relays[r].batch|
    ensures !Accounted(s.db.outbox, s.relays, s.relays[r].batch[s.relays[r].done])
  {
    var t := s.relays[r];
    var e := t.batch[t.done];
    assert RelayTxOk(s.db.outbox, s.sent, t);
    forall q | q in s.relays
      ensures !SentBy(s.relays[q], e)
    {
      assert e in t.batch;
      assert q != r ==> e !in s.relays[q].batch;
      assert q != r ==> !SentBy(s.relays[q], e);
      assert forall i :: 0 <= i < t.done ==> t.batch[i] != e;
    }
  }

  lemma CommitExact(s: State, r: nat, stamps: map<Uuid, Time>, s': State)
    requires RelaysOk(s.db.outbox, s.sent, s.relays) && Exact(s)
    requires r in s.relays && s.relays[r].done == |s.relays[r].batch|
    requires stamps.Keys == Elements(s.relays[r].batch)
    requires s' == s.(relays := s.relays - {r}, db := s.db.(outbox := MarkPublished(s.db.outbox, stamps)))
    ensures Exact(s')
  {
    var t := s.relays[r];
    assert RelayTxOk(s.db.outbox, s.sent, t);
    assert t.batch[..t.done] == t.batch;
    forall e
      ensures Accounted(s'.db.outbox, s'.relays, e) == Accounted(s.db.outbox, s.relays, e)
    {
      if e in t.batch {
        assert SentBy(s.relays[r], e);
      } else if SentByOpenBatch(s.relays, e) {
        var q :| q in s.relays && SentBy(s.relays[q], e);
        assert q in s'.relays && SentBy(s'.relays[q], e);
      }
    }
  }

  lemma {:induction false} RunExact(states: seq<State>, steps: seq<Step>, k: nat)
    requires IsRun(states, steps) && k < |states|
    ensures Exact(states[k])
  {
    hide Next, Inv, Accounted;
    if k == 0 {
      NothingSent(states[0]);
    } else {
      RunExact(states, steps, k - 1);
      RunKeeps(states, steps, k - 1);
      ExactKept(states[k - 1], steps[k - 1], states[k]);
    }
  }

  lemma NothingSent(s: State)
    requires Init(s)
    ensures Exact(s)
  {
  }

  /** However many relays run and fail: an event has reached the broker once for each
      failed transaction that had published it, and once more exactly if it is marked
      published or an open transaction has published it.  So unless a transaction that
      published it failed, it is published at most once, and exactly once if marked. */
  lemma PublishedExactlyOnce(states: seq<State>, steps: seq<Step>, k: nat, e: Uuid)
    requires IsRun(states, steps) && k < |states|
    ensures var s := states[k];
            s.sent[e] == s.failed[e] + if Accounted(s.db.outbox, s.relays, e) then 1 else 0
    ensures states[k].failed[e] == 0 ==>
              && states[k].sent[e] <= 1
              && (e in states[k].db.outbox && states[k].db.outbox[e].publishedAt.Some? ==> states[k].sent[e] == 1)
  {
    hide Next, Inv, Init, SentByOpenBatch;
    RunExact(states, steps, k);
  }

  /** Step `m` is the confirmed publication of `e` by the transaction that relay `r` has
      open from then on until position `k`. */
  ghost predicate SentInTx(states: seq<State>, steps: seq<Step>, m: nat, k: nat, r: nat, e: Uuid)
    requires |states| == |steps| + 1 && m < k < |states|
  {
    && steps[m].RelayDoes? && steps[m].relay.Send? && steps[m].relay.r == r
    && r in states[m].relays && states[m].relays[r].done < |states[m].relays[r].batch|
    && states[m].relays[r].batch[states[m].relays[r].done] == e
    && forall i :: m < i <= k ==> r in states[i].relays && states[i].relays[r].batch == states[m].relays[r].batch
  }

  /** What an open transaction counts as done it has published itself. */
  lemma {:induction false} DoneWasSent(states: seq<State>, steps: seq<Step>, k: nat, r: nat, d: nat) returns (m: nat)
    requires IsRun(states, steps) && k < |states|
    requires r in states[k].relays && d < states[k].relays[r].done && d < |states[k].relays[r].batch|
    ensures m < k && SentInTx(states, steps, m, k, r, states[k].relays[r].batch[d])
  {
    hide Next, Init;
    NothingOpen(states[0]);
    RelayHistory(states[k - 1], steps[k - 1], states[k], r);
    if r in states[k - 1].relays && d < states[k - 1].relays[r].done {
      m := DoneWasSent(states, steps, k - 1, r, d);
    } else {
      m := k - 1;
    }
  }

  lemma NothingOpen(s: State)
    requires Init(s)
    ensures s.relays == map[]
  {
  }

  /** How an open transaction came to be where it is. */
  lemma RelayHistory(s: State, step: Step, s': State, r: nat)
    requires Next(s, step, s') && r in s'.relays
    ensures || s'.relays[r].done == 0
            || (&& r in s.relays && s'.relays[r].batch == s.relays[r].batch
                && (|| s'.relays[r].done == s.relays[r].done
                    || (&& step.RelayDoes? && step.relay.Send? && step.relay.r == r
                        && s.relays[r].done < |s.relays[r].batch|
                        && s'.relays[r].done == s.relays[r].done + 1)))
  {
    hide ApiNext, WorkNext, ReconcileNext, BrokerStep, RelayNext;
    match step
    case RelayDoes(a) => RelayMoves(s, a, s', r);
    case ApiDoes(a) => ApiAddsUnpublished(s, a, s');
    case WorkerDoes(a) => WorkAddsUnpublished(s, a, s');
    case ReconcilerDoes(a) => ReconcileAddsUnpublished(s, a, s');
    case _ =>
  }

  lemma RelayMoves(s: State, a: RelayStep, s': State, r: nat)
    requires RelayNext(s, a, s') && r in s'.relays
    ensures || s'.relays[r].done == 0
            || (&& r in s.relays && s'.relays[r].batch == s.relays[r].batch
                && (|| s'.relays[r].done == s.relays[r].done
                    || (&& a.Send? && a.r == r && s.relays[r].done < |s.relays[r].batch|
                        && s'.relays[r].done == s.relays[r].done + 1)))
  {
    hide IsFirst, MarkPublished;
  }

  /** The mark of an event is set by one step, which commits a batch it is in. */
  lemma MarkIsCommit(s: State, step: Step, s': State, e: Uuid) returns (r: nat, d: nat)
    requires Next(s, step, s')
    requires e in s'.db.outbox && s'.db.outbox[e].publishedAt.Some?
    requires !(e in s.db.outbox && s.db.outbox[e].publishedAt.Some?)
    ensures step.RelayDoes? && step.relay.CommitBatch? && step.relay.r == r && r in s.relays
    ensures d < s.relays[r].done == |s.relays[r].batch| && s.relays[r].batch[d] == e
  {
    hide ApiNext, RelayNext, WorkNext, ReconcileNext, BrokerStep;
    match step
    case RelayDoes(a) => r, d := MarkIsRelayCommit(s, a, s', e);
    case ApiDoes(a) => ApiAddsUnpublished(s, a, s');
    case WorkerDoes(a) => WorkAddsUnpublished(s, a, s');
    case ReconcilerDoes(a) => ReconcileAddsUnpublished(s, a, s');
    case _ =>
  }

  lemma MarkIsRelayCommit(s: State, a: RelayStep, s': State, e: Uuid) returns (r: nat, d: nat)
    requires RelayNext(s, a, s')
    requires e in s'.db.outbox && s'.db.outbox[e].publishedAt.Some?
    requires !(e in s.db.outbox && s.db.outbox[e].publishedAt.Some?)
    ensures a.CommitBatch? && a.r == r && r in s.relays
    ensures d < s.relays[r].done == |s.relays[r].batch| && s.relays[r].batch[d] == e
  {
    hide IsFirst;
    assert a.CommitBatch?;
    r := a.r;
    assert e in Elements(s.relays[r].batch);
    d :| 0 <= d < |s.relays[r].batch| && s.relays[r].batch[d] == e;
  }

  /** Step `j` commits the mark of `e`, and its own transaction had published `e` with the
      broker's confirmation at step `m`. */
  ghost predicate MarkedAfterSend(states: seq<State>, steps: seq<Step>, m: nat, j: nat, e: Uuid)
    requires |states| == |steps| + 1 && m < j < |steps|
  {
    && steps[j].RelayDoes? && steps[j].relay.CommitBatch? && e in steps[j].relay.stamps
    && SentInTx(states, steps, m, j, steps[j].relay.r, e)
  }

  /** With or without failures: a committed publication mark was set by a transaction that
      had published the event itself, confirmed by the broker, and had been open since. */
  lemma {:induction false} MarkedOnlyIfSent(states: seq<State>, steps: seq<Step>, k: nat, e: Uuid)
    requires IsRun(states, steps) && k < |states|
    requires e in states[k].db.outbox && states[k].db.outbox[e].publishedAt.Some?
    ensures states[k].sent[e] >= 1
    ensures exists m, j :: 0 <= m < j < k && MarkedAfterSend(states, steps, m, j, e)
  {
    hide Next, Init, Inv;
    NoRowsAtFirst(states[0]);
    RunKeeps(states, steps, k);
    MarkedReachedBroker(states[k], e);
    if e in states[k - 1].db.outbox && states[k - 1].db.outbox[e].publishedAt.Some? {
      MarkedOnlyIfSent(states, steps, k - 1, e);
    } else {
      var r, d := MarkIsCommit(states[k - 1], steps[k - 1], states[k], e);
      var m := DoneWasSent(states, steps, k - 1, r, d);
      StampsAreBatch(states[k - 1], steps[k - 1], states[k], r, d);
      assert MarkedAfterSend(states, steps, m, k - 1, e);
    }
  }

  lemma MarkedReachedBroker(s: State, e: Uuid)
    requires Inv(s) && e in s.db.outbox && s.db.outbox[e].publishedAt.Some?
    ensures s.sent[e] >= 1
  {
    hide CoreOk, CopiesOk, RelaysOk, CallsOk, TasksOk, LogOk, LeasesOk, WebhooksOk, Handled;
  }

  lemma NoRowsAtFirst(s: State)
    requires Init(s)
    ensures s.db.outbox == map[]
  {
  }

  lemma StampsAreBatch(s: State, step: Step, s': State, r: nat, d: nat)
    requires Next(s, step, s') && step.RelayDoes? && step.relay.CommitBatch? && step.relay.r == r
    requires r in s.relays && d < |s.relays[r].batch|
    ensures s.relays[r].batch[d] in step.relay.stamps
  {
  }

  /** Two open batches never share a row. */
  lemma OpenBatchesDisjoint(states: seq<State>, steps: seq<Step>, k: nat, e: Uuid, q: nat, r: nat)
    requires IsRun(states, steps) && k < |states|
    requires q in states[k].relays && r in states[k].relays && q != r
    ensures !(e in states[k].relays[q].batch && e in states[k].relays[r].batch)
  {
    hide Next, Init, CoreOk, CopiesOk, SentOk, CallsOk, TasksOk, LogOk, LeasesOk, WebhooksOk, RelayTxOk;
    RunKeeps(states, steps, k);
  }
}
