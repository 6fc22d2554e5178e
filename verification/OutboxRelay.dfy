/** One relay batch: publish every row of it in order, then commit the marks. */
module OutboxRelays {
  import opened Model
  import opened Selection
  import opened Transactions
  import opened Broker
  import opened Storage
  import System

  /** The queue payments.new as the publisher sees it. */
  class Channel {
    var delivered: seq<Envelope>

    constructor ()
      ensures delivered == []
    {
      delivered := [];
    }

    method Publish(event: Envelope, fate: PublishFate) returns (confirmed: bool)
      modifies this
      ensures confirmed <==> fate == Confirmed
      ensures delivered == old(delivered) + if fate == RaisedLost then [] else [event]
    {
      if fate != RaisedLost {
        delivered := delivered + [event];
      }
      confirmed := fate == Confirmed;
    }
  }

  function Payloads(outbox: map<Uuid, OutboxRow>, batch: seq<Uuid>): (events: seq<Envelope>)
    requires forall i :: 0 <= i < |batch| ==> batch[i] in outbox
    ensures |events| == |batch| && forall i :: 0 <= i < |batch| ==> events[i] == outbox[batch[i]].payload
  {
    seq(|batch|, i requires 0 <= i < |batch| => outbox[batch[i]].payload)
  }

  function Stamps(batch: seq<Uuid>, clock: seq<Time>): (stamps: map<Uuid, Time>)
    requires |batch| <= |clock|
    ensures stamps.Keys == Elements(batch)
  {
    if batch == [] then map[]
    else
      var n := |batch| - 1;
      assert batch == batch[..n] + [batch[n]];
      Stamps(batch[..n], clock)[batch[n] := clock[n]]
  }

  /** What a committed batch leaves in the table: its rows marked, each with the time at
      which it was published, and all others as they were. */
  lemma {:induction false} MarksOfBatch(outbox: map<Uuid, OutboxRow>, batch: seq<Uuid>, clock: seq<Time>)
    requires |batch| <= |clock| && forall i :: 0 <= i < |batch| ==> batch[i] in outbox
    requires forall i, j :: 0 <= i < j < |batch| ==> batch[i] != batch[j]
    ensures var after := MarkPublished(outbox, Stamps(batch, clock));
            && after.Keys == outbox.Keys
            && (forall i :: 0 <= i < |batch| ==>
                  after[batch[i]] == outbox[batch[i]].(publishedAt := Some(clock[i])))
            && (forall e :: e in outbox && e !in batch ==> after[e] == outbox[e])
  {
    StampsOfBatch(batch, clock);
  }

  lemma {:induction false} StampsOfBatch(batch: seq<Uuid>, clock: seq<Time>)
    requires |batch| <= |clock| && forall i, j :: 0 <= i < j < |batch| ==> batch[i] != batch[j]
    ensures var stamps := Stamps(batch, clock);
            forall i :: 0 <= i < |batch| ==> batch[i] in stamps && stamps[batch[i]] == clock[i]
  {
    if batch != [] {
      var n := |batch| - 1;
      StampsOfBatch(batch[..n], clock);
      forall i | 0 <= i < n
        ensures batch[i] in Stamps(batch, clock) && Stamps(batch, clock)[batch[i]] == clock[i]
      {
        assert batch[..n][i] == batch[i] && batch[i] != batch[n];
      }
    }
  }

  datatype BatchResult = Processed(count: nat) | BatchFailed

  class OutboxRelay {
    const db: Database
    const channel: Channel

    constructor (db: Database, channel: Channel)
      ensures this.db == db && this.channel == channel
    {
      this.db, this.channel := db, channel;
    }

    /** The loop over the batch: publishes in order until a publication raises. */
    method PublishAll(batch: seq<Uuid>, fates: seq<PublishFate>, clock: seq<Time>)
      returns (failedAt: Option<nat>, marks: map<Uuid, Time>)
      requires |fates| >= |batch| && |clock| >= |batch|
      requires forall i :: 0 <= i < |batch| ==> batch[i] in db.outbox
      modifies channel
      ensures match failedAt
              case None =>
                && (forall i :: 0 <= i < |batch| ==> fates[i] == Confirmed)
                && channel.delivered == old(channel.delivered) + Payloads(db.outbox, batch)
                && marks == Stamps(batch, clock)
              case Some(i) =>
                && i < |batch| && fates[i] != Confirmed
                && (forall j :: 0 <= j < i ==> fates[j] == Confirmed)
                && channel.delivered == old(channel.delivered) + Payloads(db.outbox, batch[..i])
                     + if fates[i] == RaisedStored then [db.outbox[batch[i]].payload] else []
    {
      marks := map[];
      for i := 0 to |batch|
        invariant forall j :: 0 <= j < i ==> fates[j] == Confirmed
        invariant marks == Stamps(batch[..i], clock)
        invariant channel.delivered == old(channel.delivered) + Payloads(db.outbox, batch[..i])
      {
        var confirmed := channel.Publish(db.outbox[batch[i]].payload, fates[i]);
        if !confirmed {
          return Some(i), marks;
        }
        assert batch[..i + 1][..i] == batch[..i];
        assert Payloads(db.outbox, batch[..i + 1])
            == Payloads(db.outbox, batch[..i]) + [db.outbox[batch[i]].payload];
        marks := marks[batch[i] := clock[i]];
      }
      assert batch[..|batch|] == batch;
      failedAt := None;
    }

    /** `fates[i]` is what publishing the i-th row comes to; `failedAt` is the first that
        raises.  The batch consists of the first unpublished, unlocked rows.  If all goes
        well they are published in order, exactly once each, and marked; if publication i
        raises, the broker has got rows 0..i-1 and possibly row i, and the table is as it
        was; if the commit raises, the broker has got all of them and the marks are kept
        or not. */
    method ProcessBatch(limit: nat, locked: set<Uuid>, fates: seq<PublishFate>, clock: seq<Time>, fate: CommitFate)
      returns (result: BatchResult, batch: seq<Uuid>, failedAt: Option<nat>)
      requires |fates| >= limit && |clock| >= limit
      modifies db`outbox, channel
      ensures limit < 1 ==> result == BatchFailed && batch == []
      ensures limit >= 1 ==>
                IsFirst(CreatedTimes(old(db.outbox)), Unpublished(old(db.outbox), locked), limit, batch)
      ensures |batch| <= limit && forall i :: 0 <= i < |batch| ==> batch[i] in old(db.outbox)
      ensures match failedAt
              case None =>
                && (forall i :: 0 <= i < |batch| ==> fates[i] == Confirmed)
                && (limit >= 1 ==> (result == Processed(|batch|) <==> fate == Acked))
              case Some(i) =>
                && i < |batch| && fates[i] != Confirmed
                && (forall j :: 0 <= j < i ==> fates[j] == Confirmed)
                && result == BatchFailed
      ensures db.outbox == if limit < 1 then old(db.outbox)
                           else TableAfter(old(db.outbox), batch, clock, failedAt, fate)
      ensures channel.delivered == old(channel.delivered) + EventsOf(old(db.outbox), batch, fates, failedAt)
    {
      hide IsFirst, Payloads, Stamps, MarkPublished;
      var repository := new OutboxRepository(db);
      var selected := repository.GetUnpublishedBatch(limit, locked);
      if selected == None {
        batch := [];
        assert Payloads(db.outbox, batch) == [];
        return BatchFailed, batch, None;
      }
      batch := selected.value;
      FirstAreCandidates(CreatedTimes(db.outbox), Unpublished(db.outbox, locked), limit, batch);
      var marks;
      failedAt, marks := PublishAll(batch, fates, clock);
      if failedAt != None {
        return BatchFailed, batch, failedAt;
      }
      if fate != RolledBack {
        db.outbox := MarkPublished(db.outbox, marks);
      }
      result := if fate == Acked then Processed(|batch|) else BatchFailed;
    }
  }

  lemma FirstAreCandidates(times: map<Uuid, Time>, candidates: set<Uuid>, n: nat, batch: seq<Uuid>)
    requires candidates <= times.Keys && IsFirst(times, candidates, n, batch)
    ensures |batch| <= n && forall i :: 0 <= i < |batch| ==> batch[i] in candidates
  {
  }

  // ----- a batch as steps of the system --------------------------------------------------------

  ghost predicate IsPath(states: seq<System.State>, steps: seq<System.RelayStep>) {
    && |states| == |steps| + 1
    && forall i :: 0 <= i < |steps| ==> System.RelayNext(states[i], steps[i], states[i + 1])
  }

  /** The queues after `events` have reached payments.new as the copies `ids`. */
  function WithCopies(copies: Copies, ids: seq<nat>, events: seq<Envelope>): Copies
    requires |events| <= |ids|
  {
    if events == [] then copies
    else
      var n := |events| - 1;
      WithCopies(copies, ids, events[..n])[ids[n] := Copy(events[n], InNew)]
  }

  lemma {:induction false} CopiesAre(copies: Copies, ids: seq<nat>, events: seq<Envelope>)
    requires |events| <= |ids|
    ensures WithCopies(copies, ids, events).Keys == copies.Keys + Elements(ids[..|events|])
  {
    if events != [] {
      var n := |events| - 1;
      CopiesAre(copies, ids, events[..n]);
      assert ids[..n + 1] == ids[..n] + [ids[n]];
    }
  }

  ghost predicate FreshIds(s: System.State, ids: seq<nat>) {
    && (forall i :: 0 <= i < |ids| ==> ids[i] !in s.copies)
    && (forall i, j :: 0 <= i < j < |ids| ==> ids[i] != ids[j])
  }

  /** The state after relay `r` has published the first `n` rows of its batch. */
  function AfterSends(s: System.State, r: nat, batch: seq<Uuid>, ids: seq<nat>, n: nat): System.State
    requires n <= |batch| && n <= |ids| && forall i :: 0 <= i < |batch| ==> batch[i] in s.db.outbox
  {
    s.(relays := s.relays[r := System.RelayTx(batch, n)],
       copies := WithCopies(s.copies, ids, Payloads(s.db.outbox, batch[..n])),
       sent := s.sent + multiset(batch[..n]))
  }

  lemma SendIsStep(s: System.State, r: nat, batch: seq<Uuid>, ids: seq<nat>, n: nat)
    requires n < |batch| && n < |ids| && forall i :: 0 <= i < |batch| ==> batch[i] in s.db.outbox
    requires FreshIds(s, ids)
    ensures ids[n] !in AfterSends(s, r, batch, ids, n).copies
    ensures System.RelayNext(AfterSends(s, r, batch, ids, n), System.Send(r, ids[n]),
                             AfterSends(s, r, batch, ids, n + 1))
  {
    hide WithCopies, Payloads;
    var events := Payloads(s.db.outbox, batch[..n]);
    CopiesAre(s.copies, ids, events);
    PayloadsGrow(s.db.outbox, batch, n);
    OneCopyMore(s.copies, ids, events, s.db.outbox[batch[n]].payload);
    SentGrows(s.sent, batch, n);
    FreshAt(s, ids, n);
  }

  lemma FreshAt(s: System.State, ids: seq<nat>, n: nat)
    requires FreshIds(s, ids) && n < |ids|
    ensures ids[n] !in s.copies && ids[n] !in Elements(ids[..n])
  {
  }

  lemma SentGrows(sent: multiset<Uuid>, batch: seq<Uuid>, n: nat)
    requires n < |batch|
    ensures sent + multiset(batch[..n + 1]) == sent + multiset(batch[..n]) + multiset{batch[n]}
  {
    assert batch[..n + 1] == batch[..n] + [batch[n]];
  }

  lemma PayloadsGrow(outbox: map<Uuid, OutboxRow>, batch: seq<Uuid>, n: nat)
    requires n < |batch| && forall i :: 0 <= i < |batch| ==> batch[i] in outbox
    ensures Payloads(outbox, batch[..n + 1]) == Payloads(outbox, batch[..n]) + [outbox[batch[n]].payload]
  {
  }

  lemma OneCopyMore(copies: Copies, ids: seq<nat>, events: seq<Envelope>, e: Envelope)
    requires |events| < |ids|
    ensures WithCopies(copies, ids, events + [e])
         == WithCopies(copies, ids, events)[ids[|events|] := Copy(e, InNew)]
  {
    assert (events + [e])[..|events|] == events;
  }

  lemma {:induction false} SendsAreSteps(s: System.State, r: nat, batch: seq<Uuid>, ids: seq<nat>, n: nat)
    returns (states: seq<System.State>, steps: seq<System.RelayStep>)
    requires n <= |batch| && n <= |ids| && forall i :: 0 <= i < |batch| ==> batch[i] in s.db.outbox
    requires FreshIds(s, ids)
    ensures IsPath(states, steps) && |steps| == n
    ensures states[0] == AfterSends(s, r, batch, ids, 0) && states[n] == AfterSends(s, r, batch, ids, n)
  {
    hide System.RelayNext, AfterSends;
    if n == 0 {
      states, steps := [AfterSends(s, r, batch, ids, 0)], [];
    } else {
      states, steps := SendsAreSteps(s, r, batch, ids, n - 1);
      SendIsStep(s, r, batch, ids, n - 1);
      states, steps := states + [AfterSends(s, r, batch, ids, n)], steps + [System.Send(r, ids[n - 1])];
    }
  }

  /** What a batch leaves in the table. */
  function TableAfter(outbox: map<Uuid, OutboxRow>, batch: seq<Uuid>, clock: seq<Time>, failedAt: Option<nat>,
                      fate: CommitFate): map<Uuid, OutboxRow>
    requires |batch| <= |clock|
  {
    if failedAt.Some? || fate == RolledBack then outbox else MarkPublished(outbox, Stamps(batch, clock))
  }

  /** What it publishes: all rows, or those before the failure and perhaps the failed one. */
  function EventsOf(outbox: map<Uuid, OutboxRow>, batch: seq<Uuid>, fates: seq<PublishFate>, failedAt: Option<nat>)
    : seq<Envelope>
    requires forall i :: 0 <= i < |batch| ==> batch[i] in outbox
    requires failedAt.Some? ==> failedAt.value < |batch| && failedAt.value < |fates|
  {
    match failedAt
    case None => Payloads(outbox, batch)
    case Some(i) =>
      Payloads(outbox, batch[..i]) + if fates[i] == RaisedStored then [outbox[batch[i]].payload] else []
  }

  /** A batch refines the relay steps of the system: it opens a transaction, publishes, and
      commits or fails, and leaves the table and the queue as those steps do. */
  lemma BatchRefinesSteps(s: System.State, r: nat, limit: nat, batch: seq<Uuid>, ids: seq<nat>,
                          fates: seq<PublishFate>, clock: seq<Time>, failedAt: Option<nat>, fate: CommitFate)
    returns (states: seq<System.State>, steps: seq<System.RelayStep>)
    requires r !in s.relays && limit >= 1 && |ids| == |batch| && |clock| >= |batch| && |fates| >= |batch|
    requires FreshIds(s, ids)
    requires IsFirst(CreatedTimes(s.db.outbox), Unpublished(s.db.outbox, System.LockedRows(s.relays)), limit, batch)
    requires failedAt.Some? ==> failedAt.value < |batch| && fates[failedAt.value] != Confirmed
    requires forall i :: 0 <= i < |batch| ==> batch[i] in s.db.outbox
    ensures IsPath(states, steps) && states[0] == s
    ensures var last := states[|states| - 1]; var events := EventsOf(s.db.outbox, batch, fates, failedAt);
            && last.relays == s.relays
            && last.db == s.db.(outbox := TableAfter(s.db.outbox, batch, clock, failedAt, fate))
            && |events| <= |ids| && last.copies == WithCopies(s.copies, ids, events)
  {
    hide System.RelayNext, AfterSends, IsFirst, FreshIds, WithCopies, Payloads, TableAfter;
    var n := if failedAt.Some? then failedAt.value else |batch|;
    OpeningIsStep(s, r, limit, batch, ids);
    var before, sends := SendsAreSteps(s, r, batch, ids, n);
    var last, step := ClosingIsStep(s, r, batch, ids, fates, clock, failedAt, fate);
    states, steps := Joined(s, System.Open(r, batch, limit), before, sends, step, last);
  }

  /** A path with a step before it and one after it. */
  lemma Joined(s: System.State, first: System.RelayStep, middle: seq<System.State>, between: seq<System.RelayStep>,
               step: System.RelayStep, last: System.State)
    returns (states: seq<System.State>, steps: seq<System.RelayStep>)
    requires IsPath(middle, between)
    requires System.RelayNext(s, first, middle[0]) && System.RelayNext(middle[|between|], step, last)
    ensures IsPath(states, steps) && states[0] == s && states[|states| - 1] == last
  {
    hide System.RelayNext;
    states := [s] + middle + [last];
    steps := [first] + between + [step];
    forall i | 0 <= i < |steps|
      ensures System.RelayNext(states[i], steps[i], states[i + 1])
    {
      if 0 < i <= |between| {
        assert states[i] == middle[i - 1] && steps[i] == between[i - 1] && states[i + 1] == middle[i];
      }
    }
  }

  lemma OpeningIsStep(s: System.State, r: nat, limit: nat, batch: seq<Uuid>, ids: seq<nat>)
    requires r !in s.relays && limit >= 1
    requires IsFirst(CreatedTimes(s.db.outbox), Unpublished(s.db.outbox, System.LockedRows(s.relays)), limit, batch)
    requires forall i :: 0 <= i < |batch| ==> batch[i] in s.db.outbox
    ensures System.RelayNext(s, System.Open(r, batch, limit), AfterSends(s, r, batch, ids, 0))
  {
    hide IsFirst;
    assert batch[..0] == [];
    assert s.sent + multiset(batch[..0]) == s.sent;
  }

  lemma ClosingIsStep(s: System.State, r: nat, batch: seq<Uuid>, ids: seq<nat>, fates: seq<PublishFate>,
                      clock: seq<Time>, failedAt: Option<nat>, fate: CommitFate)
    returns (last: System.State, step: System.RelayStep)
    requires r !in s.relays && |ids| == |batch| && |clock| >= |batch| && |fates| >= |batch| && FreshIds(s, ids)
    requires failedAt.Some? ==> failedAt.value < |batch| && fates[failedAt.value] != Confirmed
    requires forall i :: 0 <= i < |batch| ==> batch[i] in s.db.outbox
    ensures var n := if failedAt.Some? then failedAt.value else |batch|;
            System.RelayNext(AfterSends(s, r, batch, ids, n), step, last)
    ensures var events := EventsOf(s.db.outbox, batch, fates, failedAt);
            && last.relays == s.relays
            && last.db == s.db.(outbox := TableAfter(s.db.outbox, batch, clock, failedAt, fate))
            && |events| <= |ids| && last.copies == WithCopies(s.copies, ids, events)
  {
    assert s.relays[r := System.RelayTx(batch, |batch|)] - {r} == s.relays;
    if failedAt.Some? {
      last, step := FailureIsStep(s, r, batch, ids, failedAt.value, fates[failedAt.value] == RaisedStored);
    } else {
      assert batch[..|batch|] == batch;
      var sent := AfterSends(s, r, batch, ids, |batch|);
      if fate == RolledBack {
        step := System.Rollback(r);
        last := sent.(relays := s.relays, failed := s.failed + System.Published(sent.relays[r]));
      } else {
        var stamps := Stamps(batch, clock);
        step := System.CommitBatch(r, stamps);
        last := sent.(relays := s.relays, db := s.db.(outbox := MarkPublished(s.db.outbox, stamps)));
      }
    }
  }

  lemma FailureIsStep(s: System.State, r: nat, batch: seq<Uuid>, ids: seq<nat>, n: nat, stored: bool)
    returns (last: System.State, step: System.RelayStep)
    requires r !in s.relays && n < |batch| && |ids| == |batch| && FreshIds(s, ids)
    requires forall i :: 0 <= i < |batch| ==> batch[i] in s.db.outbox
    ensures System.RelayNext(AfterSends(s, r, batch, ids, n), step, last)
    ensures var events := Payloads(s.db.outbox, batch[..n]) + if stored then [s.db.outbox[batch[n]].payload] else [];
            && last.relays == s.relays && last.db == s.db
            && |events| <= |ids| && last.copies == WithCopies(s.copies, ids, events)
  {
    hide WithCopies, Payloads;
    var sent := AfterSends(s, r, batch, ids, n);
    SendIsStep(s, r, batch, ids, n);
    var events := Payloads(s.db.outbox, batch[..n]);
    var failed := s.db.outbox[batch[n]].payload;
    OneCopyMore(s.copies, ids, events, failed);
    assert events + [] == events;
    assert s.relays[r := System.RelayTx(batch, n)] - {r} == s.relays;
    step := System.SendFails(r, ids[n], stored);
    last := sent.(relays := s.relays,
                  copies := if stored then sent.copies[ids[n] := Copy(failed, InNew)] else sent.copies,
                  sent := if stored then sent.sent + multiset{batch[n]} else sent.sent,
                  failed := s.failed + System.Published(sent.relays[r])
                              + if stored then multiset{batch[n]} else multiset{});
  }
}
