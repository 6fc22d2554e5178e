/** The provider: keyed idempotency guarded by a table of reference-counted locks.
    A request runs without interruption between its awaits: arrival up to waiting for
    the lock, from the acquired lock to the end of the `finally` block.  The methods
    below cut even finer, so other requests may come in between any two of them. */
module MockProvider {
  import opened Model

  // ----- the record map ---------------------------------------------------------------------

  /** The critical section on the records: an existing record is never touched. */
  function Serve(records: map<Uuid, Record>, request: ProviderRequest, answer: ProviderResponse)
    : map<Uuid, Record>
  {
    if request.paymentId in records then records
    else records[request.paymentId := Record(request, answer)]
  }

  datatype Reply =
    | Answer(answer: ProviderResponse)
    | Malformed
    | KeyMismatch
    | PayloadConflict
    | FailedBeforeProcessing

  /** Scenarios that fail before a record is written, that corrupt the answer, and the rest. */
  datatype Scenario = Normal | FailBefore | MalformedAfter

  /** What a request is told before it comes near the lock table, if anything. */
  function Refusal(request: ProviderRequest, key: Uuid, scenario: Scenario): (reply: Option<Reply>)
    ensures reply == Some(KeyMismatch) <==> key != request.paymentId
    ensures reply.None? <==> key == request.paymentId && scenario != FailBefore
  {
    if key != request.paymentId then Some(KeyMismatch)
    else if scenario == FailBefore then Some(FailedBeforeProcessing)
    else None
  }

  /** What a lookup by key finds. */
  function Recorded(records: map<Uuid, Record>, key: Uuid): Option<ProviderResponse> {
    if key in records then Some(records[key].response) else None
  }

  // ----- the lock table --------------------------------------------------------------------------

  class LockEntry {
    var holder: Option<nat>
    var users: nat

    constructor ()
      ensures holder == None && users == 0
    {
      holder, users := None, 0;
    }
  }

  /** A request between `users += 1` and `users -= 1`. */
  datatype Live = Live(key: Uuid, entry: LockEntry, holding: bool)

  /** The live requests of a key. */
  ghost function UsersIn(live: map<nat, Live>, key: Uuid): set<nat> {
    set r | r in live && live[r].key == key
  }

  lemma UsersAfterJoin(live: map<nat, Live>, r: nat, x: Live)
    requires r !in live
    ensures UsersIn(live[r := x], x.key) == UsersIn(live, x.key) + {r}
    ensures |UsersIn(live[r := x], x.key)| == |UsersIn(live, x.key)| + 1
    ensures forall k :: k != x.key ==> UsersIn(live[r := x], k) == UsersIn(live, k)
  {
  }

  lemma UsersAfterHold(live: map<nat, Live>, r: nat, holding: bool)
    requires r in live
    ensures forall k :: UsersIn(live[r := live[r].(holding := holding)], k) == UsersIn(live, k)
  {
  }

  lemma UsersAfterLeave(live: map<nat, Live>, r: nat)
    requires r in live
    ensures UsersIn(live - {r}, live[r].key) == UsersIn(live, live[r].key) - {r}
    ensures |UsersIn(live - {r}, live[r].key)| == |UsersIn(live, live[r].key)| - 1
    ensures forall k :: k != live[r].key ==> UsersIn(live - {r}, k) == UsersIn(live, k)
  {
  }

  lemma SomeUser(live: map<nat, Live>, key: Uuid)
    ensures |UsersIn(live, key)| >= 1 <==> exists r :: r in live && live[r].key == key
  {
    if r :| r in live && live[r].key == key {
      assert r in UsersIn(live, key);
    }
    if |UsersIn(live, key)| >= 1 {
      var r :| r in UsersIn(live, key);
    }
  }

  /** The holder of an entry is one of its users, and no other user is in the critical section. */
  ghost predicate HolderOk(live: map<nat, Live>, key: Uuid, holder: Option<nat>) {
    && (holder.Some? ==> holder.value in live && live[holder.value].key == key)
    && (forall r :: r in live && live[r].key == key ==> (live[r].holding <==> holder == Some(r)))
  }

  /** All live requests of a key share the table's entry for it, and different keys have
      different entries. */
  ghost predicate Linked(live: map<nat, Live>, locks: map<Uuid, LockEntry>) {
    && (forall r :: r in live ==> live[r].key in locks && locks[live[r].key] == live[r].entry)
    && (forall j, k :: j in locks && k in locks && j != k ==> locks[j] != locks[k])
  }

  /** Besides, no entry is without a user. */
  ghost predicate Shared(live: map<nat, Live>, locks: map<Uuid, LockEntry>) {
    && Linked(live, locks)
    && (forall k :: k in locks ==> |UsersIn(live, k)| >= 1)
  }

  lemma SharedAfterJoin(live: map<nat, Live>, locks: map<Uuid, LockEntry>, r: nat, key: Uuid, e: LockEntry)
    requires Shared(live, locks) && r !in live
    requires if key in locks then e == locks[key] else forall k :: k in locks ==> locks[k] != e
    ensures Shared(live[r := Live(key, e, false)], locks[key := e])
    ensures key !in locks ==> |UsersIn(live, key)| == 0
  {
    UsersAfterJoin(live, r, Live(key, e, false));
    SomeUser(live, key);
    hide UsersIn;
  }

  lemma HolderAfterJoin(live: map<nat, Live>, r: nat, x: Live, k: Uuid, holder: Option<nat>)
    requires HolderOk(live, k, holder) && r !in live && !x.holding
    ensures HolderOk(live[r := x], k, holder)
  {
  }

  lemma NobodyHolds(live: map<nat, Live>, key: Uuid)
    requires |UsersIn(live, key)| == 0
    ensures HolderOk(live, key, None)
  {
    SomeUser(live, key);
  }

  lemma SharedAfterHold(live: map<nat, Live>, locks: map<Uuid, LockEntry>, r: nat, holding: bool)
    requires Shared(live, locks) && r in live
    ensures Shared(live[r := live[r].(holding := holding)], locks)
  {
    UsersAfterHold(live, r, holding);
    hide UsersIn;
  }

  class Provider {
    var records: map<Uuid, Record>
    var locks: map<Uuid, LockEntry>
    ghost var live: map<nat, Live>
    /** Every well-formed answer ever given, with its key. */
    ghost var answers: seq<(Uuid, ProviderResponse)>

    /** An entry counts exactly its users; its holder, if any, is one of them, and is
        the one in the critical section; what was answered is what is recorded. */
    ghost predicate Tallied()
      reads this, locks.Values
    {
      && Linked(live, locks)
      && (forall k :: k in locks ==> locks[k].users == |UsersIn(live, k)|)
      && (forall k :: k in locks ==> HolderOk(live, k, locks[k].holder))
      && AnswersRecorded()
    }

    /** Between requests no entry is idle. */
    ghost predicate Valid()
      reads this, locks.Values
    {
      Tallied() && Shared(live, locks)
    }

    ghost predicate AnswersRecorded()
      reads this`records, this`answers
    {
      forall i :: 0 <= i < |answers| ==>
        answers[i].0 in records && records[answers[i].0].response == answers[i].1
    }

    constructor ()
      ensures Valid() && records == map[] && locks == map[] && live == map[] && answers == []
    {
      records, locks, live, answers := map[], map[], map[], [];
    }

    /** The entry of the key is there: one more user. */
    method JoinEntry(r: nat, key: Uuid) returns (entry: LockEntry)
      requires Valid() && r !in live && key in locks
      modifies this`live, locks.Values
      ensures Valid() && live == old(live)[r := Live(key, entry, false)] && entry == locks[key]
    {
      hide Linked, Shared, HolderOk, UsersIn, AnswersRecorded;
      entry := locks[key];
      JoinKept(r, key, entry);
      entry.users := entry.users + 1;
      live := live[r := Live(key, entry, false)];
    }

    /** It is not: a new entry with one user. */
    method MakeEntry(r: nat, key: Uuid) returns (entry: LockEntry)
      requires Valid() && r !in live && key !in locks
      modifies this`locks, this`live
      ensures Valid() && live == old(live)[r := Live(key, entry, false)]
      ensures locks == old(locks)[key := entry] && fresh(entry)
    {
      hide Linked, Shared, HolderOk, UsersIn, AnswersRecorded;
      entry := new LockEntry();
      JoinKept(r, key, entry);
      NobodyHolds(live, key);
      HolderAfterJoin(live, r, Live(key, entry, false), key, None);
      locks := locks[key := entry];
      entry.users := entry.users + 1;
      live := live[r := Live(key, entry, false)];
    }

    /** What joining leaves as it should be. */
    lemma JoinKept(r: nat, key: Uuid, entry: LockEntry)
      requires Valid() && r !in live
      requires if key in locks then entry == locks[key] else entry !in locks.Values
      ensures var live' := live[r := Live(key, entry, false)];
              && Shared(live', locks[key := entry]) && Linked(live', locks[key := entry])
              && (forall k :: k in locks ==> HolderOk(live', k, locks[k].holder))
              && |UsersIn(live', key)| == |UsersIn(live, key)| + 1
              && (key !in locks ==> |UsersIn(live, key)| == 0)
              && (forall k :: k != key ==> UsersIn(live', k) == UsersIn(live, k))
              && (forall k :: k in locks && k != key ==> locks[k] != entry)
              && (key in locks ==> locks[key := entry] == locks)
    {
      var x := Live(key, entry, false);
      forall k | k in locks && k != key
        ensures locks[k] != entry
      {
        assert key in locks ==> locks[k] != locks[key];
        assert locks[k] in locks.Values;
      }
      SharedAfterJoin(live, locks, r, key, entry);
      UsersAfterJoin(live, r, x);
      hide Linked, Shared, HolderOk, UsersIn;
      forall k | k in locks
        ensures HolderOk(live[r := x], k, locks[k].holder)
      {
        HolderAfterJoin(live, r, x, k, locks[k].holder);
      }
    }

    /** Up to waiting for the lock.  The request either fails at once or joins the entry
        of its key, which is made when there is none. */
    method Arrive(r: nat, request: ProviderRequest, key: Uuid, scenario: Scenario)
      returns (reply: Option<Reply>, entry: LockEntry?)
      requires Valid() && r !in live
      modifies this, locks.Values
      ensures Valid() && records == old(records) && answers == old(answers)
      ensures reply == Some(KeyMismatch) <==> key != request.paymentId
      ensures reply == Some(FailedBeforeProcessing) <==> key == request.paymentId && scenario == FailBefore
      ensures reply == Refusal(request, key, scenario)
      ensures reply.Some? ==> live == old(live) && locks == old(locks)
      ensures reply.None? ==>
                && key == request.paymentId && entry != null
                && live == old(live)[r := Live(key, entry, false)]
                && key in locks && locks[key] == entry
                && (key !in old(locks) ==> fresh(entry))
                && locks == old(locks)[key := entry]
    {
      hide UsersIn;
      if key != request.paymentId {
        return Some(KeyMismatch), null;
      }
      if scenario == FailBefore {
        return Some(FailedBeforeProcessing), null;
      }
      if key in locks {
        entry := JoinEntry(r, key);
      } else {
        entry := MakeEntry(r, key);
      }
      reply := None;
    }

    /** `async with lock`: possible only while nobody holds it. */
    method Acquire(r: nat, entry: LockEntry)
      requires Valid() && r in live && live[r].entry == entry && !live[r].holding
      requires entry.holder == None
      modifies this`live, entry`holder
      ensures Valid() && live == old(live)[r := old(live)[r].(holding := true)]
      ensures forall q :: q in live && live[q].key == live[r].key && live[q].holding ==> q == r
    {
      hide UsersIn;
      SharedAfterHold(live, locks, r, true);
      UsersAfterHold(live, r, true);
      entry.holder := Some(r);
      live := live[r := live[r].(holding := true)];
    }

    /** The body under the lock. */
    method Process(r: nat, request: ProviderRequest, answer: ProviderResponse, scenario: Scenario)
      returns (reply: Reply)
      requires Valid() && r in live && live[r].holding && live[r].key == request.paymentId
      modifies this`records, this`answers
      ensures Valid() && records == Serve(old(records), request, answer)
      ensures forall k :: k in old(records) ==> k in records && records[k] == old(records)[k]
      ensures request.paymentId in records
      ensures request.paymentId !in old(records) ==> records[request.paymentId] == Record(request, answer)
      ensures forall k :: k in records && k != request.paymentId ==> k in old(records)
      ensures reply == PayloadConflict <==> records[request.paymentId].request != request
      ensures reply.Answer? ==> reply.answer == records[request.paymentId].response
      ensures answers == old(answers) + if reply.Answer? then [(request.paymentId, reply.answer)] else []
      ensures reply == Malformed <==> scenario == MalformedAfter && request.paymentId !in old(records)
      ensures reply.Answer? || reply == PayloadConflict || reply == Malformed
    {
      var key := request.paymentId;
      if key in records {
        if records[key].request != request {
          return PayloadConflict;
        }
        answers := answers + [(key, records[key].response)];
        return Answer(records[key].response);
      }
      records := records[key := Record(request, answer)];
      if scenario == MalformedAfter {
        return Malformed;
      }
      answers := answers + [(key, answer)];
      return Answer(answer);
    }

    /** The end of `async with lock`. */
    method Release(r: nat, entry: LockEntry)
      requires Valid() && r in live && live[r].entry == entry && live[r].holding
      modifies this`live, entry`holder
      ensures Valid() && entry.holder == None && live == old(live)[r := old(live)[r].(holding := false)]
    {
      hide UsersIn;
      SharedAfterHold(live, locks, r, false);
      UsersAfterHold(live, r, false);
      entry.holder := None;
      live := live[r := live[r].(holding := false)];
    }

    /** The `finally` block, also on the way out of a request cancelled while it waits.
        The identity test always succeeds, and the entry goes with its last user. */
    method Leave(r: nat, key: Uuid, entry: LockEntry) returns (ghost same: bool)
      requires Valid() && r in live && live[r].key == key && live[r].entry == entry && !live[r].holding
      modifies this`locks, this`live, entry`users
      ensures Valid() && live == old(live) - {r} && same
      ensures locks == if |UsersIn(live, key)| == 0 then old(locks) - {key} else old(locks)
    {
      SignOff(r, key, entry);
      same := key in locks && locks[key] == entry;
      DropIdle(key, entry);
    }

    /** `users -= 1`: afterwards the entry of `key` may be idle. */
    method SignOff(r: nat, key: Uuid, entry: LockEntry)
      requires Valid() && r in live && live[r].key == key && live[r].entry == entry && !live[r].holding
      modifies this`live, entry`users
      ensures Tallied() && live == old(live) - {r} && key in locks && locks[key] == entry
      ensures forall k :: k in locks && k != key ==> |UsersIn(live, k)| >= 1
    {
      LeaveKept(r, key, entry);
      hide Linked, HolderOk, UsersIn, AnswersRecorded;
      entry.users := entry.users - 1;
      live := live - {r};
    }

    method DropIdle(key: Uuid, entry: LockEntry)
      requires Tallied() && key in locks && locks[key] == entry
      requires forall k :: k in locks && k != key ==> |UsersIn(live, k)| >= 1
      modifies this`locks
      ensures Valid()
      ensures locks == if |UsersIn(live, key)| == 0 then old(locks) - {key} else old(locks)
    {
      hide HolderOk, AnswersRecorded;
      if entry.users == 0 && key in locks && locks[key] == entry {
        SomeUser(live, key);
        hide UsersIn;
        locks := locks - {key};
      }
    }

    /** What leaving leaves as it should be. */
    lemma LeaveKept(r: nat, key: Uuid, entry: LockEntry)
      requires Valid() && r in live && live[r].key == key && live[r].entry == entry && !live[r].holding
      ensures key in locks && locks[key] == entry && (forall k :: k in locks && k != key ==> locks[k] != entry)
      ensures var live' := live - {r};
              && Linked(live', locks)
              && |UsersIn(live', key)| == |UsersIn(live, key)| - 1
              && (forall k :: k != key ==> UsersIn(live', k) == UsersIn(live, k))
              && (forall k :: k in locks ==> HolderOk(live', k, locks[k].holder))
    {
      UsersAfterLeave(live, r);
      hide UsersIn;
    }

    /** A lookup agrees with every answer ever given for the key, and finds what was
        recorded even if the answer to it got lost. */
    method GetByKey(key: Uuid) returns (answer: Option<ProviderResponse>)
      requires Valid()
      ensures forall i :: 0 <= i < |answers| && answers[i].0 == key ==> answer == Some(answers[i].1)
      ensures answer.Some? <==> key in records
      ensures answer == Recorded(records, key)
    {
      return if key in records then Some(records[key].response) else None;
    }
  }

  /** At most one request per key is in the critical section. */
  lemma MutualExclusion(p: Provider, q: nat, r: nat)
    requires p.Valid() && q in p.live && r in p.live
    requires p.live[q].key == p.live[r].key && p.live[q].holding && p.live[r].holding
    ensures q == r
  {
  }

  /** No entry outlives its last user, and all users of a key share one entry. */
  lemma NoIdleEntry(p: Provider, key: Uuid)
    requires p.Valid()
    ensures key in p.locks <==> exists r :: r in p.live && p.live[r].key == key
    ensures key in p.locks ==> p.locks[key].users == |UsersIn(p.live, key)| >= 1
    ensures forall r :: r in p.live && p.live[r].key == key ==> key in p.locks && p.live[r].entry == p.locks[key]
  {
  }

  /** Every well-formed answer for a key is the same. */
  lemma AnswersAgree(p: Provider, i: nat, j: nat)
    requires p.Valid() && i < |p.answers| && j < |p.answers| && p.answers[i].0 == p.answers[j].0
    ensures p.answers[i].1 == p.answers[j].1
  {
  }
}
