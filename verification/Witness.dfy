/** The step relation is not empty talk: a run that takes one payment from the API call
    to its final status, and one in which two reconcilers work on it at once. */
module Witness {
  import opened Model
  import opened Selection
  import opened Transactions
  import opened Broker
  import opened System
  import opened Exclusivity

  const DATA := PaymentData(150050, RUB, Some("Order 123"), "{}", "https://client.example/hook")
  const EVENT := Envelope(2, ProcessRequested, 1, 1, 10)
  const ANSWER := ProviderResponse(3, Approved)

  function CreatedRow(): Row {
    NewRow(DATA, "order-123", 10)
  }

  function Request(): ProviderRequest {
    RequestFor(1, CreatedRow())
  }

  function CreatedDb(): Db {
    Db(map[1 := CreatedRow()], map["order-123" := 1], map[2 := NewEvent(2, ProcessRequested, 1, 10, 10)])
  }

  /** Before the payment exists: one API call in the given phase, if any. */
  function Calling(calls: map<nat, ApiCall>): State {
    State(5, Db(map[], map[], map[]), calls, map[], map[], {}, map[], map[],
          map[], multiset{}, multiset{}, {}, [], [])
  }

  /** After it was created. */
  function Existing(db: Db, relays: map<nat, RelayTx>, place: Option<Place>, posts: set<ProviderRequest>,
                    records: map<Uuid, Record>): State
  {
    State(5, db, map[0 := ApiCall("order-123", DATA, Returned(Created(1)))], relays,
          if place.None? then map[] else map[0 := Copy(EVENT, place.value)], posts, records, map[],
          map[1 := Origin(0, 2)], if place.None? then multiset{} else multiset{2}, multiset{}, {}, [], [])
  }

  function S(k: nat): State
    requires k <= 11
  {
    var relays := map[0 := RelayTx([2], 1)];
    var records := map[1 := Record(Request(), ANSWER)];
    match k
    case 0 => Calling(map[])
    case 1 => Calling(map[0 := ApiCall("order-123", DATA, Started)])
    case 2 => Calling(map[0 := ApiCall("order-123", DATA, Inserting)])
    case 3 => Existing(CreatedDb(), map[], None, {}, map[])
    case 4 => Existing(CreatedDb(), map[0 := RelayTx([2], 0)], None, {}, map[])
    case 5 => Existing(CreatedDb(), relays, Some(InNew), {}, map[])
    case 6 => Existing(CreatedDb(), relays, Some(InFlight(Received)), {}, map[])
    case 7 => Existing(CreatedDb(), relays, Some(InFlight(Phase.Calling(Request()))), {}, map[])
    case 8 => Existing(CreatedDb(), relays, Some(InFlight(Phase.Calling(Request()))), {Request()}, map[])
    case 9 => Existing(CreatedDb(), relays, Some(InFlight(Phase.Calling(Request()))), {Request()}, records)
    case 10 => Existing(CreatedDb(), relays, Some(InFlight(Answered(ANSWER))), {Request()}, records)
    case _ => Existing(ApplyProviderResult(CreatedDb(), 1, ANSWER, 4, 20, 20).0, relays,
                       Some(InFlight(Finished(Done))), {Request()}, records)
  }

  function T(k: nat): Step
    requires k < 11
  {
    match k
    case 0 => ApiDoes(Begin(0, "order-123", DATA))
    case 1 => ApiDoes(Read(0))
    case 2 => ApiDoes(Insert(0, 1, 2, 10, 10, true))
    case 3 => RelayDoes(Open(0, [2], 100))
    case 4 => RelayDoes(Send(0, 0))
    case 5 => BrokerDoes(Move.Deliver(0))
    case 6 => WorkerDoes(Load(0))
    case 7 => WorkerDoes(Post(0))
    case 8 => ProviderServes(Request(), ANSWER)
    case 9 => WorkerDoes(Answer(0))
    case _ => WorkerDoes(Apply(0, 4, 20, 20, true))
  }

  lemma FirstSteps(k: nat)
    requires k < 3
    ensures Next(S(k), T(k), S(k + 1))
  {
  }

  lemma RelaySteps(k: nat)
    requires 3 <= k < 5
    ensures Next(S(k), T(k), S(k + 1))
  {
    assert k == 3 ==> Unpublished(S(3).db.outbox, LockedRows(S(3).relays)) == {2};
  }

  lemma Delivery()
    ensures Next(S(5), T(5), S(6))
  {
  }

  lemma Loading()
    ensures Next(S(6), T(6), S(7))
  {
  }

  lemma Posting()
    ensures Next(S(7), T(7), S(8))
  {
  }

  lemma Serving()
    ensures Next(S(8), T(8), S(9))
  {
  }

  lemma Answering()
    ensures Next(S(9), T(9), S(10))
  {
    hide Next;
    AnswerIsStep(S(9), 0, Request(), ANSWER);
    assert S(10) == S(9).(copies := Goes(S(9).copies, 0, Answered(ANSWER)));
  }

  lemma AnswerIsStep(s: State, c: nat, request: ProviderRequest, answer: ProviderResponse)
    requires InPhase(s.copies, c) && PhaseAt(s, c) == Phase.Calling(request)
    requires request.paymentId in s.records && s.records[request.paymentId] == Record(request, answer)
    ensures Next(s, WorkerDoes(Answer(c)), s.(copies := Goes(s.copies, c, Answered(answer))))
  {
  }

  lemma Applying()
    ensures Next(S(10), T(10), S(11))
  {
    hide Next;
    SettlingIsStep(S(10), 0, ANSWER, 4, 20);
    assert S(11) == S(10).(db := ApplyProviderResult(S(10).db, 1, ANSWER, 4, 20, 20).0,
                           copies := Goes(S(10).copies, 0, Finished(Done)));
  }

  lemma SettlingIsStep(s: State, c: nat, answer: ProviderResponse, wid: Uuid, at: Time)
    requires InPhase(s.copies, c) && PhaseAt(s, c) == Answered(answer) && wid !in s.db.outbox
    requires s.copies[c].event.paymentId in s.db.rows && s.db.rows[s.copies[c].event.paymentId].status == Pending
    ensures var s' := s.(db := ApplyProviderResult(s.db, s.copies[c].event.paymentId, answer, wid, at, at).0,
                         copies := Goes(s.copies, c, Finished(Done)));
            Next(s, WorkerDoes(Apply(c, wid, at, at, true)), s')
  {
  }

  lemma AllSteps(k: nat)
    requires k < 11
    ensures Next(S(k), T(k), S(k + 1))
  {
    hide Next, S, T;
    if k < 3 {
      FirstSteps(k);
    } else if k < 5 {
      RelaySteps(k);
    } else {
      Delivery();
      Loading();
      Posting();
      Serving();
      Answering();
      Applying();
    }
  }

  /** One payment, from the API call through outbox, broker and provider to SUCCEEDED,
      with its webhook event in the outbox. */
  lemma PaymentSucceeds() returns (states: seq<State>, steps: seq<Step>)
    ensures IsRun(states, steps) && |steps| == 11
    ensures var s := states[11];
            && 1 in s.db.rows && s.db.rows[1].status == Succeeded && s.db.rows[1].webhookId == Some(4)
            && 4 in s.db.outbox && s.db.outbox[4].publishedAt.None?
  {
    states := seq(12, k requires 0 <= k < 12 => S(k));
    steps := seq(11, k requires 0 <= k < 11 => T(k));
    hide Next;
    forall k | 0 <= k < 11
      ensures Next(states[k], steps[k], states[k + 1])
    {
      AllSteps(k);
    }
    assert Init(states[0]);
  }

  // ----- two reconcilers at once -----------------------------------------------------------

  function UnknownDb(): Db {
    MarkUnknown(CreatedDb(), 1, 20).0
  }

  /** The provider call ends ambiguously and the payment becomes UNKNOWN; then the payment
      is claimed at time 100 for a lease of 60, renewed, and at time 200 claimed and
      renewed again. */
  function U(k: nat): State
    requires k <= 13
  {
    var relays := map[0 := RelayTx([2], 1)];
    if k <= 7 then S(k)
    else match k
      case 8 => Existing(CreatedDb(), relays, Some(InFlight(Uncertain)), {}, map[])
      case 9 => Existing(UnknownDb(), relays, Some(InFlight(Finished(Done))), {}, map[])
      case 10 => AfterFullClaim(U(9), 5, {1}, 160, 100)
      case 11 => AfterRenewal(U(10), Task(5, 1), 100, 60)
      case 12 => AfterFullClaim(U(11), 6, {1}, 260, 200)
      case _ => AfterRenewal(U(12), Task(6, 1), 200, 60)
  }

  function V(k: nat): Step
    requires k < 13
  {
    if k < 7 then T(k)
    else match k
      case 7 => WorkerDoes(Ambiguous(0))
      case 8 => WorkerDoes(Unknowing(0, 20, true))
      case 9 => ReconcilerDoes(FullClaim(5, [1], 70, 100, 160))
      case 10 => Renewal(Task(5, 1), 100, 60)
      case 11 => ReconcilerDoes(FullClaim(6, [1], 170, 200, 260))
      case _ => Renewal(Task(6, 1), 200, 60)
  }

  lemma Timeout()
    ensures Next(U(7), V(7), U(8))
  {
  }

  lemma BecomesUnknown()
    ensures Next(U(8), V(8), U(9))
  {
  }

  /** A claim finds the only payment there is. */
  lemma OnlyPayment(s: State, staleBefore: Time, now: Time)
    requires s.db.rows.Keys == {1} && Claimable(s.db.rows[1], staleBefore, now)
    ensures IsFirst(UpdatedTimes(s.db.rows), ClaimCandidates(s.db.rows, staleBefore, now), |[1]|, [1])
    ensures Elements([1]) == {1}
  {
    hide Claimable;
    assert ClaimCandidates(s.db.rows, staleBefore, now) == {1};
  }

  lemma FirstClaim()
    ensures Next(U(9), V(9), U(10))
  {
    hide ReconcileNext;
    OnlyPayment(U(9), 70, 100);
    FullClaimTakes(U(9), 1, 5, [1], 70, 100, 160);
  }

  lemma FirstRenewal()
    ensures Next(U(10), V(10), U(11))
  {
    hide ReconcileNext, S;
    RenewsAtOnce(U(10), Task(5, 1), 100, 60);
  }

  lemma SecondLease(k: nat)
    requires 11 <= k < 13
    ensures Next(U(k), V(k), U(k + 1))
  {
    RowLeased();
    hide ReconcileNext, AfterFullClaim, AfterRenewal, Claimable, HoldsLease;
    OnlyPayment(U(11), 170, 200);
    FullClaimTakes(U(11), 1, 6, [1], 170, 200, 260);
    RenewsAtOnce(U(12), Task(6, 1), 200, 60);
  }

  /** What the first reconciler leaves. */
  lemma FirstLeased()
    ensures U(11).db.rows == map[1 := UnknownDb().rows[1].(leaseToken := Some(5), leaseUntil := Some(160),
                                                           updatedAt := 100)]
    ensures U(11).tokens == {5} && U(11).tasks == map[Task(5, 1) := Renewed]
  {
    hide S;
    NewTask(U(9).tasks, 5);
  }

  lemma UnknownRow()
    ensures var db := UnknownDb(); 1 in db.rows && db.rows[1].status == Unknown && !db.rows[1].review
  {
  }

  lemma SecondClaim()
    ensures U(12) == AfterFullClaim(U(11), 6, {1}, 260, 200)
  {
    hide AfterFullClaim;
  }

  /** Where the second reconciler finds the payment, and what it then holds. */
  lemma RowLeased()
    ensures var s := U(11);
            s.db.rows.Keys == {1} && 1 in s.db.rows && Claimable(s.db.rows[1], 170, 200) && 6 !in s.tokens
    ensures var s := U(12); var q := Task(6, 1);
            && q in s.tasks && s.tasks[q] == Claimed
            && 1 in s.db.rows && HoldsLease(s.db.rows[1], 6, 200)
  {
    hide U, AfterFullClaim, HoldsLease, UnknownDb;
    FirstLeased();
    UnknownRow();
    SecondClaim();
    FullClaimLeases(U(11), Task(6, 1), {1}, 200, 60);
  }

  /** All readings are of one clock that shows at most 200. */
  lemma OnTheClock(k: nat)
    requires k < 13
    ensures ByClock(V(k), 200, 30, 60)
  {
    hide U, S;
  }

  lemma TwoRenewed()
    ensures U(13).tasks == map[Task(5, 1) := Renewed, Task(6, 1) := Renewed]
  {
    hide U, S, AfterFullClaim, AfterRenewal;
    FirstLeased();
    SecondClaim();
    SecondRenewal();
    NewTask(U(11).tasks, 6);
    TasksAfter(U(11), 6, 200, 60);
    TasksAfter(U(12), 6, 200, 60);
  }

  lemma TasksAfter(s: State, token: Uuid, now: Time, lease: nat)
    ensures AfterFullClaim(s, token, {1}, now + lease, now).tasks == WithTasks(s.tasks, token, {1})
    ensures AfterRenewal(s, Task(token, 1), now, lease).tasks == s.tasks[Task(token, 1) := Renewed]
  {
    hide ClaimRows, RenewLease;
  }

  lemma SecondRenewal()
    ensures U(13) == AfterRenewal(U(12), Task(6, 1), 200, 60)
  {
    hide AfterRenewal, AfterFullClaim;
  }

  lemma NewTask(tasks: map<Task, TaskPhase>, token: Uuid)
    requires Task(token, 1) !in tasks
    ensures WithTasks(tasks, token, {1}) == tasks[Task(token, 1) := Claimed]
  {
    assert (set p | p in {1} :: Task(token, p)) == {Task(token, 1)};
  }

  /** A run after which two tasks are active on one payment: each has renewed its lease and
      may look the payment up. */
  lemma LeasesOverlap() returns (states: seq<State>, steps: seq<Step>)
    ensures IsRun(states, steps) && |steps| == 13
    ensures forall k :: 0 <= k < 13 ==> ByClock(steps[k], 200, 30, 60)
    ensures Overlap(states[13], Task(5, 1), Task(6, 1))
    ensures states[13].tasks == map[Task(5, 1) := Renewed, Task(6, 1) := Renewed]
  {
    states := seq(14, k requires 0 <= k < 14 => U(k));
    steps := seq(13, k requires 0 <= k < 13 => V(k));
    TwoRenewed();
    BeginsAtInit();
    hide Next, Init, S, T, U, V, ByClock;
    forall k | 0 <= k < 13
      ensures Next(states[k], steps[k], states[k + 1]) && ByClock(steps[k], 200, 30, 60)
    {
      OnTheClock(k);
      OverlapSteps(k);
    }
  }

  lemma BeginsAtInit()
    ensures Init(U(0))
  {
  }

  lemma OverlapSteps(k: nat)
    requires k < 13
    ensures Next(U(k), V(k), U(k + 1))
  {
    hide Next;
    if k < 7 {
      AllSteps(k);
    } else if k < 9 {
      Timeout();
      BecomesUnknown();
    } else if k < 11 {
      FirstClaim();
      FirstRenewal();
    } else {
      SecondLease(k);
    }
  }
}
