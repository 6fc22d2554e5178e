/** The circuit breaker around provider calls.  A call starts and ends at different
    times, and many calls overlap; `BeforeCall` and the recording methods run
    without interruption in between. */
module CircuitBreakers {
  import opened Model

  datatype Mode = Closed | Open | HalfOpen

  /** The three mutable fields. */
  datatype Fields = Fields(mode: Mode, failureCount: nat, openedAt: Option<real>)

  datatype Settings = Settings(failureThreshold: nat, recoveryTimeout: real)

  /** What the constructor accepts. */
  predicate ValidSettings(c: Settings) {
    c.failureThreshold >= 1 && c.recoveryTimeout >= 0.0
  }

  /** Admission of a call: as an ordinary call, as the half-open probe, refused with
      CircuitBreakerOpenError, or the internal "open without opened_at" error. */
  datatype Admission = Ordinary | Probe | Refused | NoOpeningTime

  /** How the wrapped operation ended. */
  datatype Ending = Success | Outage | PermanentReply | Cancelled | Unexpected

  const INITIAL := Fields(Closed, 0, None)

  function Before(c: Settings, f: Fields, now: real): (Fields, Admission) {
    match f.mode
    case Closed => (f, Ordinary)
    case HalfOpen => (f, Refused)
    case Open =>
      if f.openedAt.None? then (f, NoOpeningTime)
      else if now - f.openedAt.value < c.recoveryTimeout then (f, Refused)
      else (f.(mode := HalfOpen), Probe)
  }

  function Opened(f: Fields, now: real): Fields {
    f.(mode := Open, openedAt := Some(now))
  }

  function After(c: Settings, f: Fields, ending: Ending, probe: bool, now: real): Fields {
    if probe then
      if f.mode != HalfOpen then f
      else if ending == Success || ending == PermanentReply then INITIAL
      else Opened(f, now)
    else if f.mode != Closed then f
    else match ending
      case Success => INITIAL
      case PermanentReply => INITIAL
      case Outage =>
        var counted := f.(failureCount := f.failureCount + 1);
        if counted.failureCount >= c.failureThreshold then Opened(counted, now) else counted
      case _ => f
  }

  class CircuitBreaker {
    const settings: Settings
    var mode: Mode
    var failureCount: nat
    var openedAt: Option<real>

    ghost function Value(): Fields
      reads this
    {
      Fields(mode, failureCount, openedAt)
    }

    constructor (settings: Settings)
      requires ValidSettings(settings)
      ensures this.settings == settings && Value() == INITIAL
    {
      this.settings := settings;
      mode, failureCount, openedAt := Closed, 0, None;
    }

    method BeforeCall(now: real) returns (admission: Admission)
      modifies this
      ensures (Value(), admission) == Before(settings, old(Value()), now)
      ensures admission == Probe ==> mode == HalfOpen && old(mode) == Open
      ensures admission != Probe ==> Value() == old(Value())
    {
      if mode == Closed {
        return Ordinary;
      }
      if mode == HalfOpen {
        return Refused;
      }
      if openedAt == None {
        return NoOpeningTime;
      }
      var elapsed := now - openedAt.value;
      if elapsed < settings.recoveryTimeout {
        return Refused;
      }
      mode := HalfOpen;
      return Probe;
    }

    method RecordSuccess(probe: bool)
      modifies this
      ensures Value() == After(settings, old(Value()), Success, probe, 0.0)
    {
      if probe {
        if mode != HalfOpen {
          return;
        }
        mode, failureCount, openedAt := Closed, 0, None;
        return;
      }
      if mode != Closed {
        return;
      }
      failureCount, openedAt := 0, None;
    }

    method RecordFailure(probe: bool, now: real)
      modifies this
      ensures Value() == After(settings, old(Value()), Outage, probe, now)
    {
      if probe {
        if mode != HalfOpen {
          return;
        }
        mode, openedAt := Open, Some(now);
        return;
      }
      if mode != Closed {
        return;
      }
      failureCount := failureCount + 1;
      if failureCount >= settings.failureThreshold {
        mode, openedAt := Open, Some(now);
      }
    }

    /** Serves for a cancelled and for an inconclusive probe: the service has two methods
        that differ in their log line only. */
    method RecordUndecidedProbe(probe: bool, now: real)
      modifies this
      ensures Value() == After(settings, old(Value()), Cancelled, probe, now)
      ensures Value() == After(settings, old(Value()), Unexpected, probe, now)
    {
      if !probe {
        return;
      }
      if mode != HalfOpen {
        return;
      }
      mode, openedAt := Open, Some(now);
    }

    /** The exception handlers of `call`: which ending is recorded how. */
    method AfterCall(ending: Ending, probe: bool, now: real)
      modifies this
      ensures Value() == After(settings, old(Value()), ending, probe, now)
    {
      match ending {
        case Success => RecordSuccess(probe);
        case PermanentReply => RecordSuccess(probe);
        case Outage => RecordFailure(probe, now);
        case Cancelled => RecordUndecidedProbe(probe, now);
        case Unexpected => RecordUndecidedProbe(probe, now);
      }
    }
  }

  // ----- overlapping calls -------------------------------------------------------------------

  /** A call under way, with the number of the CLOSED period at its start. */
  datatype Call = Call(probe: bool, period: nat)

  /** The breaker with the calls that are under way, a clock that does not run backwards,
      and history: how often the breaker has closed, all endings in order, the time it
      last left CLOSED, and the starting times of the probes since then. */
  datatype World = World(
    fields: Fields, now: real, calls: map<nat, Call>, period: nat,
    endings: seq<Ending>, openSince: real, probeStarts: seq<real>)

  datatype Event = Start(call: nat) | End(call: nat, ending: Ending)

  ghost predicate Begins(w: World) {
    w.fields == INITIAL && w.calls == map[] && w.period == 0 && w.endings == [] && w.probeStarts == []
  }

  ghost predicate Happens(c: Settings, w: World, e: Event, w': World) {
    && w'.now >= w.now
    && match e
       case Start(call) =>
         && call !in w.calls
         && var (f, admission) := Before(c, w.fields, w'.now);
            && w'.fields == f
            && w'.calls == (match admission
                            case Ordinary => w.calls[call := Call(false, w.period)]
                            case Probe => w.calls[call := Call(true, w.period)]
                            case _ => w.calls)
            && w'.period == w.period && w'.endings == w.endings && w'.openSince == w.openSince
            && w'.probeStarts == if admission == Probe then w.probeStarts + [w'.now] else w.probeStarts
       case End(call, ending) =>
         && call in w.calls
         && w'.fields == After(c, w.fields, ending, w.calls[call].probe, w'.now)
         && w'.calls == w.calls - {call}
         && w'.period == w.period + (if w.fields.mode != Closed && w'.fields.mode == Closed then 1 else 0)
         && w'.endings == w.endings + [ending]
         && w'.openSince == (if w.fields.mode == Closed then w'.now else w.openSince)
         && w'.probeStarts == if w'.fields.mode == Closed then [] else w.probeStarts
  }

  /** Length of the run of outages that ends the history; cancelled and unexpected
      endings neither count nor interrupt it. */
  function TrailingOutages(endings: seq<Ending>): nat {
    if endings == [] then 0
    else
      var rest := endings[..|endings| - 1];
      match endings[|endings| - 1]
      case Outage => TrailingOutages(rest) + 1
      case Cancelled => TrailingOutages(rest)
      case Unexpected => TrailingOutages(rest)
      case _ => 0
  }

  ghost function Probes(calls: map<nat, Call>): set<nat> {
    set call | call in calls && calls[call].probe
  }

  predicate OpeningTimeOk(f: Fields) {
    f.openedAt.None? <==> f.mode == Closed
  }

  ghost predicate ProbeOk(w: World) {
    && (w.fields.mode == HalfOpen ==> exists p :: Probes(w.calls) == {p})
    && (w.fields.mode != HalfOpen ==> Probes(w.calls) == {})
  }

  predicate CountOk(c: Settings, w: World) {
    && (w.fields.mode == Closed ==>
          w.fields.failureCount == TrailingOutages(w.endings) && w.fields.failureCount < c.failureThreshold)
    && (w.fields.mode != Closed ==> w.fields.failureCount == c.failureThreshold)
  }

  /** What k recovery timeouts take. */
  function Timeouts(timeout: real, k: nat): real {
    if k == 0 then 0.0 else Timeouts(timeout, k - 1) + timeout
  }

  lemma {:induction false} TimeoutsProduct(timeout: real, k: nat)
    ensures Timeouts(timeout, k) == k as real * timeout
  {
    if k > 0 {
      TimeoutsProduct(timeout, k - 1);
    }
  }

  /** While not CLOSED: the k-th probe since the opening started at least k recovery
      timeouts after it. */
  ghost predicate PaceOk(c: Settings, w: World) {
    && (w.fields.mode == Closed ==> w.probeStarts == [])
    && (forall k :: 0 <= k < |w.probeStarts| ==>
          w.openSince + Timeouts(c.recoveryTimeout, k + 1) <= w.probeStarts[k] <= w.now)
    && (w.fields.mode == Open ==>
          && w.fields.openedAt.Some?
          && w.openSince + Timeouts(c.recoveryTimeout, |w.probeStarts|) <= w.fields.openedAt.value <= w.now)
    && (w.fields.mode == HalfOpen ==> |w.probeStarts| >= 1)
    && (w.fields.mode != Closed ==> w.openSince <= w.now)
  }

  ghost predicate BreakerInv(c: Settings, w: World) {
    OpeningTimeOk(w.fields) && ProbeOk(w) && CountOk(c, w) && PaceOk(c, w)
  }

  lemma ProbeKept(c: Settings, w: World, e: Event, w': World)
    requires ProbeOk(w) && Happens(c, w, e, w')
    ensures ProbeOk(w')
  {
    match e
    case Start(call) =>
      var (f, admission) := Before(c, w.fields, w'.now);
      if admission == Probe {
        assert Probes(w'.calls) == {call};
      } else {
        assert Probes(w'.calls) == Probes(w.calls);
      }
    case End(call, ending) =>
      assert Probes(w'.calls) == Probes(w.calls) - {call};
      if w.fields.mode == HalfOpen {
        var p :| Probes(w.calls) == {p};
        assert w.calls[call].probe <==> call in Probes(w.calls);
        assert w.calls[call].probe ==> Probes(w'.calls) == {};
        assert !w.calls[call].probe ==> Probes(w'.calls) == {p};
      }
  }

  lemma CountKept(c: Settings, w: World, e: Event, w': World)
    requires ValidSettings(c) && ProbeOk(w) && CountOk(c, w) && Happens(c, w, e, w')
    ensures CountOk(c, w')
  {
    if e.End? {
      assert w'.endings[..|w.endings|] == w.endings;
      assert w.calls[e.call].probe ==> e.call in Probes(w.calls);
    }
  }

  lemma PaceKept(c: Settings, w: World, e: Event, w': World)
    requires ValidSettings(c) && OpeningTimeOk(w.fields) && ProbeOk(w) && PaceOk(c, w) && Happens(c, w, e, w')
    ensures PaceOk(c, w')
  {
    var n := |w.probeStarts|;
    if n >= 1 {
      assert w.openSince + Timeouts(c.recoveryTimeout, n) <= w.probeStarts[n - 1];
    }
  }

  lemma EventKept(c: Settings, w: World, e: Event, w': World)
    requires ValidSettings(c) && BreakerInv(c, w) && Happens(c, w, e, w')
    ensures BreakerInv(c, w')
  {
    ProbeKept(c, w, e, w');
    CountKept(c, w, e, w');
    PaceKept(c, w, e, w');
  }

  ghost predicate IsHistory(c: Settings, worlds: seq<World>, events: seq<Event>) {
    && |worlds| == |events| + 1
    && Begins(worlds[0])
    && (forall i :: 0 <= i < |events| ==> Happens(c, worlds[i], events[i], worlds[i + 1]))
  }

  /** For every interleaving of starts and ends of calls: exactly one probe is in
      flight when HALF_OPEN and none otherwise; the opening time is set exactly when
      not CLOSED; the failure count is the current run of outages. */
  lemma {:induction false} BreakerSound(c: Settings, worlds: seq<World>, events: seq<Event>, k: nat)
    requires ValidSettings(c) && IsHistory(c, worlds, events) && k < |worlds|
    ensures BreakerInv(c, worlds[k])
  {
    if k > 0 {
      BreakerSound(c, worlds, events, k - 1);
      EventKept(c, worlds[k - 1], events[k - 1], worlds[k]);
    } else {
      assert Probes(worlds[0].calls) == {};
    }
  }

  /** Hence a probe that ends always finds the breaker HALF_OPEN, and no call ever
      meets an open breaker without an opening time. */
  lemma DefensiveBranchesUnreachable(c: Settings, worlds: seq<World>, events: seq<Event>, k: nat)
    requires ValidSettings(c) && IsHistory(c, worlds, events) && k < |events|
    ensures events[k].End? && events[k].call in worlds[k].calls && worlds[k].calls[events[k].call].probe ==>
              worlds[k].fields.mode == HalfOpen && worlds[k + 1].fields.mode != HalfOpen
    ensures forall now :: Before(c, worlds[k].fields, now).1 != NoOpeningTime
  {
    hide PaceOk, CountOk;
    BreakerSound(c, worlds, events, k);
    if events[k].End? && events[k].call in worlds[k].calls && worlds[k].calls[events[k].call].probe {
      assert events[k].call in Probes(worlds[k].calls);
    }
  }

  // ----- when the breaker changes its state --------------------------------------------------------

  /** The event is the end of a probe that is under way. */
  predicate ProbeEnds(w: World, e: Event) {
    e.End? && e.call in w.calls && w.calls[e.call].probe
  }

  /** In every history: the breaker closes exactly when a probe ends with a success or with
      a permanent reply of the provider, which is an answer too. */
  lemma ClosesIff(c: Settings, worlds: seq<World>, events: seq<Event>, k: nat)
    requires ValidSettings(c) && IsHistory(c, worlds, events) && k < |events|
    ensures worlds[k].fields.mode != Closed && worlds[k + 1].fields.mode == Closed <==>
              ProbeEnds(worlds[k], events[k]) && (events[k].ending == Success || events[k].ending == PermanentReply)
  {
    DefensiveBranchesUnreachable(c, worlds, events, k);
    assert Happens(c, worlds[k], events[k], worlds[k + 1]);
    BreakerSound(c, worlds, events, k);
    hide PaceOk, CountOk, IsHistory;
    if events[k].End? && events[k].call in worlds[k].calls && worlds[k].calls[events[k].call].probe {
      assert events[k].call in Probes(worlds[k].calls);
    }
  }

  /** And it opens exactly when a probe ends otherwise, or when, being closed, it sees an
      ordinary call end as the outage that makes the current run of outages as long as the
      threshold. */
  lemma OpensIff(c: Settings, worlds: seq<World>, events: seq<Event>, k: nat)
    requires ValidSettings(c) && IsHistory(c, worlds, events) && k < |events|
    ensures worlds[k].fields.mode != Open && worlds[k + 1].fields.mode == Open <==>
              || (ProbeEnds(worlds[k], events[k])
                  && (events[k].ending == Outage || events[k].ending == Cancelled || events[k].ending == Unexpected))
              || (&& events[k].End? && worlds[k].fields.mode == Closed && events[k].ending == Outage
                  && TrailingOutages(worlds[k].endings) + 1 == c.failureThreshold)
  {
    DefensiveBranchesUnreachable(c, worlds, events, k);
    assert Happens(c, worlds[k], events[k], worlds[k + 1]);
    BreakerSound(c, worlds, events, k);
    hide PaceOk, IsHistory;
    if events[k].End? && events[k].call in worlds[k].calls && worlds[k].calls[events[k].call].probe {
      assert events[k].call in Probes(worlds[k].calls);
    }
  }

  /** When the breaker last became OPEN, by position `k`. */
  function LastOpening(worlds: seq<World>, k: nat): real
    requires k < |worlds|
  {
    if k == 0 then worlds[0].now
    else if worlds[k - 1].fields.mode != Open && worlds[k].fields.mode == Open then worlds[k].now
    else LastOpening(worlds, k - 1)
  }

  lemma {:induction false} OpenedAtLastOpening(c: Settings, worlds: seq<World>, events: seq<Event>, k: nat)
    requires ValidSettings(c) && IsHistory(c, worlds, events) && k < |worlds|
    ensures worlds[k].fields.mode == Open ==> worlds[k].fields.openedAt == Some(LastOpening(worlds, k))
  {
    if k > 0 {
      OpenedAtLastOpening(c, worlds, events, k - 1);
      OpeningKept(c, worlds[k - 1], events[k - 1], worlds[k]);
    }
  }

  lemma OpeningKept(c: Settings, w: World, e: Event, w': World)
    requires Happens(c, w, e, w')
    ensures w'.fields.mode == Open ==>
              w'.fields.openedAt == if w.fields.mode != Open then Some(w'.now) else w.fields.openedAt
  {
  }

  /** Which calls are admitted, in every history: any call while CLOSED; as the probe, the
      first call that comes a recovery timeout or more after the breaker last became OPEN;
      no other, and a refused call changes nothing. */
  lemma AdmittedWhen(c: Settings, worlds: seq<World>, events: seq<Event>, k: nat)
    requires ValidSettings(c) && IsHistory(c, worlds, events) && k < |events| && events[k].Start?
    ensures var w := worlds[k]; var w' := worlds[k + 1]; var call := events[k].call;
            if w.fields.mode == Closed then
              call in w'.calls && !w'.calls[call].probe && w'.fields == w.fields
            else if w.fields.mode == Open && w'.now - LastOpening(worlds, k) >= c.recoveryTimeout then
              call in w'.calls && w'.calls[call].probe && w'.fields.mode == HalfOpen
            else
              w'.calls == w.calls && w'.fields == w.fields
  {
    OpenedAtLastOpening(c, worlds, events, k);
    assert Happens(c, worlds[k], events[k], worlds[k + 1]);
  }

  /** Pacing: from the opening until the breaker closes again only probes are admitted,
      the k-th of them starts no earlier than k recovery timeouts after the opening, and
      so n probes need n recovery timeouts. */
  lemma ProbesPaced(c: Settings, worlds: seq<World>, events: seq<Event>, k: nat)
    requires ValidSettings(c) && IsHistory(c, worlds, events) && k < |worlds|
    requires worlds[k].fields.mode != Closed
    ensures |worlds[k].probeStarts| as real * c.recoveryTimeout <= worlds[k].now - worlds[k].openSince
    ensures forall i :: 0 <= i < |worlds[k].probeStarts| ==>
              worlds[k].probeStarts[i] >= worlds[k].openSince + (i + 1) as real * c.recoveryTimeout
    ensures forall now :: Before(c, worlds[k].fields, now).1 != Ordinary
  {
    BreakerSound(c, worlds, events, k);
    var w := worlds[k];
    var n := |w.probeStarts|;
    if n > 0 {
      assert w.openSince + Timeouts(c.recoveryTimeout, n) <= w.probeStarts[n - 1];
    }
    TimeoutsProduct(c.recoveryTimeout, n);
    forall i | 0 <= i < n
      ensures w.probeStarts[i] >= w.openSince + (i + 1) as real * c.recoveryTimeout
    {
      TimeoutsProduct(c.recoveryTimeout, i + 1);
    }
  }

  // ----- late finishers ----------------------------------------------------------------------------

  /** An ordinary call was admitted while CLOSED; its period is over if the breaker is not
      CLOSED now or has closed again since. */
  predicate PeriodOver(w: World, call: nat)
    requires call in w.calls
  {
    w.fields.mode != Closed || w.calls[call].period < w.period
  }

  /** The breaker closes between positions `j` and `j + 1` of the history. */
  predicate Closes(worlds: seq<World>, j: nat)
    requires j + 1 < |worlds|
  {
    worlds[j].fields.mode != Closed && worlds[j + 1].fields.mode == Closed
  }

  ghost predicate ClosedAgain(worlds: seq<World>, i: nat, k: nat)
    requires i <= k < |worlds|
  {
    exists j :: i <= j < k && Closes(worlds, j)
  }

  lemma PeriodStep(c: Settings, w: World, e: Event, w': World)
    requires Happens(c, w, e, w')
    ensures w'.period == w.period + if w.fields.mode != Closed && w'.fields.mode == Closed then 1 else 0
  {
  }

  lemma {:induction false} PeriodsCountClosings(c: Settings, worlds: seq<World>, events: seq<Event>, i: nat, k: nat)
    requires IsHistory(c, worlds, events) && i <= k < |worlds|
    ensures worlds[i].period <= worlds[k].period
    ensures worlds[i].period < worlds[k].period <==> ClosedAgain(worlds, i, k)
    decreases k
  {
    hide Happens;
    if i < k {
      PeriodsCountClosings(c, worlds, events, i, k - 1);
      PeriodStep(c, worlds[k - 1], events[k - 1], worlds[k]);
      assert ClosedAgain(worlds, i, k) <==> ClosedAgain(worlds, i, k - 1) || Closes(worlds, k - 1);
    }
  }

  /** The call is under way from its start at `i` up to `k`. */
  ghost predicate UnderWay(worlds: seq<World>, events: seq<Event>, i: nat, k: nat, call: nat)
    requires |worlds| == |events| + 1
  {
    && i < k < |worlds| && events[i] == Start(call) && call in worlds[i + 1].calls
    && forall j :: i < j <= k ==> call in worlds[j].calls && worlds[j].calls[call] == worlds[i + 1].calls[call]
  }

  /** An ordinary call that started at `i` and ends at `k`, its CLOSED period being over,
      changes the breaker if and only if the breaker has closed again in the meantime, is
      CLOSED, and the ending counts there: an outage, or a success that wipes out
      outages of the later period.  It then opens the breaker exactly when it is the
      outage that reaches the threshold. */
  lemma LateFinisherMatters(c: Settings, worlds: seq<World>, events: seq<Event>, i: nat, k: nat,
                            call: nat, ending: Ending)
    requires ValidSettings(c) && IsHistory(c, worlds, events) && k < |events|
    requires UnderWay(worlds, events, i, k, call) && !worlds[k].calls[call].probe
    requires events[k] == End(call, ending) && PeriodOver(worlds[k], call)
    ensures var f := worlds[k].fields; var f' := worlds[k + 1].fields;
            && (f' != f <==>
                  && ClosedAgain(worlds, i, k) && f.mode == Closed
                  && (ending == Outage
                      || ((ending == Success || ending == PermanentReply) && f.failureCount > 0)))
            && (f'.mode != f.mode <==>
                  && ClosedAgain(worlds, i, k) && f.mode == Closed
                  && ending == Outage && f.failureCount + 1 == c.failureThreshold)
  {
    BreakerSound(c, worlds, events, k);
    assert Happens(c, worlds[i], events[i], worlds[i + 1]);
    assert Happens(c, worlds[k], events[k], worlds[k + 1]);
    PeriodsCountClosings(c, worlds, events, i, k);
  }

  /** A concrete history: with threshold 1, call 0 starts while the breaker is closed,
      call 1 opens it, probe 2 closes it again, and only then does call 0 end with an
      outage: the outage of the earlier period opens the breaker anew. */
  lemma OldCallReopens() returns (worlds: seq<World>, events: seq<Event>)
    ensures IsHistory(Settings(1, 0.0), worlds, events)
    ensures events == [Start(0), Start(1), End(1, Outage), Start(2), End(2, Success), End(0, Outage)]
    ensures 0 in worlds[5].calls && worlds[5].calls[0].period == 0 && worlds[5].period == 1
    ensures worlds[5].fields == INITIAL && worlds[6].fields.mode == Open
  {
    var early := Call(false, 0);
    var tripped := Fields(Open, 1, Some(0.0));
    var w0 := World(INITIAL, 0.0, map[], 0, [], 0.0, []);
    var w1 := w0.(calls := map[0 := early]);
    var w2 := w0.(calls := map[0 := early, 1 := early]);
    var w3 := World(tripped, 0.0, map[0 := early], 0, [Outage], 0.0, []);
    var w4 := World(tripped.(mode := HalfOpen), 0.0, map[0 := early, 2 := Call(true, 0)], 0, [Outage], 0.0, [0.0]);
    var w5 := World(INITIAL, 0.0, map[0 := early], 1, [Outage, Success], 0.0, []);
    var w6 := World(tripped, 0.0, map[], 1, [Outage, Success, Outage], 0.0, []);
    worlds := [w0, w1, w2, w3, w4, w5, w6];
    events := [Start(0), Start(1), End(1, Outage), Start(2), End(2, Success), End(0, Outage)];
    assert w2.calls - {1} == w3.calls;
    assert w4.calls - {2} == w5.calls;
    assert w5.calls - {0} == w6.calls;
  }
}
