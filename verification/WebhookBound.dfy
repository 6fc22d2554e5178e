/** How many requests a client's webhook URL may see: no more than the handlings of the
    event, and so no more than its publications and faults allow. */
module WebhookBound {
  import opened Model
  import opened Broker
  import opened RetryBound
  import opened System
  import opened Invariant
  import opened Preservation
  import opened Starvation
  import opened Theorems

  /** The copy was delivered to a worker that has not posted the webhook yet. */
  predicate Unposted(c: Copy, eid: Uuid) {
    && c.event.eventId == eid && (c.place.InFlight? || c.place.Adrift?)
    && (c.place.phase == Received || c.place.phase.Delivering?)
  }

  ghost function UnpostedCopies(copies: Copies, eid: Uuid): set<nat> {
    set c | c in copies && Unposted(copies[c], eid)
  }

  /** The requests sent for an event. */
  function PostsFor(webhooks: seq<WebhookPost>, eid: Uuid): nat {
    if webhooks == [] then 0
    else
      PostsFor(webhooks[..|webhooks| - 1], eid)
      + if webhooks[|webhooks| - 1].eventId == eid then 1 else 0
  }

  lemma OnePostMore(webhooks: seq<WebhookPost>, w: WebhookPost, eid: Uuid)
    ensures PostsFor(webhooks + [w], eid) == PostsFor(webhooks, eid) + if w.eventId == eid then 1 else 0
  {
    assert (webhooks + [w])[..|webhooks|] == webhooks;
  }

  lemma BrokerStepUnposted(s: Copies, m: Move, s': Copies, eid: Uuid)
    requires BrokerStep(s, m, s') && !m.Work?
    ensures UnpostedCopies(s', eid) <= UnpostedCopies(s, eid) + if Handles(s, m, eid) == 1 then {m.cid} else {}
  {
  }

  lemma WorkStepUnposted(s: State, a: WorkStep, s': State, eid: Uuid)
    requires WorkNext(s, a, s')
    ensures PostsFor(s'.webhooks, eid) + |UnpostedCopies(s'.copies, eid)|
         <= PostsFor(s.webhooks, eid) + |UnpostedCopies(s.copies, eid)|
  {
    OneCopyWorked(s, a, s', eid);
    var before, after := UnpostedCopies(s.copies, eid), UnpostedCopies(s'.copies, eid);
    if a.PostWebhook? && s.copies[a.cid].event.eventId == eid {
      SubsetSize(after, before - {a.cid});
    } else {
      SubsetSize(after, before);
    }
    if a.PostWebhook? {
      OnePostMore(s.webhooks, s'.webhooks[|s.webhooks|], eid);
    }
  }

  lemma OneCopyWorked(s: State, a: WorkStep, s': State, eid: Uuid)
    requires WorkNext(s, a, s')
    ensures UnpostedCopies(s'.copies, eid) <= UnpostedCopies(s.copies, eid)
    ensures a.PostWebhook? ==>
              && |s'.webhooks| == |s.webhooks| + 1 && s'.webhooks == s.webhooks + [s'.webhooks[|s.webhooks|]]
              && s'.webhooks[|s.webhooks|].eventId == s.copies[a.cid].event.eventId
    ensures !a.PostWebhook? ==> s'.webhooks == s.webhooks
    ensures a.PostWebhook? && s.copies[a.cid].event.eventId == eid ==>
              a.cid in UnpostedCopies(s.copies, eid) && a.cid !in UnpostedCopies(s'.copies, eid)
  {
    hide Transactions.MarkUnknown, Transactions.ApplyProviderResult, Transactions.MarkSent,
         Transactions.LoadDelivery, Transactions.LoadProviderRequest;
  }

  lemma WebhooksAside(s: State, step: Step, s': State)
    requires Next(s, step, s') && !step.WorkerDoes?
    ensures s'.webhooks == s.webhooks
  {
    hide ApiNext, RelayNext, WorkNext, ReconcileNext, BrokerStep;
    match step
    case ApiDoes(a) => ApiPostsNothing(s, a, s');
    case RelayDoes(a) => RelayPostsNothing(s, a, s');
    case ReconcilerDoes(a) => ReconcilerPostsNothing(s, a, s');
    case _ =>
  }

  lemma ApiPostsNothing(s: State, a: ApiStep, s': State)
    requires ApiNext(s, a, s')
    ensures s'.webhooks == s.webhooks
  {
  }

  lemma RelayPostsNothing(s: State, a: RelayStep, s': State)
    requires RelayNext(s, a, s')
    ensures s'.webhooks == s.webhooks
  {
  }

  lemma ReconcilerPostsNothing(s: State, a: ReconcileStep, s': State)
    requires ReconcileNext(s, a, s')
    ensures s'.webhooks == s.webhooks
  {
  }

  lemma StepUnposted(s: State, step: Step, s': State, eid: Uuid)
    requires Inv(s) && Next(s, step, s')
    ensures PostsFor(s'.webhooks, eid) + |UnpostedCopies(s'.copies, eid)|
         <= PostsFor(s.webhooks, eid) + |UnpostedCopies(s.copies, eid)|
          + var m := MoveOf(s, step); if m.Some? then Handles(s.copies, m.value, eid) else 0
  {
    if step.WorkerDoes? {
      WorkStepUnposted(s, step.work, s', eid);
    } else {
      hide Inv;
      var m := MoveOf(s, step);
      NoWorkMove(s, step, s');
      hide Next, MoveOf, BrokerStep, UnpostedCopies;
      SystemRefinesBroker(s, step, s');
      WebhooksAside(s, step, s');
      if m.Some? {
        BrokerStepUnposted(s.copies, m.value, s'.copies, eid);
        var delivered := if Handles(s.copies, m.value, eid) == 1 then {m.value.cid} else {};
        SubsetSize(UnpostedCopies(s'.copies, eid), UnpostedCopies(s.copies, eid) + delivered);
      }
    }
  }

  lemma NoWorkMove(s: State, step: Step, s': State)
    requires Next(s, step, s')
    ensures MoveOf(s, step).Some? ==> !MoveOf(s, step).value.Work?
  {
    hide ApiNext, RelayNext, WorkNext, ReconcileNext, BrokerStep;
  }

  /** An event published P times, F of whose handlings were faulty, causes at most as many
      webhook requests as handlings, and so at most 3P + 3F. */
  lemma {:induction false} RequestBound(states: seq<State>, steps: seq<Step>, k: nat, eid: Uuid)
    requires IsRun(states, steps) && k <= |steps|
    ensures PostsFor(states[k].webhooks, eid) + |UnpostedCopies(states[k].copies, eid)|
         <= Count(states, steps, k, eid, Handles)
    ensures PostsFor(states[k].webhooks, eid)
         <= 3 * Count(states, steps, k, eid, Publishes) + 3 * Count(states, steps, k, eid, Faults)
  {
    hide Next, Inv, MoveOf, Handles, Publishes, Faults;
    HandlingBound(states, steps, k, eid);
    if k > 0 {
      RequestBound(states, steps, k - 1, eid);
      RunKeeps(states, steps, k - 1);
      StepUnposted(states[k - 1], steps[k - 1], states[k], eid);
    } else {
      assert UnpostedCopies(states[0].copies, eid) == {};
    }
  }
}
