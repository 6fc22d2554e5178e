/** The provider client: one `process_payment` call is a loop of POSTs and waits
    under one time budget.  Time is exact, except that a sleep may overrun. */
module ProviderClient {
  import opened Model

  datatype Config = Config(
    requestTimeout: real,
    maxAttempts: nat,
    baseDelay: real,
    maxDelay: real,
    totalTimeout: real)

  /** What the constructor accepts. */
  predicate ValidConfig(c: Config) {
    && c.requestTimeout > 0.0
    && c.maxAttempts >= 1
    && 0.0 <= c.baseDelay <= c.maxDelay
    && c.totalTimeout > 0.0
  }

  /** What a POST comes to: no connection was made, the exchange broke somewhere after
      that, or a response arrived (`body` is None if it does not validate). */
  datatype Reply =
    | ConnectFailure
    | ExchangeFailure
    | Http(code: int, body: Option<ProviderResponse>, retryAfter: Option<real>)

  /** What the environment does in one attempt: its reply after some time, the random
      draw for the jitter, and by how much the following sleep overruns. */
  datatype Turn = Turn(reply: Reply, duration: real, draw: real, overrun: real)

  predicate ValidTurn(t: Turn) {
    && t.duration >= 0.0 && t.draw >= 0.0 && t.overrun >= 0.0
    && (t.reply.Http? && t.reply.retryAfter.Some? ==> t.reply.retryAfter.value >= 0.0)
  }

  datatype Outcome =
    | Paid(answer: ProviderResponse)
    | Unavailable
    | Ambiguous
    | Rejected(code: int)
    | LoopFellThrough

  datatype Verdict = Retryable | Accept(answer: ProviderResponse) | Uncertain | Reject(code: int)

  function Judge(reply: Reply): Verdict {
    match reply
    case ConnectFailure => Retryable
    case ExchangeFailure => Uncertain
    case Http(code, body, _) =>
      if 200 <= code < 300 then (if body.Some? then Accept(body.value) else Uncertain)
      else if code == 429 || code == 503 then Retryable
      else if code == 408 || 500 <= code < 600 then Uncertain
      else Reject(code)
  }

  function OutcomeOf(v: Verdict): Outcome {
    match v
    case Retryable => Unavailable
    case Accept(answer) => Paid(answer)
    case Uncertain => Ambiguous
    case Reject(code) => Rejected(code)
  }

  /** `base * 2 ** k`. */
  function Backoff(base: real, k: nat): real {
    if k == 0 then base else 2.0 * Backoff(base, k - 1)
  }

  function Min(a: real, b: real): real {
    if a <= b then a else b
  }

  predicate Hinted(t: Turn) {
    t.reply.Http? && t.reply.retryAfter.Some?
  }

  /** The wait after attempt `attempt`: what Retry-After says, else a draw between zero
      and the capped exponential interval. */
  function DelayAfter(c: Config, attempt: nat, t: Turn): real
    requires attempt >= 1
  {
    if Hinted(t) then t.reply.retryAfter.value
    else Min(t.draw, Min(Backoff(c.baseDelay, attempt - 1), c.maxDelay))
  }

  /** A POST that was sent: when, with which transport timeout, when it was over and
      what it came to. */
  datatype Post = Post(request: ProviderRequest, key: Uuid, at: real, timeout: real, over: real, verdict: Verdict)

  method PostPayment(c: Config, data: ProviderRequest, started: real, now: real, t: Turn)
    returns (post: Option<Post>)
    requires ValidConfig(c) && ValidTurn(t)
    ensures post.None? <==> now >= started + c.totalTimeout
    ensures post.Some? ==> PostOk(c, data, started, now, t, post.value)
  {
    var remaining := c.totalTimeout - (now - started);
    if remaining <= 0.0 {
      return None;
    }
    var timeout := Min(c.requestTimeout, remaining);
    if t.duration >= remaining {
      return Some(Post(data, data.paymentId, now, timeout, now + remaining, Uncertain));
    }
    return Some(Post(data, data.paymentId, now, timeout, now + t.duration, Judge(t.reply)));
  }

  /** One POST: sent with the payment's id as its key, cut off at the deadline with an
      unknown outcome, judged by its reply otherwise. */
  predicate PostOk(c: Config, data: ProviderRequest, started: real, now: real, t: Turn, p: Post) {
    var deadline := started + c.totalTimeout;
    && p.request == data && p.key == data.paymentId && p.at == now
    && now < deadline
    && p.timeout == Min(c.requestTimeout, deadline - now)
    && p.over == Min(now + t.duration, deadline)
    && p.verdict == (if p.over == deadline then Uncertain else Judge(t.reply))
  }

  /** The whole call.  Every POST but the last is retryable and is followed by a sleep
      that ends before the deadline; the last POST decides the outcome; giving up
      before the last permitted attempt means that the next one could not start in time. */
  ghost predicate CallOk(c: Config, data: ProviderRequest, started: real, turns: seq<Turn>,
                         posts: seq<Post>, sleeps: seq<real>, outcome: Outcome, ended: real)
    requires |turns| == c.maxAttempts
  {
    && 1 <= |posts| <= c.maxAttempts
    && (|sleeps| == |posts| - 1 || |sleeps| == |posts|)
    && posts[0].at == started
    && (forall i :: 0 <= i < |posts| ==> PostOk(c, data, started, posts[i].at, turns[i], posts[i]))
    && (forall i :: 0 <= i < |sleeps| ==>
          && posts[i].verdict == Retryable
          && sleeps[i] == DelayAfter(c, i + 1, turns[i])
          && posts[i].over + sleeps[i] < started + c.totalTimeout)
    && (forall i :: 0 <= i < |posts| - 1 ==> posts[i + 1].at == posts[i].over + sleeps[i] + turns[i].overrun)
    && (var n := |posts| - 1;
        && outcome == OutcomeOf(posts[n].verdict)
        && (outcome == Unavailable && |posts| < c.maxAttempts ==>
              posts[n].over + DelayAfter(c, n + 1, turns[n])
                + (if |sleeps| == |posts| then turns[n].overrun else 0.0) >= started + c.totalTimeout)
        && (|sleeps| == |posts| ==> outcome == Unavailable && |posts| < c.maxAttempts)
        && ended == posts[n].over + if |sleeps| == |posts| then sleeps[n] + turns[n].overrun else 0.0)
  }

  /** As far as a call can come without an outcome: every POST so far was retryable and
      was followed by its sleep. */
  ghost predicate Progress(c: Config, data: ProviderRequest, started: real, turns: seq<Turn>,
                           posts: seq<Post>, sleeps: seq<real>, now: real)
    requires |turns| == c.maxAttempts
  {
    && |posts| == |sleeps| < c.maxAttempts
    && (forall i :: 0 <= i < |posts| ==> PostOk(c, data, started, posts[i].at, turns[i], posts[i]))
    && (forall i :: 0 <= i < |sleeps| ==>
          && posts[i].verdict == Retryable
          && sleeps[i] == DelayAfter(c, i + 1, turns[i])
          && posts[i].over + sleeps[i] < started + c.totalTimeout)
    && (forall i :: 0 <= i < |posts| - 1 ==> posts[i + 1].at == posts[i].over + sleeps[i] + turns[i].overrun)
    && (if posts == [] then now == started
        else
          var n := |posts| - 1;
          posts[0].at == started && now == posts[n].over + sleeps[n] + turns[n].overrun)
  }

  lemma CallEnds(c: Config, data: ProviderRequest, started: real, turns: seq<Turn>,
                 posts: seq<Post>, sleeps: seq<real>, now: real, p: Post)
    requires |turns| == c.maxAttempts && Progress(c, data, started, turns, posts, sleeps, now)
    requires PostOk(c, data, started, now, turns[|posts|], p)
    requires p.verdict == Retryable && |posts| + 1 < c.maxAttempts ==>
               p.over + DelayAfter(c, |posts| + 1, turns[|posts|]) >= started + c.totalTimeout
    ensures CallOk(c, data, started, turns, posts + [p], sleeps, OutcomeOf(p.verdict), p.over)
  {
  }

  lemma CallGoesOn(c: Config, data: ProviderRequest, started: real, turns: seq<Turn>,
                   posts: seq<Post>, sleeps: seq<real>, now: real, p: Post, delay: real)
    requires |turns| == c.maxAttempts && Progress(c, data, started, turns, posts, sleeps, now)
    requires PostOk(c, data, started, now, turns[|posts|], p) && |posts| + 1 < c.maxAttempts
    requires p.verdict == Retryable && delay == DelayAfter(c, |posts| + 1, turns[|posts|])
    requires p.over + delay < started + c.totalTimeout
    ensures Progress(c, data, started, turns, posts + [p], sleeps + [delay],
                     p.over + delay + turns[|posts|].overrun)
  {
    assert p.at == now;
    hide PostOk, DelayAfter;
  }

  /** A sleep overran the deadline: the next POST is not sent. */
  lemma CallOverslept(c: Config, data: ProviderRequest, started: real, turns: seq<Turn>,
                      posts: seq<Post>, sleeps: seq<real>, now: real)
    requires |turns| == c.maxAttempts && Progress(c, data, started, turns, posts, sleeps, now)
    requires now >= started + c.totalTimeout && posts != []
    ensures CallOk(c, data, started, turns, posts, sleeps, Unavailable, now)
  {
  }

  method ProcessPayment(c: Config, data: ProviderRequest, started: real, turns: seq<Turn>)
    returns (outcome: Outcome, ghost posts: seq<Post>, ghost sleeps: seq<real>, ended: real)
    requires ValidConfig(c) && |turns| == c.maxAttempts
    requires forall i :: 0 <= i < |turns| ==> ValidTurn(turns[i])
    ensures CallOk(c, data, started, turns, posts, sleeps, outcome, ended)
    ensures outcome != LoopFellThrough
  {
    hide PostOk, CallOk, DelayAfter, ValidTurn;
    var now := started;
    posts, sleeps := [], [];
    for attempt := 1 to c.maxAttempts + 1
      invariant |posts| == attempt - 1
      invariant attempt <= c.maxAttempts ==> Progress(c, data, started, turns, posts, sleeps, now)
      invariant attempt <= c.maxAttempts
    {
      var turn := turns[attempt - 1];
      var post := PostPayment(c, data, started, now, turn);
      if post == None {
        CallOverslept(c, data, started, turns, posts, sleeps, now);
        return Unavailable, posts, sleeps, now;
      }
      var p := post.value;
      if p.verdict != Retryable || attempt == c.maxAttempts {
        CallEnds(c, data, started, turns, posts, sleeps, now, p);
        return OutcomeOf(p.verdict), posts + [p], sleeps, p.over;
      }
      var delay := DelayAfter(c, attempt, turn);
      if delay >= c.totalTimeout - (p.over - started) {
        CallEnds(c, data, started, turns, posts, sleeps, now, p);
        return Unavailable, posts + [p], sleeps, p.over;
      }
      CallGoesOn(c, data, started, turns, posts, sleeps, now, p, delay);
      posts, sleeps := posts + [p], sleeps + [delay];
      now := p.over + delay + turn.overrun;
    }
    outcome, ended := LoopFellThrough, now;
  }

  // ----- what every call satisfies -----------------------------------------------------------

  /** The reply shows that the provider did not take the request: no connection, or a
      status by which it asks to come again. */
  predicate NotTaken(reply: Reply) {
    reply == ConnectFailure || (reply.Http? && (reply.code == 429 || reply.code == 503))
  }

  /** The reply leaves open whether the provider took the request. */
  predicate LeavesOpen(reply: Reply) {
    || reply == ExchangeFailure
    || (reply.Http? && 200 <= reply.code < 300 && reply.body.None?)
    || (reply.Http? && reply.code == 408)
    || (reply.Http? && 500 <= reply.code < 600 && reply.code != 503)
  }

  /** What the caller learns follows from the last reply alone: the request was not taken,
      its outcome is open, it was accepted with that answer, or rejected with that code;
      cut off at the deadline it is open. */
  lemma LastReplyDecides(c: Config, data: ProviderRequest, started: real, turns: seq<Turn>,
                         posts: seq<Post>, sleeps: seq<real>, outcome: Outcome, ended: real)
    requires |turns| == c.maxAttempts && CallOk(c, data, started, turns, posts, sleeps, outcome, ended)
    ensures posts[|posts| - 1].over == started + c.totalTimeout ==> outcome == Ambiguous
    ensures posts[|posts| - 1].over < started + c.totalTimeout ==>
              var reply := turns[|posts| - 1].reply;
              && (outcome == Unavailable <==> NotTaken(reply))
              && (outcome == Ambiguous <==> LeavesOpen(reply))
              && (forall a :: outcome == Paid(a) <==>
                    reply.Http? && 200 <= reply.code < 300 && reply.body == Some(a))
              && (forall code :: outcome == Rejected(code) <==>
                    && reply.Http? && reply.code == code && code != 408 && code != 429
                    && !(200 <= code < 300) && !(500 <= code < 600))
  {
  }

  /** A sleep is what Retry-After asks for, or else the random draw from between zero and
      the exponential interval, which doubles with every attempt up to its cap. */
  lemma SleepIsAsAsked(c: Config, data: ProviderRequest, started: real, turns: seq<Turn>,
                       posts: seq<Post>, sleeps: seq<real>, outcome: Outcome, ended: real, i: nat)
    requires |turns| == c.maxAttempts && CallOk(c, data, started, turns, posts, sleeps, outcome, ended)
    requires i < |sleeps|
    ensures var reply := turns[i].reply; var interval := Min(c.baseDelay * Power2(i) as real, c.maxDelay);
            if reply.Http? && reply.retryAfter.Some? then sleeps[i] == reply.retryAfter.value
            else sleeps[i] <= interval && (turns[i].draw <= interval ==> sleeps[i] == turns[i].draw)
  {
    hide CallOk, PostOk, DelayAfter;
    SleepIsDelay(c, data, started, turns, posts, sleeps, outcome, ended, i);
    DelayMeans(c, i, turns[i]);
    BackoffIsProduct(c.baseDelay, i);
    SameMin(Backoff(c.baseDelay, i), c.baseDelay * Power2(i) as real, c.maxDelay);
  }

  lemma SameMin(a: real, b: real, m: real)
    requires a == b
    ensures Min(a, m) == Min(b, m)
  {
  }

  lemma SleepIsDelay(c: Config, data: ProviderRequest, started: real, turns: seq<Turn>,
                     posts: seq<Post>, sleeps: seq<real>, outcome: Outcome, ended: real, i: nat)
    requires |turns| == c.maxAttempts && CallOk(c, data, started, turns, posts, sleeps, outcome, ended)
    requires i < |sleeps|
    ensures i < |turns| && sleeps[i] == DelayAfter(c, i + 1, turns[i])
  {
    hide PostOk, DelayAfter;
  }

  lemma DelayMeans(c: Config, i: nat, t: Turn)
    ensures var delay := DelayAfter(c, i + 1, t); var interval := Min(Backoff(c.baseDelay, i), c.maxDelay);
            if t.reply.Http? && t.reply.retryAfter.Some? then delay == t.reply.retryAfter.value
            else delay <= interval && (t.draw <= interval ==> delay == t.draw)
  {
    hide Backoff;
  }

  /** The client gives up on a request that was not taken only after its last permitted
      attempt, or when the wait it is asked for does not end before the deadline, or when
      it woke up from a wait after the deadline.  Every POST has the time that is left, but
      no more than the request timeout. */
  lemma GivesUpOnlyExhausted(c: Config, data: ProviderRequest, started: real, turns: seq<Turn>,
                             posts: seq<Post>, sleeps: seq<real>, outcome: Outcome, ended: real)
    requires |turns| == c.maxAttempts && CallOk(c, data, started, turns, posts, sleeps, outcome, ended)
    ensures var n := |posts| - 1; var deadline := started + c.totalTimeout;
            outcome == Unavailable ==>
              || |posts| == c.maxAttempts
              || (|sleeps| == n && posts[n].over + DelayAfter(c, n + 1, turns[n]) >= deadline)
              || (|sleeps| == n + 1 && posts[n].over + sleeps[n] + turns[n].overrun >= deadline)
    ensures forall i :: 0 <= i < |posts| ==>
              posts[i].timeout == if started + c.totalTimeout - posts[i].at < c.requestTimeout
                                  then started + c.totalTimeout - posts[i].at else c.requestTimeout
    ensures posts[0].at == started
    ensures forall i :: 0 <= i < |posts| - 1 ==> posts[i + 1].at == posts[i].over + sleeps[i] + turns[i].overrun
  {
  }

  /** At most `maxAttempts` POSTs, all of the same request under the payment's id; an
      unknown outcome, an acceptance or a rejection ends the call at once; the call is
      reported unavailable only if no attempt was ambiguous. */
  lemma TraceShape(c: Config, data: ProviderRequest, started: real, turns: seq<Turn>,
                   posts: seq<Post>, sleeps: seq<real>, outcome: Outcome, ended: real)
    requires |turns| == c.maxAttempts && CallOk(c, data, started, turns, posts, sleeps, outcome, ended)
    ensures |posts| <= c.maxAttempts
    ensures forall i :: 0 <= i < |posts| ==> posts[i].key == data.paymentId && posts[i].request == data
    ensures forall i :: 0 <= i < |posts| - 1 ==>
              || turns[i].reply == ConnectFailure
              || (turns[i].reply.Http? && (turns[i].reply.code == 429 || turns[i].reply.code == 503))
    ensures outcome == Unavailable ==> forall i :: 0 <= i < |posts| ==> NotTaken(turns[i].reply)
    ensures outcome == Ambiguous <==>
              exists i :: 0 <= i < |posts| && (posts[i].over == started + c.totalTimeout || LeavesOpen(turns[i].reply))
    ensures outcome == Unavailable ==> forall i :: 0 <= i < |posts| ==> posts[i].verdict == Retryable
    ensures outcome == Ambiguous <==> exists i :: 0 <= i < |posts| && posts[i].verdict == Uncertain
    ensures outcome.Paid? ==> posts[|posts| - 1].verdict == Accept(outcome.answer)
    ensures outcome != LoopFellThrough
  {
  }

  /** The call ends at the deadline at the latest, unless its last sleep overran; with
      exact sleeps it always ends in time and leaves positive budget after every sleep. */
  lemma TimeBudget(c: Config, data: ProviderRequest, started: real, turns: seq<Turn>,
                   posts: seq<Post>, sleeps: seq<real>, outcome: Outcome, ended: real)
    requires |turns| == c.maxAttempts && CallOk(c, data, started, turns, posts, sleeps, outcome, ended)
    ensures |sleeps| == |posts| - 1 ==> ended <= started + c.totalTimeout
    ensures |sleeps| == |posts| ==> ended < started + c.totalTimeout + turns[|posts| - 1].overrun
    ensures (forall i :: 0 <= i < |turns| ==> turns[i].overrun == 0.0) ==>
              ended <= started + c.totalTimeout && |sleeps| == |posts| - 1
    ensures forall i :: 0 <= i < |sleeps| ==> posts[i].over + sleeps[i] < started + c.totalTimeout
  {
  }

  function Sum(sleeps: seq<real>): real {
    if sleeps == [] then 0.0 else Sum(sleeps[..|sleeps| - 1]) + sleeps[|sleeps| - 1]
  }

  /** Without Retry-After, n sleeps take at most base * (2^n - 1) and at most n * max. */
  lemma SleepBound(c: Config, turns: seq<Turn>, sleeps: seq<real>)
    requires ValidConfig(c) && |sleeps| <= |turns|
    requires forall i :: 0 <= i < |sleeps| ==> !Hinted(turns[i]) && sleeps[i] == DelayAfter(c, i + 1, turns[i])
    ensures Sum(sleeps) <= c.baseDelay * (Power2(|sleeps|) - 1) as real
    ensures Sum(sleeps) <= |sleeps| as real * c.maxDelay
  {
    hide DelayAfter, Hinted, Sum, Backoff, Times, Power2;
    SumBound(c, turns, sleeps);
    GrowthIsProduct(c.baseDelay, |sleeps|);
    TimesIsProduct(c.maxDelay, |sleeps|);
  }

  lemma {:induction false} SumBound(c: Config, turns: seq<Turn>, sleeps: seq<real>)
    requires ValidConfig(c) && |sleeps| <= |turns|
    requires forall i :: 0 <= i < |sleeps| ==> !Hinted(turns[i]) && sleeps[i] == DelayAfter(c, i + 1, turns[i])
    ensures Sum(sleeps) <= Backoff(c.baseDelay, |sleeps|) - c.baseDelay
    ensures Sum(sleeps) <= Times(c.maxDelay, |sleeps|)
  {
    if sleeps != [] {
      SumBound(c, turns, sleeps[..|sleeps| - 1]);
    }
  }

  function Times(delay: real, n: nat): real {
    if n == 0 then 0.0 else Times(delay, n - 1) + delay
  }

  lemma {:induction false} TimesIsProduct(delay: real, n: nat)
    ensures Times(delay, n) == n as real * delay
  {
    if n > 0 {
      TimesIsProduct(delay, n - 1);
    }
  }

  function Power2(k: nat): nat {
    if k == 0 then 1 else 2 * Power2(k - 1)
  }

  lemma {:induction false} BackoffIsProduct(base: real, k: nat)
    ensures Backoff(base, k) == base * Power2(k) as real
  {
    if k > 0 {
      BackoffIsProduct(base, k - 1);
      var p := Power2(k - 1) as real;
      assert Power2(k) as real == 2.0 * p;
      assert base * (2.0 * p) == 2.0 * (base * p);
    }
  }

  lemma GrowthIsProduct(base: real, k: nat)
    ensures Backoff(base, k) - base == base * (Power2(k) - 1) as real
  {
    BackoffIsProduct(base, k);
    var p := Power2(k) as real;
    assert (Power2(k) - 1) as real == p - 1.0;
    assert base * (p - 1.0) == base * p - base;
  }

  // ----- lookup --------------------------------------------------------------------------------

  datatype LookupOutcome = Found(answer: ProviderResponse) | NotFound | LookupUnavailable | LookupRejected(code: int)

  /** `get_payment_by_idempotency_key`; None is a transport error. */
  function Lookup(reply: Option<Reply>): LookupOutcome {
    match reply
    case Some(Http(code, body, _)) =>
      if code == 404 then NotFound
      else if !(200 <= code < 300) then (if code >= 500 then LookupUnavailable else LookupRejected(code))
      else if body.Some? then Found(body.value) else LookupUnavailable
    case _ => LookupUnavailable
  }

  /** A lookup finds what a well-formed 2xx reply carries and nothing else; only 404 says
      that there is nothing to find; other replies below 500 reject the lookup, and the
      rest, like no reply, leaves the question open. */
  lemma LookupDecides(reply: Option<Reply>)
    ensures forall a :: Lookup(reply) == Found(a) <==>
              reply.Some? && reply.value.Http? && 200 <= reply.value.code < 300 && reply.value.body == Some(a)
    ensures Lookup(reply) == NotFound <==> reply.Some? && reply.value.Http? && reply.value.code == 404
    ensures forall code :: Lookup(reply) == LookupRejected(code) <==>
              && reply.Some? && reply.value.Http? && reply.value.code == code
              && code < 500 && code != 404 && !(200 <= code < 300)
    ensures Lookup(reply) == LookupUnavailable <==>
              || reply.None? || !reply.value.Http? || reply.value.code >= 500
              || (200 <= reply.value.code < 300 && reply.value.body.None?)
  {
  }
}
