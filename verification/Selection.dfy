/** `ORDER BY time, id LIMIT n` over a set of candidate rows, as both the outbox
    query and the reconciliation claim use it. */
module Selection {
  import opened Model

  predicate Precedes(t: Time, a: Uuid, u: Time, b: Uuid) {
    t < u || (t == u && a < b)
  }

  function Elements(batch: seq<Uuid>): set<Uuid> {
    set p | p in batch
  }

  /** `batch` is the first `n` of `candidates` in (time, id) order. */
  ghost predicate IsFirst(times: map<Uuid, Time>, candidates: set<Uuid>, n: nat, batch: seq<Uuid>)
    requires candidates <= times.Keys
  {
    && |batch| <= n
    && (forall i :: 0 <= i < |batch| ==> batch[i] in candidates)
    && (forall i, j :: 0 <= i < j < |batch| ==>
          Precedes(times[batch[i]], batch[i], times[batch[j]], batch[j]))
    && (forall x :: x in candidates && x !in batch ==>
          && |batch| == n
          && forall i :: 0 <= i < |batch| ==> Precedes(times[batch[i]], batch[i], times[x], x))
  }

  method Earliest(times: map<Uuid, Time>, candidates: set<Uuid>) returns (first: Uuid)
    requires candidates != {} && candidates <= times.Keys
    ensures first in candidates
    ensures forall x :: x in candidates && x != first ==> Precedes(times[first], first, times[x], x)
  {
    first :| first in candidates;
    var rest := candidates - {first};
    while rest != {}
      invariant rest <= candidates && first in candidates && first !in rest
      invariant forall x :: x in candidates && x !in rest && x != first ==>
                  Precedes(times[first], first, times[x], x)
      decreases rest
    {
      var next :| next in rest;
      rest := rest - {next};
      if Precedes(times[next], next, times[first], first) {
        first := next;
      }
    }
  }

  method SelectFirst(times: map<Uuid, Time>, candidates: set<Uuid>, n: nat) returns (batch: seq<Uuid>)
    requires candidates <= times.Keys
    ensures IsFirst(times, candidates, n, batch)
  {
    batch := [];
    var rest := candidates;
    while |batch| < n && rest != {}
      invariant |batch| <= n && rest <= candidates
      invariant forall x :: x in candidates <==> x in rest || x in batch
      invariant forall x :: x in batch ==> x !in rest
      invariant forall i :: 0 <= i < |batch| ==> batch[i] in candidates
      invariant forall i, j :: 0 <= i < j < |batch| ==>
                  Precedes(times[batch[i]], batch[i], times[batch[j]], batch[j])
      invariant forall i, x :: 0 <= i < |batch| && x in rest ==>
                  Precedes(times[batch[i]], batch[i], times[x], x)
      decreases rest
    {
      var first := Earliest(times, rest);
      batch := batch + [first];
      rest := rest - {first};
    }
  }

  /** The order fixes the answer: no two different batches are both the first `n`. */
  lemma {:induction false} FirstIsUnique(times: map<Uuid, Time>, candidates: set<Uuid>, n: nat,
                                         a: seq<Uuid>, b: seq<Uuid>)
    requires candidates <= times.Keys
    requires IsFirst(times, candidates, n, a) && IsFirst(times, candidates, n, b)
    ensures a == b
  {
    if |a| <= |b| {
      AgreeUpTo(times, candidates, n, a, b, |a|);
      NoLonger(times, candidates, n, a, b);
    } else {
      AgreeUpTo(times, candidates, n, b, a, |b|);
      NoLonger(times, candidates, n, b, a);
    }
  }

  lemma NoLonger(times: map<Uuid, Time>, candidates: set<Uuid>, n: nat, a: seq<Uuid>, b: seq<Uuid>)
    requires candidates <= times.Keys
    requires IsFirst(times, candidates, n, a) && IsFirst(times, candidates, n, b)
    requires |a| <= |b| && forall i :: 0 <= i < |a| ==> a[i] == b[i]
    ensures |a| == |b|
  {
    if b != [] {
      var last := |b| - 1;
      assert b[last] in candidates;
      assert b[last] in a || |a| == n;
    }
  }

  lemma {:induction false} AgreeUpTo(times: map<Uuid, Time>, candidates: set<Uuid>, n: nat,
                                     a: seq<Uuid>, b: seq<Uuid>, k: nat)
    requires candidates <= times.Keys
    requires IsFirst(times, candidates, n, a) && IsFirst(times, candidates, n, b)
    requires k <= |a| && k <= |b|
    ensures forall i :: 0 <= i < k ==> a[i] == b[i]
  {
    if k > 0 {
      AgreeUpTo(times, candidates, n, a, b, k - 1);
      NotEarlier(times, candidates, n, a, b, k - 1);
      NotEarlier(times, candidates, n, b, a, k - 1);
    }
  }

  lemma NotEarlier(times: map<Uuid, Time>, candidates: set<Uuid>, n: nat,
                   a: seq<Uuid>, b: seq<Uuid>, m: nat)
    requires candidates <= times.Keys
    requires IsFirst(times, candidates, n, a) && IsFirst(times, candidates, n, b)
    requires m < |a| && m < |b| && forall i :: 0 <= i < m ==> a[i] == b[i]
    ensures a[m] == b[m] || Precedes(times[b[m]], b[m], times[a[m]], a[m])
  {
  }

  lemma {:induction false} EarliestExists(times: map<Uuid, Time>, candidates: set<Uuid>) returns (first: Uuid)
    requires candidates != {} && candidates <= times.Keys
    ensures first in candidates
    ensures forall x :: x in candidates && x != first ==> Precedes(times[first], first, times[x], x)
  {
    var pick :| pick in candidates;
    var rest := candidates - {pick};
    first := pick;
    if rest != {} {
      var next := EarliestExists(times, rest);
      if Precedes(times[next], next, times[pick], pick) {
        first := next;
      }
    }
    forall x | x in candidates && x != first
      ensures Precedes(times[first], first, times[x], x)
    {
      assert x == pick || x in rest;
    }
  }

  /** Any set of candidates can be put in order. */
  lemma {:induction false} InOrder(times: map<Uuid, Time>, candidates: set<Uuid>) returns (batch: seq<Uuid>)
    requires candidates <= times.Keys
    ensures IsFirst(times, candidates, |batch|, batch) && Elements(batch) == candidates
  {
    if candidates == {} {
      batch := [];
    } else {
      var first := EarliestExists(times, candidates);
      var rest := InOrder(times, candidates - {first});
      batch := [first] + rest;
      forall x
        ensures x in batch <==> x in candidates
      {
        assert x in rest <==> x in Elements(rest);
      }
      forall i, j | 0 <= i < j < |batch|
        ensures Precedes(times[batch[i]], batch[i], times[batch[j]], batch[j])
      {
        assert batch[j] in Elements(rest);
        assert i > 0 ==> batch[i] == rest[i - 1] && batch[j] == rest[j - 1];
      }
    }
  }
}
