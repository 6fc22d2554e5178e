/** How often one event can be handled: a potential argument over the message
    copies that still exist. */
module RetryBound {
  import opened Model
  import opened Broker

  /** Handlings a copy may still cause if nothing goes wrong from here on. */
  function Weight(c: Copy): nat
    requires ShapeOk(c)
  {
    var left := MAX_ATTEMPTS + 1 - c.event.attempt;
    match c.place
    case InDlq => 0
    case InFlight(AckDue) => 0
    case InFlight(NackDue) => left
    case InFlight(_) => left - 1
    case Adrift(AckDue) => 0
    case Adrift(NackDue) => 0
    case Adrift(_) => left - 1
    case _ => left
  }

  function WeightFor(c: Copy, eid: Uuid): nat
    requires ShapeOk(c)
  {
    if c.event.eventId == eid then Weight(c) else 0
  }

  ghost function Potential(s: Copies, eid: Uuid): nat
    requires ShapesOk(s)
    decreases |s|
  {
    if s == map[] then 0
    else
      var c :| c in s;
      WeightFor(s[c], eid) + Potential(s - {c}, eid)
  }

  lemma {:induction false} PotentialWithout(s: Copies, eid: Uuid, c: nat)
    requires ShapesOk(s) && c in s
    ensures ShapesOk(s - {c})
    ensures Potential(s, eid) == WeightFor(s[c], eid) + Potential(s - {c}, eid)
    decreases |s|
  {
    var d :| d in s && Potential(s, eid) == WeightFor(s[d], eid) + Potential(s - {d}, eid);
    if d != c {
      PotentialWithout(s - {d}, eid, c);
      PotentialWithout(s - {c}, eid, d);
      assert (s - {d}) - {c} == (s - {c}) - {d};
    }
  }

  lemma PotentialChanged(s: Copies, eid: Uuid, c: nat, copy: Copy)
    requires ShapesOk(s) && ShapeOk(copy)
    ensures ShapesOk(s[c := copy])
    ensures c in s ==>
              Potential(s[c := copy], eid) + WeightFor(s[c], eid) == Potential(s, eid) + WeightFor(copy, eid)
    ensures c !in s ==> Potential(s[c := copy], eid) == Potential(s, eid) + WeightFor(copy, eid)
  {
    var t := s[c := copy];
    PotentialWithout(t, eid, c);
    if c in s {
      PotentialWithout(s, eid, c);
      assert t - {c} == s - {c};
    } else {
      assert t - {c} == s;
    }
  }

  // ----- what is counted -----------------------------------------------------------

  function Handles(s: Copies, m: Move, eid: Uuid): nat {
    if m.Deliver? && m.cid in s && s[m.cid].event.eventId == eid then 1 else 0
  }

  function Publishes(s: Copies, m: Move, eid: Uuid): nat {
    if m.Publish? && m.event.eventId == eid then 1 else 0
  }

  /** A handling that loses its worker or its connection, or whose retry publish raises,
      counted once: not again when it was adrift or its NACK was due already. */
  function Faults(s: Copies, m: Move, eid: Uuid): nat {
    if m.cid in s && s[m.cid].event.eventId == eid
       && s[m.cid].place.InFlight? && s[m.cid].place.phase != NackDue
       && (m.Crash? || m.Redeliver? || (m.Retry? && m.fate != Confirmed))
    then 1 else 0
  }

  /** One step pays for itself: the handlings it causes plus the growth of the
      potential are covered by its publications and faults. */
  lemma StepPays(s: Copies, m: Move, s': Copies, eid: Uuid)
    requires ShapesOk(s) && BrokerStep(s, m, s')
    requires m.Publish? ==> m.event.attempt == 1
    ensures ShapesOk(s')
    ensures Handles(s, m, eid) + Potential(s', eid)
         <= Potential(s, eid) + 3 * Publishes(s, m, eid) + 3 * Faults(s, m, eid)
  {
    hide Potential, Weight, BrokerStep;
    ShapesKept(s, m, s');
    match m
    case Settle(c) =>
      GonePays(s, m, s', eid);
    case Ack(c) =>
      GonePays(s, m, s', eid);
    case Retry(c, copyId, fate) =>
      RetryPays(s, s', eid, c, copyId, fate);
    case Redeliver(c, copyId) =>
      RedeliverPays(s, s', eid, c, copyId);
    case _ =>
      if m.cid in s' {
        MovePays(s, m, s', eid);
      } else {
        GonePays(s, m, s', eid);
      }
  }

  /** Publications, deliveries, phase changes, expiries, NACKs and crashes change one copy,
      unless its handler is adrift and ends. */
  lemma MovePays(s: Copies, m: Move, s': Copies, eid: Uuid)
    requires ShapesOk(s) && ShapesOk(s') && BrokerStep(s, m, s')
    requires !m.Settle? && !m.Ack? && !m.Retry? && !m.Redeliver? && m.cid in s'
    requires m.Publish? ==> m.event.attempt == 1
    ensures Handles(s, m, eid) + Potential(s', eid)
         <= Potential(s, eid) + 3 * Publishes(s, m, eid) + 3 * Faults(s, m, eid)
  {
    hide Potential;
    PotentialChanged(s, eid, m.cid, s'[m.cid]);
  }

  lemma GonePays(s: Copies, m: Move, s': Copies, eid: Uuid)
    requires ShapesOk(s) && ShapesOk(s') && BrokerStep(s, m, s') && (m.Settle? || m.Ack? || m.cid !in s')
    requires !m.Retry? && !m.Redeliver?
    ensures Handles(s, m, eid) == 0
    ensures Potential(s', eid) <= Potential(s, eid)
  {
    hide Potential;
    if m.cid in s' {
      PotentialChanged(s, eid, m.cid, s'[m.cid]);
    } else {
      PotentialWithout(s, eid, m.cid);
    }
  }

  lemma RedeliverPays(s: Copies, s': Copies, eid: Uuid, c: nat, copyId: nat)
    requires ShapesOk(s) && ShapesOk(s') && BrokerStep(s, Redeliver(c, copyId), s')
    ensures Potential(s', eid) <= Potential(s, eid) + 3 * Faults(s, Redeliver(c, copyId), eid)
  {
    hide Potential;
    assert ShapeOk(s[c]);
    var mid := At(s, c, s'[c].place);
    PotentialChanged(s, eid, c, s'[c]);
    PotentialChanged(mid, eid, copyId, s'[copyId]);
  }

  lemma RetryPays(s: Copies, s': Copies, eid: Uuid, c: nat, copyId: nat, fate: PublishFate)
    requires ShapesOk(s) && ShapesOk(s') && BrokerStep(s, Retry(c, copyId, fate), s')
    ensures Potential(s', eid) <= Potential(s, eid) + 3 * Faults(s, Retry(c, copyId, fate), eid)
  {
    hide Potential;
    RetryNeverRaisesValueError(s, c, s[c].place.phase.outcome);
    assert ShapeOk(s[c]);
    var mid := At(s, c, s'[c].place);
    PotentialChanged(s, eid, c, s'[c]);
    if copyId in s' {
      assert s' == mid[copyId := s'[copyId]];
      PotentialChanged(mid, eid, copyId, s'[copyId]);
    } else {
      assert s' == mid;
    }
  }

  // ----- a handling is faulty once ------------------------------------------------------

  /** Deliveries of the event that are being handled and have not gone wrong. */
  ghost function Sound(s: Copies, eid: Uuid): set<nat> {
    set c | c in s && s[c].event.eventId == eid && s[c].place.InFlight? && s[c].place.phase != NackDue
  }

  lemma FaultIsOnce(s: Copies, m: Move, s': Copies, eid: Uuid)
    requires BrokerStep(s, m, s')
    ensures Faults(s, m, eid) == 1 ==> m.cid in Sound(s, eid) && Sound(s', eid) <= Sound(s, eid) - {m.cid}
    ensures Faults(s, m, eid) == 0 ==>
              Sound(s', eid) <= Sound(s, eid) + if Handles(s, m, eid) == 1 then {m.cid} else {}
    ensures Faults(s, m, eid) == 1 ==> Handles(s, m, eid) == 0
  {
  }
}
