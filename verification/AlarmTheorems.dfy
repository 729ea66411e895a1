/**
 The main results about the alarm protocol, for links that count with wire numbers.
 */
module AlarmTheorems {
  import opened SequenceNumbers
  import opened AlarmEndpoint
  import opened AlarmEndpointRuns
  import opened AlarmLink
  import opened AlarmLinkInv
  import opened AlarmLinkArrive
  import opened AlarmWire

  /** The link after `actions`, counted from the activation of both ends. */
  function WireRun(low: bool, retriesX: nat, retriesY: nat, actions: seq<Action>): Link {
    LinkRun(Wire15, Connected(Wire15, low, retriesX, retriesY), actions)
  }

  /** What has arrived of what was sent: all of it in order, except perhaps the latest one. */
  predicate Delivered<T(==)>(received: seq<T>, sent: seq<T>) {
    received <= sent && |sent| <= |received| + 1
  }

  lemma DeliveredFromX(l: Link)
    requires LinkInv(l)
    ensures Delivered(l.y.accepted, l.x.requests)
    ensures Delivered(Indications(l.y.events), Alarms(l.x.requests))
    ensures Delivered(Confirmations(l.y.events), Acks(l.x.requests))
  {
    Counts(l);
    FlipInv(l);
    Counts(Flip(l));
    BodiesPrefix(l.x.requests, |l.y.accepted|);
  }

  /** Whatever is lost or duplicated, and with alarms from both ends: the DATA frames accepted at
      one end are those sent at the other, in order, each exactly once, and the sender is ahead by
      at most one.  The same holds for the alarms told to the user, and for the acks of the peer's
      user told to the user who raised the alarm. */
  lemma ExactlyOnceInOrder(low: bool, retriesX: nat, retriesY: nat, actions: seq<Action>)
    ensures var l := WireRun(low, retriesX, retriesY, actions);
            && Delivered(l.y.accepted, l.x.requests) && Delivered(l.x.accepted, l.y.requests)
            && Delivered(Indications(l.y.events), Alarms(l.x.requests))
            && Delivered(Indications(l.x.events), Alarms(l.y.requests))
            && Delivered(Confirmations(l.x.events), Acks(l.y.requests))
            && Delivered(Confirmations(l.y.events), Acks(l.x.requests))
  {
    WireCountersRefineUnbounded(low, retriesX, retriesY, actions);
    var r := LinkRun(Unbounded, Connected(Unbounded, low, retriesX, retriesY), actions);
    DeliveredFromX(r);
    FlipInv(r);
    DeliveredFromX(Flip(r));
  }

  /** A NACK is never sent, and the connection is never aborted for a protocol violation, an
      unexpected content or a stuck APMR, even if every pure TACK is lost. */
  lemma NeverRefused(low: bool, retriesX: nat, retriesY: nat, actions: seq<Action>, f: Frame, ev: Event)
    ensures var l := WireRun(low, retriesX, retriesY, actions);
            && (f in l.xy || f in l.yx ==> f.pdu in {PduData, PduAck, PduErr} && f.version == 1)
            && (ev in l.x.events || ev in l.y.events ==> ev != SequenceError && HarmlessAbort(ev))
            && (l.x.apms != ApmsClosed ==> l.x.apmr == ApmrOpen)
            && (l.y.apms != ApmsClosed ==> l.y.apmr == ApmrOpen)
  {
    WireCountersRefineUnbounded(low, retriesX, retriesY, actions);
    var r := LinkRun(Unbounded, Connected(Unbounded, low, retriesX, retriesY), actions);
    var l := WireRun(low, retriesX, retriesY, actions);
    if f in l.xy {
      var i :| 0 <= i < |l.xy| && l.xy[i] == f;
      assert FrameOk(r.x, r.y, r.xy[i]);
    }
    if f in l.yx {
      var i :| 0 <= i < |l.yx| && l.yx[i] == f;
      assert FrameOk(r.y, r.x, r.yx[i]);
    }
  }

  /** The run as the other end sees it. */
  lemma WireRunFlips(low: bool, retriesX: nat, retriesY: nat, actions: seq<Action>)
    ensures WireRun(low, retriesY, retriesX, Swapped(actions)) == Flip(WireRun(low, retriesX, retriesY, actions))
  {
    RunFlips(Wire15, Connected(Wire15, low, retriesX, retriesY), actions);
    assert Flip(Connected(Wire15, low, retriesX, retriesY)) == Connected(Wire15, low, retriesY, retriesX);
  }

  /** Alarms handed to the transport and not yet acked. */
  function Outstanding(e: Endpoint): int {
    |Alarms(e.requests)| - |Confirmations(e.events)|
  }

  predicate OneOutstanding(e: Endpoint) {
    0 <= Outstanding(e) <= 1 && (e.apms != ApmsClosed ==> (Outstanding(e) == 1 <==> e.alpmi == AlpmiAck))
  }

  lemma OneOutstandingX(l: Link)
    requires LinkInv(l)
    ensures OneOutstanding(l.x)
  {
    Counts(l);
    hide Inv, Direction, Alarms, Confirmations;
  }

  lemma OutstandingOnTheWire(e: Endpoint)
    ensures OneOutstanding(WireEnd(e)) == OneOutstanding(e)
  {
    hide Alarms, Confirmations;
  }

  /** At each end, alarms handed to the transport minus acks told to the user is 0 or 1, and ALPMI
      waits exactly if it is 1. */
  lemma OneAlarmOutstanding(low: bool, retriesX: nat, retriesY: nat, actions: seq<Action>)
    ensures var l := WireRun(low, retriesX, retriesY, actions); OneOutstanding(l.x) && OneOutstanding(l.y)
  {
    WireCountersRefineUnbounded(low, retriesX, retriesY, actions);
    var r := LinkRun(Unbounded, Connected(Unbounded, low, retriesX, retriesY), actions);
    OneOutstandingX(r);
    FlipInv(r);
    OneOutstandingX(Flip(r));
    OutstandingOnTheWire(r.x);
    OutstandingOnTheWire(r.y);
    hide LinkInv, LinkRun, OneOutstanding, WireEnd;
  }
}
