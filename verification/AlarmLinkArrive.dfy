/**
 The arrival of a frame keeps `LinkInv`; with the local inputs this covers every action, so
 the invariant holds after every run.
 */
module AlarmLinkArrive {
  import opened SequenceNumbers
  import opened AlarmEndpoint
  import opened AlarmEndpointRuns
  import opened AlarmLink
  import opened AlarmLinkInv
  import opened Wrappers

  /** `f` is the next frame to arrive at X, with `rest` behind it. */
  predicate Due(l: Link, f: Frame, rest: seq<Frame>) {
    LinkInv(l) && l.yx == [f] + rest && l.x.apms != ApmsClosed
  }

  lemma NextFacts(l: Link, f: Frame, rest: seq<Frame>)
    requires Due(l, f, rest)
    ensures FrameOk(l.y, l.x, f) && Direction(l.y, l.x, rest)
    ensures forall i :: 0 <= i < |rest| ==> InOrder(f, rest[i])
    ensures f.pdu == PduData ==> BuiltOk(l.y, l.x, f.sendSeq)
    ensures f.pdu in {PduData, PduAck} ==> f.ackSeq < |l.y.accepted|
  {
    assert l.yx[0] == f;
    assert rest == Without(l.yx, 0);
    WithoutKeeps(l.y, l.x, l.yx, 0);
    forall i | 0 <= i < |rest| ensures InOrder(f, rest[i]) {
      assert rest[i] == l.yx[i + 1];
    }
  }

  // ---------------------------------------------------------------- the ack number

  lemma TackEndOk(e: Endpoint, f: Frame)
    requires EndOk(e)
    ensures var r := ApmsDataInd(Unbounded, e, f);
            && EndOk(r) && r.requests == e.requests && r.built == e.built && r.accepted == e.accepted
            && r.apmr == e.apmr && r.alpmi == e.alpmi && (e.apms != ApmsClosed ==> r.apms != ApmsClosed)
            && r.confirms == e.confirms + (if Confirms(e, f) then 1 else 0)
  {
    if Confirms(e, f) {
      ConfirmedEndOk(e, f);
    }
  }

  lemma ConfirmedEndOk(e: Endpoint, f: Frame)
    requires EndOk(e) && Confirms(e, f)
    ensures var r := ApmsDataInd(Unbounded, e, f);
            && EndOk(r) && r.requests == e.requests && r.built == e.built && r.accepted == e.accepted
            && r.apmr == e.apmr && r.alpmi == e.alpmi && r.apms != ApmsClosed && r.confirms == e.confirms + 1
  {
    ApmsDataIndKeepsInv(Unbounded, e, f);
    EventsSnoc(e.events, AckCnf(e.confirms));
    hide Inv, Alarms, Acks, Indications, Confirmations;
  }

  lemma TackOut(x: Endpoint, x': Endpoint, y: Endpoint, ch: seq<Frame>)
    requires Direction(x, y, ch) && x.apms != ApmsClosed
    requires x'.requests == x.requests && x'.built == x.built && x'.accepted == x.accepted
    requires x'.confirms <= |y.accepted|
    ensures Direction(x', y, ch)
  {
    forall k | 0 <= k < |x.built| ensures BuiltOk(x', y, k) { assert BuiltOk(x, y, k); }
    forall i | 0 <= i < |ch| ensures FrameOk(x', y, ch[i]) { assert FrameOk(x, y, ch[i]); }
  }

  lemma TackIn(x: Endpoint, x': Endpoint, y: Endpoint, ch: seq<Frame>)
    requires Direction(y, x, ch)
    requires x'.requests == x.requests && x'.built == x.built && x'.accepted == x.accepted
    requires forall i :: 0 <= i < |ch| && ch[i].pdu == PduAck ==> x'.confirms - 1 <= ch[i].ackSeq
    ensures Direction(y, x', ch)
  {
    forall k | 0 <= k < |y.built| ensures BuiltOk(y, x', k) { assert BuiltOk(y, x, k); }
    forall i | 0 <= i < |ch| ensures FrameOk(y, x', ch[i]) { assert FrameOk(y, x, ch[i]); }
  }

  /** Taking a frame's ack number into account: an own frame is confirmed only if Y has accepted it. */
  lemma TackAtX(l: Link, f: Frame, rest: seq<Frame>)
    requires Due(l, f, rest) && f.pdu in {PduData, PduAck}
    ensures var x := ApmsDataInd(Unbounded, l.x, f);
            EndOk(x) && Direction(x, l.y, l.xy) && Direction(l.y, x, rest)
  {
    NextFacts(l, f, rest);
    TackEndOk(l.x, f);
    var x := ApmsDataInd(Unbounded, l.x, f);
    TackOut(l.x, x, l.y, l.xy);
    forall i | 0 <= i < |rest| && rest[i].pdu == PduAck ensures x.confirms - 1 <= rest[i].ackSeq {
      assert InOrder(f, rest[i]);
      assert FrameOk(l.y, l.x, rest[i]);
    }
    TackIn(l.x, x, l.y, rest);
  }

  // ---------------------------------------------------------------- duplicates and new frames

  /** An ack with the latest accepted number joins the channel. */
  lemma AckFrameKeeps(x: Endpoint, y: Endpoint, xy: seq<Frame>, yx: seq<Frame>)
    requires Inv(Unbounded, x) && Direction(x, y, xy) && Direction(y, x, yx)
    ensures Direction(x, y, xy + [ControlFrame(x, PduAck)])
  {
    var f := ControlFrame(x, PduAck);
    LatestInOrder(x, y, xy, f);
    AppendKeeps(x, y, xy, f);
  }

  lemma Assemble(l: Link, x: Endpoint, xy: seq<Frame>, yx: seq<Frame>)
    requires LinkInv(l) && EndOk(x) && Direction(x, l.y, xy) && Direction(l.y, x, yx)
    ensures Kept(l, Link(x, l.y, xy, yx))
  {
  }

  lemma DuplicateAtX(l: Link, f: Frame, rest: seq<Frame>)
    requires Due(l, f, rest) && f.pdu == PduData && f.sendSeq == |l.x.accepted| - 1
    ensures Kept(l, AtX(Unbounded, l.(yx := rest), Deliver(f)))
  {
    TackAtX(l, f, rest);
    NextFacts(l, f, rest);
    TackEndOk(l.x, f);
    var x := ApmsDataInd(Unbounded, l.x, f);
    AckFrameKeeps(x, l.y, l.xy, rest);
    DuplicateShape(l.x, f);
    Assemble(l, x, l.xy + [ControlFrame(x, PduAck)], rest);
  }

  lemma DuplicateShape(e: Endpoint, f: Frame)
    requires EndOk(e) && e.apms != ApmsClosed && f.version == 1 && f.pdu == PduData && f.tack
    requires f.sendSeq == |e.accepted| - 1
    ensures var x := ApmsDataInd(Unbounded, e, f);
            && Step(Unbounded, e, Deliver(f), AllOk) == x.(out := [ControlFrame(x, PduAck)])
            && x.out == []
  {
    TackEndOk(e, f);
  }

  /** Both directions after frame `f` has been counted as accepted. */
  lemma CountedDirections(x: Endpoint, y: Endpoint, xy: seq<Frame>, yx: seq<Frame>, f: Frame)
    requires Inv(Unbounded, x) && Inv(Unbounded, y) && Direction(x, y, xy) && Direction(y, x, yx)
    requires |x.accepted| < |y.built| && f == y.built[|x.accepted|]
    requires forall i :: 0 <= i < |yx| ==> InOrder(f, yx[i])
    ensures var x' := Counting(Unbounded, x, f);
            Direction(x', y, xy) && Direction(y, x', yx)
  {
    var x' := Counting(Unbounded, x, f);
    assert f.pdu == PduData && f.sendSeq == |x.accepted| && f.body == y.requests[|x.accepted|];
    CountedOut(x, x', y, xy);
    assert x'.accepted == y.requests[..|x'.accepted|];
    CountedIn(x, x', y, yx, f);
  }

  lemma CountedOut(x: Endpoint, x': Endpoint, y: Endpoint, ch: seq<Frame>)
    requires Direction(x, y, ch)
    requires x'.requests == x.requests && x'.built == x.built && x'.confirms == x.confirms && x'.apms == x.apms
    requires |x.accepted| <= |x'.accepted|
    ensures Direction(x', y, ch)
  {
    forall k | 0 <= k < |x.built| ensures BuiltOk(x', y, k) { assert BuiltOk(x, y, k); }
    forall i | 0 <= i < |ch| ensures FrameOk(x', y, ch[i]) { assert FrameOk(x, y, ch[i]); }
  }

  lemma CountedIn(x: Endpoint, x': Endpoint, y: Endpoint, ch: seq<Frame>, f: Frame)
    requires Direction(y, x, ch)
    requires x'.requests == x.requests && x'.confirms == x.confirms
    requires |x'.accepted| == |x.accepted| + 1 <= |y.requests| && x'.accepted == y.requests[..|x'.accepted|]
    requires f.pdu == PduData && f.sendSeq == |x.accepted|
    requires forall i :: 0 <= i < |ch| ==> InOrder(f, ch[i])
    ensures Direction(y, x', ch)
  {
    forall k | 0 <= k < |y.built| ensures BuiltOk(y, x', k) { assert BuiltOk(y, x, k); }
    forall i | 0 <= i < |ch| ensures FrameOk(y, x', ch[i]) {
      assert FrameOk(y, x, ch[i]) && InOrder(f, ch[i]);
    }
  }

  lemma AckIndicated(e: Endpoint, f: Frame)
    requires EndOk(e) && e.apms != ApmsClosed && f.sendSeq == e.expSeq && f.body.AlarmAck? && e.alpmi == AlpmiAck
    ensures var r := Indicate(Counting(Unbounded, e, f), f.body, AllOk).0;
            EndOk(r) && SameTransport(Counting(Unbounded, e, f), r)
  {
    CountingKeepsInv(Unbounded, e, f);
    IndicateKeepsInv(Unbounded, Counting(Unbounded, e, f), f.body, AllOk);
    BodiesSnoc(e.accepted, f.body);
    ToldMore(e, f.body, AlarmCnf(f.body.status));
    hide Inv, Alarms, Acks, Indications, Confirmations, Told;
  }

  lemma AlarmIndicated(e: Endpoint, f: Frame)
    requires EndOk(e) && e.apms != ApmsClosed && f.sendSeq == e.expSeq && f.body.Notification? && e.alpmr == AlpmrNotify
    ensures var r := Indicate(Counting(Unbounded, e, f), f.body, AllOk).0;
            EndOk(r) && SameTransport(Counting(Unbounded, e, f), r)
  {
    CountingKeepsInv(Unbounded, e, f);
    IndicateKeepsInv(Unbounded, Counting(Unbounded, e, f), f.body, AllOk);
    BodiesSnoc(e.accepted, f.body);
    ToldMore(e, f.body, AlarmInd(f.body.arg));
    hide Inv, Alarms, Acks, Indications, Confirmations, Told;
  }

  /** The end after Indicate, when ALPMI waits for the ack or ALPMR is ready for the alarm. */
  lemma IndicatedEndOk(e: Endpoint, f: Frame)
    requires EndOk(e) && e.apms != ApmsClosed && f.sendSeq == e.expSeq
    requires (f.body.AlarmAck? && e.alpmi == AlpmiAck) || (f.body.Notification? && e.alpmr == AlpmrNotify)
    ensures var r := Indicate(Counting(Unbounded, e, f), f.body, AllOk).0;
            EndOk(r) && SameTransport(Counting(Unbounded, e, f), r)
  {
    hide EndOk, Indicate, SameTransport;
    if f.body.AlarmAck? { AckIndicated(e, f); } else { AlarmIndicated(e, f); }
  }

  /** The user is told what has just been accepted. */
  lemma ToldMore(e: Endpoint, body: Body, ev: Event)
    requires Told(e)
    requires (body.AlarmAck? && ev == AlarmCnf(body.status)) || (body.Notification? && ev == AlarmInd(body.arg))
    ensures forall r: Endpoint :: r.accepted == e.accepted + [body] && r.events == e.events + [ev] ==> Told(r)
  {
    BodiesSnoc(e.accepted, body);
    EventsSnoc(e.events, ev);
    hide Alarms, Acks, Indications, Confirmations;
  }

  lemma ExpectedShape(e: Endpoint, f: Frame)
    requires EndOk(e) && e.apms != ApmsClosed && f.version == 1 && f.pdu == PduData && f.tack
    requires f.sendSeq == |e.accepted| && (f.body.AlarmAck? || f.body.Notification?)
    requires f.body.Notification? ==> ApmsDataInd(Unbounded, e, f).alpmr == AlpmrNotify
    ensures var x := Counting(Unbounded, ApmsDataInd(Unbounded, e, f), f);
            && x.attached
            && Step(Unbounded, e, Deliver(f), AllOk)
               == Indicate(x, f.body, AllOk).0.(out := [ControlFrame(x, PduAck)])
  {
    TackEndOk(e, f);
    AcceptShape(e, f);
    var x := Counting(Unbounded, ApmsDataInd(Unbounded, e, f), f);
    IndicateShape(x, f.body, [ControlFrame(x, PduAck)]);
  }

  lemma AcceptShape(e: Endpoint, f: Frame)
    requires EndOk(e)
    ensures var x := Counting(Unbounded, ApmsDataInd(Unbounded, e, f), f);
            Accept(Unbounded, e, f, AllOk) == (x.(out := [ControlFrame(x, PduAck)]), true)
  {
    TackEndOk(e, f);
    var x := Counting(Unbounded, ApmsDataInd(Unbounded, e, f), f);
    assert x.out + [ControlFrame(x, PduAck)] == [ControlFrame(x, PduAck)];
  }

  lemma IndicateShape(e: Endpoint, body: Body, out: seq<Frame>)
    requires e.attached && (body.AlarmAck? || (body.Notification? && e.alpmr == AlpmrNotify))
    ensures Indicate(e.(out := out), body, AllOk).0 == Indicate(e, body, AllOk).0.(out := out)
  {
  }

  lemma AcceptAtX(l: Link, f: Frame, rest: seq<Frame>)
    requires Due(l, f, rest) && f.pdu == PduData && f.sendSeq == |l.x.accepted|
    requires f.body.Notification? ==> ApmsDataInd(Unbounded, l.x, f).alpmr == AlpmrNotify
    requires f.body.AlarmAck? ==> l.x.alpmi == AlpmiAck
    ensures Kept(l, AtX(Unbounded, l.(yx := rest), Deliver(f)))
  {
    TackAtX(l, f, rest);
    NextFacts(l, f, rest);
    TackEndOk(l.x, f);
    var x1 := ApmsDataInd(Unbounded, l.x, f);
    var x2 := Counting(Unbounded, x1, f);
    assert f.body.AlarmAck? || f.body.Notification?;
    CountedDirections(x1, l.y, l.xy, rest, f);
    IndicatedEndOk(x1, f);
    assert Inv(Unbounded, x2) by { CountingKeepsInv(Unbounded, x1, f); }
    var ack := ControlFrame(x2, PduAck);
    AckFrameKeeps(x2, l.y, l.xy, rest);
    var x3 := Indicate(x2, f.body, AllOk).0;
    SameTransportKeeps(x2, x3, l.y, l.xy + [ack], rest);
    ExpectedShape(l.x, f);
    Assemble(l, x3, l.xy + [ack], rest);
  }

  // ---------------------------------------------------------------- nothing the protocol rules out

  /** An alarm is only sent after X's acks of all earlier ones, and says so in the frame. */
  lemma AlarmKnowsAcks(l: Link, f: Frame, rest: seq<Frame>)
    requires Due(l, f, rest) && f.pdu == PduData && f.sendSeq == |l.x.accepted| && f.body.Notification?
    ensures 0 <= f.ackSeq + 1 <= |l.x.requests|
    ensures |Alarms(l.x.accepted)| <= |Acks(l.x.requests[..f.ackSeq + 1])|
  {
    NextFacts(l, f, rest);
    var x, y, k := l.x, l.y, f.sendSeq;
    assert y.requests[k] == f.body && f == y.built[k];
    hide EndOk, FramesOk, Ordered, Alarms, Acks;
    assert x.accepted == y.requests[..k];
  }

  lemma ReadyForAlarm(x: Endpoint, f: Frame)
    requires EndOk(x) && x.apms != ApmsClosed && f.pdu == PduData && 0 <= f.ackSeq + 1 <= |x.requests|
    requires |Alarms(x.accepted)| <= |Acks(x.requests[..f.ackSeq + 1])|
    ensures ApmsDataInd(Unbounded, x, f).alpmr == AlpmrNotify
  {
    hide Told, Cycle, Alarms, Acks, ApmsDataInd;
    BodiesPrefix(x.requests, f.ackSeq + 1);
    assert x.alpmr != AlpmrUserAck;
    if x.alpmr == AlpmrTack {
      TackPending(x);
      AllAcksMeansAll(x.requests, f.ackSeq + 1);
      TackConfirmed(x, f);
    } else {
      NotifyStays(x, f);
    }
  }

  /** When a new alarm arrives, ALPMR is idle, at the latest after this frame's own ack number. */
  lemma NotifyReady(l: Link, f: Frame, rest: seq<Frame>)
    requires Due(l, f, rest) && f.pdu == PduData && f.sendSeq == |l.x.accepted| && f.body.Notification?
    ensures ApmsDataInd(Unbounded, l.x, f).alpmr == AlpmrNotify
  {
    AlarmKnowsAcks(l, f, rest);
    ReadyForAlarm(l.x, f);
  }

  lemma TackPending(x: Endpoint)
    requires Inv(Unbounded, x) && x.alpmr == AlpmrTack && x.apms != ApmsClosed
    ensures |x.requests| > 0 && x.requests[|x.requests| - 1].AlarmAck?
    ensures x.apms == ApmsWtack && x.sendSeq == |x.requests| - 1
  {
  }

  lemma TackConfirmed(x: Endpoint, f: Frame)
    requires Inv(Unbounded, x) && x.alpmr == AlpmrTack && x.apms != ApmsClosed
    requires f.pdu == PduData && f.ackSeq == |x.requests| - 1
    ensures ApmsDataInd(Unbounded, x, f).alpmr == AlpmrNotify
  {
    TackPending(x);
  }

  lemma NotifyStays(x: Endpoint, f: Frame)
    requires x.alpmr == AlpmrNotify
    ensures ApmsDataInd(Unbounded, x, f).alpmr == AlpmrNotify
  {
  }

  /** When a user ack arrives, ALPMI is waiting for it. */
  lemma AckAwaited(l: Link, f: Frame, rest: seq<Frame>)
    requires Due(l, f, rest) && f.pdu == PduData && f.sendSeq == |l.x.accepted| && f.body.AlarmAck?
    ensures l.x.alpmi == AlpmiAck
  {
    AckCounted(l, f, rest);
    Counts(l);
    hide Inv, Direction, Told, Alarms, Acks;
  }

  lemma DataIsRequest(e: Endpoint, f: Frame)
    requires EndOk(e) && 0 <= f.sendSeq < |e.built| && f == e.built[f.sendSeq]
    ensures f.sendSeq < |e.requests| && e.requests[f.sendSeq] == f.body
  {
  }

  /** With the ack that arrives, Y has sent one more than X has accepted. */
  lemma AckCounted(l: Link, f: Frame, rest: seq<Frame>)
    requires Due(l, f, rest) && f.pdu == PduData && f.sendSeq == |l.x.accepted| && f.body.AlarmAck?
    ensures |Acks(l.x.accepted)| < |Acks(l.y.requests)|
  {
    hide EndOk, FramesOk, Ordered, BuiltOk, Alarms, Acks;
    BothEndsOk(l);
    NextFacts(l, f, rest);
    DataIsRequest(l.y, f);
    var x, y, k := l.x, l.y, f.sendSeq;
    assert y.requests[..k + 1] == x.accepted + [f.body];
    BodiesSnoc(x.accepted, f.body);
    BodiesPrefix(y.requests, k + 1);
  }

  lemma DataAtX(l: Link, f: Frame, rest: seq<Frame>)
    requires Due(l, f, rest) && f.pdu == PduData
    ensures Kept(l, AtX(Unbounded, l.(yx := rest), Deliver(f)))
  {
    NextFacts(l, f, rest);
    if f.sendSeq == |l.x.accepted| {
      if f.body.Notification? { NotifyReady(l, f, rest); } else { AckAwaited(l, f, rest); }
      AcceptAtX(l, f, rest);
    } else {
      assert f.sendSeq == |l.x.accepted| - 1;
      DuplicateAtX(l, f, rest);
    }
  }

  lemma PureAckAtX(l: Link, f: Frame, rest: seq<Frame>)
    requires Due(l, f, rest) && f.pdu == PduAck
    ensures Kept(l, AtX(Unbounded, l.(yx := rest), Deliver(f)))
  {
    NextFacts(l, f, rest);
    TackAtX(l, f, rest);
    TackEndOk(l.x, f);
    var x := ApmsDataInd(Unbounded, l.x, f);
    assert Step(Unbounded, l.x, Deliver(f), AllOk) == x && x.(out := []) == x;
    assert l.xy + [] == l.xy;
    Assemble(l, x, l.xy, rest);
  }

  /** A close alarm ends the connection at this end too. */
  lemma CloseAlarmAtX(l: Link, f: Frame, rest: seq<Frame>)
    requires Due(l, f, rest) && f.pdu == PduErr
    ensures Kept(l, AtX(Unbounded, l.(yx := rest), Deliver(f)))
  {
    NextFacts(l, f, rest);
    var reason := if f.body.ErrStatus? then PeerError(f.body.errCls, f.body.errCode) else PeerError(0, 0);
    var l' := l.(yx := rest);
    ErrorKeepsInv(Unbounded, l.x, reason, AllOk);
    ErrorAtX(l', l.x, reason);
  }

  lemma ArriveAtX(l: Link)
    requires LinkInv(l)
    ensures Kept(l, ActX(Unbounded, l, Arrive(X)))
  {
    if l.yx != [] {
      var f, rest := l.yx[0], l.yx[1..];
      assert l.yx == [f] + rest;
      if l.x.apms == ApmsClosed {
        assert rest == Without(l.yx, 0);
        WithoutKeeps(l.y, l.x, l.yx, 0);
        var l' := l.(yx := rest);
        assert LinkInv(l');
        NothingAtX(l');
      } else {
        assert FrameOk(l.y, l.x, l.yx[0]);
        match f.pdu
        case PduData => DataAtX(l, f, rest);
        case PduAck => PureAckAtX(l, f, rest);
        case PduErr => CloseAlarmAtX(l, f, rest);
      }
    }
  }

  lemma ActXKeepsInv(l: Link, a: Action)
    requires LinkInv(l)
    ensures Kept(l, ActX(Unbounded, l, a))
  {
    match a
    case Local(_, input) =>
      match input {
        case Deliver(_) =>
        case TimerFires => TimerAtX(l);
        case Ack(arg, status) => AckAtX(l, arg, status);
        case Send(alarm) => SendAtX(l, alarm);
        case CloseReq(code) => CloseReqAtX(l, code);
      }
    case Arrive(_) =>
      ArriveAtX(l);
      assert ActX(Unbounded, l, a) == ActX(Unbounded, l, Arrive(X));
    case Lose(_, i) => WithoutKeeps(l.y, l.x, l.yx, i);
    case Duplicate(_, i) => TwiceKeeps(l.y, l.x, l.yx, i);
  }

  lemma ActKeepsInv(l: Link, a: Action)
    requires LinkInv(l)
    ensures LinkInv(Act(Unbounded, l, a))
  {
    if a.side == X {
      ActXKeepsInv(l, a);
    } else {
      FlipInv(l);
      ActXKeepsInv(Flip(l), a);
      FlipInv(ActX(Unbounded, Flip(l), a));
    }
  }

  /** Every run of a link, with any loss and duplication and with alarms from both ends, keeps the invariant. */
  lemma {:induction false} LinkRunInv(l: Link, actions: seq<Action>)
    requires LinkInv(l)
    ensures LinkInv(LinkRun(Unbounded, l, actions))
    decreases |actions|
  {
    if actions != [] {
      ActKeepsInv(l, actions[0]);
      LinkRunInv(Act(Unbounded, l, actions[0]), actions[1..]);
    }
  }
}
