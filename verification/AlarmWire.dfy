/**
 The 15-bit counters on the wire do the work of unbounded ones: on a link, a run with wire
 numbers is, state by state, the run with unbounded numbers seen through `WireOf`.
 */
module AlarmWire {
  import opened SequenceNumbers
  import opened AlarmEndpoint
  import opened AlarmEndpointRuns
  import opened AlarmLink
  import opened AlarmLinkArrive
  import opened Wrappers

  function WireFrame(f: Frame): Frame {
    f.(sendSeq := WireOf(f.sendSeq), ackSeq := WireOf(f.ackSeq))
  }

  function WireFrames(s: seq<Frame>): (r: seq<Frame>)
    ensures |r| == |s|
  {
    seq(|s|, i requires 0 <= i < |s| => WireFrame(s[i]))
  }

  function WireNumbers(s: seq<int>): (r: seq<int>)
    ensures |r| == |s|
  {
    seq(|s|, i requires 0 <= i < |s| => WireOf(s[i]))
  }

  function WireRta(o: Option<Frame>): Option<Frame> {
    match o
    case None => None
    case Some(f) => Some(WireFrame(f))
  }

  /** An endpoint that counts in unbounded numbers, as it looks with wire numbers. */
  function WireEnd(e: Endpoint): Endpoint {
    e.(sendSeq := WireOf(e.sendSeq), sendSeqO := WireOf(e.sendSeqO),
       expSeq := WireOf(e.expSeq), expSeqO := WireOf(e.expSeqO),
       rta := WireRta(e.rta), out := WireFrames(e.out), built := WireFrames(e.built),
       acceptedSeq := WireNumbers(e.acceptedSeq))
  }

  function WireLink(l: Link): Link {
    Link(WireEnd(l.x), WireEnd(l.y), WireFrames(l.xy), WireFrames(l.yx))
  }

  function WireInput(i: Input): Input {
    if i.Deliver? then Deliver(WireFrame(i.f)) else i
  }

  lemma WireFramesAppend(s: seq<Frame>, t: seq<Frame>)
    ensures WireFrames(s + t) == WireFrames(s) + WireFrames(t)
  {
  }

  lemma WireSnoc(s: seq<Frame>, f: Frame)
    ensures WireFrames(s + [f]) == WireFrames(s) + [WireFrame(f)]
  {
  }

  lemma WireEndInv(e: Endpoint)
    requires Inv(Unbounded, e)
    ensures Inv(Wire15, WireEnd(e))
  {
  }

  lemma WireLinkInv(l: Link)
    requires LinkInv(l)
    ensures EndsInv(Unbounded, l) && EndsInv(Wire15, WireLink(l))
  {
    WireEndInv(l.x);
    WireEndInv(l.y);
    hide Inv;
  }

  // ---------------------------------------------------------------- operation by operation

  lemma TransmitWire(e: Endpoint, f: Frame, alloc: bool, send: bool)
    ensures Transmit(WireEnd(e), WireFrame(f), alloc, send).0 == WireEnd(Transmit(e, f, alloc, send).0)
    ensures Transmit(WireEnd(e), WireFrame(f), alloc, send).1 == Transmit(e, f, alloc, send).1
  {
    WireSnoc(e.out, f);
  }

  lemma CloseWire(e: Endpoint, code: nat, bye: bool)
    ensures Close(WireEnd(e), code, bye) == WireEnd(Close(e, code, bye))
  {
    var e1 := e.(alpmi := AlpmiStart, alpmr := AlpmrStart);
    TransmitWire(e1, CloseFrame(e1, code), true, bye);
  }

  lemma ErrorWire(e: Endpoint, reason: AbortReason, io: LocalIo)
    requires e.attached
    ensures ErrorInd(WireEnd(e), reason, io) == WireEnd(ErrorInd(e, reason, io))
  {
    CloseWire(e.(events := e.events + [Aborted(reason)]), ErrCode(reason), io.bye);
  }

  lemma RequestWire(e: Endpoint, body: Body, io: LocalIo)
    requires e.attached
    ensures Request(WireEnd(e), body, io).0 == WireEnd(Request(e, body, io).0)
    ensures Request(WireEnd(e), body, io).1 == Request(e, body, io).1
  {
    if e.apms == ApmsOpen {
      var f := DataFrame(e, body);
      var e1 := e.(resend := e.retries, requests := e.requests + [body], built := e.built + [f], tx := e.tx + [0]);
      WireSnoc(e.built, f);
      assert WireEnd(e1).built == WireEnd(e).built + [WireFrame(f)];
      TransmitWire(e1, f, io.alloc, io.send);
    } else {
      ErrorWire(e, AlpmiInvalid, io);
    }
  }

  lemma TimeoutWire(e: Endpoint, io: LocalIo)
    requires e.apms == ApmsWtack ==> e.attached
    ensures Timeout(WireEnd(e), io) == WireEnd(Timeout(e, io))
  {
    if e.apms == ApmsWtack && e.rta.Some? {
      if e.resend > 0 {
        WireSnoc(e.out, e.rta.value);
      } else {
        ErrorWire(e.(apms := ApmsOpen), SendNotConfirmed, io);
      }
    }
  }

  lemma UserAckWire(e: Endpoint, arg: AlarmArg, status: PnioStatus, io: LocalIo)
    requires e.alpmr == AlpmrUserAck ==> e.attached
    ensures UserAck(WireEnd(e), arg, status, io).0 == WireEnd(UserAck(e, arg, status, io).0)
  {
    hide WireFrames, WireNumbers, WireRta, WireOf, Request;
    if e.alpmr == AlpmrUserAck {
      RequestWire(AckStarted(e), AlarmAck(arg, status), io);
      assert AckStarted(WireEnd(e)) == WireEnd(AckStarted(e));
    }
  }

  lemma SendWire(e: Endpoint, alarm: Alarm, io: LocalIo)
    requires e.attached && e.alpmi == AlpmiAlarm
    ensures SendAlarm(WireEnd(e), alarm, io).0 == WireEnd(SendAlarm(e, alarm, io).0)
  {
    RequestWire(SendStarted(e), Notification(AlarmArg(alarm, e.alarmSeq)), io);
    SendShape(e, alarm, io);
    SendShape(WireEnd(e), alarm, io);
    assert SendStarted(WireEnd(e)) == WireEnd(SendStarted(e));
  }

  // ---------------------------------------------------------------- arriving frames

  /** The numbers of an arriving frame lie in the window around the receiver's counters. */
  predicate InWindow(e: Endpoint, f: Frame) {
    && (f.pdu in {PduAck, PduData} && e.apms == ApmsWtack ==>
          -1 <= f.ackSeq && -0x8000 < f.ackSeq - e.sendSeq < 0x8000)
    && (f.pdu == PduData ==> -1 <= f.sendSeq && -0x7fff < f.sendSeq - e.expSeq < 0x7fff)
  }

  lemma TackWire(e: Endpoint, f: Frame)
    requires Inv(Unbounded, e) && InWindow(e, f)
    ensures ApmsDataInd(Wire15, WireEnd(e), WireFrame(f)) == WireEnd(ApmsDataInd(Unbounded, e, f))
  {
    if f.pdu in {PduAck, PduData} && e.apms == ApmsWtack {
      WireOfInjective(f.ackSeq, e.sendSeq);
      NumberStep(Wire15, e.confirms);
    }
  }

  lemma CountingWire(e: Endpoint, f: Frame)
    requires Inv(Unbounded, e)
    ensures Counting(Wire15, WireEnd(e), WireFrame(f)) == WireEnd(Counting(Unbounded, e, f))
  {
    NumberStep(Wire15, |e.accepted|);
    assert WireNumbers(e.acceptedSeq + [f.sendSeq]) == WireNumbers(e.acceptedSeq) + [WireOf(f.sendSeq)];
  }

  lemma AcceptWire(e: Endpoint, f: Frame, io: LocalIo)
    requires Inv(Unbounded, e) && InWindow(e, f)
    ensures Accept(Wire15, WireEnd(e), WireFrame(f), io).0 == WireEnd(Accept(Unbounded, e, f, io).0)
    ensures Accept(Wire15, WireEnd(e), WireFrame(f), io).1 == Accept(Unbounded, e, f, io).1
  {
    var e1 := ApmsDataInd(Unbounded, e, f);
    ApmsDataIndKeepsInv(Unbounded, e, f);
    TackWire(e, f);
    CountingWire(e1, f);
    var e2 := Counting(Unbounded, e1, f);
    TransmitWire(e2, ControlFrame(e2, PduAck), io.alloc, io.send);
    AcceptIsCounting(Unbounded, e, f, io);
    AcceptIsCounting(Wire15, WireEnd(e), WireFrame(f), io);
  }

  lemma AcceptIsCounting(m: Numbering, e: Endpoint, f: Frame, io: LocalIo)
    ensures var e2 := Counting(m, ApmsDataInd(m, e, f), f);
            Accept(m, e, f, io) == Transmit(e2, ControlFrame(e2, PduAck), io.alloc, io.send)
  {
  }

  lemma NotifyWire(e: Endpoint, arg: AlarmArg, io: LocalIo)
    requires e.alpmr in {AlpmrUserAck, AlpmrTack} ==> e.attached
    ensures AlpmrDataInd(WireEnd(e), arg, io).0 == WireEnd(AlpmrDataInd(e, arg, io).0)
    ensures AlpmrDataInd(WireEnd(e), arg, io).1 == AlpmrDataInd(e, arg, io).1
  {
    hide WireFrames, WireNumbers, WireOf, WireRta;
    if e.alpmr in {AlpmrUserAck, AlpmrTack} {
      ErrorWire(e, ProtocolViolation, io);
      hide ErrorInd, WireEnd;
    }
  }

  lemma IndicateWire(e: Endpoint, body: Body, io: LocalIo)
    requires e.attached
    ensures Indicate(WireEnd(e), body, io).0 == WireEnd(Indicate(e, body, io).0)
  {
    if body.Notification? {
      NotifyWire(e.(apmr := ApmrWcnf), body.arg, io);
      hide AlpmrDataInd;
    }
  }

  lemma ExpectedWire(e: Endpoint, f: Frame, io: LocalIo)
    requires Inv(Unbounded, e) && InWindow(e, f) && e.apmr == ApmrOpen && f.pdu == PduData && f.tack
    requires f.sendSeq == e.expSeq
    ensures ApmrDataInd(Wire15, WireEnd(e), WireFrame(f), io).0 == WireEnd(ApmrDataInd(Unbounded, e, f, io).0)
  {
    if f.body.AlarmAck? || f.body.Notification? || f.body.MalformedNotification? {
      KnownWire(e, f, io);
    } else {
      ErrorWire(e, AlarmIndError, io);
      hide Inv, InWindow, ErrorInd;
    }
  }

  lemma KnownWire(e: Endpoint, f: Frame, io: LocalIo)
    requires Inv(Unbounded, e) && InWindow(e, f) && e.apmr == ApmrOpen && f.pdu == PduData && f.tack
    requires f.sendSeq == e.expSeq && (f.body.AlarmAck? || f.body.Notification? || f.body.MalformedNotification?)
    ensures ApmrDataInd(Wire15, WireEnd(e), WireFrame(f), io).0 == WireEnd(ApmrDataInd(Unbounded, e, f, io).0)
  {
    AcceptWire(e, f, io);
    AcceptKeepsStates(Unbounded, e, f, io);
    hide CountersFit, StopAndWait, RetriesBounded, CycleFits, InWindow, Accept, Indicate, ErrorInd;
    var (e1, ok) := Accept(Unbounded, e, f, io);
    if ok {
      IndicateWire(e1, f.body, io);
    }
  }

  lemma NumberDecides(e: Endpoint, f: Frame)
    requires Inv(Unbounded, e) && InWindow(e, f) && f.pdu == PduData
    ensures WireOf(f.sendSeq) == WireOf(e.expSeq) <==> f.sendSeq == e.expSeq
    ensures WireOf(f.sendSeq) == WireOf(e.expSeqO) <==> f.sendSeq == e.expSeqO
  {
    WireOfInjective(f.sendSeq, e.expSeq);
    WireOfInjective(f.sendSeq, e.expSeqO);
  }

  lemma OtherDataWire(e: Endpoint, f: Frame, io: LocalIo)
    requires Inv(Unbounded, e) && InWindow(e, f) && e.apmr == ApmrOpen && f.pdu == PduData && f.tack
    requires f.sendSeq != e.expSeq
    ensures ApmrDataInd(Wire15, WireEnd(e), WireFrame(f), io).0 == WireEnd(ApmrDataInd(Unbounded, e, f, io).0)
  {
    NumberDecides(e, f);
    hide Inv, InWindow, WireOf, WireFrames, WireNumbers, WireRta, ApmsDataInd, Transmit;
    if f.sendSeq == e.expSeqO {
      TackWire(e, f);
      var e1 := ApmsDataInd(Unbounded, e, f);
      TransmitWire(e1, ControlFrame(e1, PduAck), io.alloc, io.send);
    } else {
      var e1 := e.(events := e.events + [SequenceError]);
      TransmitWire(e1, ControlFrame(e1, PduNack), io.alloc, io.send);
    }
  }

  lemma DeliverWire(e: Endpoint, f: Frame, io: LocalIo)
    requires Inv(Unbounded, e) && Inv(Wire15, WireEnd(e)) && InWindow(e, f)
    ensures Step(Wire15, WireEnd(e), Deliver(WireFrame(f)), io) == WireEnd(Step(Unbounded, e, Deliver(f), io))
  {
    hide WireFrames, WireNumbers, WireRta, WireOf, CountersFit, StopAndWait, RetriesBounded, CycleFits;
    hide ApmsDataInd, ErrorInd;
    if e.apmr != ApmrClosed && f.version == 1 {
      match f.pdu
      case PduAck => TackWire(e, f);
      case PduData =>
        if e.apmr == ApmrOpen && f.tack {
          if f.sendSeq == e.expSeq { ExpectedWire(e, f, io); } else { OtherDataWire(e, f, io); }
        }
      case PduErr =>
        var reason := if e.apmr != ApmrOpen then ApmrInvalidState
                      else if f.body.ErrStatus? then PeerError(f.body.errCls, f.body.errCode) else PeerError(0, 0);
        ErrorWire(e, reason, io);
      case _ =>
    }
  }

  lemma StepWire(e: Endpoint, input: Input, io: LocalIo)
    requires Inv(Unbounded, e) && Inv(Wire15, WireEnd(e)) && (input.Deliver? ==> InWindow(e, input.f))
    ensures Step(Wire15, WireEnd(e), WireInput(input), io) == WireEnd(Step(Unbounded, e, input, io))
  {
    match input
    case Deliver(f) => DeliverWire(e, f, io);
    case TimerFires => TimeoutWire(e, io);
    case Ack(arg, status) => UserAckWire(e, arg, status, io);
    case Send(alarm) => if e.alpmi == AlpmiAlarm { SendWire(e, alarm, io); }
    case CloseReq(code) => CloseWire(e, code, io.bye);
  }

  // ---------------------------------------------------------------- the link

  /** Stop-and-wait keeps everything in transit within a handful of numbers of the receiver's counters. */
  lemma ArrivalInWindow(l: Link)
    requires LinkInv(l) && l.yx != []
    ensures InWindow(l.x, l.yx[0])
  {
    var f := l.yx[0];
    assert FrameOk(l.y, l.x, f);
    if f.pdu == PduData { assert BuiltOk(l.y, l.x, f.sendSeq); }
    Counts(l);
  }

  lemma NothingOnTheWire()
    ensures WireFrames([]) == []
  {
  }

  lemma AtXWire(l: Link, input: Input)
    requires EndsInv(Unbounded, l) && EndsInv(Wire15, WireLink(l))
    requires input.Deliver? ==> InWindow(l.x, input.f)
    ensures AtX(Wire15, WireLink(l), WireInput(input)) == WireLink(AtX(Unbounded, l, input))
  {
    hide Inv, Step, InWindow, WireFrames, WireNumbers, WireRta, WireOf;
    StepWire(l.x, input, AllOk);
    WireFramesAppend(l.xy, Step(Unbounded, l.x, input, AllOk).out);
    NothingOnTheWire();
  }

  lemma ChannelWire(ch: seq<Frame>, i: nat)
    ensures WireFrames(Without(ch, i)) == Without(WireFrames(ch), i)
    ensures WireFrames(Twice(ch, i)) == Twice(WireFrames(ch), i)
  {
    if i < |ch| {
      WireFramesAppend(ch[..i], ch[i + 1..]);
      WireFramesAppend(ch[..i + 1], ch[i..]);
      assert forall k :: 0 <= k <= |ch| ==> WireFrames(ch[..k]) == WireFrames(ch)[..k];
      assert forall k :: 0 <= k <= |ch| ==> WireFrames(ch[k..]) == WireFrames(ch)[k..];
    }
  }

  lemma WireTail(ch: seq<Frame>)
    requires ch != []
    ensures WireFrames(ch)[1..] == WireFrames(ch[1..]) && WireFrames(ch)[0] == WireFrame(ch[0])
  {
  }

  /** An arrival takes the oldest frame off the channel. */
  lemma ArriveIsAtX(m: Numbering, l: Link)
    requires EndsInv(m, l) && l.yx != []
    ensures ActX(m, l, Arrive(X)) == AtX(m, l.(yx := l.yx[1..]), Deliver(l.yx[0]))
  {
  }

  lemma ArriveWire(l: Link)
    requires LinkInv(l) && l.yx != []
    ensures EndsInv(Unbounded, l) && EndsInv(Wire15, WireLink(l))
    ensures ActX(Wire15, WireLink(l), Arrive(X)) == WireLink(ActX(Unbounded, l, Arrive(X)))
  {
    WireLinkInv(l);
    ArrivalInWindow(l);
    WireTail(l.yx);
    ArriveIsAtX(Unbounded, l);
    ArriveIsAtX(Wire15, WireLink(l));
    hide LinkInv, Inv, Step, WireEnd, InWindow, WireFrames, AtX, ActX;
    var l' := l.(yx := l.yx[1..]);
    assert WireLink(l') == WireLink(l).(yx := WireLink(l).yx[1..]);
    AtXWire(l', Deliver(l.yx[0]));
  }

  lemma ActXWire(l: Link, a: Action)
    requires LinkInv(l)
    ensures EndsInv(Unbounded, l) && EndsInv(Wire15, WireLink(l))
    ensures ActX(Wire15, WireLink(l), a) == WireLink(ActX(Unbounded, l, a))
  {
    WireLinkInv(l);
    hide LinkInv, Inv, AtX, WireEnd;
    match a
    case Local(_, input) =>
      if !input.Deliver? { AtXWire(l, input); }
    case Arrive(_) =>
      if l.yx != [] {
        ArriveWire(l);
        assert ActX(Wire15, WireLink(l), a) == ActX(Wire15, WireLink(l), Arrive(X));
        assert ActX(Unbounded, l, a) == ActX(Unbounded, l, Arrive(X));
      }
    case Lose(_, i) => ChannelWire(l.yx, i);
    case Duplicate(_, i) => ChannelWire(l.yx, i);
  }

  lemma ActWire(l: Link, a: Action)
    requires LinkInv(l)
    ensures EndsInv(Unbounded, l) && EndsInv(Wire15, WireLink(l))
    ensures Act(Wire15, WireLink(l), a) == WireLink(Act(Unbounded, l, a))
  {
    FlipInv(l);
    WireLinkInv(l);
    hide LinkInv, Inv, ActX, WireEnd;
    if a.side == X {
      ActXWire(l, a);
    } else {
      ActXWire(Flip(l), a);
    }
  }

  /** Counting modulo 0x8000 makes no difference: every run of a link with wire numbers is the
      image of the run with unbounded numbers, whatever is lost or duplicated on the way. */
  lemma {:induction false} RunWire(l: Link, actions: seq<Action>)
    requires LinkInv(l)
    ensures EndsInv(Unbounded, l) && EndsInv(Wire15, WireLink(l))
    ensures LinkRun(Wire15, WireLink(l), actions) == WireLink(LinkRun(Unbounded, l, actions))
    decreases |actions|
  {
    WireLinkInv(l);
    hide LinkInv, EndsInv, Act, WireLink;
    if actions != [] {
      ActWire(l, actions[0]);
      ActKeepsInv(l, actions[0]);
      RunWire(Act(Unbounded, l, actions[0]), actions[1..]);
    }
  }

  lemma ConnectedWire(low: bool, retriesX: nat, retriesY: nat)
    ensures Connected(Wire15, low, retriesX, retriesY) == WireLink(Connected(Unbounded, low, retriesX, retriesY))
  {
  }

  /** From the activation of both ends on. */
  lemma WireCountersRefineUnbounded(low: bool, retriesX: nat, retriesY: nat, actions: seq<Action>)
    ensures var r := LinkRun(Unbounded, Connected(Unbounded, low, retriesX, retriesY), actions);
            && LinkInv(r)
            && LinkRun(Wire15, Connected(Wire15, low, retriesX, retriesY), actions) == WireLink(r)
  {
    var l := Connected(Unbounded, low, retriesX, retriesY);
    ConnectedInv(low, retriesX, retriesY);
    ConnectedWire(low, retriesX, retriesY);
    RunWire(l, actions);
    LinkRunInv(l, actions);
  }
}
