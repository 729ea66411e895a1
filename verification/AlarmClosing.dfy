/**
 How a level ends its connection: what the peer's close alarm does, which close alarm it sends
 itself, and that the reason of an abort is what the other end of a link is told.
 */
module AlarmClosing {
  import opened SequenceNumbers
  import opened AlarmEndpoint
  import opened AlarmEndpointRuns
  import opened AlarmEndpointTheorems
  import opened AlarmLink
  import opened AlarmTheorems

  // ---------------------------------------------------------------- the peer's close alarm

  /** What an ERR frame of the right length makes an open level report. */
  function Reported(e: Endpoint, f: Frame): AbortReason {
    if e.apmr == ApmrWcnf then ApmrInvalidState
    else if f.body.ErrStatus? then PeerError(f.body.errCls, f.body.errCode)
    else PeerError(0, 0)
  }

  /** It ends the connection, and the abort carries the peer's class and code. */
  lemma PeerErrorEnds(m: Numbering, e: Endpoint, f: Frame, io: LocalIo)
    requires Inv(m, e) && e.apmr != ApmrClosed && f.version == 1 && f.pdu == PduErr && f.varLenOk
    ensures var r := Step(m, e, Deliver(f), io);
            && r.apms == ApmsClosed && r.apmr == ApmrClosed && r.rta.None? && !r.attached
            && r.events == e.events + [Aborted(Reported(e, f))]
            && r.accepted == e.accepted && r.requests == e.requests && r.confirms == e.confirms
  {
    hide CountersFit, StopAndWait, RetriesBounded, CycleFits;
  }

  // ---------------------------------------------------------------- the own close alarm

  /** The close alarms among `out`. */
  function CloseAlarms(out: seq<Frame>): seq<Frame> {
    if out == [] then []
    else
      var f := out[|out| - 1];
      CloseAlarms(out[..|out| - 1]) + (if f.pdu == PduErr then [f] else [])
  }

  lemma CloseAlarmsSnoc(out: seq<Frame>, f: Frame)
    ensures CloseAlarms(out + [f]) == CloseAlarms(out) + (if f.pdu == PduErr then [f] else [])
  {
    assert (out + [f])[..|out + [f]| - 1] == out;
  }

  /** The close alarm of a level that has had `confirms` of its frames confirmed and has accepted
      `accepted` frames. */
  function CloseAlarm(m: Numbering, confirms: nat, accepted: nat, code: nat): Frame {
    Frame(1, PduErr, false, Number(m, confirms), Number(m, accepted - 1), true, ErrStatus(0xfd, code))
  }

  /** The second error code that tells the peer why. */
  function CodeOf(reason: AbortReason): nat {
    match reason
    case AlpmiInvalid => 0x02
    case AlpmrInvalid => 0x02
    case SendNotConfirmed => 0x08
    case AlarmIndError => 0x0b
    case ProtocolViolation => 0x12
    case ApmrInvalidState => 0x00
    case PeerError(_, code) => code
  }

  predicate Aborts(events: seq<Event>) {
    events != [] && events[|events| - 1].Aborted?
  }

  /** Closing at `e` sends one close alarm with this code if the level is the low one, else none. */
  predicate EndsWith(m: Numbering, e: Endpoint, r: Endpoint, code: nat, bye: bool) {
    && r.apms == ApmsClosed && r.low == e.low
    && CloseAlarms(r.out) == CloseAlarms(e.out)
         + (if e.low && bye then [CloseAlarm(m, r.confirms, |r.accepted|, code)] else [])
  }

  /** The level stays open and sends no close alarm, or it aborts and sends the code of the reason. */
  predicate Says(m: Numbering, e: Endpoint, r: Endpoint, bye: bool) {
    if r.apms != ApmsClosed then
      CloseAlarms(r.out) == CloseAlarms(e.out) && r.low == e.low && !Aborts(r.events)
    else
      Aborts(r.events) && EndsWith(m, e, r, CodeOf(r.events[|r.events| - 1].reason), bye)
  }

  /** An open connection, in which no abort is on record last. */
  predicate Running(e: Endpoint) {
    e.apms != ApmsClosed && !Aborts(e.events)
  }

  lemma CloseSays(m: Numbering, e: Endpoint, code: nat, bye: bool)
    requires CountersFit(m, e) && e.apms != ApmsClosed
    ensures EndsWith(m, e, Close(e, code, bye), code, bye)
    ensures Close(e, code, bye).events == e.events
  {
    CloseAlarmsSnoc(e.out, CloseAlarm(m, e.confirms, |e.accepted|, code));
  }

  lemma ErrorSays(m: Numbering, e: Endpoint, reason: AbortReason, io: LocalIo)
    requires CountersFit(m, e) && e.attached && e.apms != ApmsClosed
    ensures Says(m, e, ErrorInd(e, reason, io), io.bye)
    ensures ErrorInd(e, reason, io).apms == ApmsClosed
  {
    CloseSays(m, e.(events := e.events + [Aborted(reason)]), CodeOf(reason), io.bye);
    hide Close, CloseAlarms, CountersFit;
  }

  /** Other states of the user machines and other records before make no difference. */
  lemma SaysFrom(m: Numbering, e: Endpoint, e1: Endpoint, r: Endpoint, bye: bool)
    requires Says(m, e1, r, bye) && CloseAlarms(e1.out) == CloseAlarms(e.out) && e1.low == e.low
    ensures Says(m, e, r, bye)
  {
  }

  lemma TransmitSays(m: Numbering, e: Endpoint, f: Frame, io: LocalIo)
    requires f.pdu != PduErr && Running(e)
    ensures Says(m, e, Transmit(e, f, io.alloc, io.send).0, io.bye)
    ensures Running(Transmit(e, f, io.alloc, io.send).0)
  {
    CloseAlarmsSnoc(e.out, f);
  }

  lemma TackSays(m: Numbering, e: Endpoint, f: Frame, bye: bool)
    requires Running(e)
    ensures Says(m, e, ApmsDataInd(m, e, f), bye) && Running(ApmsDataInd(m, e, f))
  {
  }

  lemma AcceptSays(m: Numbering, e: Endpoint, f: Frame, io: LocalIo)
    requires Running(e)
    ensures Says(m, e, Accept(m, e, f, io).0, io.bye) && Running(Accept(m, e, f, io).0)
  {
    hide CloseAlarms, ApmsDataInd, Transmit;
    TackSays(m, e, f, io.bye);
    var e2 := Counting(m, ApmsDataInd(m, e, f), f);
    TransmitSays(m, e2, ControlFrame(e2, PduAck), io);
  }

  lemma IndicateSays(m: Numbering, e: Endpoint, body: Body, io: LocalIo)
    requires Inv(m, e) && e.apmr == ApmrOpen && Running(e)
    ensures Says(m, e, Indicate(e, body, io).0, io.bye)
  {
    hide CloseAlarms, StopAndWait, RetriesBounded, CycleFits, ErrorInd, CountersFit, CloseAlarm;
    var e1 := e.(apmr := ApmrWcnf);
    CountersKept(m, e, e1);
    ErrorSays(m, e1, ProtocolViolation, io);
    SaysFrom(m, e, e1, ErrorInd(e1, ProtocolViolation, io), io.bye);
  }

  lemma KnownSays(m: Numbering, e: Endpoint, f: Frame, io: LocalIo)
    requires Inv(m, e) && e.apmr == ApmrOpen && Running(e) && f.tack && f.sendSeq == e.expSeq
    requires f.body.AlarmAck? || f.body.Notification? || f.body.MalformedNotification?
    ensures Says(m, e, ApmrDataInd(m, e, f, io).0, io.bye)
  {
    hide Says, Running, Accept, Indicate, ErrorInd, ApmsDataInd, Transmit;
    hide CountersFit, StopAndWait, RetriesBounded, CycleFits;
    AcceptSays(m, e, f, io);
    AcceptKeepsInv(m, e, f, io);
    AcceptKeepsStates(m, e, f, io);
    var (e1, ok) := Accept(m, e, f, io);
    if ok {
      IndicateSays(m, e1, f.body, io);
      Composes(m, e, e1, Indicate(e1, f.body, io).0, io.bye);
    }
  }

  lemma Composes(m: Numbering, e: Endpoint, e1: Endpoint, r: Endpoint, bye: bool)
    requires Running(e1) && Says(m, e, e1, bye) && Says(m, e1, r, bye)
    ensures Says(m, e, r, bye)
  {
  }

  lemma OtherDataSays(m: Numbering, e: Endpoint, f: Frame, io: LocalIo)
    requires e.attached && e.apmr == ApmrOpen && Running(e) && f.tack && f.sendSeq != e.expSeq
    ensures Says(m, e, ApmrDataInd(m, e, f, io).0, io.bye)
  {
    TackSays(m, e, f, io.bye);
    var e1 := ApmsDataInd(m, e, f);
    var e2 := e.(events := e.events + [SequenceError]);
    TransmitSays(m, e1, ControlFrame(e1, PduAck), io);
    TransmitSays(m, e2, ControlFrame(e2, PduNack), io);
    hide CloseAlarms, ApmsDataInd, Transmit, Accept, Indicate, ErrorInd;
  }

  lemma StaysSays(m: Numbering, e: Endpoint, bye: bool)
    requires Running(e)
    ensures Says(m, e, e, bye)
  {
  }

  lemma DataSays(m: Numbering, e: Endpoint, f: Frame, io: LocalIo)
    requires Inv(m, e) && Running(e)
    ensures e.attached && Says(m, e, ApmrDataInd(m, e, f, io).0, io.bye)
  {
    hide Says, Accept, Indicate, ErrorInd, ApmsDataInd, Transmit, CountersFit, StopAndWait, RetriesBounded, CycleFits;
    if e.apmr == ApmrOpen && f.tack {
      if f.sendSeq != e.expSeq {
        OtherDataSays(m, e, f, io);
      } else if f.body.AlarmAck? || f.body.Notification? || f.body.MalformedNotification? {
        KnownSays(m, e, f, io);
      } else {
        ErrorSays(m, e, AlarmIndError, io);
      }
    } else {
      StaysSays(m, e, io.bye);
    }
  }

  lemma FrameSays(m: Numbering, e: Endpoint, f: Frame, io: LocalIo)
    requires Inv(m, e) && Running(e)
    ensures e.attached && Says(m, e, OnFrame(m, e, f, io).0, io.bye)
  {
    hide Says, ApmrDataInd, ErrorInd, ApmsDataInd, CountersFit, StopAndWait, RetriesBounded, CycleFits;
    StaysSays(m, e, io.bye);
    TackSays(m, e, f, io.bye);
    DataSays(m, e, f, io);
    ErrorSays(m, e, Reported(e, f), io);
  }

  lemma RequestSays(m: Numbering, e: Endpoint, body: Body, io: LocalIo)
    requires CountersFit(m, e) && e.attached && Running(e)
    ensures Says(m, e, Request(e, body, io).0, io.bye)
  {
    if e.apms == ApmsOpen {
      var f := DataFrame(e, body);
      var e1 := e.(resend := Request(e, body, io).0.resend, requests := e.requests + [body],
                   built := e.built + [f], tx := e.tx + [0]);
      TransmitSays(m, e1, f, io);
      hide CloseAlarms, Transmit;
    } else {
      NegativeEnds(e, io);
      ErrorSays(m, e, AlpmiInvalid, io);
      hide CloseAlarms, ErrorInd, AlpmrCnf, AlpmiCnf;
    }
  }

  lemma TimeoutSays(m: Numbering, e: Endpoint, io: LocalIo)
    requires Inv(m, e) && Running(e)
    ensures Says(m, e, Timeout(e, io), io.bye)
  {
    hide RetriesBounded, CycleFits;
    if e.apms == ApmsWtack && e.rta.Some? {
      if e.resend > 0 {
        CloseAlarmsSnoc(e.out, e.rta.value);
      } else {
        var e1 := e.(apms := ApmsOpen);
        CountersKept(m, e, e1);
        ErrorSays(m, e1, SendNotConfirmed, io);
        SaysFrom(m, e, e1, ErrorInd(e1, SendNotConfirmed, io), io.bye);
        hide ErrorInd, CloseAlarms;
      }
    }
  }

  lemma AckSays(m: Numbering, e: Endpoint, arg: AlarmArg, status: PnioStatus, io: LocalIo)
    requires Inv(m, e) && Running(e)
    ensures Says(m, e, UserAck(e, arg, status, io).0, io.bye)
  {
    hide StopAndWait, RetriesBounded, CycleFits, Request, CloseAlarms, CloseAlarm;
    if e.alpmr == AlpmrUserAck {
      CountersKept(m, e, AckStarted(e));
      RequestSays(m, AckStarted(e), AlarmAck(arg, status), io);
      assert UserAck(e, arg, status, io).0 == Request(AckStarted(e), AlarmAck(arg, status), io).0.(alpmr := AlpmrTack);
    }
  }

  lemma SendSays(m: Numbering, e: Endpoint, alarm: Alarm, io: LocalIo)
    requires Inv(m, e) && Running(e) && e.alpmi == AlpmiAlarm
    ensures e.attached && Says(m, e, SendAlarm(e, alarm, io).0, io.bye)
  {
    hide StopAndWait, RetriesBounded, CycleFits, Request, SendAlarm, CloseAlarms, CloseAlarm;
    CountersKept(m, e, SendStarted(e));
    RequestSays(m, SendStarted(e), Notification(AlarmArg(alarm, e.alarmSeq)), io);
    SendShape(e, alarm, io);
  }

  /** One input at an open level. */
  lemma StepSays(m: Numbering, e: Endpoint, input: Input, io: LocalIo)
    requires Inv(m, e) && Running(e)
    ensures var r := Step(m, e, input, io);
            if input.CloseReq? then EndsWith(m, e, r, input.code, io.bye) && r.events == e.events
            else Says(m, e, r, io.bye)
  {
    hide OnFrame, Timeout, UserAck, SendAlarm, Close, StopAndWait, RetriesBounded, CycleFits, Says;
    match input
    case Deliver(f) => FrameSays(m, e, f, io);
    case TimerFires => TimeoutSays(m, e, io);
    case Ack(arg, status) => AckSays(m, e, arg, status, io);
    case Send(alarm) =>
      if e.alpmi == AlpmiAlarm {
        SendSays(m, e, alarm, io);
      } else {
        StaysSays(m, e, io.bye);
      }
    case CloseReq(code) => CloseSays(m, e, code, io.bye);
  }

  // ---------------------------------------------------------------- over an activation

  /** Close alarms can be sent at any time. */
  predicate AlwaysBye(inputs: seq<(Input, LocalIo)>) {
    forall t :: 0 <= t < |inputs| ==> inputs[t].1.bye
  }

  /** One close alarm with `code`, if there is one. */
  predicate OneGoodbye(m: Numbering, r: Endpoint, code: nat, bye: bool) {
    && |CloseAlarms(r.out)| <= 1 && (CloseAlarms(r.out) == [] ==> !r.low || !bye)
    && (CloseAlarms(r.out) != [] ==> r.low && CloseAlarms(r.out) == [CloseAlarm(m, r.confirms, |r.accepted|, code)])
    && (Aborts(r.events) ==> code == CodeOf(r.events[|r.events| - 1].reason))
  }

  /** No close alarm yet. */
  predicate NoGoodbye(e: Endpoint) {
    Running(e) && CloseAlarms(e.out) == []
  }

  lemma GoodbyeStep(m: Numbering, e: Endpoint, input: Input, io: LocalIo) returns (code: nat)
    requires Inv(m, e) && NoGoodbye(e)
    ensures var r := Step(m, e, input, io);
            r.low == e.low && if r.apms != ApmsClosed then NoGoodbye(r) else OneGoodbye(m, r, code, io.bye)
  {
    StepSays(m, e, input, io);
    var r := Step(m, e, input, io);
    hide Inv, Step, CloseAlarm, CloseAlarms;
    code := if Aborts(r.events) then CodeOf(r.events[|r.events| - 1].reason) else
              if input.CloseReq? then input.code else 0;
  }

  lemma GoodbyeKept(m: Numbering, e: Endpoint, r: Endpoint, code: nat, bye: bool, always: bool)
    requires OneGoodbye(m, e, code, bye) && (always ==> bye)
    requires r.events == e.events && r.out == e.out && r.low == e.low && r.confirms == e.confirms
    requires r.accepted == e.accepted
    ensures OneGoodbye(m, r, code, always)
  {
  }

  lemma {:induction false} GoodbyeRun(m: Numbering, e: Endpoint, inputs: seq<(Input, LocalIo)>) returns (code: nat)
    requires Inv(m, e) && NoGoodbye(e)
    ensures var r := Run(m, e, inputs);
            && r.low == e.low
            && if r.apms != ApmsClosed then NoGoodbye(r) else OneGoodbye(m, r, code, AlwaysBye(inputs))
    decreases |inputs|
  {
    code := 0;
    if inputs != [] {
      hide Inv, Step, OneGoodbye, NoGoodbye;
      var (input, io) := inputs[0];
      var e1 := Step(m, e, input, io);
      StepKeepsInv(m, e, input, io);
      code := GoodbyeStep(m, e, input, io);
      assert AlwaysBye(inputs) ==> io.bye;
      if e1.apms != ApmsClosed {
        code := GoodbyeRun(m, e1, inputs[1..]);
        assert AlwaysBye(inputs) ==> AlwaysBye(inputs[1..]);
        Weaker(m, Run(m, e1, inputs[1..]), code, AlwaysBye(inputs[1..]), AlwaysBye(inputs));
      } else {
        ClosedForever(m, e1, inputs[1..]);
        GoodbyeKept(m, e1, Run(m, e1, inputs[1..]), code, io.bye, AlwaysBye(inputs));
      }
    } else {
      hide Inv;
      NotClosed(e);
    }
  }

  lemma NotClosed(e: Endpoint)
    requires NoGoodbye(e)
    ensures e.apms != ApmsClosed
  {
  }

  lemma Weaker(m: Numbering, r: Endpoint, code: nat, bye: bool, always: bool)
    requires always ==> bye
    ensures OneGoodbye(m, r, code, bye) ==> OneGoodbye(m, r, code, always)
  {
  }

  /** In an activation the low level sends exactly one close alarm, at its end, if it can be sent, and
      the high level none.  After an abort it carries the code of the abort's reason. */
  lemma OneCloseAlarm(low: bool, retries: nat, inputs: seq<(Input, LocalIo)>)
    ensures var r := RunFromStart(low, retries, inputs);
            var sent := CloseAlarms(r.out);
            && (r.apms != ApmsClosed || !low ==> sent == [])
            && (r.apms == ApmsClosed && low && AlwaysBye(inputs) ==> |sent| == 1)
            && |sent| <= 1
            && (sent != [] && Aborts(r.events) ==>
                  sent[0] == CloseAlarm(Wire15, r.confirms, |r.accepted|, CodeOf(r.events[|r.events| - 1].reason)))
  {
    ActivatedInv(Wire15, low, retries);
    var code := GoodbyeRun(Wire15, Activated(Wire15, low, retries), inputs);
    hide Inv, Run, CloseAlarms, CloseAlarm;
  }

  // ---------------------------------------------------------------- on a link

  /** What is on its way from an end that has closed says why it did; an open end says nothing. */
  predicate GoodbyesOk(x: Endpoint, ch: seq<Frame>) {
    && (x.apms != ApmsClosed ==> Running(x))
    && forall i :: 0 <= i < |ch| && ch[i].pdu == PduErr ==> GoodbyeOf(x, ch[i])
  }

  predicate GoodbyeOf(x: Endpoint, f: Frame) {
    && x.apms == ApmsClosed && f.version == 1 && f.varLenOk && f.body.ErrStatus? && f.body.errCls == 0xfd
    && (Aborts(x.events) ==> f.body.errCode == CodeOf(x.events[|x.events| - 1].reason))
  }

  lemma {:induction false} CloseAlarmsHold(out: seq<Frame>, i: nat)
    requires i < |out| && out[i].pdu == PduErr
    ensures out[i] in CloseAlarms(out)
  {
    if i < |out| - 1 {
      CloseAlarmsHold(out[..|out| - 1], i);
    }
  }

  /** What an input lets an open end send in addition. */
  lemma OpenGoodbyes(m: Numbering, x: Endpoint, input: Input)
    requires Inv(m, x) && x.out == [] && Running(x)
    ensures var r := Step(m, x, input, AllOk); GoodbyesOk(r.(out := []), r.out)
  {
    hide Inv, Step, CloseAlarm;
    StepSays(m, x, input, AllOk);
    var r := Step(m, x, input, AllOk);
    forall i | 0 <= i < |r.out| && r.out[i].pdu == PduErr ensures GoodbyeOf(r.(out := []), r.out[i]) {
      CloseAlarmsHold(r.out, i);
      assert CloseAlarms([]) == [];
      IsGoodbye(m, r, r.out[i]);
    }
  }

  lemma IsGoodbye(m: Numbering, r: Endpoint, f: Frame)
    requires r.apms == ApmsClosed
    ensures forall code :: f == CloseAlarm(m, r.confirms, |r.accepted|, code) ==>
              f.body == ErrStatus(0xfd, code) && f.version == 1 && f.varLenOk
  {
  }

  lemma StepGoodbyes(m: Numbering, x: Endpoint, ch: seq<Frame>, input: Input)
    requires Inv(m, x) && x.out == [] && GoodbyesOk(x, ch)
    ensures var r := Step(m, x, input, AllOk); GoodbyesOk(r.(out := []), ch + r.out)
  {
    hide Inv, Step, Running, Aborts;
    if x.apms == ApmsClosed {
      ClosedStep(m, x, input, AllOk);
    } else {
      OpenGoodbyes(m, x, input);
    }
  }

  predicate LinkGoodbyes(l: Link) {
    GoodbyesOk(l.x, l.xy) && GoodbyesOk(l.y, l.yx) && l.x.out == [] && l.y.out == []
  }

  lemma ActXGoodbyes(m: Numbering, l: Link, a: Action)
    requires EndsInv(m, l) && LinkGoodbyes(l)
    ensures LinkGoodbyes(ActX(m, l, a))
  {
    hide Inv, Step, Running, GoodbyeOf;
    match a
    case Local(_, input) => StepGoodbyes(m, l.x, l.xy, input);
    case Arrive(_) => if l.yx != [] { StepGoodbyes(m, l.x, l.xy, Deliver(l.yx[0])); }
    case _ =>
  }

  lemma {:induction false} LinkRunGoodbyes(m: Numbering, l: Link, actions: seq<Action>)
    requires EndsInv(m, l) && LinkGoodbyes(l)
    ensures LinkGoodbyes(LinkRun(m, l, actions))
    decreases |actions|
  {
    if actions != [] {
      FlipEnds(m, l);
      if actions[0].side == X {
        ActXGoodbyes(m, l, actions[0]);
      } else {
        ActXGoodbyes(m, Flip(l), actions[0]);
      }
      hide Inv, ActX, GoodbyesOk;
      LinkRunGoodbyes(m, Act(m, l, actions[0]), actions[1..]);
    }
  }

  /** `r` is end `e` closed by the frame `f` from `peer`, for whose reason it now knows the code. */
  predicate ClosedBy(e: Endpoint, r: Endpoint, f: Frame, peer: Endpoint) {
    && f.body.ErrStatus? && r.apms == ApmsClosed
    && r.events == e.events + [Aborted(PeerError(0xfd, f.body.errCode))]
    && peer.apms == ApmsClosed
    && (Aborts(peer.events) ==> f.body.errCode == CodeOf(peer.events[|peer.events| - 1].reason))
  }

  /** The close alarm that arrives at an open end of a link closes it too, and the end reports the
      reason for which the other one has closed. */
  lemma CloseAlarmArrives(low: bool, retriesX: nat, retriesY: nat, actions: seq<Action>)
    ensures var l := WireRun(low, retriesX, retriesY, actions);
            l.yx != [] && l.yx[0].pdu == PduErr && l.x.apms != ApmsClosed ==>
              ClosedBy(l.x, WireRun(low, retriesX, retriesY, actions + [Arrive(X)]).x, l.yx[0], l.y)
  {
    var l0 := Connected(Wire15, low, retriesX, retriesY);
    hide Inv, LinkRun, Step, Connected;
    ConnectedGoodbyes(low, retriesX, retriesY);
    LinkRunGoodbyes(Wire15, l0, actions);
    var l := WireRun(low, retriesX, retriesY, actions);
    if l.yx != [] && l.yx[0].pdu == PduErr && l.x.apms != ApmsClosed {
      NeverRefused(low, retriesX, retriesY, actions, l.yx[0], SequenceError);
      LastArrival(l0, actions);
      PeerErrorEnds(Wire15, l.x, l.yx[0], AllOk);
    }
  }

  lemma CloseAlarmArrivesAtY(low: bool, retriesX: nat, retriesY: nat, actions: seq<Action>)
    ensures var l := WireRun(low, retriesX, retriesY, actions);
            l.xy != [] && l.xy[0].pdu == PduErr && l.y.apms != ApmsClosed ==>
              ClosedBy(l.y, WireRun(low, retriesX, retriesY, actions + [Arrive(Y)]).y, l.xy[0], l.x)
  {
    hide WireRun, ClosedBy;
    WireRunFlips(low, retriesX, retriesY, actions);
    WireRunFlips(low, retriesX, retriesY, actions + [Arrive(Y)]);
    assert Swapped(actions + [Arrive(Y)]) == Swapped(actions) + [Arrive(X)];
    CloseAlarmArrives(low, retriesY, retriesX, Swapped(actions));
  }

  lemma ConnectedGoodbyes(low: bool, retriesX: nat, retriesY: nat)
    ensures LinkGoodbyes(Connected(Wire15, low, retriesX, retriesY))
  {
  }

  lemma LastArrival(l: Link, actions: seq<Action>)
    requires EndsInv(Wire15, l) && LinkRun(Wire15, l, actions).yx != []
    ensures var r := LinkRun(Wire15, l, actions);
            LinkRun(Wire15, l, actions + [Arrive(X)]).x == Step(Wire15, r.x, Deliver(r.yx[0]), AllOk).(out := [])
  {
    hide Inv, Step;
    var r := LinkRun(Wire15, l, actions);
    LinkRunSnoc(Wire15, l, actions, Arrive(X));
  }
}
