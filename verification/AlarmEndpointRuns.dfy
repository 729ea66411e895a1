/**
 What one endpoint keeps against an arbitrary peer: `Run` feeds it any sequence of
 frames, timer firings, user acks, alarms and closings, with any outcome of the
 local calls, and `Inv` holds after each of them.
 */
module AlarmEndpointRuns {
  import opened SequenceNumbers
  import opened AlarmEndpoint
  import opened Wrappers

  datatype Input =
    | Deliver(f: Frame)
    | TimerFires
    | Ack(arg: AlarmArg, status: PnioStatus)
    | Send(alarm: Alarm)
    | CloseReq(code: nat)

  /** One input.  A closed level has no receive queue, and alarms wait until ALPMI is free. */
  function Step(m: Numbering, e: Endpoint, input: Input, io: LocalIo): Endpoint
    requires Inv(m, e)
  {
    match input
    case Deliver(f) => if e.apmr == ApmrClosed then e else OnFrame(m, e, f, io).0
    case TimerFires => Timeout(e, io)
    case Ack(arg, status) => UserAck(e, arg, status, io).0
    case Send(alarm) => if e.alpmi != AlpmiAlarm then e else SendAlarm(e, alarm, io).0
    case CloseReq(code) => Close(e, code, io.bye)
  }

  function Run(m: Numbering, e: Endpoint, inputs: seq<(Input, LocalIo)>): (r: Endpoint)
    requires Inv(m, e)
    ensures Inv(m, r)
    decreases |inputs|
  {
    if inputs == [] then e
    else
      StepKeepsInv(m, e, inputs[0].0, inputs[0].1);
      Run(m, Step(m, e, inputs[0].0, inputs[0].1), inputs[1..])
  }

  // ---------------------------------------------------------------- states and numbers

  /** The four state machines fit together, and `p_ar` is set as long as the level is open. */
  predicate StatesFit(e: Endpoint) {
    && e.attached == (e.apms != ApmsClosed)
    && (e.apms == ApmsClosed) == (e.apmr == ApmrClosed)
    && (e.apms == ApmsClosed ==> e.alpmi == AlpmiStart && e.alpmr in {AlpmrStart, AlpmrTack} && e.rta.None?)
    && (e.apms != ApmsClosed ==> e.alpmi != AlpmiStart && e.alpmr != AlpmrStart)
  }

  /** Counters are the numbers of the next and the latest frame in each direction. */
  predicate CountersFit(m: Numbering, e: Endpoint) {
    && e.sendSeq == Number(m, e.confirms) && e.sendSeqO == Number(m, e.confirms - 1)
    && e.expSeq == Number(m, |e.accepted|) && e.expSeqO == Number(m, |e.accepted| - 1)
    && |e.acceptedSeq| == |e.accepted|
    && forall n :: 0 <= n < |e.acceptedSeq| ==> e.acceptedSeq[n] == Number(m, n)
  }

  /** Stop-and-wait: at most one request is unconfirmed, and only it can be saved for retransmission. */
  predicate StopAndWait(m: Numbering, e: Endpoint) {
    && |e.tx| == |e.requests| == |e.built|
    && (forall i :: 0 <= i < |e.built| ==> IsDataFrame(m, e.built[i], i, e.requests[i]))
    && e.confirms <= |e.requests| <= e.confirms + 1
    && (e.apms == ApmsOpen ==> |e.requests| == e.confirms && e.rta.None?)
    && (e.apms == ApmsWtack ==> |e.requests| == e.confirms + 1)
    && (e.rta.Some? ==> |e.built| > 0 && e.rta.value == e.built[|e.built| - 1])
  }

  /** The DATA frame with index `i` of this activation and the given content. */
  predicate IsDataFrame(m: Numbering, f: Frame, i: nat, body: Body) {
    f.version == 1 && f.pdu == PduData && f.tack && f.varLenOk && f.sendSeq == Number(m, i) && f.body == body
  }

  /** No request is transmitted more than 1 + retries times. */
  predicate RetriesBounded(e: Endpoint) {
    && (forall i :: 0 <= i < |e.tx| ==> e.tx[i] <= 1 + e.retries)
    && (e.apms == ApmsWtack && e.rta.Some? ==> |e.tx| > 0 && e.tx[|e.tx| - 1] + e.resend <= 1 + e.retries)
  }

  // ---------------------------------------------------------------- user level

  /** Where the indication cycle stands; `Broken` if the events do not follow it. */
  datatype Phase = Idle | Indicated | Acked(index: nat) | Broken

  /** Indication, accepted user ack, confirmation of that very ack, and so on. */
  function Cycle(events: seq<Event>): Phase {
    if events == [] then Idle
    else CycleNext(Cycle(events[..|events| - 1]), events[|events| - 1])
  }

  function CycleNext(p: Phase, ev: Event): Phase {
    match ev
    case AlarmInd(_) => if p == Idle then Indicated else Broken
    case AckTaken(k) => if p == Indicated then Acked(k) else Broken
    case AckCnf(k) => if p == Acked(k) then Idle else Broken
    case _ => p
  }

  lemma CycleSnoc(events: seq<Event>, ev: Event)
    ensures Cycle(events + [ev]) == CycleNext(Cycle(events), ev)
  {
    assert (events + [ev])[..|events + [ev]| - 1] == events;
  }

  /** ALPMR's state is the phase of the cycle. */
  predicate CycleFits(e: Endpoint) {
    var p := Cycle(e.events);
    && p != Broken
    && (e.alpmr == AlpmrNotify ==> p == Idle)
    && (e.alpmr == AlpmrUserAck ==> p == Indicated)
    && (e.alpmr == AlpmrTack && e.apms != ApmsClosed ==>
          && e.apms == ApmsWtack && p == Acked(e.confirms)
          && e.confirms < |e.requests| && e.requests[e.confirms].AlarmAck?)
  }

  /** The transport part. */
  predicate Core(m: Numbering, e: Endpoint) {
    && StatesFit(e)
    && CountersFit(m, e)
    && StopAndWait(m, e)
    && RetriesBounded(e)
  }

  predicate Inv(m: Numbering, e: Endpoint) {
    Core(m, e) && CycleFits(e)
  }

  lemma ActivatedInv(m: Numbering, low: bool, retries: nat)
    ensures Inv(m, Activated(m, low, retries))
  {
    NumberStep(m, 0);
  }

  // ---------------------------------------------------------------- preservation, operation by operation

  lemma CloseKeepsInv(m: Numbering, e: Endpoint, code: nat, bye: bool)
    requires CountersFit(m, e) && Cycle(e.events) != Broken
    requires |e.tx| == |e.requests| == |e.built| && e.confirms <= |e.requests| <= e.confirms + 1
    requires forall i :: 0 <= i < |e.tx| ==> e.tx[i] <= 1 + e.retries
    requires forall i :: 0 <= i < |e.built| ==> IsDataFrame(m, e.built[i], i, e.requests[i])
    requires e.attached == (e.apms != ApmsClosed)
    ensures Inv(m, Close(e, code, bye))
    ensures Close(e, code, bye).apms == ApmsClosed
  {
  }

  lemma ErrorKeepsInv(m: Numbering, e: Endpoint, reason: AbortReason, io: LocalIo)
    requires CountersFit(m, e) && Cycle(e.events) != Broken
    requires |e.tx| == |e.requests| == |e.built| && e.confirms <= |e.requests| <= e.confirms + 1
    requires forall i :: 0 <= i < |e.tx| ==> e.tx[i] <= 1 + e.retries
    requires forall i :: 0 <= i < |e.built| ==> IsDataFrame(m, e.built[i], i, e.requests[i])
    requires e.attached && e.apms != ApmsClosed
    ensures Inv(m, ErrorInd(e, reason, io))
    ensures ErrorInd(e, reason, io).apms == ApmsClosed
  {
    CycleSnoc(e.events, Aborted(reason));
    CloseKeepsInv(m, e.(events := e.events + [Aborted(reason)]), ErrCode(reason), io.bye);
  }

  lemma TackKeepsCounters(m: Numbering, e: Endpoint, f: Frame)
    requires CountersFit(m, e) && Confirms(e, f)
    ensures CountersFit(m, ApmsDataInd(m, e, f))
  {
    NumberStep(m, e.confirms);
  }

  lemma TackKeepsTransport(m: Numbering, e: Endpoint, f: Frame)
    requires StatesFit(e) && StopAndWait(m, e) && RetriesBounded(e) && Confirms(e, f)
    ensures var r := ApmsDataInd(m, e, f); StatesFit(r) && StopAndWait(m, r) && RetriesBounded(r)
  {
  }

  lemma TackKeepsCycle(m: Numbering, e: Endpoint, f: Frame)
    requires StatesFit(e) && CycleFits(e) && Confirms(e, f)
    ensures CycleFits(ApmsDataInd(m, e, f))
  {
    CycleSnoc(e.events, AckCnf(e.confirms));
    hide Cycle;
  }

  lemma ApmsDataIndKeepsInv(m: Numbering, e: Endpoint, f: Frame)
    requires Inv(m, e)
    ensures Inv(m, ApmsDataInd(m, e, f))
  {
    if Confirms(e, f) {
      TackKeepsCounters(m, e, f);
      TackKeepsTransport(m, e, f);
      TackKeepsCycle(m, e, f);
      hide StatesFit, CountersFit, StopAndWait, RetriesBounded, CycleFits, ApmsDataInd;
    }
  }

  lemma RequestKeepsCore(m: Numbering, e: Endpoint, body: Body, io: LocalIo)
    requires Core(m, e) && e.apms == ApmsOpen
    ensures var r := Request(e, body, io).0;
            && Core(m, r) && r.apms == ApmsWtack && r.requests == e.requests + [body]
            && r.events == e.events && r.alpmr == e.alpmr && r.alpmi == e.alpmi && r.confirms == e.confirms
  {
  }

  /** Moving ALPMI and ALPMR between their open states leaves the transport alone. */
  lemma UserStatesKeepCore(m: Numbering, e: Endpoint, e': Endpoint)
    requires Core(m, e) && e.apms != ApmsClosed
    requires e'.alpmi != AlpmiStart && e'.alpmr != AlpmrStart
    requires e' == e.(alpmi := e'.alpmi, alpmr := e'.alpmr, alarmSeq := e'.alarmSeq, events := e'.events)
    ensures Core(m, e')
  {
  }

  /** A request while a frame is unconfirmed ends the connection. */
  lemma RequestNotOpen(m: Numbering, e: Endpoint, body: Body, io: LocalIo)
    requires Core(m, e) && e.apms == ApmsWtack && Cycle(e.events) != Broken
    ensures Request(e, body, io) == (ErrorInd(e, AlpmiInvalid, io), false)
    ensures Inv(m, Request(e, body, io).0) && Request(e, body, io).0.apms == ApmsClosed
  {
    ErrorKeepsInv(m, e, AlpmiInvalid, io);
  }

  /** The state in which UserAck makes its request. */
  function AckStarted(e: Endpoint): Endpoint {
    e.(alarmSeq := (e.alarmSeq + 1) % ALARM_SEQUENCE_MODULUS, events := e.events + [AckTaken(|e.requests|)])
  }

  lemma UserAckOpen(m: Numbering, e: Endpoint, arg: AlarmArg, status: PnioStatus, io: LocalIo)
    requires Inv(m, e) && e.alpmr == AlpmrUserAck && e.apms == ApmsOpen
    ensures Inv(m, Request(AckStarted(e), AlarmAck(arg, status), io).0.(alpmr := AlpmrTack))
  {
    var e1 := AckStarted(e);
    CycleSnoc(e.events, AckTaken(|e.requests|));
    UserStatesKeepCore(m, e, e1);
    RequestKeepsCore(m, e1, AlarmAck(arg, status), io);
    var e2 := Request(e1, AlarmAck(arg, status), io).0;
    UserStatesKeepCore(m, e2, e2.(alpmr := AlpmrTack));
  }

  lemma UserAckNotOpen(m: Numbering, e: Endpoint, arg: AlarmArg, status: PnioStatus, io: LocalIo)
    requires Inv(m, e) && e.alpmr == AlpmrUserAck && e.apms == ApmsWtack
    ensures Inv(m, Request(AckStarted(e), AlarmAck(arg, status), io).0.(alpmr := AlpmrTack))
    ensures Request(AckStarted(e), AlarmAck(arg, status), io).0 == ErrorInd(AckStarted(e), AlpmiInvalid, io)
  {
    CycleSnoc(e.events, AckTaken(|e.requests|));
    UserStatesKeepCore(m, e, AckStarted(e));
    RequestNotOpen(m, AckStarted(e), AlarmAck(arg, status), io);
    hide Core, Request, ErrorInd, Cycle;
    TackAfterClose(m, Request(AckStarted(e), AlarmAck(arg, status), io).0);
  }

  lemma TackAfterClose(m: Numbering, e: Endpoint)
    requires Inv(m, e) && e.apms == ApmsClosed
    ensures Inv(m, e.(alpmr := AlpmrTack))
  {
    hide Cycle;
  }

  lemma UserAckKeepsInv(m: Numbering, e: Endpoint, arg: AlarmArg, status: PnioStatus, io: LocalIo)
    requires Inv(m, e)
    ensures Inv(m, UserAck(e, arg, status, io).0)
  {
    if e.alpmr == AlpmrUserAck {
      if e.apms == ApmsOpen {
        UserAckOpen(m, e, arg, status, io);
      } else {
        UserAckNotOpen(m, e, arg, status, io);
      }
    }
  }

  /** The state in which SendAlarm makes its request. */
  function SendStarted(e: Endpoint): Endpoint {
    e.(alarmSeq := (e.alarmSeq + 1) % ALARM_SEQUENCE_MODULUS)
  }

  lemma SendShape(e: Endpoint, alarm: Alarm, io: LocalIo)
    requires e.attached && e.alpmi == AlpmiAlarm
    ensures var (r, ok) := Request(SendStarted(e), Notification(AlarmArg(alarm, e.alarmSeq)), io);
            SendAlarm(e, alarm, io) == (if ok then r.(alpmi := AlpmiAck) else r, ok)
  {
  }

  lemma SendKeepsInv(m: Numbering, e: Endpoint, alarm: Alarm, io: LocalIo)
    requires Inv(m, e) && e.alpmi == AlpmiAlarm
    ensures Inv(m, SendAlarm(e, alarm, io).0)
  {
    hide CountersFit, StopAndWait, RetriesBounded, Request, SendAlarm;
    var e1 := SendStarted(e);
    var body := Notification(AlarmArg(alarm, e.alarmSeq));
    var (e2, ok) := Request(e1, body, io);
    UserStatesKeepCore(m, e, e1);
    SendShape(e, alarm, io);
    if e.apms == ApmsOpen {
      RequestKeepsCore(m, e1, body, io);
      UserStatesKeepCore(m, e2, e2.(alpmi := AlpmiAck));
    } else {
      RequestNotOpen(m, e1, body, io);
    }
  }

  lemma ResendKeepsInv(m: Numbering, e: Endpoint, io: LocalIo)
    requires Inv(m, e) && e.apms == ApmsWtack && e.rta.Some? && e.resend > 0
    ensures Inv(m, Timeout(e, io))
  {
    hide Cycle, IsDataFrame, CountersFit;
    var r := Timeout(e, io);
    assert CountersFit(m, r) by { CountersKept(m, e, r); }
  }

  lemma CountersKept(m: Numbering, e: Endpoint, r: Endpoint)
    requires CountersFit(m, e)
    requires r.sendSeq == e.sendSeq && r.sendSeqO == e.sendSeqO && r.expSeq == e.expSeq && r.expSeqO == e.expSeqO
    requires r.confirms == e.confirms && r.accepted == e.accepted && r.acceptedSeq == e.acceptedSeq
    ensures CountersFit(m, r)
  {
  }

  lemma TimeoutKeepsInv(m: Numbering, e: Endpoint, io: LocalIo)
    requires Inv(m, e)
    ensures Inv(m, Timeout(e, io))
  {
    if e.apms == ApmsWtack && e.rta.Some? {
      if e.resend > 0 {
        ResendKeepsInv(m, e, io);
      } else {
        ErrorKeepsInv(m, e.(apms := ApmsOpen), SendNotConfirmed, io);
        hide Core, CycleFits, ErrorInd;
      }
    }
  }

  lemma ControlKeepsInv(m: Numbering, e: Endpoint, pdu: PduType, io: LocalIo)
    requires Inv(m, e)
    ensures Inv(m, Transmit(e, ControlFrame(e, pdu), io.alloc, io.send).0)
  {
  }

  /** What Accept does between the ack handling and the TACK. */
  function Counting(m: Numbering, e: Endpoint, f: Frame): Endpoint {
    e.(expSeqO := e.expSeq, expSeq := Next(m, e.expSeq),
       accepted := e.accepted + [f.body], acceptedSeq := e.acceptedSeq + [f.sendSeq])
  }

  lemma CountingKeepsInv(m: Numbering, e: Endpoint, f: Frame)
    requires Inv(m, e) && f.sendSeq == e.expSeq
    ensures Inv(m, Counting(m, e, f))
  {
    NumberStep(m, |e.accepted|);
  }

  lemma AcceptKeepsInv(m: Numbering, e: Endpoint, f: Frame, io: LocalIo)
    requires Inv(m, e) && f.sendSeq == e.expSeq
    ensures Inv(m, Accept(m, e, f, io).0)
  {
    var e1 := ApmsDataInd(m, e, f);
    ApmsDataIndKeepsInv(m, e, f);
    CountingKeepsInv(m, e1, f);
    ControlKeepsInv(m, Counting(m, e1, f), PduAck, io);
  }

  lemma EventKeepsInv(m: Numbering, e: Endpoint, e': Endpoint, ev: Event)
    requires Core(m, e) && CycleFits(e) && e.apmr != ApmrClosed
    requires e' == e.(events := e.events + [ev], alpmi := e'.alpmi, alpmr := e'.alpmr)
    requires || (ev.AlarmCnf? && e'.alpmr == e.alpmr && e'.alpmi == AlpmiAlarm)
             || (ev.AlarmInd? && e.alpmr == AlpmrNotify && e'.alpmr == AlpmrUserAck && e'.alpmi == e.alpmi)
    ensures Inv(m, e')
  {
    hide CountersFit, StopAndWait, RetriesBounded;
    assert Core(m, e') by {
      UserStatesKeepCore(m, e, e');
    }
    CycleSnoc(e.events, ev);
  }

  lemma ViolationKeepsInv(m: Numbering, e: Endpoint, io: LocalIo)
    requires Inv(m, e) && e.attached
    ensures Inv(m, ErrorInd(e.(apmr := ApmrWcnf), ProtocolViolation, io))
  {
    ErrorKeepsInv(m, e.(apmr := ApmrWcnf), ProtocolViolation, io);
  }

  /** A malformed notification leaves APMR waiting for a confirmation that never comes. */
  lemma WedgedKeepsInv(m: Numbering, e: Endpoint)
    requires Inv(m, e) && e.attached
    ensures Inv(m, e.(apmr := ApmrWcnf))
  {
  }

  lemma IndicateKeepsInv(m: Numbering, e: Endpoint, body: Body, io: LocalIo)
    requires Inv(m, e) && e.apmr == ApmrOpen
    ensures Inv(m, Indicate(e, body, io).0)
  {
    hide CountersFit, StopAndWait, RetriesBounded, ErrorInd;
    match body
    case AlarmAck(_, status) =>
      if e.alpmi == AlpmiAck {
        EventKeepsInv(m, e, AlpmiDataInd(e, status), AlarmCnf(status));
      }
    case Notification(arg) =>
      if e.alpmr == AlpmrNotify {
        assert Indicate(e, body, io).0 == e.(alpmr := AlpmrUserAck, events := e.events + [AlarmInd(arg)]);
        EventKeepsInv(m, e, Indicate(e, body, io).0, AlarmInd(arg));
      } else {
        ViolationKeepsInv(m, e, io);
      }
    case _ => WedgedKeepsInv(m, e);
  }

  lemma AcceptKeepsStates(m: Numbering, e: Endpoint, f: Frame, io: LocalIo)
    requires Inv(m, e)
    ensures var r := Accept(m, e, f, io).0;
            && r.apmr == e.apmr && r.attached == e.attached && r.alpmi == e.alpmi
            && r.accepted == e.accepted + [f.body] && r.requests == e.requests && r.alarmSeq == e.alarmSeq
  {
  }

  lemma DuplicateKeepsInv(m: Numbering, e: Endpoint, f: Frame, io: LocalIo)
    requires Inv(m, e) && e.apmr == ApmrOpen && f.tack && f.sendSeq != e.expSeq
    ensures Inv(m, ApmrDataInd(m, e, f, io).0)
  {
    if f.sendSeq == e.expSeqO {
      ApmsDataIndKeepsInv(m, e, f);
      ControlKeepsInv(m, ApmsDataInd(m, e, f), PduAck, io);
    } else {
      CycleSnoc(e.events, SequenceError);
      ControlKeepsInv(m, e.(events := e.events + [SequenceError]), PduNack, io);
    }
  }

  lemma ExpectedKeepsInv(m: Numbering, e: Endpoint, f: Frame, io: LocalIo)
    requires Inv(m, e) && e.apmr == ApmrOpen && f.tack && f.sendSeq == e.expSeq
    ensures Inv(m, ApmrDataInd(m, e, f, io).0)
  {
    if f.body.AlarmAck? || f.body.Notification? || f.body.MalformedNotification? {
      var e1 := Accept(m, e, f, io).0;
      assert Inv(m, e1) && e1.apmr == ApmrOpen by {
        AcceptKeepsInv(m, e, f, io);
        AcceptKeepsStates(m, e, f, io);
      }
      IndicateKeepsInv(m, e1, f.body, io);
    } else {
      ErrorKeepsInv(m, e, AlarmIndError, io);
    }
  }

  lemma ApmrDataIndKeepsInv(m: Numbering, e: Endpoint, f: Frame, io: LocalIo)
    requires Inv(m, e) && e.attached
    ensures Inv(m, ApmrDataInd(m, e, f, io).0)
  {
    if e.apmr == ApmrOpen && f.tack {
      if f.sendSeq == e.expSeq {
        ExpectedKeepsInv(m, e, f, io);
      } else {
        DuplicateKeepsInv(m, e, f, io);
      }
    }
  }

  lemma StepKeepsInv(m: Numbering, e: Endpoint, input: Input, io: LocalIo)
    requires Inv(m, e)
    ensures Inv(m, Step(m, e, input, io))
  {
    match input
    case Deliver(f) =>
      if e.apmr != ApmrClosed {
        match f.pdu
        case PduAck => ApmsDataIndKeepsInv(m, e, f);
        case PduData => ApmrDataIndKeepsInv(m, e, f, io);
        case PduErr =>
          if f.version == 1 && f.varLenOk {
            var reason := if e.apmr != ApmrOpen then ApmrInvalidState
                          else if f.body.ErrStatus? then PeerError(f.body.errCls, f.body.errCode) else PeerError(0, 0);
            ErrorKeepsInv(m, e, reason, io);
          }
        case _ =>
      }
    case TimerFires => TimeoutKeepsInv(m, e, io);
    case Ack(arg, status) => UserAckKeepsInv(m, e, arg, status, io);
    case Send(alarm) => if e.alpmi == AlpmiAlarm { SendKeepsInv(m, e, alarm, io); }
    case CloseReq(code) => CloseKeepsInv(m, e, code, io.bye);
  }
}
