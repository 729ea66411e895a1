/**
 The record of everything an endpoint ever hands to Ethernet: its DATA frames are, request
 by request in order, at most 1 + retries copies of the one frame built for that request.
 */
module AlarmTransmissions {
  import opened SequenceNumbers
  import opened AlarmEndpoint
  import opened AlarmEndpointRuns
  import opened AlarmEndpointTheorems
  import opened Wrappers

  /** The DATA frames among `out`, in order. */
  function DataOf(out: seq<Frame>): seq<Frame> {
    if out == [] then []
    else
      var f := out[|out| - 1];
      DataOf(out[..|out| - 1]) + (if f.pdu == PduData then [f] else [])
  }

  /** `tx[0]` copies of `built[0]`, then `tx[1]` copies of `built[1]`, and so on. */
  function Repeated(built: seq<Frame>, tx: seq<nat>): seq<Frame>
    requires |built| == |tx|
  {
    if built == [] then []
    else
      var k := |built| - 1;
      Repeated(built[..k], tx[..k]) + Copies(built[k], tx[k])
  }

  predicate OutFits(e: Endpoint) {
    |e.built| == |e.tx| && DataOf(e.out) == Repeated(e.built, e.tx)
  }

  lemma DataOfSnoc(out: seq<Frame>, f: Frame)
    ensures DataOf(out + [f]) == DataOf(out) + (if f.pdu == PduData then [f] else [])
  {
    assert (out + [f])[..|out + [f]| - 1] == out;
  }

  lemma RepeatedRequest(built: seq<Frame>, tx: seq<nat>, f: Frame)
    requires |built| == |tx|
    ensures Repeated(built + [f], tx + [0]) == Repeated(built, tx)
  {
    assert (built + [f])[..|built|] == built && (tx + [0])[..|tx|] == tx;
    assert Repeated(built, tx) + Copies(f, 0) == Repeated(built, tx);
  }

  lemma RepeatedCounted(built: seq<Frame>, tx: seq<nat>)
    requires |built| == |tx| > 0
    ensures Repeated(built, Counted(tx)) == Repeated(built, tx) + [built[|built| - 1]]
  {
    var k := |built| - 1;
    assert Counted(tx)[..k] == tx[..k];
    assert Repeated(built[..k], tx[..k]) + (Copies(built[k], tx[k]) + [built[k]])
        == (Repeated(built[..k], tx[..k]) + Copies(built[k], tx[k])) + [built[k]];
  }

  /** Sending a frame without TACK flag, or the latest built frame, keeps the record. */
  lemma TransmitFits(e: Endpoint, f: Frame, alloc: bool, send: bool)
    requires OutFits(e)
    requires (f.pdu == PduData) == f.tack
    requires f.tack ==> |e.built| > 0 && f == e.built[|e.built| - 1]
    ensures OutFits(Transmit(e, f, alloc, send).0)
  {
    DataOfSnoc(e.out, f);
    if f.tack {
      RepeatedCounted(e.built, e.tx);
    }
  }

  lemma CloseFits(e: Endpoint, code: nat, bye: bool)
    requires OutFits(e)
    ensures OutFits(Close(e, code, bye))
  {
    var e1 := e.(alpmi := AlpmiStart, alpmr := AlpmrStart);
    TransmitFits(e1, CloseFrame(e1, code), true, bye);
  }

  lemma ErrorFits(e: Endpoint, reason: AbortReason, io: LocalIo)
    requires OutFits(e) && e.attached
    ensures OutFits(ErrorInd(e, reason, io))
  {
    CloseFits(e.(events := e.events + [Aborted(reason)]), ErrCode(reason), io.bye);
  }

  lemma RequestFits(m: Numbering, e: Endpoint, body: Body, io: LocalIo)
    requires Core(m, e) && e.attached && OutFits(e)
    ensures OutFits(Request(e, body, io).0)
  {
    if e.apms == ApmsOpen {
      var f := DataFrame(e, body);
      var e1 := e.(resend := e.retries, requests := e.requests + [body], built := e.built + [f], tx := e.tx + [0]);
      RepeatedRequest(e.built, e.tx, f);
      TransmitFits(e1, f, io.alloc, io.send);
    } else {
      ErrorFits(e, AlpmiInvalid, io);
    }
  }

  lemma ResendFits(e: Endpoint, f: Frame, resend: nat)
    requires OutFits(e) && |e.built| > 0 && f == e.built[|e.built| - 1] && f.pdu == PduData
    ensures OutFits(e.(resend := resend, out := e.out + [f], tx := Counted(e.tx)))
  {
    DataOfSnoc(e.out, f);
    RepeatedCounted(e.built, e.tx);
  }

  lemma TimeoutFits(m: Numbering, e: Endpoint, io: LocalIo)
    requires Inv(m, e) && OutFits(e)
    ensures OutFits(Timeout(e, io))
  {
    if e.apms == ApmsWtack && e.rta.Some? {
      if e.resend > 0 {
        ResendFits(e, e.rta.value, e.resend - 1);
      } else {
        ErrorFits(e.(apms := ApmsOpen), SendNotConfirmed, io);
      }
    }
  }

  lemma IndicateFits(e: Endpoint, body: Body, io: LocalIo)
    requires e.attached && OutFits(e)
    ensures OutFits(Indicate(e, body, io).0)
  {
    if body.Notification? && e.alpmr in {AlpmrUserAck, AlpmrTack} {
      ErrorFits(e.(apmr := ApmrWcnf), ProtocolViolation, io);
    }
  }

  lemma AcceptFits(m: Numbering, e: Endpoint, f: Frame, io: LocalIo)
    requires Inv(m, e) && OutFits(e)
    ensures OutFits(Accept(m, e, f, io).0)
  {
    var e1 := ApmsDataInd(m, e, f);
    TransmitFits(Counting(m, e1, f), ControlFrame(Counting(m, e1, f), PduAck), io.alloc, io.send);
  }

  lemma ExpectedFits(m: Numbering, e: Endpoint, f: Frame, io: LocalIo)
    requires Inv(m, e) && e.apmr == ApmrOpen && OutFits(e) && f.tack && f.sendSeq == e.expSeq
    ensures OutFits(ApmrDataInd(m, e, f, io).0)
  {
    if f.body.AlarmAck? || f.body.Notification? || f.body.MalformedNotification? {
      AcceptFits(m, e, f, io);
      AcceptKeepsStates(m, e, f, io);
      hide OutFits, Accept, Indicate;
      var (e1, ok) := Accept(m, e, f, io);
      if ok { IndicateFits(e1, f.body, io); }
    } else {
      ErrorFits(e, AlarmIndError, io);
    }
  }

  lemma DataFits(m: Numbering, e: Endpoint, f: Frame, io: LocalIo)
    requires Inv(m, e) && e.attached && OutFits(e)
    ensures OutFits(ApmrDataInd(m, e, f, io).0)
  {
    if e.apmr == ApmrOpen && f.tack {
      if f.sendSeq == e.expSeq {
        ExpectedFits(m, e, f, io);
      } else if f.sendSeq == e.expSeqO {
        var e1 := ApmsDataInd(m, e, f);
        TransmitFits(e1, ControlFrame(e1, PduAck), io.alloc, io.send);
      } else {
        var e1 := e.(events := e.events + [SequenceError]);
        TransmitFits(e1, ControlFrame(e1, PduNack), io.alloc, io.send);
      }
      hide OutFits, Transmit;
    }
  }

  lemma StepFits(m: Numbering, e: Endpoint, input: Input, io: LocalIo)
    requires Inv(m, e) && OutFits(e)
    ensures OutFits(Step(m, e, input, io))
  {
    hide ApmrDataInd, Timeout, Close, Request, ErrorInd;
    match input
    case Deliver(f) =>
      if e.apmr != ApmrClosed && f.version == 1 {
        match f.pdu
        case PduData => DataFits(m, e, f, io);
        case PduErr =>
          if f.varLenOk {
            var reason := if e.apmr != ApmrOpen then ApmrInvalidState
                          else if f.body.ErrStatus? then PeerError(f.body.errCls, f.body.errCode) else PeerError(0, 0);
            ErrorFits(e, reason, io);
          }
        case _ =>
      }
    case TimerFires => TimeoutFits(m, e, io);
    case Ack(arg, status) =>
      if e.alpmr == AlpmrUserAck {
        UserStatesKeepCore(m, e, AckStarted(e));
        RequestFits(m, AckStarted(e), AlarmAck(arg, status), io);
      }
    case Send(alarm) =>
      if e.alpmi == AlpmiAlarm {
        var e1 := e.(alarmSeq := (e.alarmSeq + 1) % ALARM_SEQUENCE_MODULUS);
        UserStatesKeepCore(m, e, e1);
        RequestFits(m, e1, Notification(AlarmArg(alarm, e.alarmSeq)), io);
      }
    case CloseReq(code) => CloseFits(e, code, io.bye);
  }

  lemma {:induction false} RunFits(m: Numbering, e: Endpoint, inputs: seq<(Input, LocalIo)>)
    requires Inv(m, e) && OutFits(e)
    ensures OutFits(Run(m, e, inputs)) && Run(m, e, inputs).retries == e.retries
    decreases |inputs|
  {
    if inputs != [] {
      StepKeepsInv(m, e, inputs[0].0, inputs[0].1);
      StepFits(m, e, inputs[0].0, inputs[0].1);
      if inputs[0].0.Deliver? {
        DeliverEffect(m, e, inputs[0].0.f, inputs[0].1);
      } else {
        LocalEffect(m, e, inputs[0].0, inputs[0].1);
      }
      RunFits(m, Step(m, e, inputs[0].0, inputs[0].1), inputs[1..]);
    }
  }

  /** The DATA frames ever handed to Ethernet are, for each request in order, at most 1 + retries
      copies of one frame, which carries the request's wire number and content. */
  lemma TransmissionRecord(low: bool, retries: nat, inputs: seq<(Input, LocalIo)>)
    ensures var r := RunFromStart(low, retries, inputs);
            && |r.built| == |r.tx| == |r.requests|
            && DataOf(r.out) == Repeated(r.built, r.tx)
            && forall i :: 0 <= i < |r.built| ==>
                 r.tx[i] <= 1 + retries && IsDataFrame(Wire15, r.built[i], i, r.requests[i])
  {
    ActivatedInv(Wire15, low, retries);
    RunFits(Wire15, Activated(Wire15, low, retries), inputs);
  }
}
