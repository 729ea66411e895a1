/**
 Two states an endpoint cannot leave by itself: a receiver that has taken a malformed
 notification, and a sender whose frame could not be saved.  It is said exactly how they are
 entered, and what happens from then on.
 */
module AlarmStuck {
  import opened SequenceNumbers
  import opened AlarmEndpoint
  import opened AlarmEndpointRuns
  import opened AlarmEndpointTheorems
  import opened Wrappers

  // ---------------------------------------------------------------- the receiver

  /** The input after which APMR waits for a confirmation that never comes. */
  predicate Wedging(e: Endpoint, input: Input, io: LocalIo) {
    && input.Deliver? && input.f.version == 1 && input.f.pdu == PduData && input.f.tack
    && input.f.sendSeq == e.expSeq && input.f.body.MalformedNotification? && io.alloc && io.send
  }

  /** Such a frame has been counted as accepted and acked. */
  lemma WedgingIsAcked(e: Endpoint, f: Frame, io: LocalIo)
    requires Inv(Wire15, e) && e.apmr == ApmrOpen && Wedging(e, Deliver(f), io)
    ensures var r := Step(Wire15, e, Deliver(f), io);
            && r.apmr == ApmrWcnf && r.accepted == e.accepted + [f.body]
            && r.out == e.out + [Control(PduAck, r.confirms, |r.accepted|)] && r.out[|e.out|].ackSeq == f.sendSeq
  {
    AcceptOutput(e, f, io);
    hide Accept;
  }

  lemma DataWedges(m: Numbering, e: Endpoint, f: Frame, io: LocalIo)
    requires Inv(m, e) && e.apmr == ApmrOpen && f.pdu == PduData && f.version == 1
    ensures ApmrDataInd(m, e, f, io).0.apmr == ApmrWcnf <==> Wedging(e, Deliver(f), io)
  {
    if f.tack && f.sendSeq == e.expSeq {
      ExpectedWedges(m, e, f, io);
    } else {
      OtherStaysOpen(m, e, f, io);
      hide Inv, ApmrDataInd;
    }
  }

  lemma OtherStaysOpen(m: Numbering, e: Endpoint, f: Frame, io: LocalIo)
    requires e.apmr == ApmrOpen && e.attached && !(f.tack && f.sendSeq == e.expSeq)
    ensures ApmrDataInd(m, e, f, io).0.apmr == ApmrOpen
  {
    var e1 := ApmsDataInd(m, e, f);
    var e2 := e.(events := e.events + [SequenceError]);
    TackKeepsApmr(m, e, f);
    SendingKeepsApmr(e1, ControlFrame(e1, PduAck), io);
    SendingKeepsApmr(e2, ControlFrame(e2, PduNack), io);
    hide ApmsDataInd, Transmit, ControlFrame;
  }

  lemma TackKeepsApmr(m: Numbering, e: Endpoint, f: Frame)
    ensures ApmsDataInd(m, e, f).apmr == e.apmr
  {
  }

  lemma SendingKeepsApmr(e: Endpoint, f: Frame, io: LocalIo)
    ensures Transmit(e, f, io.alloc, io.send).0.apmr == e.apmr
  {
  }

  lemma ExpectedWedges(m: Numbering, e: Endpoint, f: Frame, io: LocalIo)
    requires Inv(m, e) && e.apmr == ApmrOpen && f.pdu == PduData && f.version == 1 && f.tack && f.sendSeq == e.expSeq
    ensures ApmrDataInd(m, e, f, io).0.apmr == ApmrWcnf <==> Wedging(e, Deliver(f), io)
  {
    if f.body.AlarmAck? || f.body.Notification? || f.body.MalformedNotification? {
      AcceptKeepsStates(m, e, f, io);
      AcceptSucceeds(m, e, f, io);
      hide Inv, Accept;
      IndicateWedges(Accept(m, e, f, io).0, f.body, io);
      hide Indicate;
    } else {
      hide Inv;
    }
  }

  lemma AcceptSucceeds(m: Numbering, e: Endpoint, f: Frame, io: LocalIo)
    ensures Accept(m, e, f, io).1 == (io.alloc && io.send)
  {
    hide ApmsDataInd;
  }

  lemma IndicateWedges(e: Endpoint, body: Body, io: LocalIo)
    requires e.attached && e.apmr == ApmrOpen
    ensures Indicate(e, body, io).0.apmr == ApmrWcnf <==> !body.AlarmAck? && !body.Notification?
  {
  }

  lemma LocalDoesNotWedge(m: Numbering, e: Endpoint, input: Input, io: LocalIo)
    requires Inv(m, e) && !input.Deliver?
    ensures Step(m, e, input, io).apmr in {e.apmr, ApmrClosed}
  {
    hide CountersFit, StopAndWait, RetriesBounded, CycleFits;
  }

  /** From an open APMR exactly this input leads to the state. */
  lemma WedgedIff(m: Numbering, e: Endpoint, input: Input, io: LocalIo)
    requires Inv(m, e) && e.apmr == ApmrOpen
    ensures Step(m, e, input, io).apmr == ApmrWcnf <==> Wedging(e, input, io)
  {
    match input
    case Deliver(f) =>
      if f.version == 1 && f.pdu == PduData {
        DataWedges(m, e, f, io);
        hide ApmrDataInd, Inv;
      } else {
        hide Inv;
      }
    case _ => LocalDoesNotWedge(m, e, input, io);
  }

  /** What a wedged receiver still does to its record. */
  predicate StaysWedged(e: Endpoint, r: Endpoint) {
    && r.apmr in {ApmrWcnf, ApmrClosed} && r.accepted == e.accepted
    && |e.events| <= |r.events| && r.events[..|e.events|] == e.events
    && forall t :: |e.events| <= t < |r.events| ==> !r.events[t].AlarmInd? && !r.events[t].AlarmCnf?
  }

  /** Ending the connection does nothing else to the record. */
  lemma WedgedError(e: Endpoint, reason: AbortReason, io: LocalIo)
    requires e.attached && e.apmr == ApmrWcnf
    ensures StaysWedged(e, ErrorInd(e, reason, io))
  {
  }

  lemma WedgedRequest(e: Endpoint, body: Body, io: LocalIo)
    requires e.attached && e.apmr == ApmrWcnf
    ensures StaysWedged(e, Request(e, body, io).0)
  {
    if e.apms != ApmsOpen {
      WedgedError(e, AlpmiInvalid, io);
      NegativeEnds(e, io);
      hide ErrorInd, AlpmrCnf;
    }
  }

  lemma WedgedTimer(e: Endpoint, io: LocalIo)
    requires (e.apms == ApmsWtack ==> e.attached) && e.apmr == ApmrWcnf
    ensures StaysWedged(e, Timeout(e, io))
  {
    if e.apms == ApmsWtack {
      WedgedError(e.(apms := ApmsOpen), SendNotConfirmed, io);
      hide ErrorInd;
    }
  }

  lemma WedgedDelivery(m: Numbering, e: Endpoint, f: Frame, io: LocalIo)
    requires e.attached && e.apmr == ApmrWcnf
    ensures StaysWedged(e, OnFrame(m, e, f, io).0)
  {
    forall reason ensures StaysWedged(e, ErrorInd(e, reason, io)) { WedgedError(e, reason, io); }
    WedgedTack(m, e, f);
    hide ErrorInd, ApmsDataInd;
  }

  lemma WedgedTack(m: Numbering, e: Endpoint, f: Frame)
    requires e.apmr == ApmrWcnf
    ensures StaysWedged(e, ApmsDataInd(m, e, f))
  {
  }

  lemma WedgedAck(e: Endpoint, arg: AlarmArg, status: PnioStatus, io: LocalIo)
    requires (e.alpmr == AlpmrUserAck ==> e.attached) && e.apmr == ApmrWcnf
    ensures StaysWedged(e, UserAck(e, arg, status, io).0)
  {
    if e.alpmr == AlpmrUserAck {
      WedgedRequest(AckStarted(e), AlarmAck(arg, status), io);
      hide Request;
      WedgedComposes(e, AckStarted(e), Request(AckStarted(e), AlarmAck(arg, status), io).0);
    }
  }

  lemma WedgedSend(e: Endpoint, alarm: Alarm, io: LocalIo)
    requires e.attached && e.alpmi == AlpmiAlarm && e.apmr == ApmrWcnf
    ensures StaysWedged(e, SendAlarm(e, alarm, io).0)
  {
    SendShape(e, alarm, io);
    WedgedRequest(SendStarted(e), Notification(AlarmArg(alarm, e.alarmSeq)), io);
    hide Request, SendAlarm;
  }

  lemma WedgedClose(e: Endpoint, code: nat, bye: bool)
    requires e.apmr == ApmrWcnf
    ensures StaysWedged(e, Close(e, code, bye))
  {
  }

  lemma WedgedStep(m: Numbering, e: Endpoint, input: Input, io: LocalIo)
    requires Inv(m, e) && e.apmr == ApmrWcnf
    ensures StaysWedged(e, Step(m, e, input, io))
  {
    hide StaysWedged, OnFrame, Timeout, UserAck, SendAlarm, Close, CountersFit, StopAndWait, RetriesBounded, CycleFits;
    match input
    case Deliver(f) => WedgedDelivery(m, e, f, io);
    case TimerFires => WedgedTimer(e, io);
    case Ack(arg, status) => WedgedAck(e, arg, status, io);
    case Send(alarm) =>
      if e.alpmi == AlpmiAlarm {
        WedgedSend(e, alarm, io);
      } else {
        WedgedSame(e);
      }
    case CloseReq(code) => WedgedClose(e, code, io.bye);
  }

  lemma WedgedSame(e: Endpoint)
    requires e.apmr == ApmrWcnf
    ensures StaysWedged(e, e)
  {
  }

  lemma WedgedComposes(e: Endpoint, e1: Endpoint, r: Endpoint)
    requires StaysWedged(e, e1) && StaysWedged(e1, r)
    ensures StaysWedged(e, r)
  {
    forall t | |e.events| <= t < |r.events| ensures !r.events[t].AlarmInd? && !r.events[t].AlarmCnf? {
      if t < |e1.events| {
        assert r.events[t] == r.events[..|e1.events|][t];
      }
    }
    assert r.events[..|e.events|] == r.events[..|e1.events|][..|e.events|];
  }

  /** For good: until it is closed, the level accepts nothing and tells its user nothing any more. */
  lemma {:induction false} WedgedForGood(m: Numbering, e: Endpoint, inputs: seq<(Input, LocalIo)>)
    requires Inv(m, e) && e.apmr == ApmrWcnf
    ensures StaysWedged(e, Run(m, e, inputs))
    decreases |inputs|
  {
    if inputs != [] {
      var e1 := Step(m, e, inputs[0].0, inputs[0].1);
      StepKeepsInv(m, e, inputs[0].0, inputs[0].1);
      WedgedStep(m, e, inputs[0].0, inputs[0].1);
      if e1.apmr == ApmrWcnf {
        WedgedForGood(m, e1, inputs[1..]);
      } else {
        ClosedForever(m, e1, inputs[1..]);
      }
      hide Inv, Step;
      WedgedComposes(e, e1, Run(m, e1, inputs[1..]));
    }
  }

  // ---------------------------------------------------------------- the sender

  /** A request leaves a frame to send again exactly if its buffer could be allocated. */
  lemma SavedIffAllocated(m: Numbering, e: Endpoint, body: Body, io: LocalIo)
    requires Core(m, e) && e.apms == ApmsOpen
    ensures var r := Request(e, body, io).0; r.apms == ApmsWtack && (r.rta.Some? <==> io.alloc)
  {
  }

  /** Without it the timer has no effect, however often it fires. */
  lemma {:induction false} UnsavedWaits(m: Numbering, e: Endpoint, ios: seq<LocalIo>)
    requires Inv(m, e) && e.apms == ApmsWtack && e.rta.None?
    ensures Run(m, e, Firings(ios)) == e
    decreases |ios|
  {
    if ios != [] {
      RetransmissionFirst(m, e, ios);
      UnsavedWaits(m, e, ios[1..]);
    }
  }

  /** So the timer ends a wait exactly if a frame was saved. */
  lemma WaitEndsIffSaved(m: Numbering, e: Endpoint, ios: seq<LocalIo>)
    requires Inv(m, e) && e.apms == ApmsWtack && |ios| > e.resend
    ensures Run(m, e, Firings(ios)).apms == ApmsClosed <==> e.rta.Some?
  {
    if e.rta.Some? {
      RetransmissionRun(m, e, ios);
    } else {
      UnsavedWaits(m, e, ios);
    }
  }

  /** Every request of the run got its buffer. */
  predicate Allocated(inputs: seq<(Input, LocalIo)>) {
    forall t :: 0 <= t < |inputs| && (inputs[t].0.Ack? || inputs[t].0.Send?) ==> inputs[t].1.alloc
  }

  predicate SavedWhileWaiting(e: Endpoint) {
    e.apms == ApmsWtack ==> e.rta.Some?
  }

  lemma StepKeepsSaved(m: Numbering, e: Endpoint, input: Input, io: LocalIo)
    requires Inv(m, e) && SavedWhileWaiting(e) && (input.Ack? || input.Send? ==> io.alloc)
    ensures SavedWhileWaiting(Step(m, e, input, io))
  {
    if e.apms == ApmsWtack {
      WaitingStep(m, e, input, io);
      if Step(m, e, input, io).confirms == e.confirms + 1 {
        ConfirmedIsOpen(m, e, input, io);
      }
      hide Inv, Step;
    } else if e.apms == ApmsOpen {
      NewWaitIsSaved(m, e, input, io);
    } else {
      ClosedStep(m, e, input, io);
    }
  }

  /** A confirmation leaves APMS open, or the connection ends. */
  lemma ConfirmedIsOpen(m: Numbering, e: Endpoint, input: Input, io: LocalIo)
    requires Inv(m, e) && e.apms == ApmsWtack && Step(m, e, input, io).confirms == e.confirms + 1
    ensures Step(m, e, input, io).apms != ApmsWtack
  {
    StepKeepsInv(m, e, input, io);
    NoMoreRequests(m, e, input, io);
  }

  lemma NoMoreRequests(m: Numbering, e: Endpoint, input: Input, io: LocalIo)
    requires Inv(m, e) && e.apms == ApmsWtack
    ensures Step(m, e, input, io).requests == e.requests
  {
    match input
    case Deliver(f) => DeliverRequests(m, e, f, io);
    case TimerFires => hide Inv;
    case CloseReq(_) => hide Inv;
    case Ack(arg, status) =>
      if e.alpmr == AlpmrUserAck {
        UserAckNotOpen(m, e, arg, status, io);
        ErrorRequests(AckStarted(e), AlpmiInvalid, io);
        hide Request, ErrorInd;
      }
    case Send(alarm) =>
      if e.alpmi == AlpmiAlarm {
        SendShape(e, alarm, io);
        UserStatesKeepCore(m, e, SendStarted(e));
        RequestNotOpen(m, SendStarted(e), Notification(AlarmArg(alarm, e.alarmSeq)), io);
        ErrorRequests(SendStarted(e), AlpmiInvalid, io);
        hide Request, ErrorInd, SendAlarm;
      }
  }

  lemma RequestSaves(e: Endpoint, body: Body, io: LocalIo)
    requires e.attached && e.apms == ApmsOpen && io.alloc
    ensures SavedWhileWaiting(Request(e, body, io).0)
  {
  }

  lemma NewWaitIsSaved(m: Numbering, e: Endpoint, input: Input, io: LocalIo)
    requires Inv(m, e) && e.apms == ApmsOpen && (input.Ack? || input.Send? ==> io.alloc)
    ensures SavedWhileWaiting(Step(m, e, input, io))
  {
    match input
    case Deliver(f) =>
      StillNoRequest(m, e, f, io);
      hide Inv, Step;
    case TimerFires => hide Inv;
    case CloseReq(_) => hide Inv;
    case Ack(arg, status) =>
      if e.alpmr == AlpmrUserAck {
        RequestSaves(AckStarted(e), AlarmAck(arg, status), io);
        hide Request, CountersFit, StopAndWait, RetriesBounded, CycleFits;
      }
    case Send(alarm) =>
      if e.alpmi == AlpmiAlarm {
        SendShape(e, alarm, io);
        RequestSaves(SendStarted(e), Notification(AlarmArg(alarm, e.alarmSeq)), io);
        hide Request, SendAlarm, CountersFit, StopAndWait, RetriesBounded, CycleFits;
      }
  }

  /** A frame that arrives at an open APMS does not make it wait. */
  lemma StillNoRequest(m: Numbering, e: Endpoint, f: Frame, io: LocalIo)
    requires Inv(m, e) && e.apms == ApmsOpen
    ensures Step(m, e, Deliver(f), io).apms != ApmsWtack
  {
    DeliverRequests(m, e, f, io);
    DeliverEffect(m, e, f, io);
    StepKeepsInv(m, e, Deliver(f), io);
    hide Step, CountersFit, RetriesBounded, CycleFits;
  }

  lemma {:induction false} AllocatedRunSaves(m: Numbering, e: Endpoint, inputs: seq<(Input, LocalIo)>)
    requires Inv(m, e) && SavedWhileWaiting(e) && Allocated(inputs)
    ensures SavedWhileWaiting(Run(m, e, inputs))
    decreases |inputs|
  {
    if inputs != [] {
      StepKeepsInv(m, e, inputs[0].0, inputs[0].1);
      StepKeepsSaved(m, e, inputs[0].0, inputs[0].1);
      hide Inv, Step;
      AllocatedRunSaves(m, Step(m, e, inputs[0].0, inputs[0].1), inputs[1..]);
    }
  }

  /** If all requests since activation got their buffers, a wait ends within the retry budget: the
      frame is confirmed or the connection closed, whatever else happens. */
  lemma AllocatedWaitEnds(low: bool, retries: nat, inputs: seq<(Input, LocalIo)>, more: seq<(Input, LocalIo)>)
    requires Allocated(inputs)
    ensures var e := RunFromStart(low, retries, inputs);
            e.apms == ApmsWtack && TimerCount(more) > e.resend ==>
              var r := Run(Wire15, e, more);
              r.confirms > e.confirms || r.apms == ApmsClosed
  {
    ActivatedInv(Wire15, low, retries);
    AllocatedRunSaves(Wire15, Activated(Wire15, low, retries), inputs);
    var e := RunFromStart(low, retries, inputs);
    hide Inv, Run;
    if e.apms == ApmsWtack && TimerCount(more) > e.resend {
      WaitingEnds(Wire15, e, more);
    }
  }
}
