/**
 Results about one endpoint that hold whatever the peer sends, over whole runs and
 with any outcome of the local calls.
 */
module AlarmEndpointTheorems {
  import opened SequenceNumbers
  import opened AlarmEndpoint
  import opened AlarmEndpointRuns
  import opened Wrappers

  /** The endpoint after `inputs`, counted from its activation. */
  function RunFromStart(low: bool, retries: nat, inputs: seq<(Input, LocalIo)>): (r: Endpoint)
    ensures Inv(Wire15, r)
  {
    ActivatedInv(Wire15, low, retries);
    Run(Wire15, Activated(Wire15, low, retries), inputs)
  }

  /** One more input. */
  lemma {:induction false} RunSnoc(m: Numbering, e: Endpoint, inputs: seq<(Input, LocalIo)>, input: Input, io: LocalIo)
    requires Inv(m, e)
    ensures Run(m, e, inputs + [(input, io)]) == Step(m, Run(m, e, inputs), input, io)
    decreases |inputs|
  {
    hide Inv, Step;
    StepKeepsInv(m, e, (inputs + [(input, io)])[0].0, (inputs + [(input, io)])[0].1);
    if inputs == [] {
      assert [(input, io)][1..] == [];
    } else {
      assert (inputs + [(input, io)])[1..] == inputs[1..] + [(input, io)];
      RunSnoc(m, Step(m, e, inputs[0].0, inputs[0].1), inputs[1..], input, io);
    }
  }

  /** A run in two parts. */
  lemma {:induction false} RunSplit(m: Numbering, e: Endpoint, first: seq<(Input, LocalIo)>,
                                      rest: seq<(Input, LocalIo)>)
    requires Inv(m, e)
    ensures Run(m, e, first + rest) == Run(m, Run(m, e, first), rest)
    decreases |first|
  {
    hide Inv, Step;
    if first == [] {
      assert first + rest == rest;
    } else {
      StepKeepsInv(m, e, first[0].0, first[0].1);
      assert (first + rest)[0] == first[0] && (first + rest)[1..] == first[1..] + rest;
      RunSplit(m, Step(m, e, first[0].0, first[0].1), first[1..], rest);
    }
  }

  lemma RunFromStartSnoc(low: bool, retries: nat, inputs: seq<(Input, LocalIo)>, input: Input, io: LocalIo)
    ensures RunFromStart(low, retries, inputs + [(input, io)])
         == Step(Wire15, RunFromStart(low, retries, inputs), input, io)
  {
    ActivatedInv(Wire15, low, retries);
    RunSnoc(Wire15, Activated(Wire15, low, retries), inputs, input, io);
  }

  lemma RunFromStartSplit(low: bool, retries: nat, first: seq<(Input, LocalIo)>, rest: seq<(Input, LocalIo)>)
    ensures RunFromStart(low, retries, first + rest) == Run(Wire15, RunFromStart(low, retries, first), rest)
  {
    ActivatedInv(Wire15, low, retries);
    RunSplit(Wire15, Activated(Wire15, low, retries), first, rest);
  }

  // ---------------------------------------------------------------- what one input changes

  /** No user ack is recorded, and the record only grows. */
  predicate RecordGrows(e: Endpoint, r: Endpoint) {
    && |e.events| <= |r.events| && r.events[..|e.events|] == e.events
    && (forall t :: |e.events| <= t < |r.events| ==> !r.events[t].AckTaken?)
    && e.confirms <= r.confirms && r.retries == e.retries
  }

  /** The wait for a confirmation ends or goes on with the same saved frame. */
  predicate WaitGoesOn(e: Endpoint, r: Endpoint) {
    || r.apms == ApmsClosed
    || r.confirms == e.confirms + 1
    || (r.apms == e.apms && r.confirms == e.confirms && r.rta == e.rta && r.resend == e.resend)
  }

  lemma ApmsDataIndEffect(m: Numbering, e: Endpoint, f: Frame)
    requires Inv(m, e)
    ensures RecordGrows(e, ApmsDataInd(m, e, f)) && WaitGoesOn(e, ApmsDataInd(m, e, f))
  {
  }

  lemma AcceptEffect(m: Numbering, e: Endpoint, f: Frame, io: LocalIo)
    requires Inv(m, e)
    ensures RecordGrows(e, Accept(m, e, f, io).0) && WaitGoesOn(e, Accept(m, e, f, io).0)
  {
    ApmsDataIndEffect(m, e, f);
  }

  lemma IndicateEffect(e: Endpoint, body: Body, io: LocalIo)
    requires e.attached
    ensures var r := Indicate(e, body, io).0;
            && RecordGrows(e, r) && r.confirms == e.confirms
            && (r.apms == ApmsClosed || (r.apms == e.apms && r.rta == e.rta && r.resend == e.resend))
  {
  }

  lemma ErrorEffect(e: Endpoint, reason: AbortReason, io: LocalIo)
    requires e.attached
    ensures var r := ErrorInd(e, reason, io);
            && RecordGrows(e, r) && WaitGoesOn(e, r) && r.apms == ApmsClosed
            && r.events == e.events + [Aborted(reason)]
  {
  }

  /** After the first negative confirmation has ended the connection, the second has no effect. */
  lemma NegativeEnds(e: Endpoint, io: LocalIo)
    requires e.attached
    ensures AlpmrCnf(AlpmiCnf(e, false, io), false, 0, io) == ErrorInd(e, AlpmiInvalid, io)
  {
  }

  lemma EffectsCompose(e: Endpoint, e1: Endpoint, r: Endpoint)
    requires RecordGrows(e, e1) && WaitGoesOn(e, e1) && RecordGrows(e1, r) && r.confirms == e1.confirms
    requires r.apms == ApmsClosed || (r.apms == e1.apms && r.rta == e1.rta && r.resend == e1.resend)
    ensures RecordGrows(e, r) && WaitGoesOn(e, r)
  {
    forall t | |e.events| <= t < |r.events| ensures !r.events[t].AckTaken? {
      if t < |e1.events| { assert r.events[t] == r.events[..|e1.events|][t]; }
    }
    assert r.events[..|e.events|] == r.events[..|e1.events|][..|e.events|];
  }

  lemma ExpectedEffect(m: Numbering, e: Endpoint, f: Frame, io: LocalIo)
    requires Inv(m, e) && e.apmr == ApmrOpen && f.tack && f.sendSeq == e.expSeq
    ensures var r := ApmrDataInd(m, e, f, io).0; RecordGrows(e, r) && WaitGoesOn(e, r)
  {
    if f.body.AlarmAck? || f.body.Notification? || f.body.MalformedNotification? {
      var (e1, ok) := Accept(m, e, f, io);
      AcceptEffect(m, e, f, io);
      AcceptKeepsStates(m, e, f, io);
      if ok {
        IndicateEffect(e1, f.body, io);
        EffectsCompose(e, e1, Indicate(e1, f.body, io).0);
      }
    } else {
      ErrorEffect(e, AlarmIndError, io);
    }
  }

  lemma DataEffect(m: Numbering, e: Endpoint, f: Frame, io: LocalIo)
    requires Inv(m, e) && e.attached
    ensures var r := ApmrDataInd(m, e, f, io).0; RecordGrows(e, r) && WaitGoesOn(e, r)
  {
    if e.apmr == ApmrOpen && f.tack {
      if f.sendSeq == e.expSeq {
        ExpectedEffect(m, e, f, io);
      } else if f.sendSeq == e.expSeqO {
        ApmsDataIndEffect(m, e, f);
      }
    }
  }

  lemma DeliverEffect(m: Numbering, e: Endpoint, f: Frame, io: LocalIo)
    requires Inv(m, e)
    ensures var r := Step(m, e, Deliver(f), io); RecordGrows(e, r) && WaitGoesOn(e, r)
  {
    hide ApmsDataInd, ApmrDataInd, ErrorInd;
    if e.apmr != ApmrClosed {
      match f.pdu
      case PduAck => ApmsDataIndEffect(m, e, f);
      case PduData => DataEffect(m, e, f, io);
      case PduErr =>
        if f.version == 1 && f.varLenOk {
          var reason := if e.apmr != ApmrOpen then ApmrInvalidState
                        else if f.body.ErrStatus? then PeerError(f.body.errCls, f.body.errCode) else PeerError(0, 0);
          ErrorEffect(e, reason, io);
        }
      case _ =>
    }
  }

  lemma RequestEffect(e: Endpoint, body: Body, io: LocalIo)
    requires e.attached
    ensures var r := Request(e, body, io).0;
            RecordGrows(e, r) && r.confirms == e.confirms
  {
  }

  lemma AckEffect(e: Endpoint, arg: AlarmArg, status: PnioStatus, io: LocalIo)
    requires e.alpmr == AlpmrUserAck ==> e.attached
    ensures var r := UserAck(e, arg, status, io).0;
            r.confirms == e.confirms && r.retries == e.retries
  {
    if e.alpmr == AlpmrUserAck {
      RequestEffect(AckStarted(e), AlarmAck(arg, status), io);
    }
  }

  lemma SendEffect(e: Endpoint, alarm: Alarm, io: LocalIo)
    requires e.attached && e.alpmi == AlpmiAlarm
    ensures var r := SendAlarm(e, alarm, io).0;
            RecordGrows(e, r) && r.confirms == e.confirms
  {
    RequestEffect(SendStarted(e), Notification(AlarmArg(alarm, e.alarmSeq)), io);
    SendShape(e, alarm, io);
    hide Request, SendAlarm;
  }

  lemma TimeoutEffect(e: Endpoint, io: LocalIo)
    requires e.apms == ApmsWtack ==> e.attached
    ensures RecordGrows(e, Timeout(e, io)) && Timeout(e, io).confirms == e.confirms
  {
    if e.apms == ApmsWtack && e.rta.Some? && e.resend == 0 {
      ErrorEffect(e.(apms := ApmsOpen), SendNotConfirmed, io);
    }
  }

  lemma LocalEffect(m: Numbering, e: Endpoint, input: Input, io: LocalIo)
    requires Inv(m, e) && !input.Deliver?
    ensures var r := Step(m, e, input, io);
            && r.confirms == e.confirms && r.retries == e.retries
            && (!input.Ack? ==> RecordGrows(e, r))
  {
    match input
    case TimerFires => TimeoutEffect(e, io);
    case Ack(arg, status) => AckEffect(e, arg, status, io);
    case Send(alarm) => if e.alpmi == AlpmiAlarm { SendEffect(e, alarm, io); }
    case _ =>
  }

  // ---------------------------------------------------------------- requests

  /** A request succeeds exactly if APMS is free and its frame is built and sent and its timer started. */
  predicate Goes(e: Endpoint, io: LocalIo) {
    e.apms == ApmsOpen && io.alloc && io.send && io.sched
  }

  lemma AckOutcome(e: Endpoint, arg: AlarmArg, status: PnioStatus, io: LocalIo)
    requires e.alpmr == AlpmrUserAck ==> e.attached
    ensures UserAck(e, arg, status, io).1 <==> e.alpmr == AlpmrUserAck && Goes(e, io)
    ensures e.alpmr != AlpmrUserAck ==> UserAck(e, arg, status, io).0 == e
  {
    hide ErrorInd;
  }

  // ---------------------------------------------------------------- arriving frames make no requests

  lemma ExpectedRequests(m: Numbering, e: Endpoint, f: Frame, io: LocalIo)
    requires Inv(m, e) && e.apmr == ApmrOpen && f.tack && f.sendSeq == e.expSeq
    ensures var r := ApmrDataInd(m, e, f, io).0; r.requests == e.requests && r.alarmSeq == e.alarmSeq
  {
    AcceptKeepsStates(m, e, f, io);
    hide Inv, Accept, Indicate, ErrorInd;
    var e1 := Accept(m, e, f, io).0;
    IndicateRequests(e1, f.body, io);
    ErrorRequests(e, AlarmIndError, io);
  }

  lemma IndicateRequests(e: Endpoint, body: Body, io: LocalIo)
    requires e.attached
    ensures var r := Indicate(e, body, io).0; r.requests == e.requests && r.alarmSeq == e.alarmSeq
  {
  }

  lemma ApmsRequests(m: Numbering, e: Endpoint, f: Frame)
    ensures var r := ApmsDataInd(m, e, f); r.requests == e.requests && r.alarmSeq == e.alarmSeq
  {
  }

  lemma ErrorRequests(e: Endpoint, reason: AbortReason, io: LocalIo)
    requires e.attached
    ensures var r := ErrorInd(e, reason, io); r.requests == e.requests && r.alarmSeq == e.alarmSeq
  {
  }

  lemma DataRequests(m: Numbering, e: Endpoint, f: Frame, io: LocalIo)
    requires Inv(m, e) && e.attached
    ensures var r := ApmrDataInd(m, e, f, io).0; r.requests == e.requests && r.alarmSeq == e.alarmSeq
  {
    hide Inv;
    if e.apmr == ApmrOpen && f.tack && f.sendSeq == e.expSeq {
      ExpectedRequests(m, e, f, io);
    }
  }

  lemma DeliverRequests(m: Numbering, e: Endpoint, f: Frame, io: LocalIo)
    requires Inv(m, e)
    ensures var r := Step(m, e, Deliver(f), io); r.requests == e.requests && r.alarmSeq == e.alarmSeq
  {
    hide ApmrDataInd, ApmsDataInd, ErrorInd;
    if e.attached {
      DataRequests(m, e, f, io);
      ApmsRequests(m, e, f);
      forall reason ensures var r := ErrorInd(e, reason, io); r.requests == e.requests && r.alarmSeq == e.alarmSeq {
        ErrorRequests(e, reason, io);
      }
    }
  }

  // ---------------------------------------------------------------- receiving

  /** The n-th accepted DATA frame carries wire number 0xffff for n = 0 and (n - 1) mod 0x8000
      after that; the two expected numbers are those of the next and of the latest frame, and differ. */
  lemma AcceptedWireNumbers(low: bool, retries: nat, inputs: seq<(Input, LocalIo)>, n: nat)
    requires n < |RunFromStart(low, retries, inputs).acceptedSeq|
    ensures var r := RunFromStart(low, retries, inputs);
            && r.acceptedSeq[n] == (if n == 0 then 0xffff else (n - 1) % 0x8000)
            && r.expSeqO == r.acceptedSeq[|r.acceptedSeq| - 1]
            && r.expSeqO != r.expSeq
  {
    var r := RunFromStart(low, retries, inputs);
    WireOfInjective(|r.accepted|, |r.accepted| - 1);
  }

  /** The transport acknowledge, or its refusal, of a level that has had `confirms` of its own frames
      confirmed and has accepted `accepted` frames. */
  function Control(pdu: PduType, confirms: nat, accepted: nat): Frame {
    Frame(1, pdu, false, WireOf(confirms - 1), WireOf(accepted - 1), true, Empty)
  }

  /** What becomes of a DATA frame at an open receiver when the local calls succeed: the
      expected one is accepted and acked, the latest one again is only re-acked, any other is
      refused with a NACK and changes nothing else. */
  lemma DataFrameFate(e: Endpoint, f: Frame, io: LocalIo)
    requires Inv(Wire15, e) && e.apmr == ApmrOpen
    requires f.version == 1 && f.pdu == PduData && f.tack && io.alloc && io.send
    ensures var r := Step(Wire15, e, Deliver(f), io);
            var known := f.body.Notification? || f.body.AlarmAck? || f.body.MalformedNotification?;
            if f.sendSeq == WireOf(|e.accepted|) then
              if known then
                && r.accepted == e.accepted + [f.body]
                && |r.out| > |e.out| && r.out[|e.out|] == Control(PduAck, r.confirms, |r.accepted|)
                && (r.apmr == ApmrWcnf <==> f.body.MalformedNotification?)
              else r.apms == ApmsClosed && r.accepted == e.accepted && Aborted(AlarmIndError) in r.events
            else if f.sendSeq == WireOf(|e.accepted| - 1) then
              && r == ApmsDataInd(Wire15, e, f).(out := r.out)
              && r.out == e.out + [Control(PduAck, r.confirms, |r.accepted|)]
            else
              && r == e.(out := r.out, events := e.events + [SequenceError])
              && r.out == e.out + [Control(PduNack, r.confirms, |r.accepted|)]
  {
    ExpectedNumbers(e);
    hide Inv, Step, ApmsDataInd;
    if f.sendSeq == e.expSeq {
      ExpectedFate(e, f, io);
    } else {
      OtherFate(e, f, io);
    }
  }

  lemma ExpectedNumbers(e: Endpoint)
    requires Inv(Wire15, e)
    ensures e.expSeq == WireOf(|e.accepted|) && e.expSeqO == WireOf(|e.accepted| - 1) && e.expSeq != e.expSeqO
  {
    WireOfInjective(|e.accepted|, |e.accepted| - 1);
  }

  lemma ControlIs(e: Endpoint, pdu: PduType)
    requires CountersFit(Wire15, e)
    ensures ControlFrame(e, pdu) == Control(pdu, e.confirms, |e.accepted|)
  {
  }

  lemma ExpectedFate(e: Endpoint, f: Frame, io: LocalIo)
    requires Inv(Wire15, e) && e.apmr == ApmrOpen && f.sendSeq == e.expSeq
    requires f.version == 1 && f.pdu == PduData && f.tack && io.alloc && io.send
    ensures var r := Step(Wire15, e, Deliver(f), io);
            if f.body.Notification? || f.body.AlarmAck? || f.body.MalformedNotification? then
              && r.accepted == e.accepted + [f.body]
              && |r.out| > |e.out| && r.out[|e.out|] == Control(PduAck, r.confirms, |r.accepted|)
              && (r.apmr == ApmrWcnf <==> f.body.MalformedNotification?)
            else r.apms == ApmsClosed && r.accepted == e.accepted && Aborted(AlarmIndError) in r.events
  {
    if f.body.Notification? || f.body.AlarmAck? || f.body.MalformedNotification? {
      AcceptOutput(e, f, io);
      hide Inv, Accept, ApmsDataInd, Indicate, Control;
      IndicateOutput(Accept(Wire15, e, f, io).0, f.body, io);
    } else {
      ErrorEffect(e, AlarmIndError, io);
    }
  }

  lemma OtherFate(e: Endpoint, f: Frame, io: LocalIo)
    requires Inv(Wire15, e) && e.apmr == ApmrOpen && f.sendSeq != e.expSeq
    requires f.version == 1 && f.pdu == PduData && f.tack && io.alloc && io.send
    ensures var r := Step(Wire15, e, Deliver(f), io);
            if f.sendSeq == e.expSeqO then
              && r == ApmsDataInd(Wire15, e, f).(out := r.out)
              && r.out == e.out + [Control(PduAck, r.confirms, |r.accepted|)]
            else
              && r == e.(out := r.out, events := e.events + [SequenceError])
              && r.out == e.out + [Control(PduNack, r.confirms, |r.accepted|)]
  {
    var e1 := ApmsDataInd(Wire15, e, f);
    ApmsDataIndKeepsInv(Wire15, e, f);
    TackKeepsOut(e, f);
    ControlIs(e1, PduAck);
    ControlIs(e, PduNack);
    hide CountersFit, StopAndWait, RetriesBounded, CycleFits, ApmsDataInd, Control, ControlFrame;
    assert ControlFrame(e.(events := e.events + [SequenceError]), PduNack) == ControlFrame(e, PduNack) by {
      SameControl(e, PduNack);
    }
  }

  lemma SameControl(e: Endpoint, pdu: PduType)
    ensures ControlFrame(e.(events := e.events + [SequenceError]), pdu) == ControlFrame(e, pdu)
  {
  }

  lemma TackKeepsOut(e: Endpoint, f: Frame)
    ensures ApmsDataInd(Wire15, e, f).out == e.out && ApmsDataInd(Wire15, e, f).expSeqO == e.expSeqO
  {
  }

  lemma AcceptOutput(e: Endpoint, f: Frame, io: LocalIo)
    requires Inv(Wire15, e) && f.sendSeq == e.expSeq && io.alloc && io.send
    ensures var (r, ok) := Accept(Wire15, e, f, io);
            && ok && r.accepted == e.accepted + [f.body] && r.attached == e.attached && r.apmr == e.apmr
            && r.out == e.out + [Control(PduAck, r.confirms, |r.accepted|)]
            && Control(PduAck, r.confirms, |r.accepted|).ackSeq == f.sendSeq
  {
    TackKeepsOut(e, f);
    ApmsDataIndKeepsInv(Wire15, e, f);
    var e2 := Counting(Wire15, ApmsDataInd(Wire15, e, f), f);
    CountingKeepsInv(Wire15, ApmsDataInd(Wire15, e, f), f);
    ControlIs(e2, PduAck);
    hide StopAndWait, RetriesBounded, CycleFits;
  }

  lemma IndicateOutput(e: Endpoint, body: Body, io: LocalIo)
    requires e.attached && e.apmr == ApmrOpen
    ensures var r := Indicate(e, body, io).0;
            && r.accepted == e.accepted && r.confirms == e.confirms && e.out <= r.out
            && (r.apmr == ApmrWcnf <==> !body.AlarmAck? && !body.Notification?)
  {
  }

  /** An accepted notification reaches the user exactly if its TACK could be sent and ALPMR is,
      or is made by this frame's own ack number, idle.  In every other case it is counted as
      accepted, so a retransmission will not bring it back. */
  lemma IndicatedIffTackSent(e: Endpoint, f: Frame, arg: AlarmArg, io: LocalIo)
    requires Inv(Wire15, e) && e.apmr == ApmrOpen && f.version == 1 && f.pdu == PduData && f.tack
    requires f.sendSeq == e.expSeq && f.body == Notification(arg)
    ensures var r := Step(Wire15, e, Deliver(f), io);
            var e1 := ApmsDataInd(Wire15, e, f);
            && r.accepted == e.accepted + [f.body]
            && (r.events == e1.events + [AlarmInd(arg)] <==> io.alloc && io.send && e1.alpmr == AlpmrNotify)
  {
    AcceptEvents(e, f, io);
    var (e2, ok) := Accept(Wire15, e, f, io);
    var e1 := ApmsDataInd(Wire15, e, f);
    assert |e1.events + [AlarmInd(arg)]| == |e1.events| + 1;
    if ok {
      IndicateEvents(e2, arg, io);
      assert e1.alpmr != AlpmrNotify ==>
          (e1.events + [Aborted(ProtocolViolation)])[|e1.events|] == Aborted(ProtocolViolation);
      assert (e1.events + [AlarmInd(arg)])[|e1.events|] == AlarmInd(arg);
    }
  }

  lemma AcceptEvents(e: Endpoint, f: Frame, io: LocalIo)
    requires Inv(Wire15, e) && e.apmr == ApmrOpen
    ensures var (r, ok) := Accept(Wire15, e, f, io);
            var e1 := ApmsDataInd(Wire15, e, f);
            && r.events == e1.events && r.alpmr == e1.alpmr && r.attached && r.accepted == e.accepted + [f.body]
            && r.alpmr != AlpmrStart
            && ok == (io.alloc && io.send)
  {
  }

  lemma IndicateEvents(e: Endpoint, arg: AlarmArg, io: LocalIo)
    requires e.attached && e.alpmr != AlpmrStart
    ensures var r := Indicate(e, Notification(arg), io).0;
            && r.accepted == e.accepted
            && r.events == e.events + [if e.alpmr == AlpmrNotify then AlarmInd(arg) else Aborted(ProtocolViolation)]
  {
  }

  // ---------------------------------------------------------------- the user's cycle

  predicate CycleEvent(ev: Event) {
    ev.AlarmInd? || ev.AckTaken? || ev.AckCnf?
  }

  /** Once broken, always broken. */
  lemma {:induction false} PrefixNotBroken(events: seq<Event>, n: nat)
    requires n <= |events| && Cycle(events) != Broken
    ensures Cycle(events[..n]) != Broken
    decreases |events|
  {
    if n < |events| {
      PrefixNotBroken(events[..|events| - 1], n);
      assert events[..|events| - 1][..n] == events[..n];
    } else {
      assert events[..n] == events;
    }
  }

  /** Events outside the cycle leave the phase alone. */
  lemma {:induction false} PhaseKept(events: seq<Event>, n: nat, k: nat)
    requires n <= k <= |events|
    requires forall t :: n <= t < k ==> !CycleEvent(events[t])
    ensures Cycle(events[..k]) == Cycle(events[..n])
    decreases k
  {
    if n < k {
      PhaseKept(events, n, k - 1);
      assert events[..k] == events[..k - 1] + [events[k - 1]];
      CycleSnoc(events[..k - 1], events[k - 1]);
    }
  }

  /** The first cycle event at or after `n`. */
  lemma {:induction false} FirstCycleEvent(events: seq<Event>, n: nat, j: nat) returns (p: nat)
    requires n <= j < |events| && CycleEvent(events[j])
    ensures n <= p <= j && CycleEvent(events[p]) && forall t :: n <= t < p ==> !CycleEvent(events[t])
    decreases j - n
  {
    if CycleEvent(events[n]) {
      p := n;
    } else {
      p := FirstCycleEvent(events, n + 1, j);
    }
  }

  lemma PhaseAfter(events: seq<Event>, n: nat)
    requires n < |events|
    ensures Cycle(events[..n + 1]) == CycleNext(Cycle(events[..n]), events[n])
  {
    assert events[..n + 1] == events[..n] + [events[n]];
    CycleSnoc(events[..n], events[n]);
  }

  /** Between two successive alarm indications lie exactly one accepted user ack and, after it,
      the confirmation of that ack's own frame. */
  lemma IndicationsSeparated(low: bool, retries: nat, inputs: seq<(Input, LocalIo)>, i: nat, j: nat)
    returns (p: nat, q: nat, k: nat)
    requires var ev := RunFromStart(low, retries, inputs).events;
             && i < j < |ev| && ev[i].AlarmInd? && ev[j].AlarmInd?
             && forall t :: i < t < j ==> !ev[t].AlarmInd?
    ensures var ev := RunFromStart(low, retries, inputs).events;
            && i < p < q < j < |ev| && ev[p] == AckTaken(k) && ev[q] == AckCnf(k)
            && forall t :: i < t < j && t != p && t != q ==> !CycleEvent(ev[t])
  {
    p, q, k := SeparatedEvents(RunFromStart(low, retries, inputs).events, i, j);
  }

  lemma SeparatedEvents(ev: seq<Event>, i: nat, j: nat) returns (p: nat, q: nat, k: nat)
    requires Cycle(ev) != Broken
    requires i < j < |ev| && ev[i].AlarmInd? && ev[j].AlarmInd? && forall t :: i < t < j ==> !ev[t].AlarmInd?
    ensures i < p < q < j && ev[p] == AckTaken(k) && ev[q] == AckCnf(k)
    ensures forall t :: i < t < j && t != p && t != q ==> !CycleEvent(ev[t])
  {
    PrefixNotBroken(ev, i + 1);
    PhaseAfter(ev, i);
    p := NextCycleEvent(ev, i + 1, j);
    assert ev[p].AckTaken?;
    k := ev[p].index;
    q := NextCycleEvent(ev, p + 1, j);
    assert ev[q] == AckCnf(k);
    var j' := NextCycleEvent(ev, q + 1, j);
    assert j' == j;
  }

  /** The first cycle event at or after `n`, and the phase it leads to. */
  lemma NextCycleEvent(ev: seq<Event>, n: nat, j: nat) returns (p: nat)
    requires Cycle(ev) != Broken && n <= j < |ev| && CycleEvent(ev[j])
    ensures n <= p <= j && CycleEvent(ev[p]) && forall t :: n <= t < p ==> !CycleEvent(ev[t])
    ensures Cycle(ev[..p + 1]) == CycleNext(Cycle(ev[..n]), ev[p]) != Broken
  {
    p := FirstCycleEvent(ev, n, j);
    PhaseKept(ev, n, p);
    PhaseAfter(ev, p);
    PrefixNotBroken(ev, p + 1);
  }

  predicate NoAckTaken(e: Endpoint) {
    forall t :: 0 <= t < |e.events| ==> !e.events[t].AckTaken?
  }

  /** Nothing but a user ack puts an AckTaken on record. */
  lemma NoAckTakenKept(e: Endpoint, input: Input, io: LocalIo)
    requires Inv(Wire15, e) && !input.Ack? && NoAckTaken(e)
    ensures NoAckTaken(Step(Wire15, e, input, io))
  {
    var r := Step(Wire15, e, input, io);
    assert RecordGrows(e, r) by {
      if input.Deliver? { DeliverEffect(Wire15, e, input.f, io); } else { LocalEffect(Wire15, e, input, io); }
    }
    forall t | 0 <= t < |r.events| ensures !r.events[t].AckTaken? {
      if t < |e.events| { assert r.events[t] == r.events[..|e.events|][t]; }
    }
  }

  lemma {:induction false} NoAckTakenRun(e: Endpoint, inputs: seq<(Input, LocalIo)>)
    requires Inv(Wire15, e) && NoAckTaken(e)
    requires forall t :: 0 <= t < |inputs| ==> !inputs[t].0.Ack?
    ensures NoAckTaken(Run(Wire15, e, inputs))
    decreases |inputs|
  {
    if inputs != [] {
      StepKeepsInv(Wire15, e, inputs[0].0, inputs[0].1);
      NoAckTakenKept(e, inputs[0].0, inputs[0].1);
      NoAckTakenRun(Step(Wire15, e, inputs[0].0, inputs[0].1), inputs[1..]);
    }
  }

  /** A level whose user never acks indicates at most one alarm per activation. */
  lemma OneIndicationWithoutAcks(low: bool, retries: nat, inputs: seq<(Input, LocalIo)>, i: nat, j: nat)
    requires forall t :: 0 <= t < |inputs| ==> !inputs[t].0.Ack?
    requires i < j < |RunFromStart(low, retries, inputs).events|
    ensures var ev := RunFromStart(low, retries, inputs).events;
            !(ev[i].AlarmInd? && ev[j].AlarmInd?)
  {
    ActivatedInv(Wire15, low, retries);
    NoAckTakenRun(Activated(Wire15, low, retries), inputs);
    var ev := RunFromStart(low, retries, inputs).events;
    if ev[i].AlarmInd? {
      SecondIndicationNeedsAck(ev, i, j);
    }
  }

  lemma SecondIndicationNeedsAck(ev: seq<Event>, i: nat, j: nat)
    requires Cycle(ev) != Broken && forall t :: 0 <= t < |ev| ==> !ev[t].AckTaken?
    requires i < j < |ev| && ev[i].AlarmInd?
    ensures !ev[j].AlarmInd?
  {
    PrefixNotBroken(ev, j + 1);
    PrefixNotBroken(ev, i + 1);
    PhaseAfter(ev, i);
    if ev[j].AlarmInd? {
      var p := FirstCycleEvent(ev, i + 1, j);
      PhaseKept(ev, i + 1, p);
      PhaseAfter(ev, p);
      PrefixNotBroken(ev, p + 1);
    }
  }

  /** A level that has told its user an alarm and got no ack waits for the ack. */
  lemma ToldWaitsForAck(e: Endpoint, i: nat)
    requires Inv(Wire15, e) && NoAckTaken(e) && e.apms != ApmsClosed && i < |e.events| && e.events[i].AlarmInd?
    ensures e.alpmr == AlpmrUserAck
  {
    var ev := e.events;
    assert ev[..|ev|] == ev;
    PrefixNotBroken(ev, i + 1);
    PhaseAfter(ev, i);
    forall t | i + 1 <= t < |ev| ensures !CycleEvent(ev[t]) {
      if CycleEvent(ev[t]) {
        var p := FirstCycleEvent(ev, i + 1, t);
        PhaseKept(ev, i + 1, p);
        PhaseAfter(ev, p);
        PrefixNotBroken(ev, p + 1);
      }
    }
    PhaseKept(ev, i + 1, |ev|);
    hide Cycle, CountersFit, StopAndWait, RetriesBounded;
  }

  lemma ViolationEvents(e: Endpoint, arg: AlarmArg, io: LocalIo)
    requires e.attached && e.alpmr in {AlpmrUserAck, AlpmrTack}
    ensures var r := Indicate(e, Notification(arg), io).0;
            r.apms == ApmsClosed && r.events == e.events + [Aborted(ProtocolViolation)] && r.accepted == e.accepted
  {
  }

  // ---------------------------------------------------------------- retransmission

  function Copies(f: Frame, n: nat): (s: seq<Frame>)
    ensures |s| == n
  {
    if n == 0 then [] else Copies(f, n - 1) + [f]
  }

  /** One copy of the saved frame for every timer firing whose send succeeds. */
  function Resent(f: Frame, ios: seq<LocalIo>): seq<Frame> {
    if ios == [] then [] else (if ios[0].send then [f] else []) + Resent(f, ios[1..])
  }

  function Firings(ios: seq<LocalIo>): (inputs: seq<(Input, LocalIo)>)
    ensures |inputs| == |ios|
  {
    if ios == [] then [] else [(TimerFires, ios[0])] + Firings(ios[1..])
  }

  /** From `e` to `r` nothing happened but firings of the timer within the budget. */
  predicate Resending(e: Endpoint, r: Endpoint, ios: seq<LocalIo>) {
    && e.rta.Some? && |ios| <= e.resend
    && r == e.(resend := e.resend - |ios|, out := r.out, tx := r.tx)
    && r.out == e.out + Resent(e.rta.value, ios)
  }

  lemma ResendingComposes(e: Endpoint, e1: Endpoint, r: Endpoint, ios: seq<LocalIo>)
    requires ios != [] && Resending(e, e1, ios[..1]) && Resending(e1, r, ios[1..])
    ensures Resending(e, r, ios)
  {
    var f := e.rta.value;
    assert Resent(f, ios[..1]) == (if ios[0].send then [f] else []) + Resent(f, ios[..1][1..]);
    assert (e.out + Resent(f, ios[..1])) + Resent(f, ios[1..]) == e.out + (Resent(f, ios[..1]) + Resent(f, ios[1..]));
  }

  /** One firing of the timer while a saved frame waits. */
  lemma FiringStep(m: Numbering, e: Endpoint, io: LocalIo)
    requires Inv(m, e) && e.apms == ApmsWtack && e.rta.Some?
    ensures var r := Step(m, e, TimerFires, io);
            if e.resend > 0 then Resending(e, r, [io])
            else r.apms == ApmsClosed && r.events == e.events + [Aborted(SendNotConfirmed)]
  {
    hide CountersFit, StopAndWait, RetriesBounded, CycleFits, ErrorInd;
    if e.resend == 0 {
      ErrorEffect(e.(apms := ApmsOpen), SendNotConfirmed, io);
    } else {
      assert Resent(e.rta.value, [io]) == if io.send then [e.rta.value] else [];
    }
  }

  /** As long as the retry budget lasts, every firing of the timer sends the saved frame again
      and changes nothing but the budget; the first firing after that ends the connection. */
  lemma {:induction false} RetransmissionRun(m: Numbering, e: Endpoint, ios: seq<LocalIo>)
    requires Inv(m, e) && e.apms == ApmsWtack && e.rta.Some?
    ensures var r := Run(m, e, Firings(ios));
            if |ios| <= e.resend then Resending(e, r, ios)
            else r.apms == ApmsClosed && r.events == e.events + [Aborted(SendNotConfirmed)]
    decreases |ios|
  {
    if ios == [] {
      assert e.out + [] == e.out;
    } else {
      RetransmissionFirst(m, e, ios);
      var e1 := Step(m, e, TimerFires, ios[0]);
      FiringStep(m, e, ios[0]);
      if e.resend > 0 {
        assert ios[..1] == [ios[0]];
        RetransmissionRun(m, e1, ios[1..]);
        if |ios| <= e.resend {
          ResendingComposes(e, e1, Run(m, e, Firings(ios)), ios);
        }
      } else {
        ClosedForever(m, e1, Firings(ios[1..]));
      }
    }
  }

  lemma RetransmissionFirst(m: Numbering, e: Endpoint, ios: seq<LocalIo>)
    requires Inv(m, e) && ios != []
    ensures Inv(m, Step(m, e, TimerFires, ios[0]))
    ensures Run(m, e, Firings(ios)) == Run(m, Step(m, e, TimerFires, ios[0]), Firings(ios[1..]))
  {
    StepKeepsInv(m, e, TimerFires, ios[0]);
    assert Firings(ios)[1..] == Firings(ios[1..]);
  }

  /** No input changes the record of a closed level. */
  lemma ClosedStep(m: Numbering, e: Endpoint, input: Input, io: LocalIo)
    requires Inv(m, e) && e.apms == ApmsClosed
    ensures var r := Step(m, e, input, io);
            && r.apms == ApmsClosed && r.events == e.events && r.confirms == e.confirms
            && r.accepted == e.accepted && r.requests == e.requests && r.out == e.out && r.low == e.low
  {
    hide CountersFit, StopAndWait, RetriesBounded, CycleFits;
  }

  /** A closed level stays closed and keeps its record. */
  lemma {:induction false} ClosedForever(m: Numbering, e: Endpoint, inputs: seq<(Input, LocalIo)>)
    requires Inv(m, e) && e.apms == ApmsClosed
    ensures var r := Run(m, e, inputs);
            && r.apms == ApmsClosed && r.events == e.events && r.confirms == e.confirms
            && r.accepted == e.accepted && r.requests == e.requests && r.out == e.out && r.low == e.low
    decreases |inputs|
  {
    if inputs != [] {
      StepKeepsInv(m, e, inputs[0].0, inputs[0].1);
      ClosedStep(m, e, inputs[0].0, inputs[0].1);
      hide Inv, Step;
      ClosedForever(m, Step(m, e, inputs[0].0, inputs[0].1), inputs[1..]);
    }
  }

  function TimerCount(inputs: seq<(Input, LocalIo)>): nat {
    if inputs == [] then 0
    else (if inputs[0].0.TimerFires? then 1 else 0) + TimerCount(inputs[1..])
  }

  /** One input while a request waits: the wait ends, or what is saved stays and the budget shrinks
      with every firing of the timer.  Without a saved frame a firing does nothing. */
  lemma WaitingStep(m: Numbering, e: Endpoint, input: Input, io: LocalIo)
    requires Inv(m, e) && e.apms == ApmsWtack
    ensures var r := Step(m, e, input, io);
            || r.apms == ApmsClosed
            || r.confirms == e.confirms + 1
            || (&& r.apms == ApmsWtack && r.confirms == e.confirms && r.rta == e.rta && r.resend <= e.resend
                && (input.TimerFires? ==> if e.rta.Some? then r.resend < e.resend else r == e))
  {
    match input
    case Deliver(f) => DeliverEffect(m, e, f, io);
    case TimerFires => if e.rta.Some? { FiringStep(m, e, io); }
    case _ =>
  }

  /** Confirmations are never taken back. */
  lemma {:induction false} ConfirmsGrow(m: Numbering, e: Endpoint, inputs: seq<(Input, LocalIo)>)
    requires Inv(m, e)
    ensures Run(m, e, inputs).confirms >= e.confirms
    decreases |inputs|
  {
    if inputs != [] {
      StepKeepsInv(m, e, inputs[0].0, inputs[0].1);
      if inputs[0].0.Deliver? {
        DeliverEffect(m, e, inputs[0].0.f, inputs[0].1);
      } else {
        LocalEffect(m, e, inputs[0].0, inputs[0].1);
      }
      ConfirmsGrow(m, Step(m, e, inputs[0].0, inputs[0].1), inputs[1..]);
    }
  }

  /** Waiting ends: whatever else happens in between, by the firing of the timer that exceeds the
      retry budget the frame has been confirmed or the connection is closed, unless no frame could
      be saved. */
  lemma {:induction false} WaitingEnds(m: Numbering, e: Endpoint, inputs: seq<(Input, LocalIo)>)
    requires Inv(m, e) && e.apms == ApmsWtack && TimerCount(inputs) > e.resend
    ensures var r := Run(m, e, inputs);
            || r.confirms > e.confirms
            || r.apms == ApmsClosed
            || (e.rta.None? && r.apms == ApmsWtack && r.rta.None? && r.confirms == e.confirms)
    decreases |inputs|
  {
    WaitingGoesOn(m, e, inputs);
  }

  /** The same for any number of firings. */
  lemma {:induction false} WaitingGoesOn(m: Numbering, e: Endpoint, inputs: seq<(Input, LocalIo)>)
    requires Inv(m, e) && e.apms == ApmsWtack
    ensures var r := Run(m, e, inputs);
            || r.confirms > e.confirms
            || r.apms == ApmsClosed
            || (&& r.apms == ApmsWtack && r.rta == e.rta && r.confirms == e.confirms
                && (e.rta.Some? ==> TimerCount(inputs) + r.resend <= e.resend))
    decreases |inputs|
  {
    if inputs != [] {
      var e1 := Step(m, e, inputs[0].0, inputs[0].1);
      StepKeepsInv(m, e, inputs[0].0, inputs[0].1);
      WaitingStep(m, e, inputs[0].0, inputs[0].1);
      hide Inv, Step;
      if e1.apms == ApmsClosed {
        ClosedForever(m, e1, inputs[1..]);
      } else if e1.confirms == e.confirms + 1 {
        ConfirmsGrow(m, e1, inputs[1..]);
      } else {
        WaitingGoesOn(m, e1, inputs[1..]);
      }
    }
  }
}
