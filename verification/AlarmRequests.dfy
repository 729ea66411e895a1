/**
 What a request brings with it: its outcome, its number, its retry budget, and at most one
 confirmation for each alarm, whatever the peer sends.
 */
module AlarmRequests {
  import opened SequenceNumbers
  import opened AlarmEndpoint
  import opened AlarmEndpointRuns
  import opened AlarmEndpointTheorems
  import opened AlarmLink
  import opened AlarmStuck
  import opened AlarmTransmissions
  import opened Wrappers

  // ---------------------------------------------------------------- outcome

  /** ALPMI waits for the ack of the peer's user exactly if the alarm went out. */
  lemma SendOutcome(m: Numbering, e: Endpoint, alarm: Alarm, io: LocalIo)
    requires Inv(m, e) && e.alpmi == AlpmiAlarm
    ensures Step(m, e, Send(alarm), io).alpmi == AlpmiAck <==> Goes(e, io)
    ensures SendAlarm(e, alarm, io).1 <==> Goes(e, io)
  {
    hide CountersFit, StopAndWait, RetriesBounded, CycleFits;
  }

  /** What an input asks APMS to send: the user's ack as it was given, or the alarm with its number. */
  function Asked(e: Endpoint, input: Input): seq<Body> {
    match input
    case Ack(arg, status) => if e.alpmr == AlpmrUserAck then [AlarmAck(arg, status)] else []
    case Send(alarm) =>
      if e.alpmi == AlpmiAlarm then [Notification(AlarmArg(alarm, |e.requests| % 0x800))] else []
    case _ => []
  }

  lemma RequestAdds(e: Endpoint, body: Body, io: LocalIo)
    requires e.attached
    ensures Request(e, body, io).0.requests == e.requests + (if e.apms == ApmsOpen then [body] else [])
  {
    if e.apms != ApmsOpen {
      NegativeEnds(e, io);
      ErrorRequests(e, AlpmiInvalid, io);
      hide ErrorInd, AlpmrCnf, AlpmiCnf;
    }
  }

  /** Exactly that becomes the next request, if APMS is free. */
  lemma RequestsAre(m: Numbering, e: Endpoint, input: Input, io: LocalIo)
    requires Inv(m, e) && Numbered(e)
    ensures Step(m, e, input, io).requests == e.requests + (if e.apms == ApmsOpen then Asked(e, input) else [])
  {
    hide CountersFit, StopAndWait, RetriesBounded, CycleFits, OnFrame, Request, SendAlarm, ErrorInd;
    match input
    case Deliver(f) => DeliverRequests(m, e, f, io);
    case TimerFires => if e.apms == ApmsWtack { ErrorRequests(e.(apms := ApmsOpen), SendNotConfirmed, io); }
    case Ack(arg, status) => if e.alpmr == AlpmrUserAck { RequestAdds(AckStarted(e), AlarmAck(arg, status), io); }
    case Send(alarm) =>
      if e.alpmi == AlpmiAlarm {
        SendShape(e, alarm, io);
        RequestAdds(SendStarted(e), Notification(AlarmArg(alarm, e.alarmSeq)), io);
      }
    case CloseReq(_) =>
  }

  // ---------------------------------------------------------------- numbers

  /** Alarm `i` of the requests carries `i`, on eleven bits; acks use numbers up as well. */
  predicate Numbered(e: Endpoint) {
    && (e.apms != ApmsClosed ==> e.alarmSeq == |e.requests| % 0x800)
    && forall i :: 0 <= i < |e.requests| && e.requests[i].Notification? ==>
                     e.requests[i].arg.sequenceNumber == i % 0x800
  }

  lemma RequestNumbered(e: Endpoint, body: Body, io: LocalIo)
    requires e.attached && Numbered(e.(alarmSeq := |e.requests| % 0x800))
    requires e.alarmSeq == (|e.requests| + 1) % 0x800
    requires body.Notification? ==> body.arg.sequenceNumber == |e.requests| % 0x800
    ensures Numbered(Request(e, body, io).0)
  {
    if e.apms != ApmsOpen {
      NegativeEnds(e, io);
      ErrorRequests(e, AlpmiInvalid, io);
      ErrorCloses(e, AlpmiInvalid, io);
      hide ErrorInd, AlpmrCnf, AlpmiCnf;
    }
  }

  lemma ErrorCloses(e: Endpoint, reason: AbortReason, io: LocalIo)
    requires e.attached
    ensures ErrorInd(e, reason, io).apms == ApmsClosed
  {
  }

  lemma StepNumbered(m: Numbering, e: Endpoint, input: Input, io: LocalIo)
    requires Inv(m, e) && Numbered(e)
    ensures Numbered(Step(m, e, input, io))
  {
    hide CountersFit, StopAndWait, RetriesBounded, CycleFits, OnFrame, Request, ErrorInd;
    match input
    case Deliver(f) =>
      DeliverRequests(m, e, f, io);
      if e.apms == ApmsClosed {
        ClosedStep(m, e, input, io);
      }
    case TimerFires =>
      if e.apms == ApmsWtack {
        ErrorRequests(e.(apms := ApmsOpen), SendNotConfirmed, io);
        ErrorCloses(e.(apms := ApmsOpen), SendNotConfirmed, io);
      }
    case Ack(arg, status) =>
      if e.alpmr == AlpmrUserAck {
        NextNumber(|e.requests|);
        RequestNumbered(AckStarted(e), AlarmAck(arg, status), io);
      }
    case Send(alarm) =>
      if e.alpmi == AlpmiAlarm {
        NextNumber(|e.requests|);
        RequestNumbered(SendStarted(e), Notification(AlarmArg(alarm, e.alarmSeq)), io);
      }
    case CloseReq(_) =>
  }

  lemma NextNumber(n: nat)
    ensures (n % 0x800 + 1) % ALARM_SEQUENCE_MODULUS == (n + 1) % 0x800
  {
  }

  lemma {:induction false} RunNumbered(m: Numbering, e: Endpoint, inputs: seq<(Input, LocalIo)>)
    requires Inv(m, e) && Numbered(e)
    ensures Numbered(Run(m, e, inputs))
    decreases |inputs|
  {
    if inputs != [] {
      StepKeepsInv(m, e, inputs[0].0, inputs[0].1);
      StepNumbered(m, e, inputs[0].0, inputs[0].1);
      hide Inv, Step;
      RunNumbered(m, Step(m, e, inputs[0].0, inputs[0].1), inputs[1..]);
    }
  }

  /** Successive requests of an activation carry successive numbers on eleven bits: an alarm is told
      the number of requests before it, user acks included. */
  lemma AlarmNumbers(low: bool, retries: nat, inputs: seq<(Input, LocalIo)>, i: nat)
    ensures var r := RunFromStart(low, retries, inputs);
            i < |r.requests| && r.requests[i].Notification? ==> r.requests[i].arg.sequenceNumber == i % 0x800
  {
    ActivatedInv(Wire15, low, retries);
    RunNumbered(Wire15, Activated(Wire15, low, retries), inputs);
    hide Inv, Run;
  }

  // ---------------------------------------------------------------- the retry budget

  /** APMS starts to wait with a new request, its frame saved and the whole budget left. */
  predicate Waits(m: Numbering, e: Endpoint, w: Endpoint, retries: nat, io: LocalIo) {
    && |w.requests| == |e.requests| + 1 && |w.built| == |w.requests| && w.confirms == e.confirms
    && w.resend == retries
    && var f := w.built[|e.requests|];
       && IsDataFrame(m, f, |e.requests|, w.requests[|e.requests|]) && f.ackSeq == Number(m, |e.accepted| - 1)
       && (io.alloc ==> w.rta == Some(f))
       && DataOf(w.out) == DataOf(e.out) + (if io.alloc && io.send then [f] else [])
  }

  lemma RequestWaits(m: Numbering, e: Endpoint, body: Body, io: LocalIo)
    requires Core(m, e) && e.apms == ApmsOpen
    ensures var w := Request(e, body, io).0; w.apms == ApmsWtack && Waits(m, e, w, e.retries, io)
  {
    RequestKeepsCore(m, e, body, io);
    hide RetriesBounded;
    DataOfSnoc(e.out, DataFrame(e, body));
    assert DataOf(e.out) + [] == DataOf(e.out);
  }

  /** The user machines and their records have no part in it. */
  lemma WaitsWith(m: Numbering, e: Endpoint, e1: Endpoint, w: Endpoint, w1: Endpoint, retries: nat, io: LocalIo)
    requires Waits(m, e1, w, retries, io)
    requires e1 == e.(events := e1.events, alarmSeq := e1.alarmSeq) && w1 == w.(alpmi := w1.alpmi, alpmr := w1.alpmr)
    ensures Waits(m, e, w1, retries, io)
  {
  }

  lemma StartsWaiting(m: Numbering, e: Endpoint, input: Input, io: LocalIo)
    requires Inv(m, e) && e.apms == ApmsOpen && Step(m, e, input, io).apms == ApmsWtack
    ensures Waits(m, e, Step(m, e, input, io), e.retries, io)
  {
    hide CountersFit, StopAndWait, RetriesBounded, CycleFits, OnFrame, Request, Waits, SendAlarm;
    match input
    case Deliver(f) => StillNoRequest(m, e, f, io);
    case Ack(arg, status) =>
      UserStatesKeepCore(m, e, AckStarted(e));
      RequestWaits(m, AckStarted(e), AlarmAck(arg, status), io);
      var w := Request(AckStarted(e), AlarmAck(arg, status), io).0;
      WaitsWith(m, e, AckStarted(e), w, w.(alpmr := AlpmrTack), e.retries, io);
    case Send(alarm) =>
      SendShape(e, alarm, io);
      UserStatesKeepCore(m, e, SendStarted(e));
      var body := Notification(AlarmArg(alarm, e.alarmSeq));
      RequestWaits(m, SendStarted(e), body, io);
      WaitsWith(m, e, SendStarted(e), Request(SendStarted(e), body, io).0, SendAlarm(e, alarm, io).0, e.retries, io);
    case _ =>
  }

  lemma {:induction false} DataOfConcat(out: seq<Frame>, more: seq<Frame>)
    requires forall i :: 0 <= i < |more| ==> more[i].pdu == PduData
    ensures DataOf(out + more) == DataOf(out) + more
    decreases |more|
  {
    if more == [] {
      assert out + more == out;
    } else {
      var k := |more| - 1;
      assert out + more == (out + more[..k]) + [more[k]];
      DataOfConcat(out, more[..k]);
      DataOfSnoc(out + more[..k], more[k]);
    }
  }

  lemma {:induction false} ResentCopies(f: Frame, ios: seq<LocalIo>)
    ensures forall i :: 0 <= i < |Resent(f, ios)| ==> Resent(f, ios)[i] == f
    ensures (forall t :: 0 <= t < |ios| ==> ios[t].send) ==> |Resent(f, ios)| == |ios|
  {
    if ios != [] {
      ResentCopies(f, ios[1..]);
      assert (forall t :: 0 <= t < |ios| ==> ios[t].send) ==> forall t :: 0 <= t < |ios[1..]| ==> ios[1..][t].send;
    }
  }

  /** `sent` holds nothing but copies of `f`. */
  predicate OnlyCopies(sent: seq<Frame>, f: Frame) {
    forall i :: 0 <= i < |sent| ==> sent[i] == f
  }

  /** What the firings of the timer `ios` do to a wait that has just begun as `w`: as long as there are
      no more than `retries`, each of them sends the request's frame once more if it can; the next one
      ends the connection. */
  predicate Budgeted(w: Endpoint, r: Endpoint, retries: nat, ios: seq<LocalIo>)
    requires w.built != []
  {
    if |ios| <= retries then
      && r.apms == ApmsWtack && r.confirms == w.confirms && r.events == w.events
      && |DataOf(w.out)| <= |DataOf(r.out)| && DataOf(r.out)[..|DataOf(w.out)|] == DataOf(w.out)
      && var more := DataOf(r.out)[|DataOf(w.out)|..];
         && OnlyCopies(more, w.built[|w.built| - 1])
         && ((forall t :: 0 <= t < |ios| ==> ios[t].send) ==> |more| == |ios|)
    else r.apms == ApmsClosed && r.events == w.events + [Aborted(SendNotConfirmed)]
  }

  lemma FiringsBudgeted(m: Numbering, w: Endpoint, ios: seq<LocalIo>)
    requires Inv(m, w) && w.apms == ApmsWtack && w.rta.Some?
    ensures w.built != [] && Budgeted(w, Run(m, w, Firings(ios)), w.resend, ios)
  {
    RetransmissionRun(m, w, ios);
    var r := Run(m, w, Firings(ios));
    SavedIsData(m, w);
    hide Inv, Run, DataOf, Resent;
    if |ios| <= w.resend {
      var more := Resent(w.rta.value, ios);
      ResentCopies(w.rta.value, ios);
      DataOfConcat(w.out, more);
      assert DataOf(r.out)[|DataOf(w.out)|..] == more;
    }
  }

  lemma SavedIsData(m: Numbering, w: Endpoint)
    requires Inv(m, w) && w.rta.Some?
    ensures w.built != [] && w.rta.value == w.built[|w.built| - 1] && w.rta.value.pdu == PduData
  {
  }

  /** In any activation: when a request makes APMS wait and its buffer could be allocated, the timer may
      fire `retries` times, sending the request's one frame again each time, and the firing after
      these, not an earlier one, ends the connection. */
  lemma FullBudget(low: bool, retries: nat, inputs: seq<(Input, LocalIo)>, input: Input, io: LocalIo, ios: seq<LocalIo>)
    requires io.alloc
    ensures var e := RunFromStart(low, retries, inputs);
            var w := RunFromStart(low, retries, inputs + [(input, io)]);
            var r := RunFromStart(low, retries, inputs + [(input, io)] + Firings(ios));
            e.apms == ApmsOpen && w.apms == ApmsWtack ==>
              Waits(Wire15, e, w, retries, io) && Budgeted(w, r, retries, ios)
  {
    hide Inv, Run, Step, Waits, Budgeted, OutFits;
    var a := Activated(Wire15, low, retries);
    ActivatedInv(Wire15, low, retries);
    StartFits(low, retries);
    RunFits(Wire15, a, inputs);
    var e := Run(Wire15, a, inputs);
    RunFromStartSnoc(low, retries, inputs, input, io);
    RunFromStartSplit(low, retries, inputs + [(input, io)], Firings(ios));
    var w := Run(Wire15, a, inputs + [(input, io)]);
    if e.apms == ApmsOpen && w.apms == ApmsWtack {
      StartsWaiting(Wire15, e, input, io);
      WaitsSaved(Wire15, e, w, retries, io);
      FiringsBudgeted(Wire15, w, ios);
    }
  }

  lemma StartFits(low: bool, retries: nat)
    ensures OutFits(Activated(Wire15, low, retries))
  {
  }

  lemma WaitsSaved(m: Numbering, e: Endpoint, w: Endpoint, retries: nat, io: LocalIo)
    requires Waits(m, e, w, retries, io) && io.alloc
    ensures w.rta.Some? && w.resend == retries && w.built != []
  {
  }

  // ---------------------------------------------------------------- confirmations

  /** No more confirmations than alarms; while ALPMI waits, one fewer at least. */
  predicate Confirmable(e: Endpoint) {
    |Confirmations(e.events)| + (if e.alpmi == AlpmiAck then 1 else 0) <= |Alarms(e.requests)|
  }

  lemma ErrorConfirmable(e: Endpoint, reason: AbortReason, io: LocalIo)
    requires e.attached && Confirmable(e)
    ensures Confirmable(ErrorInd(e, reason, io))
  {
    EventsSnoc(e.events, Aborted(reason));
    hide Confirmations, Alarms;
  }

  lemma TackConfirmable(m: Numbering, e: Endpoint, f: Frame)
    requires Confirmable(e)
    ensures Confirmable(ApmsDataInd(m, e, f))
  {
    EventsSnoc(e.events, AckCnf(e.confirms));
    hide Confirmations, Alarms;
  }

  lemma SendingConfirmable(e: Endpoint, f: Frame, io: LocalIo)
    requires Confirmable(e)
    ensures Confirmable(Transmit(e, f, io.alloc, io.send).0)
  {
    hide Confirmations, Alarms;
  }

  lemma AcceptConfirmable(m: Numbering, e: Endpoint, f: Frame, io: LocalIo)
    requires Confirmable(e)
    ensures Confirmable(Accept(m, e, f, io).0)
  {
    hide Confirmations, Alarms, ApmsDataInd, Transmit;
    TackConfirmable(m, e, f);
    var e1 := Counting(m, ApmsDataInd(m, e, f), f);
    SendingConfirmable(e1, ControlFrame(e1, PduAck), io);
  }

  lemma IndicateConfirmable(e: Endpoint, body: Body, io: LocalIo)
    requires e.attached && Confirmable(e)
    ensures Confirmable(Indicate(e, body, io).0)
  {
    hide Confirmations, Alarms, ErrorInd;
    ErrorConfirmable(e.(apmr := ApmrWcnf), ProtocolViolation, io);
    match body
    case AlarmAck(_, status) => EventsSnoc(e.events, AlarmCnf(status));
    case Notification(arg) => EventsSnoc(e.events, AlarmInd(arg));
    case _ =>
  }

  lemma DataConfirmable(m: Numbering, e: Endpoint, f: Frame, io: LocalIo)
    requires Inv(m, e) && e.attached && Confirmable(e)
    ensures Confirmable(ApmrDataInd(m, e, f, io).0)
  {
    hide Confirmations, Alarms, Accept, Indicate, ErrorInd, ApmsDataInd, Transmit, Confirmable;
    hide CountersFit, StopAndWait, RetriesBounded, CycleFits;
    if e.apmr == ApmrOpen && f.tack {
      if f.sendSeq == e.expSeq {
        AcceptConfirmable(m, e, f, io);
        AcceptKeepsStates(m, e, f, io);
        IndicateConfirmable(Accept(m, e, f, io).0, f.body, io);
        ErrorConfirmable(e, AlarmIndError, io);
      } else {
        OtherConfirmable(m, e, f, io);
      }
    }
  }

  lemma OtherConfirmable(m: Numbering, e: Endpoint, f: Frame, io: LocalIo)
    requires e.attached && e.apmr == ApmrOpen && f.tack && f.sendSeq != e.expSeq && Confirmable(e)
    ensures Confirmable(ApmrDataInd(m, e, f, io).0)
  {
    hide Confirmations, Alarms, Accept, Indicate, ErrorInd, ApmsDataInd, Transmit;
    EventsSnoc(e.events, SequenceError);
    TackConfirmable(m, e, f);
    var e1, e2 := ApmsDataInd(m, e, f), e.(events := e.events + [SequenceError]);
    SendingConfirmable(e1, ControlFrame(e1, PduAck), io);
    SendingConfirmable(e2, ControlFrame(e2, PduNack), io);
  }

  lemma FrameConfirmable(m: Numbering, e: Endpoint, f: Frame, io: LocalIo)
    requires Inv(m, e) && e.attached && Confirmable(e)
    ensures Confirmable(OnFrame(m, e, f, io).0)
  {
    hide Confirmable, ErrorInd, ApmsDataInd, ApmrDataInd;
    TackConfirmable(m, e, f);
    DataConfirmable(m, e, f, io);
    forall reason ensures Confirmable(ErrorInd(e, reason, io)) {
      ErrorConfirmable(e, reason, io);
    }
  }

  lemma RequestConfirmable(e: Endpoint, body: Body, io: LocalIo)
    requires e.attached && Confirmable(e)
    ensures var (r, ok) := Request(e, body, io);
            Confirmable(r) && (ok && body.Notification? && e.alpmi != AlpmiAck ==> Confirmable(r.(alpmi := AlpmiAck)))
  {
    hide Confirmations, Alarms, ErrorInd, AlpmrCnf, AlpmiCnf;
    BodiesSnoc(e.requests, body);
    NegativeEnds(e, io);
    ErrorConfirmable(e, AlpmiInvalid, io);
  }

  lemma StepConfirmable(m: Numbering, e: Endpoint, input: Input, io: LocalIo)
    requires Inv(m, e) && Confirmable(e)
    ensures Confirmable(Step(m, e, input, io))
  {
    hide Confirmations, Alarms, OnFrame, Request, SendAlarm, ErrorInd;
    hide CountersFit, StopAndWait, RetriesBounded, CycleFits;
    match input
    case Deliver(f) => if e.apmr != ApmrClosed { FrameConfirmable(m, e, f, io); }
    case TimerFires => if e.apms == ApmsWtack { ErrorConfirmable(e.(apms := ApmsOpen), SendNotConfirmed, io); }
    case Ack(arg, status) =>
      if e.alpmr == AlpmrUserAck {
        EventsSnoc(e.events, AckTaken(|e.requests|));
        RequestConfirmable(AckStarted(e), AlarmAck(arg, status), io);
      }
    case Send(alarm) =>
      if e.alpmi == AlpmiAlarm {
        SendShape(e, alarm, io);
        RequestConfirmable(SendStarted(e), Notification(AlarmArg(alarm, e.alarmSeq)), io);
      }
    case CloseReq(_) =>
  }

  lemma {:induction false} RunConfirmable(m: Numbering, e: Endpoint, inputs: seq<(Input, LocalIo)>)
    requires Inv(m, e) && Confirmable(e)
    ensures Confirmable(Run(m, e, inputs))
    decreases |inputs|
  {
    if inputs != [] {
      StepKeepsInv(m, e, inputs[0].0, inputs[0].1);
      StepConfirmable(m, e, inputs[0].0, inputs[0].1);
      hide Inv, Step;
      RunConfirmable(m, Step(m, e, inputs[0].0, inputs[0].1), inputs[1..]);
    }
  }

  /** Whatever acks the peer sends, the user is told of no more of them than it has raised alarms. */
  lemma NoMoreConfirmationsThanAlarms(low: bool, retries: nat, inputs: seq<(Input, LocalIo)>)
    ensures var r := RunFromStart(low, retries, inputs);
            && |Confirmations(r.events)| <= |Alarms(r.requests)|
            && (r.alpmi == AlpmiAck ==> |Confirmations(r.events)| < |Alarms(r.requests)|)
  {
    ActivatedInv(Wire15, low, retries);
    RunConfirmable(Wire15, Activated(Wire15, low, retries), inputs);
    hide Inv, Run;
  }
}
