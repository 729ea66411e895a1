/**
 Which arriving frames an endpoint ignores, and which end the receiving loop with an error,
 whatever the peer sends and with any outcome of the local calls.
 */
module AlarmFrames {
  import opened SequenceNumbers
  import opened AlarmEndpoint
  import opened AlarmEndpointRuns
  import opened AlarmEndpointTheorems

  // ---------------------------------------------------------------- frames without effect

  /** Frames of another version or type, refusals, frames of the wrong length, and DATA frames that
      do not ask for a TACK. */
  predicate Meaningless(f: Frame) {
    || f.version != 1
    || f.pdu in {PduNack, PduOther}
    || (f.pdu in {PduAck, PduErr} && !f.varLenOk)
    || (f.pdu == PduData && !f.tack)
  }

  lemma MeaninglessIgnored(m: Numbering, e: Endpoint, f: Frame, io: LocalIo)
    requires Inv(m, e) && Meaningless(f)
    ensures Step(m, e, Deliver(f), io) == e
  {
  }

  // ---------------------------------------------------------------- frames that stop the loop

  /** ALPMR can take a new alarm, at the latest after the ack number that comes with it. */
  predicate IdleFor(e: Endpoint, f: Frame) {
    || e.alpmr == AlpmrNotify
    || (e.alpmr == AlpmrTack && e.apms == ApmsWtack && f.ackSeq == e.sendSeq)
  }

  /** The frame is an ack, or an alarm the user can be told now, and its TACK could be sent. */
  predicate Takable(e: Endpoint, f: Frame, io: LocalIo) {
    io.alloc && io.send && (f.body.AlarmAck? || (f.body.Notification? && IdleFor(e, f)))
  }

  /** A DATA frame that finds APMR in WCNF, or the expected one if it cannot be taken. */
  predicate Stops(e: Endpoint, f: Frame, io: LocalIo) {
    && f.version == 1 && f.pdu == PduData
    && (e.apmr == ApmrWcnf || (e.apmr == ApmrOpen && f.tack && f.sendSeq == e.expSeq && !Takable(e, f, io)))
  }

  lemma AcceptResult(m: Numbering, e: Endpoint, f: Frame, io: LocalIo)
    requires Inv(m, e) && e.apmr == ApmrOpen && f.pdu == PduData
    ensures var (r, ok) := Accept(m, e, f, io);
            && ok == (io.alloc && io.send) && r.attached
            && (r.alpmr == AlpmrNotify <==> IdleFor(e, f)) && r.alpmr != AlpmrStart
  {
    hide CountersFit, StopAndWait, RetriesBounded, CycleFits;
  }

  lemma IndicateResult(e: Endpoint, body: Body, io: LocalIo)
    requires e.attached && e.alpmr != AlpmrStart
    ensures Indicate(e, body, io).1 <==> body.AlarmAck? || (body.Notification? && e.alpmr == AlpmrNotify)
  {
    hide ErrorInd;
  }

  lemma DataResult(m: Numbering, e: Endpoint, f: Frame, io: LocalIo)
    requires Inv(m, e) && e.attached && f.version == 1 && f.pdu == PduData
    ensures ApmrDataInd(m, e, f, io).1 <==> !Stops(e, f, io)
  {
    hide Core, CycleFits, Accept, Indicate, ErrorInd, ApmsDataInd, Transmit;
    if e.apmr == ApmrOpen {
      AcceptResult(m, e, f, io);
      IndicateResult(Accept(m, e, f, io).0, f.body, io);
    }
  }

  /** The loop goes on after a frame exactly if the frame does not stop it. */
  lemma StopsIff(m: Numbering, e: Endpoint, f: Frame, io: LocalIo)
    requires Inv(m, e) && e.apmr != ApmrClosed
    ensures e.attached && (OnFrame(m, e, f, io).1 <==> !Stops(e, f, io))
  {
    hide CountersFit, StopAndWait, RetriesBounded, CycleFits, ApmrDataInd, ErrorInd, ApmsDataInd;
    if f.version == 1 && f.pdu == PduData {
      DataResult(m, e, f, io);
    }
  }

  /** A new alarm that ALPMR cannot take ends the connection, once its TACK has been sent. */
  lemma BusyAlarmEnds(e: Endpoint, f: Frame, arg: AlarmArg, io: LocalIo)
    requires Inv(Wire15, e) && e.apmr == ApmrOpen && !IdleFor(e, f)
    requires f.version == 1 && f.pdu == PduData && f.tack && f.sendSeq == e.expSeq && f.body == Notification(arg)
    requires io.alloc && io.send
    ensures var r := Step(Wire15, e, Deliver(f), io);
            && r.apms == ApmsClosed && r.accepted == e.accepted + [f.body]
            && r.events == ApmsDataInd(Wire15, e, f).events + [Aborted(ProtocolViolation)]
  {
    AcceptEvents(e, f, io);
    AcceptResult(Wire15, e, f, io);
    var e1 := Accept(Wire15, e, f, io).0;
    hide Inv, Accept, ApmsDataInd;
    ViolationEvents(e1, arg, io);
    hide Indicate;
  }

  /** Does the input number `k` of a run stop the loop? */
  predicate StopsAt(low: bool, retries: nat, inputs: seq<(Input, LocalIo)>, k: nat)
    requires k < |inputs|
  {
    inputs[k].0.Deliver? && Stops(RunFromStart(low, retries, inputs[..k]), inputs[k].0.f, inputs[k].1)
  }

  lemma StopsAtPrefix(low: bool, retries: nat, inputs: seq<(Input, LocalIo)>, more: seq<(Input, LocalIo)>, k: nat)
    requires k < |inputs|
    ensures StopsAt(low, retries, inputs + more, k) == StopsAt(low, retries, inputs, k)
  {
    hide RunFromStart, Stops;
    assert (inputs + more)[..k] == inputs[..k];
  }
}
