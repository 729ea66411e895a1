/**
 Each end of a link is an endpoint in the sense of `AlarmEndpointTheorems`: apart from the
 frames handed over, which are in the channels, it is the run of the inputs it got.  A lane
 that got these inputs is in that state, so what holds on links holds for lanes.
 */
module AlarmEnds {
  import opened SequenceNumbers
  import opened AlarmEndpoint
  import opened AlarmEndpointRuns
  import opened AlarmEndpointTheorems
  import opened AlarmLink
  import opened AlarmTheorems
  import opened AlarmLane
  import opened Wrappers

  /** Without the frames handed over. */
  function Silent(e: Endpoint): Endpoint {
    e.(out := [])
  }

  /** Equal except for the frames handed over. */
  predicate Alike(e: Endpoint, d: Endpoint) {
    Silent(e) == Silent(d)
  }

  // ---------------------------------------------------------------- no operation looks at them

  lemma TransmitAlike(e: Endpoint, d: Endpoint, f: Frame, alloc: bool, send: bool)
    requires Alike(e, d)
    ensures Alike(Transmit(e, f, alloc, send).0, Transmit(d, f, alloc, send).0)
    ensures Transmit(e, f, alloc, send).1 == Transmit(d, f, alloc, send).1
  {
  }

  lemma CloseAlike(e: Endpoint, d: Endpoint, code: nat, bye: bool)
    requires Alike(e, d)
    ensures Alike(Close(e, code, bye), Close(d, code, bye))
  {
  }

  lemma ErrorAlike(e: Endpoint, d: Endpoint, reason: AbortReason, io: LocalIo)
    requires Alike(e, d) && e.attached
    ensures Alike(ErrorInd(e, reason, io), ErrorInd(d, reason, io))
  {
    var ev := Aborted(reason);
    CloseAlike(e.(events := e.events + [ev]), d.(events := d.events + [ev]), ErrCode(reason), io.bye);
    hide Close;
  }

  lemma TackAlike(m: Numbering, e: Endpoint, d: Endpoint, f: Frame)
    requires Alike(e, d)
    ensures Alike(ApmsDataInd(m, e, f), ApmsDataInd(m, d, f))
  {
  }

  lemma RequestAlike(e: Endpoint, d: Endpoint, body: Body, io: LocalIo)
    requires Alike(e, d) && e.attached
    ensures Alike(Request(e, body, io).0, Request(d, body, io).0)
    ensures Request(e, body, io).1 == Request(d, body, io).1
  {
    if e.apms != ApmsOpen {
      ErrorAlike(e, d, AlpmiInvalid, io);
      NegativeEnds(e, io);
      NegativeEnds(d, io);
      hide ErrorInd, AlpmrCnf, AlpmiCnf;
    }
  }

  lemma TimeoutAlike(e: Endpoint, d: Endpoint, io: LocalIo)
    requires Alike(e, d) && (e.apms == ApmsWtack ==> e.attached)
    ensures Alike(Timeout(e, io), Timeout(d, io))
  {
    if e.apms == ApmsWtack {
      ErrorAlike(e.(apms := ApmsOpen), d.(apms := ApmsOpen), SendNotConfirmed, io);
      hide ErrorInd;
    }
  }

  lemma IndicateAlike(e: Endpoint, d: Endpoint, body: Body, io: LocalIo)
    requires Alike(e, d) && e.attached
    ensures Alike(Indicate(e, body, io).0, Indicate(d, body, io).0)
    ensures Indicate(e, body, io).1 == Indicate(d, body, io).1
  {
    ErrorAlike(e.(apmr := ApmrWcnf), d.(apmr := ApmrWcnf), ProtocolViolation, io);
    hide ErrorInd;
  }

  lemma AcceptAlike(m: Numbering, e: Endpoint, d: Endpoint, f: Frame, io: LocalIo)
    requires Alike(e, d)
    ensures Alike(Accept(m, e, f, io).0, Accept(m, d, f, io).0)
    ensures Accept(m, e, f, io).1 == Accept(m, d, f, io).1
  {
    TackAlike(m, e, d, f);
    hide ApmsDataInd;
  }

  lemma AcceptKeepsAttached(m: Numbering, e: Endpoint, f: Frame, io: LocalIo)
    ensures Accept(m, e, f, io).0.attached == e.attached
  {
  }

  lemma KnownAlike(m: Numbering, e: Endpoint, d: Endpoint, f: Frame, io: LocalIo)
    requires Alike(e, d) && e.attached && e.apmr == ApmrOpen && f.tack && f.sendSeq == e.expSeq
    requires f.body.AlarmAck? || f.body.Notification? || f.body.MalformedNotification?
    ensures Alike(ApmrDataInd(m, e, f, io).0, ApmrDataInd(m, d, f, io).0)
  {
    AcceptAlike(m, e, d, f, io);
    AcceptKeepsAttached(m, e, f, io);
    var (e1, ok) := Accept(m, e, f, io);
    hide Accept, Indicate, ErrorInd;
    if ok {
      IndicateAlike(e1, Accept(m, d, f, io).0, f.body, io);
    }
  }

  lemma OtherDataAlike(m: Numbering, e: Endpoint, d: Endpoint, f: Frame, io: LocalIo)
    requires Alike(e, d) && e.attached && e.apmr == ApmrOpen && f.tack && f.sendSeq != e.expSeq
    ensures Alike(ApmrDataInd(m, e, f, io).0, ApmrDataInd(m, d, f, io).0)
  {
    TackAlike(m, e, d, f);
    if f.sendSeq == e.expSeqO {
      var e1, d1 := ApmsDataInd(m, e, f), ApmsDataInd(m, d, f);
      TransmitAlike(e1, d1, ControlFrame(e1, PduAck), io.alloc, io.send);
    } else {
      var e1, d1 := e.(events := e.events + [SequenceError]), d.(events := d.events + [SequenceError]);
      TransmitAlike(e1, d1, ControlFrame(e1, PduNack), io.alloc, io.send);
    }
    hide Transmit, ErrorInd, ApmsDataInd, Accept, Indicate;
  }

  lemma DataAlike(m: Numbering, e: Endpoint, d: Endpoint, f: Frame, io: LocalIo)
    requires Alike(e, d) && e.attached
    ensures Alike(ApmrDataInd(m, e, f, io).0, ApmrDataInd(m, d, f, io).0)
  {
    if e.apmr == ApmrOpen && f.tack {
      if f.sendSeq != e.expSeq {
        OtherDataAlike(m, e, d, f, io);
      } else if f.body.AlarmAck? || f.body.Notification? || f.body.MalformedNotification? {
        KnownAlike(m, e, d, f, io);
      } else {
        ErrorAlike(e, d, AlarmIndError, io);
        hide ErrorInd;
      }
    }
  }

  lemma FrameAlike(m: Numbering, e: Endpoint, d: Endpoint, f: Frame, io: LocalIo)
    requires Alike(e, d) && e.attached
    ensures Alike(OnFrame(m, e, f, io).0, OnFrame(m, d, f, io).0)
  {
    hide ErrorInd, ApmsDataInd, ApmrDataInd;
    forall reason ensures Alike(ErrorInd(e, reason, io), ErrorInd(d, reason, io)) {
      ErrorAlike(e, d, reason, io);
    }
    TackAlike(m, e, d, f);
    DataAlike(m, e, d, f, io);
  }

  lemma AckAlike(e: Endpoint, d: Endpoint, arg: AlarmArg, status: PnioStatus, io: LocalIo)
    requires Alike(e, d) && (e.alpmr == AlpmrUserAck ==> e.attached)
    ensures Alike(UserAck(e, arg, status, io).0, UserAck(d, arg, status, io).0)
  {
    if e.alpmr == AlpmrUserAck {
      RequestAlike(AckStarted(e), AckStarted(d), AlarmAck(arg, status), io);
      hide Request;
    }
  }

  lemma SendAlike(e: Endpoint, d: Endpoint, alarm: Alarm, io: LocalIo)
    requires Alike(e, d) && e.attached && e.alpmi == AlpmiAlarm
    ensures Alike(SendAlarm(e, alarm, io).0, SendAlarm(d, alarm, io).0)
  {
    RequestAlike(SendStarted(e), SendStarted(d), Notification(AlarmArg(alarm, e.alarmSeq)), io);
    hide Request;
  }

  lemma StepAlike(m: Numbering, e: Endpoint, d: Endpoint, input: Input, io: LocalIo)
    requires Inv(m, e) && Inv(m, d) && Alike(e, d)
    ensures Alike(Step(m, e, input, io), Step(m, d, input, io))
  {
    match input
    case Deliver(f) =>
      if e.apmr != ApmrClosed {
        FrameAlike(m, e, d, f, io);
      }
      hide OnFrame, Inv;
    case TimerFires =>
      TimeoutAlike(e, d, io);
      hide Timeout, Inv;
    case Ack(arg, status) =>
      AckAlike(e, d, arg, status, io);
      hide UserAck, Inv;
    case Send(alarm) =>
      if e.alpmi == AlpmiAlarm {
        SendAlike(e, d, alarm, io);
      }
      hide SendAlarm, Inv;
    case CloseReq(code) =>
      CloseAlike(e, d, code, io.bye);
      hide Close, Inv;
  }

  // ---------------------------------------------------------------- the inputs of an end

  /** What end X gets by one action. */
  function GivenX(l: Link, a: Action): seq<(Input, LocalIo)> {
    if a.side != X then []
    else
      match a
      case Local(_, input) => if input.Deliver? then [] else [(input, AllOk)]
      case Arrive(_) => if l.yx == [] then [] else [(Deliver(l.yx[0]), AllOk)]
      case _ => []
  }

  function InputsX(m: Numbering, l: Link, actions: seq<Action>): seq<(Input, LocalIo)>
    requires EndsInv(m, l)
    decreases |actions|
  {
    if actions == [] then [] else GivenX(l, actions[0]) + InputsX(m, Act(m, l, actions[0]), actions[1..])
  }

  lemma ActIsStep(m: Numbering, l: Link, a: Action, e: Endpoint)
    requires EndsInv(m, l) && Inv(m, e) && Alike(l.x, e)
    ensures Alike(Act(m, l, a).x, Run(m, e, GivenX(l, a)))
  {
    hide Step, Inv;
    var given := GivenX(l, a);
    if given != [] {
      StepAlike(m, l.x, e, given[0].0, given[0].1);
      RunOne(m, e, given[0].0, given[0].1);
      assert given == [(given[0].0, given[0].1)];
    }
  }

  lemma RunOne(m: Numbering, e: Endpoint, input: Input, io: LocalIo)
    requires Inv(m, e)
    ensures Run(m, e, [(input, io)]) == Step(m, e, input, io)
  {
    hide Inv, Step;
    RunSnoc(m, e, [], input, io);
    assert [] + [(input, io)] == [(input, io)];
  }

  /** End X of a link is the run of the inputs it got. */
  lemma {:induction false} EndXIsRun(m: Numbering, l: Link, actions: seq<Action>, e: Endpoint)
    requires EndsInv(m, l) && Inv(m, e) && Alike(l.x, e)
    ensures Alike(LinkRun(m, l, actions).x, Run(m, e, InputsX(m, l, actions)))
    decreases |actions|
  {
    if actions != [] {
      ActIsStep(m, l, actions[0], e);
      var l1 := Act(m, l, actions[0]);
      hide EndsInv, Inv, Act, Alike, GivenX;
      EndXIsRun(m, l1, actions[1..], Run(m, e, GivenX(l, actions[0])));
      RunSplit(m, e, GivenX(l, actions[0]), InputsX(m, l1, actions[1..]));
    }
  }

  // ---------------------------------------------------------------- both ends, and the lanes there

  /** The inputs of the first end of a link since activation.  Those of the second end are the inputs
      of the first one with the ends exchanged. */
  function Given(low: bool, retries: nat, peerRetries: nat, actions: seq<Action>): seq<(Input, LocalIo)> {
    InputsX(Wire15, Connected(Wire15, low, retries, peerRetries), actions)
  }

  lemma FirstEndIsRun(low: bool, retries: nat, peerRetries: nat, actions: seq<Action>)
    ensures Alike(WireRun(low, retries, peerRetries, actions).x,
                  RunFromStart(low, retries, Given(low, retries, peerRetries, actions)))
  {
    ActivatedInv(Wire15, low, retries);
    var l := Connected(Wire15, low, retries, peerRetries);
    hide Inv;
    EndXIsRun(Wire15, l, actions, l.x);
  }

  /** Each end of a link is the run of its own inputs. */
  lemma EndsAreRuns(low: bool, retriesX: nat, retriesY: nat, actions: seq<Action>)
    ensures var l := WireRun(low, retriesX, retriesY, actions);
            && Alike(l.x, RunFromStart(low, retriesX, Given(low, retriesX, retriesY, actions)))
            && Alike(l.y, RunFromStart(low, retriesY, Given(low, retriesY, retriesX, Swapped(actions))))
  {
    FirstEndIsRun(low, retriesX, retriesY, actions);
    FirstEndIsRun(low, retriesY, retriesX, Swapped(actions));
    WireRunFlips(low, retriesX, retriesY, actions);
    hide WireRun, RunFromStart, Given, Alike;
  }

  /** Alarms without the numbers they got on the way. */
  function WithoutNumbers(s: seq<AlarmArg>): (r: seq<Alarm>)
    ensures |r| == |s|
  {
    seq(|s|, i requires 0 <= i < |s| => s[i].alarm)
  }

  lemma {:induction false} RaisedAreAlarms(s: seq<Body>)
    ensures Raised(s) == WithoutNumbers(Alarms(s))
  {
    if s != [] {
      RaisedAreAlarms(s[..|s| - 1]);
    }
  }

  /** What is told, then at most one alarm on its way, then those waiting. */
  predicate Accounted(posted: seq<Alarm>, told: seq<Alarm>, waiting: seq<Alarm>) {
    && |told| + |waiting| <= |posted| <= |told| + 1 + |waiting|
    && told == posted[..|told|] && waiting == posted[|posted| - |waiting|..]
  }

  lemma AccountedFor(sent: seq<AlarmArg>, told: seq<AlarmArg>, waiting: seq<Alarm>)
    requires Delivered(told, sent)
    ensures Accounted(WithoutNumbers(sent) + waiting, WithoutNumbers(told), waiting)
  {
  }

  /** From user to user: while the lane at one end is open, the alarms posted there are, in order, those
      told to the user at the other end, at most one on its way, and those waiting in the queue. */
  lemma PostedReachUser(x: Lane, y: Lane, actions: seq<Action>)
    requires x.Valid() && y.Valid() && x.started && y.started && x.level.attached && x.level.low == y.level.low
    requires x.inputs == Given(x.level.low, x.level.retries, y.level.retries, actions)
    requires y.inputs == Given(y.level.low, y.level.retries, x.level.retries, Swapped(actions))
    ensures Accounted(x.posted, WithoutNumbers(Indications(y.level.past.events)), x.Waiting())
  {
    hide WireRun, RunFromStart, Given;
    var l := WireRun(x.level.low, x.level.retries, y.level.retries, actions);
    EndsAreRuns(x.level.low, x.level.retries, y.level.retries, actions);
    assert x.level.State().requests == l.x.requests;
    assert y.level.State().events == l.y.events;
    ExactlyOnceInOrder(x.level.low, x.level.retries, y.level.retries, actions);
    RaisedAreAlarms(l.x.requests);
    AccountedFor(Alarms(l.x.requests), Indications(l.y.events), x.Waiting());
  }
}
