/**
 When only one end originates alarms, no request ever meets an unconfirmed frame, so the
 connection can only end because the retries are used up or because an end is closed.  With
 alarms from both ends that is not so, and it is said exactly when the connection is aborted.
 */
module AlarmOneWay {
  import opened SequenceNumbers
  import opened AlarmEndpoint
  import opened AlarmEndpointRuns
  import opened AlarmLink
  import opened AlarmLinkInv
  import opened AlarmLinkArrive
  import opened AlarmWire
  import opened AlarmTheorems
  import opened Wrappers

  /** No request was refused so far. */
  predicate NoRefusal(e: Endpoint) {
    forall i :: 0 <= i < |e.events| ==> e.events[i] != Aborted(AlpmiInvalid)
  }

  /** Only X originates: X's DATA frames are alarms, Y's are acks; an accepted ack means the alarm
      is confirmed, and an accepted alarm means all earlier acks are. */
  predicate OneWay(l: Link) {
    && |Alarms(l.y.requests)| == 0
    && |l.x.accepted| <= l.x.confirms
    && |l.y.accepted| <= l.y.confirms + 1
    && NoRefusal(l.x) && NoRefusal(l.y)
  }

  lemma OnlyAcksFromY(l: Link)
    requires LinkInv(l) && OneWay(l)
    ensures |Acks(l.x.requests)| == 0 && |Alarms(l.x.accepted)| == 0
    ensures |l.x.requests| == |Alarms(l.x.requests)| && |l.y.requests| == |Acks(l.y.requests)|
    ensures |l.x.accepted| == |Acks(l.x.accepted)|
  {
    Counts(l);
    FlipInv(l);
    Counts(Flip(l));
    BodiesSplit(l.x.requests);
    BodiesSplit(l.y.requests);
    BodiesSplit(l.x.accepted);
  }

  // ---------------------------------------------------------------- requests find APMS open

  lemma SendFindsOpen(l: Link)
    requires LinkInv(l) && OneWay(l) && l.x.alpmi == AlpmiAlarm
    ensures l.x.apms == ApmsOpen
  {
    OnlyAcksFromY(l);
  }

  lemma AckFindsOpen(l: Link)
    requires LinkInv(l) && OneWay(l)
    ensures l.x.alpmr != AlpmrUserAck
    ensures l.y.alpmr == AlpmrUserAck ==> l.y.apms == ApmsOpen
  {
    OnlyAcksFromY(l);
    AlarmsAccepted(l);
    BothEndsOk(l);
    hide LinkInv, EndOk, Alarms, Acks;
    NothingToAck(l.x);
    if l.y.alpmr == AlpmrUserAck {
      AckingIsOpen(l.y);
    }
  }

  lemma AlarmsAccepted(l: Link)
    requires LinkInv(l)
    ensures |Alarms(l.y.accepted)| <= |l.y.accepted|
  {
    hide EndOk, Alarms, Acks, BuiltOk, FramesOk, Ordered;
    RequestsAreUsers(l.x);
    assert UserBodies(l.y.accepted);
    BodiesSplit(l.y.accepted);
  }

  lemma RequestsAreUsers(e: Endpoint)
    requires EndOk(e)
    ensures UserBodies(e.requests)
  {
  }

  lemma NothingToAck(e: Endpoint)
    requires EndOk(e) && |Alarms(e.accepted)| == 0
    ensures e.alpmr != AlpmrUserAck
  {
    hide Inv, Told, Alarms, Acks;
  }

  /** With all earlier alarms acked and confirmed, APMS is free for the next ack. */
  lemma AckingIsOpen(e: Endpoint)
    requires EndOk(e) && e.alpmr == AlpmrUserAck && |e.requests| == |Acks(e.requests)|
    requires |Alarms(e.accepted)| <= |e.accepted| <= e.confirms + 1
    ensures e.apms == ApmsOpen
  {
    hide Told, CountersFit, RetriesBounded, CycleFits, Alarms, Acks;
  }

  // ---------------------------------------------------------------- arrivals

  lemma NoRefusalSnoc(e: Endpoint, ev: Event)
    requires NoRefusal(e) && ev != Aborted(AlpmiInvalid)
    ensures NoRefusal(e.(events := e.events + [ev]))
  {
  }

  /** What the arrival of `f` does to the records of an open end. */
  predicate Recorded(e: Endpoint, f: Frame, r: Endpoint) {
    && r.requests == e.requests
    && (NoRefusal(e) ==> NoRefusal(r))
    && (f.pdu == PduErr ==> r.accepted == e.accepted && r.confirms == e.confirms)
    && (f.pdu != PduErr ==>
          && r.confirms == e.confirms + (if Confirms(e, f) then 1 else 0)
          && r.accepted == e.accepted + (if f.pdu == PduData && f.sendSeq == |e.accepted| then [f.body] else []))
  }

  lemma TackRecords(e: Endpoint, f: Frame)
    requires EndOk(e) && e.apms != ApmsClosed
    ensures var x := ApmsDataInd(Unbounded, e, f);
            && x.requests == e.requests && x.accepted == e.accepted && x.attached && x.alpmi == e.alpmi
            && x.confirms == e.confirms + (if Confirms(e, f) then 1 else 0)
            && (NoRefusal(e) ==> NoRefusal(x))
  {
    hide CountersFit, StopAndWait, RetriesBounded, CycleFits, OneAtATime, Told;
  }

  lemma NewRecords(e: Endpoint, f: Frame)
    requires EndOk(e) && e.apms != ApmsClosed && f.version == 1 && f.pdu == PduData && f.tack
    requires f.sendSeq == |e.accepted| && (f.body.AlarmAck? || f.body.Notification?)
    requires f.body.Notification? ==> ApmsDataInd(Unbounded, e, f).alpmr == AlpmrNotify
    ensures Recorded(e, f, Step(Unbounded, e, Deliver(f), AllOk))
  {
    hide EndOk, Step, ApmsDataInd, Indicate, Confirms;
    TackRecords(e, f);
    ExpectedShape(e, f);
    IndicatedRecords(Counting(Unbounded, ApmsDataInd(Unbounded, e, f), f), f.body);
  }

  lemma DuplicateRecords(e: Endpoint, f: Frame)
    requires EndOk(e) && e.apms != ApmsClosed && f.version == 1 && f.pdu == PduData && f.tack
    requires f.sendSeq == |e.accepted| - 1
    ensures Recorded(e, f, Step(Unbounded, e, Deliver(f), AllOk))
  {
    hide EndOk, Step, ApmsDataInd, Confirms;
    TackRecords(e, f);
    DuplicateShape(e, f);
    assert e.accepted + [] == e.accepted;
  }

  lemma ControlRecords(e: Endpoint, f: Frame)
    requires EndOk(e) && e.apms != ApmsClosed && f.version == 1 && f.varLenOk && f.pdu in {PduAck, PduErr}
    ensures Recorded(e, f, Step(Unbounded, e, Deliver(f), AllOk))
  {
    hide CountersFit, StopAndWait, RetriesBounded, CycleFits, OneAtATime, Told;
    TackRecords(e, f);
    assert e.accepted + [] == e.accepted;
  }

  lemma ArrivalRecords(l: Link, f: Frame, rest: seq<Frame>)
    requires Due(l, f, rest)
    ensures Recorded(l.x, f, Step(Unbounded, l.x, Deliver(f), AllOk))
  {
    hide Recorded, Step;
    NextFacts(l, f, rest);
    if f.pdu == PduData {
      DueData(l, f, rest);
      if f.sendSeq == |l.x.accepted| {
        if f.body.Notification? { NotifyReady(l, f, rest); }
        NewRecords(l.x, f);
      } else {
        DuplicateRecords(l.x, f);
      }
    } else {
      ControlRecords(l.x, f);
    }
  }

  lemma DueData(l: Link, f: Frame, rest: seq<Frame>)
    requires Due(l, f, rest) && f.pdu == PduData
    ensures f.version == 1 && f.tack && f.varLenOk
    ensures 0 <= f.sendSeq && |l.x.accepted| - 1 <= f.sendSeq <= |l.x.accepted|
    ensures f.sendSeq < |l.y.built| == |l.y.requests| && f == l.y.built[f.sendSeq] && l.y.requests[f.sendSeq] == f.body
    ensures f.body.AlarmAck? || f.body.Notification?
  {
    NextFacts(l, f, rest);
  }

  lemma IndicatedRecords(e: Endpoint, body: Body)
    requires e.attached && (body.AlarmAck? || (body.Notification? && e.alpmr == AlpmrNotify))
    ensures var r := Indicate(e, body, AllOk).0;
            && r.requests == e.requests && r.accepted == e.accepted && r.confirms == e.confirms
            && (NoRefusal(e) ==> NoRefusal(r))
  {
  }

  /** An open end whose frame `n` is the latest confirmed or outstanding one, and is now acked. */
  lemma ConfirmedByNow(e: Endpoint, f: Frame, n: nat)
    requires EndOk(e) && e.apms != ApmsClosed && f.pdu == PduData
    requires n <= e.confirms && n <= f.ackSeq < |e.requests|
    ensures n + 1 <= e.confirms + (if Confirms(e, f) then 1 else 0)
  {
    hide RetriesBounded, CycleFits, OneAtATime, Told;
  }

  /** What the ack number frozen into an arriving DATA frame says. */
  lemma DueBuilt(l: Link, f: Frame, rest: seq<Frame>)
    requires Due(l, f, rest) && f.pdu == PduData
    ensures 0 <= f.sendSeq < |l.y.requests| && l.y.requests[f.sendSeq] == f.body
    ensures 0 <= f.ackSeq + 1 <= |l.x.requests| && UserBodies(l.x.requests) && UserBodies(l.y.requests)
    ensures f.body.Notification? ==>
              |Alarms(l.y.requests[..f.sendSeq])| <= |Acks(l.x.requests[..f.ackSeq + 1])|
    ensures f.body.AlarmAck? ==>
              |Acks(l.y.requests[..f.sendSeq + 1])| <= |Alarms(l.x.requests[..f.ackSeq + 1])|
  {
    hide LinkInv, EndOk, Direction, FrameOk, InOrder, UserBodies, Alarms, Acks;
    BothEndsOk(l);
    NextFacts(l, f, rest);
    DueData(l, f, rest);
    RequestsAreUsers(l.x);
    RequestsAreUsers(l.y);
  }

  /** Y's ack of alarm j says it has accepted alarm j. */
  lemma AckNumber(l: Link, f: Frame, rest: seq<Frame>)
    requires Due(l, f, rest) && OneWay(l) && f.pdu == PduData
    ensures f.sendSeq <= f.ackSeq < |l.x.requests|
  {
    hide LinkInv, Alarms, Acks, NoRefusal, UserBodies;
    OnlyAcksFromY(l);
    DueBuilt(l, f, rest);
    AckBehindAlarm(l.x.requests, l.y.requests, f.sendSeq, f.ackSeq);
  }

  lemma AckBehindAlarm(alarms: seq<Body>, acks: seq<Body>, j: nat, r: int)
    requires UserBodies(alarms) && UserBodies(acks) && |Acks(alarms)| == 0 && |Alarms(acks)| == 0
    requires j < |acks| && 0 <= r + 1 <= |alarms|
    requires acks[j].AlarmAck? ==> |Acks(acks[..j + 1])| <= |Alarms(alarms[..r + 1])|
    ensures j <= r
  {
    AlarmCounted(acks, j);
    BodiesSplitPrefix(acks, j + 1);
    BodiesSplitPrefix(alarms, r + 1);
    hide Alarms, Acks;
  }

  /** So X's alarm j is confirmed at the latest when Y's ack of it arrives. */
  lemma AckArrives(l: Link, f: Frame, rest: seq<Frame>)
    requires Due(l, f, rest) && OneWay(l)
    ensures var r := Step(Unbounded, l.x, Deliver(f), AllOk);
            |r.accepted| <= r.confirms
  {
    hide EndOk, Direction, NoRefusal, Step, Confirms;
    ArrivalRecords(l, f, rest);
    if f.pdu == PduData && f.sendSeq == |l.x.accepted| {
      AckNumber(l, f, rest);
      ConfirmedByNow(l.x, f, f.sendSeq);
    }
  }

  /** X's alarm k says X has accepted the ack of alarm k - 1. */
  lemma AlarmNumber(l: Link, f: Frame, rest: seq<Frame>)
    requires Due(l, f, rest) && OneWay(Flip(l)) && f.pdu == PduData
    ensures f.sendSeq - 1 <= f.ackSeq < |l.x.requests|
  {
    FlipInv(l);
    OnlyAcksFromY(Flip(l));
    DueBuilt(l, f, rest);
    hide Due, LinkInv, Alarms, Acks, NoRefusal;
    var k, r := f.sendSeq, f.ackSeq;
    AckCountedOrAlarm(l.y.requests, k);
    BodiesSplitPrefix(l.y.requests, k);
    BodiesSplitPrefix(l.x.requests, r + 1);
  }

  /** So Y's ack of it is confirmed at the latest when alarm k arrives. */
  lemma AlarmArrives(l: Link, f: Frame, rest: seq<Frame>)
    requires Due(l, f, rest) && OneWay(Flip(l))
    ensures var r := Step(Unbounded, l.x, Deliver(f), AllOk);
            |r.accepted| <= r.confirms + 1
  {
    hide EndOk, Direction, NoRefusal, Step, Confirms;
    ArrivalRecords(l, f, rest);
    if f.pdu == PduData && f.sendSeq == |l.x.accepted| && f.sendSeq > 0 {
      AlarmNumber(l, f, rest);
      ConfirmedByNow(l.x, f, f.sendSeq - 1);
    }
  }

  /** A body at position `j` shows in the count of its kind. */
  lemma AlarmCounted(s: seq<Body>, j: nat)
    requires j < |s|
    ensures s[j].Notification? ==> |Alarms(s)| > 0
    ensures s[j].AlarmAck? ==> |Acks(s)| > 0
  {
    BodiesPrefix(s, j + 1);
    assert s[..j + 1] == s[..j] + [s[j]];
    BodiesSnoc(s[..j], s[j]);
  }

  lemma AckCountedOrAlarm(s: seq<Body>, k: nat)
    requires k < |s| && UserBodies(s) && |Acks(s)| == 0
    ensures s[k].Notification?
  {
    AlarmCounted(s, k);
  }

  lemma BodiesSplitPrefix(s: seq<Body>, n: nat)
    requires UserBodies(s) && n <= |s|
    ensures n == |Alarms(s[..n])| + |Acks(s[..n])|
    ensures |Alarms(s[..n])| <= |Alarms(s)| && |Acks(s[..n])| <= |Acks(s)|
  {
    BodiesSplit(s[..n]);
    BodiesPrefix(s, n);
  }

  // ---------------------------------------------------------------- every action

  /** The records a timer firing or a closing leaves behind. */
  lemma QuietInput(e: Endpoint, input: Input)
    requires EndOk(e) && (input.TimerFires? || input.CloseReq?)
    ensures var r := Step(Unbounded, e, input, AllOk);
            && r.requests == e.requests && r.accepted == e.accepted && r.confirms == e.confirms
            && (NoRefusal(e) ==> NoRefusal(r))
  {
    hide CountersFit, StopAndWait, RetriesBounded, CycleFits, OneAtATime, Told;
  }

  lemma RequestRecords(e: Endpoint, body: Body)
    requires e.attached && e.apms == ApmsOpen
    ensures var r := Request(e, body, AllOk).0;
            && r.requests == e.requests + [body] && r.accepted == e.accepted && r.confirms == e.confirms
            && r.events == e.events
  {
  }

  /** The records of an end that may have made one more request, which was not refused. */
  predicate Requested(e: Endpoint, r: Endpoint) {
    r.accepted == e.accepted && r.confirms == e.confirms && (NoRefusal(e) ==> NoRefusal(r))
  }

  lemma SendRecords(l: Link, alarm: Alarm)
    requires LinkInv(l) && OneWay(l) && l.x.alpmi == AlpmiAlarm
    ensures Requested(l.x, Step(Unbounded, l.x, Send(alarm), AllOk))
  {
    hide LinkInv, Request, CountersFit, StopAndWait, RetriesBounded, CycleFits, Told, OneAtATime;
    BothEndsOk(l);
    SendFindsOpen(l);
    SendShape(l.x, alarm, AllOk);
    RequestRecords(SendStarted(l.x), Notification(AlarmArg(alarm, l.x.alarmSeq)));
  }

  lemma AckRecords(l: Link, arg: AlarmArg, status: PnioStatus)
    requires LinkInv(l) && OneWay(Flip(l)) && l.x.alpmr == AlpmrUserAck
    ensures var r := Step(Unbounded, l.x, Ack(arg, status), AllOk);
            Requested(l.x, r) && |Alarms(r.requests)| == |Alarms(l.x.requests)|
  {
    hide LinkInv, Alarms, Request, CountersFit, StopAndWait, RetriesBounded, CycleFits, Told, OneAtATime;
    FlipInv(l);
    BothEndsOk(l);
    AckFindsOpen(Flip(l));
    AckShape(l.x, arg, status);
    RequestRecords(AckStarted(l.x), AlarmAck(arg, status));
    BodiesSnoc(l.x.requests, AlarmAck(arg, status));
    NoRefusalSnoc(l.x, AckTaken(|l.x.requests|));
  }

  lemma AckIgnored(e: Endpoint, arg: AlarmArg, status: PnioStatus)
    requires e.alpmr != AlpmrUserAck
    ensures UserAck(e, arg, status, AllOk).0 == e
  {
  }

  /** The records of X after one of its own inputs. */
  lemma OneWayLocal(l: Link, input: Input)
    requires LinkInv(l) && OneWay(l) && !input.Deliver?
    ensures Requested(l.x, Step(Unbounded, l.x, input, AllOk))
  {
    AckFindsOpen(l);
    hide LinkInv, Inv, NoRefusal, OnFrame, Timeout, Close, SendAlarm, UserAck;
    match input
    case TimerFires => QuietInput(l.x, input);
    case CloseReq(_) => QuietInput(l.x, input);
    case Ack(arg, status) => AckIgnored(l.x, arg, status);
    case Send(alarm) => if l.x.alpmi == AlpmiAlarm { SendRecords(l, alarm); }
  }

  lemma OneWayActX(l: Link, a: Action)
    requires LinkInv(l) && OneWay(l)
    ensures OneWay(ActX(Unbounded, l, a))
  {
    hide LinkInv, Inv, Step, Alarms;
    BothEndsInv(l);
    match a
    case Local(_, input) =>
      if !input.Deliver? {
        OneWayLocal(l, input);
      }
    case Arrive(_) =>
      if l.yx != [] {
        OneWayArrival(l, l.yx[0], l.yx[1..]);
      }
    case _ =>
  }

  lemma OneWayArrival(l: Link, f: Frame, rest: seq<Frame>)
    requires LinkInv(l) && OneWay(l) && l.yx == [f] + rest
    ensures var r := Step(Unbounded, l.x, Deliver(f), AllOk);
            |r.accepted| <= r.confirms && (NoRefusal(l.x) ==> NoRefusal(r))
  {
    if l.x.apms != ApmsClosed {
      hide EndOk, Direction, NoRefusal, Step, Confirms;
      AckArrives(l, f, rest);
      ArrivalRecords(l, f, rest);
    }
  }

  /** The records of Y, which does not originate alarms, after one of its own inputs. */
  lemma OneWayLocalY(l: Link, input: Input)
    requires LinkInv(l) && OneWay(Flip(l)) && !input.Deliver? && !input.Send?
    ensures var r := Step(Unbounded, l.x, input, AllOk);
            Requested(l.x, r) && |Alarms(r.requests)| == |Alarms(l.x.requests)|
  {
    hide EndOk, Inv, Direction, NoRefusal, OnFrame, Timeout, Close, SendAlarm, Alarms;
    match input
    case TimerFires => QuietInput(l.x, input);
    case CloseReq(_) => QuietInput(l.x, input);
    case Ack(arg, status) => if l.x.alpmr == AlpmrUserAck { AckRecords(l, arg, status); }
  }

  /** The same at Y. */
  lemma OneWayActY(l: Link, a: Action)
    requires LinkInv(l) && OneWay(Flip(l)) && !(a.Local? && a.input.Send?)
    ensures OneWay(Flip(ActX(Unbounded, l, a)))
  {
    hide LinkInv, Inv, Step, Alarms;
    BothEndsInv(l);
    match a
    case Local(_, input) =>
      if !input.Deliver? {
        OneWayLocalY(l, input);
      }
    case Arrive(_) =>
      if l.yx != [] {
        OneWayArrivalY(l, l.yx[0], l.yx[1..]);
      }
    case _ =>
  }

  lemma OneWayArrivalY(l: Link, f: Frame, rest: seq<Frame>)
    requires LinkInv(l) && OneWay(Flip(l)) && l.yx == [f] + rest
    ensures var r := Step(Unbounded, l.x, Deliver(f), AllOk);
            && r.requests == l.x.requests && |r.accepted| <= r.confirms + 1 && (NoRefusal(l.x) ==> NoRefusal(r))
  {
    if l.x.apms != ApmsClosed {
      hide EndOk, Direction, NoRefusal, Step, Confirms;
      AlarmArrives(l, f, rest);
      ArrivalRecords(l, f, rest);
    }
  }

  predicate OnlyXOriginates(actions: seq<Action>) {
    forall i :: 0 <= i < |actions| ==>
      !(actions[i].Local? && actions[i].side == Y && actions[i].input.Send?)
  }

  lemma OneWayAct(l: Link, a: Action)
    requires LinkInv(l) && OneWay(l) && !(a.Local? && a.side == Y && a.input.Send?)
    ensures EndsInv(Unbounded, l) && OneWay(Act(Unbounded, l, a))
  {
    hide Inv, LinkInv, OneWay, ActX;
    BothEndsInv(l);
    if a.side == X {
      OneWayActX(l, a);
    } else {
      FlipInv(l);
      OneWayActY(Flip(l), a);
    }
  }

  lemma {:induction false} OneWayRun(l: Link, actions: seq<Action>)
    requires LinkInv(l) && OneWay(l) && OnlyXOriginates(actions)
    ensures OneWay(LinkRun(Unbounded, l, actions))
    decreases |actions|
  {
    hide LinkInv, EndsInv, OneWay, Act;
    BothEndsInv(l);
    if actions != [] {
      ActKeepsInv(l, actions[0]);
      OneWayAct(l, actions[0]);
      OneWayRun(Act(Unbounded, l, actions[0]), actions[1..]);
    }
  }

  /** With alarms from one end only, no request is ever refused: every abort is due to the retry
      budget or to the closing of the other end. */
  lemma OneWayNeverAborts(low: bool, retriesX: nat, retriesY: nat, actions: seq<Action>, ev: Event)
    requires OnlyXOriginates(actions)
    ensures var l := WireRun(low, retriesX, retriesY, actions);
            ev in l.x.events || ev in l.y.events ==>
              ev.Aborted? ==> ev.reason.SendNotConfirmed? || ev.reason.PeerError?
  {
    hide Inv, EndOk, Direction, Step, LinkRun;
    WireCountersRefineUnbounded(low, retriesX, retriesY, actions);
    ConnectedInv(low, retriesX, retriesY);
    OneWayRun(Connected(Unbounded, low, retriesX, retriesY), actions);
    NeverRefused(low, retriesX, retriesY, actions, Frame(1, PduAck, false, 0, 0, true, Empty), ev);
  }

  // ---------------------------------------------------------------- alarms from both ends

  /** Acking an alarm aborts the connection exactly if an own frame is still unconfirmed. */
  lemma AckAbortsIffUnconfirmed(e: Endpoint, arg: AlarmArg, status: PnioStatus, io: LocalIo)
    requires Inv(Wire15, e) && e.alpmr == AlpmrUserAck
    ensures var r := UserAck(e, arg, status, io).0;
            && (r.apms == ApmsClosed <==> e.apms == ApmsWtack)
            && (e.apms == ApmsWtack ==> r.events == e.events + [AckTaken(|e.requests|), Aborted(AlpmiInvalid)])
  {
    assert (e.events + [AckTaken(|e.requests|)]) + [Aborted(AlpmiInvalid)]
        == e.events + [AckTaken(|e.requests|), Aborted(AlpmiInvalid)];
  }

  /** So does handing over an alarm. */
  lemma SendAbortsIffUnconfirmed(e: Endpoint, alarm: Alarm, io: LocalIo)
    requires Inv(Wire15, e) && e.alpmi == AlpmiAlarm
    ensures var r := SendAlarm(e, alarm, io).0;
            && (r.apms == ApmsClosed <==> e.apms == ApmsWtack)
            && (e.apms == ApmsWtack ==> r.events == e.events + [Aborted(AlpmiInvalid)])
  {
  }

  /** Both ends raise an alarm, Y's arrives, and X's user acks it at once. */
  function Crossing(a: Alarm, b: Alarm, arg: AlarmArg, status: PnioStatus): seq<Action> {
    [Local(X, Send(a)), Local(Y, Send(b)), Arrive(X), Local(X, Ack(arg, status))]
  }

  lemma FirstAlarm(low: bool, retries: nat, a: Alarm)
    ensures var e := Activated(Wire15, low, retries);
            var r := SendAlarm(e, a, AllOk).0;
            && r.out == [DataFrame(e, Notification(AlarmArg(a, 0)))]
            && r.apms == ApmsWtack && r.apmr == ApmrOpen && r.alpmr == AlpmrNotify
            && r.sendSeq == 0xffff && r.expSeq == 0xffff && r.events == [] && |r.requests| == 1 && r.attached
  {
    SendShape(Activated(Wire15, low, retries), a, AllOk);
  }

  lemma AlarmMeetsAlarm(e: Endpoint, f: Frame, b: Alarm)
    requires e.attached && e.apms == ApmsWtack && e.apmr == ApmrOpen && e.alpmr == AlpmrNotify
    requires f.version == 1 && f.pdu == PduData && f.tack && f.sendSeq == e.expSeq && f.ackSeq != e.sendSeq
    requires f.body == Notification(AlarmArg(b, 0)) && e.events == []
    ensures var r := OnFrame(Wire15, e, f, AllOk).0;
            && r.apms == ApmsWtack && r.alpmr == AlpmrUserAck && r.events == [AlarmInd(AlarmArg(b, 0))]
            && r.requests == e.requests && r.attached && r.apmr == ApmrOpen
  {
  }

  /** X waits for a confirmation while Y's alarm is about to arrive. */
  predicate Crossed(l: Link, b: Alarm) {
    && EndsInv(Wire15, l) && |l.yx| == 1
    && l.x.out == [] && l.x.attached && l.x.events == [] && |l.x.requests| == 1
    && l.x.apms == ApmsWtack && l.x.apmr == ApmrOpen && l.x.alpmr == AlpmrNotify
    && var f := l.yx[0];
    && f.version == 1 && f.pdu == PduData && f.tack && f.sendSeq == l.x.expSeq && f.ackSeq != l.x.sendSeq
    && f.body == Notification(AlarmArg(b, 0))
  }

  lemma BothRaised(low: bool, retriesX: nat, retriesY: nat, a: Alarm, b: Alarm)
    ensures var l0 := Connected(Wire15, low, retriesX, retriesY);
            Crossed(Act(Wire15, Act(Wire15, l0, Local(X, Send(a))), Local(Y, Send(b))), b)
  {
    FirstAlarm(low, retriesX, a);
    FirstAlarm(low, retriesY, b);
    hide SendAlarm, Inv;
    var l0 := Connected(Wire15, low, retriesX, retriesY);
    var fb := DataFrame(l0.y, Notification(AlarmArg(b, 0)));
    assert [] + [fb] == [fb];
  }

  lemma ThenY(l: Link, b: Alarm)
    requires Crossed(l, b)
    ensures var x := Act(Wire15, l, Arrive(X)).x;
            && x.apms == ApmsWtack && x.alpmr == AlpmrUserAck && x.events == [AlarmInd(AlarmArg(b, 0))]
            && |x.requests| == 1
  {
    AlarmMeetsAlarm(l.x, l.yx[0], b);
    hide OnFrame, Inv;
    assert Act(Wire15, l, Arrive(X)).x == OnFrame(Wire15, l.x, l.yx[0], AllOk).0.(out := []);
  }

  /** Without any loss, two crossing alarms end the connection at the end whose user acks first. */
  lemma CrossingAlarmsAbort(low: bool, retriesX: nat, retriesY: nat, a: Alarm, b: Alarm,
                            arg: AlarmArg, status: PnioStatus)
    ensures var l := WireRun(low, retriesX, retriesY, Crossing(a, b, arg, status));
            && l.x.apms == ApmsClosed
            && l.x.events == [AlarmInd(AlarmArg(b, 0)), AckTaken(1), Aborted(AlpmiInvalid)]
  {
    hide Crossed, Act, LinkRun, Inv;
    var l0 := Connected(Wire15, low, retriesX, retriesY);
    FourActions(l0, Local(X, Send(a)), Local(Y, Send(b)), Arrive(X), Local(X, Ack(arg, status)));
    BothRaised(low, retriesX, retriesY, a, b);
    var l2 := Act(Wire15, Act(Wire15, l0, Local(X, Send(a))), Local(Y, Send(b)));
    ThenY(l2, b);
    var l3 := Act(Wire15, l2, Arrive(X));
    ThenAck(l3, arg, status);
    assert [AlarmInd(AlarmArg(b, 0))] + [AckTaken(1), Aborted(AlpmiInvalid)]
        == [AlarmInd(AlarmArg(b, 0)), AckTaken(1), Aborted(AlpmiInvalid)];
  }

  lemma ThenAck(l: Link, arg: AlarmArg, status: PnioStatus)
    requires EndsInv(Wire15, l) && l.x.alpmr == AlpmrUserAck && l.x.apms == ApmsWtack
    ensures var x := Act(Wire15, l, Local(X, Ack(arg, status))).x;
            x.apms == ApmsClosed && x.events == l.x.events + [AckTaken(|l.x.requests|), Aborted(AlpmiInvalid)]
  {
    AckAbortsIffUnconfirmed(l.x, arg, status, AllOk);
    hide Inv, UserAck;
  }

  lemma FourActions(l: Link, a: Action, b: Action, c: Action, d: Action)
    requires EndsInv(Wire15, l)
    ensures LinkRun(Wire15, l, [a, b, c, d])
         == Act(Wire15, Act(Wire15, Act(Wire15, Act(Wire15, l, a), b), c), d)
  {
    assert [a, b, c, d][1..] == [b, c, d] && [b, c, d][1..] == [c, d] && [c, d][1..] == [d] && [d][1..] == [];
    var l1 := Act(Wire15, l, a);
    var l2 := Act(Wire15, l1, b);
    var l3 := Act(Wire15, l2, c);
    var l4 := Act(Wire15, l3, d);
    assert LinkRun(Wire15, l4, []) == l4;
    assert LinkRun(Wire15, l3, [d]) == l4;
    assert LinkRun(Wire15, l2, [c, d]) == l4;
    assert LinkRun(Wire15, l1, [b, c, d]) == l4;
  }
}
