/**
 Every action of a link keeps `LinkInv`.  The proof is done for actions at end X; those at
 end Y are the same with the ends exchanged.
 */
module AlarmLinkInv {
  import opened SequenceNumbers
  import opened AlarmEndpoint
  import opened AlarmEndpointRuns
  import opened AlarmLink
  import opened Wrappers

  /** Going from `l` to `r` keeps the invariant. */
  predicate Kept(l: Link, r: Link) {
    !LinkInv(l) || LinkInv(r)
  }

  // ---------------------------------------------------------------- channels

  /** Position in `ch` of the frame at position `j` of `Without(ch, i)` or `Twice(ch, i)`. */
  function WithoutPos(i: nat, j: nat): nat {
    if j < i then j else j + 1
  }

  function TwicePos(i: nat, j: nat): nat {
    if j <= i then j else j - 1
  }

  lemma WithoutKeeps(x: Endpoint, y: Endpoint, ch: seq<Frame>, i: nat)
    requires Direction(x, y, ch)
    ensures Direction(x, y, Without(ch, i))
  {
    if i < |ch| {
      var ch' := Without(ch, i);
      forall j | 0 <= j < |ch'| ensures ch'[j] == ch[WithoutPos(i, j)] {}
      WithoutOrdered(ch, ch', i);
      hide BuiltOk, FrameOk, InOrder;
      assert FramesOk(x, y, ch');
    }
  }

  lemma WithoutOrdered(ch: seq<Frame>, ch': seq<Frame>, i: nat)
    requires Ordered(ch) && i < |ch| && |ch'| == |ch| - 1
    requires forall j :: 0 <= j < |ch'| ==> ch'[j] == ch[WithoutPos(i, j)]
    ensures Ordered(ch')
  {
    hide InOrder;
    forall a, b | 0 <= a < b < |ch'| ensures InOrder(ch'[a], ch'[b]) {
      assert ch'[a] == ch[WithoutPos(i, a)] && ch'[b] == ch[WithoutPos(i, b)];
    }
  }

  lemma TwiceKeeps(x: Endpoint, y: Endpoint, ch: seq<Frame>, i: nat)
    requires Direction(x, y, ch)
    ensures Direction(x, y, Twice(ch, i))
  {
    if i < |ch| {
      var ch' := Twice(ch, i);
      forall j | 0 <= j < |ch'| ensures ch'[j] == ch[TwicePos(i, j)] {}
      InOrderSelf(ch[i]);
      TwiceOrdered(ch, ch', i);
      hide BuiltOk, FrameOk, InOrder;
      assert FramesOk(x, y, ch');
    }
  }

  lemma InOrderSelf(f: Frame)
    ensures InOrder(f, f)
  {
  }

  lemma TwiceOrdered(ch: seq<Frame>, ch': seq<Frame>, i: nat)
    requires Ordered(ch) && i < |ch| && |ch'| == |ch| + 1 && InOrder(ch[i], ch[i])
    requires forall j :: 0 <= j < |ch'| ==> ch'[j] == ch[TwicePos(i, j)]
    ensures Ordered(ch')
  {
    hide InOrder;
    forall a, b | 0 <= a < b < |ch'| ensures InOrder(ch'[a], ch'[b]) {
      assert ch'[a] == ch[TwicePos(i, a)] && ch'[b] == ch[TwicePos(i, b)];
      assert TwicePos(i, a) < TwicePos(i, b) || TwicePos(i, a) == TwicePos(i, b) == i;
    }
  }

  /** A frame may join the channel behind all frames it is in order with. */
  lemma AppendKeeps(x: Endpoint, y: Endpoint, ch: seq<Frame>, f: Frame)
    requires Direction(x, y, ch) && FrameOk(x, y, f)
    requires forall i :: 0 <= i < |ch| ==> InOrder(ch[i], f)
    ensures Direction(x, y, ch + [f])
  {
  }

  /** The latest built frame and an ack with the latest number are in order with everything sent before. */
  lemma LatestInOrder(x: Endpoint, y: Endpoint, ch: seq<Frame>, f: Frame)
    requires Inv(Unbounded, x) && Direction(x, y, ch)
    requires f.pdu == PduData ==> f.sendSeq == |x.built| - 1
    requires f.pdu == PduAck ==> f.ackSeq == |x.accepted| - 1
    ensures forall i :: 0 <= i < |ch| ==> InOrder(ch[i], f)
  {
    forall i | 0 <= i < |ch| ensures InOrder(ch[i], f) {
      assert FrameOk(x, y, ch[i]);
      if ch[i].pdu == PduData { assert BuiltOk(x, y, ch[i].sendSeq); }
    }
  }

  // ---------------------------------------------------------------- changes that leave the transport alone

  predicate SameTransport(x: Endpoint, x': Endpoint) {
    && x'.requests == x.requests && x'.built == x.built && x'.accepted == x.accepted
    && x'.confirms == x.confirms && (x.apms == ApmsClosed ==> x'.apms == ApmsClosed)
  }

  lemma SameTransportKeeps(x: Endpoint, x': Endpoint, y: Endpoint, xy: seq<Frame>, yx: seq<Frame>)
    requires SameTransport(x, x') && Direction(x, y, xy) && Direction(y, x, yx)
    ensures Direction(x', y, xy) && Direction(y, x', yx)
  {
    forall i | 0 <= i < |xy| ensures FrameOk(x', y, xy[i]) { assert FrameOk(x, y, xy[i]); }
    forall i | 0 <= i < |yx| ensures FrameOk(y, x', yx[i]) { assert FrameOk(y, x, yx[i]); }
    forall k | 0 <= k < |x.built| ensures BuiltOk(x', y, k) { assert BuiltOk(x, y, k); }
    forall k | 0 <= k < |y.built| ensures BuiltOk(y, x', k) { assert BuiltOk(y, x, k); }
  }

  predicate QuietEvent(ev: Event) {
    !ev.AlarmInd? && !ev.AlarmCnf? && ev != SequenceError && HarmlessAbort(ev)
  }

  lemma QuietKeepsTold(e: Endpoint, ev: Event)
    requires Told(e) && QuietEvent(ev)
    ensures Told(e.(events := e.events + [ev]))
  {
    EventsSnoc(e.events, ev);
  }

  lemma ClosedEndOk(l: Endpoint, e: Endpoint, code: nat)
    requires OneAtATime(l) && SameTransport(l, e) && Told(e)
    requires Inv(Unbounded, Close(e, code, true))
    ensures EndOk(Close(e, code, true).(out := []))
    ensures SameTransport(l, Close(e, code, true).(out := []))
  {
    ClearedInv(Unbounded, Close(e, code, true));
  }

  lemma CloseOutput(e: Endpoint, code: nat)
    requires e.out == []
    ensures var out := Close(e, code, true).out;
            out == [] || (|out| == 1 && out[0].version == 1 && out[0].varLenOk && out[0].pdu == PduErr)
  {
  }

  /** End X closes, with or without a close alarm on the wire. */
  lemma CloseAtX(l: Link, e: Endpoint, code: nat)
    requires LinkInv(l) && SameTransport(l.x, e) && Told(e) && e.out == []
    requires Inv(Unbounded, Close(e, code, true))
    ensures var x := Close(e, code, true);
            Kept(l, l.(x := x.(out := []), xy := l.xy + x.out))
  {
    var x := Close(e, code, true);
    var x' := x.(out := []);
    ClosedEndOk(l.x, e, code);
    CloseOutput(e, code);
    SameTransportKeeps(l.x, x', l.y, l.xy, l.yx);
    ErrorFrameKeeps(x', l.y, l.xy, x.out);
  }

  lemma ErrorFrameKeeps(x: Endpoint, y: Endpoint, ch: seq<Frame>, out: seq<Frame>)
    requires Direction(x, y, ch) && x.apms == ApmsClosed
    requires out == [] || (|out| == 1 && out[0].version == 1 && out[0].varLenOk && out[0].pdu == PduErr)
    ensures Direction(x, y, ch + out)
  {
    if out == [] {
      assert ch + out == ch;
    } else {
      assert out == [out[0]];
      AppendKeeps(x, y, ch, out[0]);
    }
  }

  lemma ErrorAtX(l: Link, e: Endpoint, reason: AbortReason)
    requires LinkInv(l) && SameTransport(l.x, e) && Told(e) && e.out == [] && e.attached
    requires QuietEvent(Aborted(reason))
    requires Inv(Unbounded, ErrorInd(e, reason, AllOk))
    ensures var x := ErrorInd(e, reason, AllOk);
            Kept(l, l.(x := x.(out := []), xy := l.xy + x.out))
  {
    QuietKeepsTold(e, Aborted(reason));
    CloseAtX(l, e.(events := e.events + [Aborted(reason)]), ErrCode(reason));
  }

  // ---------------------------------------------------------------- local inputs

  lemma ResendAtX(l: Link)
    requires LinkInv(l) && l.x.apms == ApmsWtack && l.x.resend > 0
    ensures Kept(l, AtX(Unbounded, l, TimerFires))
  {
    var e := l.x;
    var f := e.rta.value;
    var x := Timeout(e, AllOk);
    var x' := x.(out := []);
    ResendFacts(e);
    SameTransportKeeps(e, x', l.y, l.xy, l.yx);
    assert FrameOk(x', l.y, f);
    BuiltLast(x', l.y, l.xy, f);
    AppendKeeps(x', l.y, l.xy, f);
  }

  lemma ResendFacts(e: Endpoint)
    requires EndOk(e) && e.apms == ApmsWtack && e.resend > 0
    ensures var x := Timeout(e, AllOk);
            && EndOk(x.(out := [])) && SameTransport(e, x.(out := [])) && x.out == [e.rta.value]
  {
    TimeoutKeepsInv(Unbounded, e, AllOk);
    ClearedInv(Unbounded, Timeout(e, AllOk));
  }

  lemma TimerAtX(l: Link)
    requires LinkInv(l)
    ensures Kept(l, AtX(Unbounded, l, TimerFires))
  {
    if l.x.apms != ApmsWtack {
      NothingAtX(l);
    } else if l.x.resend > 0 {
      ResendAtX(l);
    } else {
      GiveUpAtX(l);
    }
  }

  /** The retries are used up. */
  lemma GiveUpAtX(l: Link)
    requires LinkInv(l) && l.x.apms == ApmsWtack && l.x.resend == 0
    ensures Kept(l, AtX(Unbounded, l, TimerFires))
  {
    TimeoutKeepsInv(Unbounded, l.x, AllOk);
    hide CountersFit, StopAndWait, RetriesBounded, OneAtATime, Direction, Indications, Confirmations;
    ErrorAtX(l, l.x.(apms := ApmsOpen), SendNotConfirmed);
  }

  lemma CloseReqAtX(l: Link, code: nat)
    requires LinkInv(l)
    ensures Kept(l, AtX(Unbounded, l, CloseReq(code)))
  {
    StepKeepsInv(Unbounded, l.x, CloseReq(code), AllOk);
    CloseAtX(l, l.x, code);
  }

  /** May X make a request with this content?  Only one alarm and one user ack at a time. */
  predicate MayRequest(x: Endpoint, body: Body) {
    && (body.Notification? || body.AlarmAck?)
    && (body.Notification? ==> |Alarms(x.requests)| <= |Acks(x.accepted)|)
    && (body.AlarmAck? ==> |Acks(x.requests)| < |Alarms(x.accepted)|)
  }

  /** `x` is `x0` with one more request on record, for which `f` was built. */
  predicate Grown(x0: Endpoint, x: Endpoint, f: Frame, body: Body) {
    && |x0.built| == |x0.requests|
    && x.built == x0.built + [f] && x.requests == x0.requests + [body]
    && x.accepted == x0.accepted && x.confirms == x0.confirms && x0.apms != ApmsClosed
    && f.sendSeq == |x0.requests| && f.ackSeq == |x0.accepted| - 1
  }

  lemma GrownBuilt(x0: Endpoint, x: Endpoint, y: Endpoint, f: Frame, body: Body, k: nat)
    requires Grown(x0, x, f, body) && MayRequest(x0, body)
    requires |x0.accepted| - 1 <= |x0.requests| <= |x0.accepted| + 1
    requires |x0.accepted| <= |y.requests| && x0.accepted == y.requests[..|x0.accepted|]
    requires k < |x.built| && (k < |x0.built| ==> BuiltOk(x0, y, k))
    ensures BuiltOk(x, y, k)
  {
    var n := |x0.requests|;
    if k < n {
      assert x.requests[..k] == x0.requests[..k];
      assert x.requests[..k + 1] == x0.requests[..k + 1];
    } else {
      assert x.requests[..n] == x0.requests && x.requests[..n + 1] == x.requests;
      BodiesSnoc(x0.requests, body);
    }
  }

  lemma GrownOut(x0: Endpoint, x: Endpoint, y: Endpoint, f: Frame, body: Body, ch: seq<Frame>)
    requires Grown(x0, x, f, body) && MayRequest(x0, body) && Direction(x0, y, ch)
    requires |x0.accepted| - 1 <= |x0.requests| <= |x0.accepted| + 1
    requires |x0.accepted| <= |y.requests| && x0.accepted == y.requests[..|x0.accepted|]
    ensures Direction(x, y, ch)
  {
    assert x.requests[..|y.accepted|] == x0.requests[..|y.accepted|];
    forall k | 0 <= k < |x.built| ensures BuiltOk(x, y, k) {
      GrownBuilt(x0, x, y, f, body, k);
    }
    forall i | 0 <= i < |ch| ensures FrameOk(x, y, ch[i]) { assert FrameOk(x0, y, ch[i]); }
  }

  lemma GrownIn(x0: Endpoint, x: Endpoint, y: Endpoint, f: Frame, body: Body, ch: seq<Frame>)
    requires Grown(x0, x, f, body) && Direction(y, x0, ch)
    ensures Direction(y, x, ch)
  {
    forall k | 0 <= k < |y.built| ensures BuiltOk(y, x, k) {
      assert BuiltOk(y, x0, k);
      var r := y.built[k].ackSeq;
      assert x.requests[..r + 1] == x0.requests[..r + 1];
    }
    forall i | 0 <= i < |ch| ensures FrameOk(y, x, ch[i]) { assert FrameOk(y, x0, ch[i]); }
  }

  /** A new request: `e` is end X with its user-level states and records already moved on. */
  lemma RequestAtX(l: Link, e: Endpoint, body: Body)
    requires LinkInv(l) && l.x.apms == ApmsOpen && e.apms == ApmsOpen
    requires SameTransport(l.x, e) && Core(Unbounded, e) && e.out == [] && e.attached
    requires MayRequest(l.x, body)
    ensures var x := Request(e, body, AllOk).0;
            && Direction(x, l.y, l.xy + x.out) && Direction(l.y, x, l.yx)
            && UserBodies(x.requests)
  {
    Counts(l);
    var x := Request(e, body, AllOk).0;
    var f := DataFrame(e, body);
    RequestOutput(e, body);
    hide Told, RetriesBounded, CycleFits, BuiltOk, FramesOk, Ordered;
    GrownOut(l.x, x, l.y, f, body, l.xy);
    GrownIn(l.x, x, l.y, f, body, l.yx);
    assert FrameOk(x, l.y, f);
    BuiltLast(x, l.y, l.xy, f);
    AppendKeeps(x, l.y, l.xy, f);
  }

  lemma RequestOutput(e: Endpoint, body: Body)
    requires Core(Unbounded, e) && e.out == [] && e.attached && e.apms == ApmsOpen
    ensures var x := Request(e, body, AllOk).0;
            var f := DataFrame(e, body);
            && x.out == [f] && x.built == e.built + [f] && x.requests == e.requests + [body]
            && x.accepted == e.accepted && x.confirms == e.confirms
            && f.sendSeq == |e.requests| && f.ackSeq == |e.accepted| - 1
  {
  }

  lemma BuiltLast(x: Endpoint, y: Endpoint, ch: seq<Frame>, f: Frame)
    requires Direction(x, y, ch) && |x.built| > 0 && f.pdu == PduData && f.sendSeq == |x.built| - 1
    ensures forall i :: 0 <= i < |ch| ==> InOrder(ch[i], f)
  {
    forall i | 0 <= i < |ch| ensures InOrder(ch[i], f) {
      assert FrameOk(x, y, ch[i]);
    }
  }

  /** X ends up waiting for the confirmation of `body`, in user states that fit the new request. */
  lemma RequestEndOk(l: Link, e: Endpoint, body: Body, x: Endpoint)
    requires LinkInv(l) && l.x.apms == ApmsOpen && e.apms == ApmsOpen
    requires SameTransport(l.x, e) && Core(Unbounded, e) && e.out == [] && e.attached && e.apmr == ApmrOpen && Told(e)
    requires MayRequest(l.x, body)
    requires var r := Request(e, body, AllOk).0; x == r.(alpmi := x.alpmi, alpmr := x.alpmr)
    requires x.alpmi == (if body.Notification? then AlpmiAck else l.x.alpmi)
    requires x.alpmr == AlpmrUserAck ==> body.Notification? && l.x.alpmr == AlpmrUserAck
    requires Inv(Unbounded, x)
    ensures Kept(l, l.(x := x.(out := []), xy := l.xy + x.out))
  {
    var r := Request(e, body, AllOk).0;
    RequestAtX(l, e, body);
    var x' := x.(out := []);
    ClearedInv(Unbounded, x);
    SameTransportKeeps(r, x', l.y, l.xy + r.out, l.yx);
    BodiesSnoc(l.x.requests, body);
    Counts(l);
    assert OneAtATime(x');
    assert Told(x');
    assert Resting(x');
  }

  lemma NothingAtX(l: Link)
    requires LinkInv(l)
    ensures l.(x := l.x.(out := []), xy := l.xy + l.x.out) == l
  {
    assert l.xy + [] == l.xy;
  }

  /** Endpoint-level facts about a request made while a frame is unconfirmed. */
  lemma RefusedFacts(e: Endpoint, e1: Endpoint, body: Body)
    requires EndOk(e) && e.apms == ApmsWtack && SameTransport(e, e1) && Told(e1)
    requires Core(Unbounded, e1) && e1.apms == ApmsWtack && Cycle(e1.events) != Broken
    ensures Request(e1, body, AllOk).0 == ErrorInd(e1, AlpmiInvalid, AllOk)
    ensures Inv(Unbounded, ErrorInd(e1, AlpmiInvalid, AllOk))
  {
    RequestNotOpen(Unbounded, e1, body, AllOk);
  }

  lemma SendRefused(l: Link, alarm: Alarm)
    requires LinkInv(l) && l.x.alpmi == AlpmiAlarm && l.x.apms == ApmsWtack
    ensures Kept(l, AtX(Unbounded, l, Send(alarm)))
  {
    hide CountersFit, StopAndWait, RetriesBounded, OneAtATime, Direction, Indications, Confirmations;
    var e1 := SendStarted(l.x);
    assert SameTransport(l.x, e1) && Told(e1) && e1.out == [] && e1.attached;
    var x := ErrorInd(e1, AlpmiInvalid, AllOk);
    assert SendAlarm(l.x, alarm, AllOk).0 == x && Inv(Unbounded, x) by {
      UserStatesKeepCore(Unbounded, l.x, e1);
      RefusedFacts(l.x, e1, Notification(AlarmArg(alarm, l.x.alarmSeq)));
      SendShape(l.x, alarm, AllOk);
    }
    ErrorAtX(l, e1, AlpmiInvalid);
    hide ErrorInd, SendAlarm;
    assert AtX(Unbounded, l, Send(alarm)) == l.(x := x.(out := []), xy := l.xy + x.out);
  }

  lemma SendAccepted(l: Link, alarm: Alarm)
    requires LinkInv(l) && l.x.alpmi == AlpmiAlarm && l.x.apms == ApmsOpen
    ensures Kept(l, AtX(Unbounded, l, Send(alarm)))
  {
    hide Indications, Confirmations, CountersFit, StopAndWait, RetriesBounded, CycleFits, Direction;
    var e1 := SendStarted(l.x);
    UserStatesKeepCore(Unbounded, l.x, e1);
    SendKeepsInv(Unbounded, l.x, alarm, AllOk);
    SendShape(l.x, alarm, AllOk);
    RequestFields(e1, Notification(AlarmArg(alarm, l.x.alarmSeq)));
    RequestEndOk(l, e1, Notification(AlarmArg(alarm, l.x.alarmSeq)), SendAlarm(l.x, alarm, AllOk).0);
  }

  lemma RequestFields(e: Endpoint, body: Body)
    requires e.attached && e.apms == ApmsOpen
    ensures var r := Request(e, body, AllOk).0; r.alpmi == e.alpmi && r.alpmr == e.alpmr
  {
  }

  lemma SendAtX(l: Link, alarm: Alarm)
    requires LinkInv(l)
    ensures Kept(l, AtX(Unbounded, l, Send(alarm)))
  {
    if l.x.alpmi != AlpmiAlarm {
      NothingAtX(l);
    } else if l.x.apms == ApmsOpen {
      SendAccepted(l, alarm);
    } else {
      SendRefused(l, alarm);
    }
  }

  lemma AckShape(e: Endpoint, arg: AlarmArg, status: PnioStatus)
    requires e.attached && e.alpmr == AlpmrUserAck
    ensures UserAck(e, arg, status, AllOk).0
         == Request(AckStarted(e), AlarmAck(arg, status), AllOk).0.(alpmr := AlpmrTack)
  {
  }

  lemma AckFacts(e: Endpoint, arg: AlarmArg, status: PnioStatus)
    requires EndOk(e) && e.alpmr == AlpmrUserAck
    ensures Core(Unbounded, AckStarted(e)) && Told(AckStarted(e))
    ensures Inv(Unbounded, UserAck(e, arg, status, AllOk).0)
  {
    UserStatesKeepCore(Unbounded, e, AckStarted(e));
    QuietKeepsTold(e, AckTaken(|e.requests|));
    UserAckKeepsInv(Unbounded, e, arg, status, AllOk);
  }

  lemma AckAccepted(l: Link, arg: AlarmArg, status: PnioStatus)
    requires LinkInv(l) && l.x.alpmr == AlpmrUserAck && l.x.apms == ApmsOpen
    ensures Kept(l, AtX(Unbounded, l, Ack(arg, status)))
  {
    hide Told, CountersFit, StopAndWait, RetriesBounded, CycleFits, Direction;
    var x := UserAck(l.x, arg, status, AllOk).0;
    AckFacts(l.x, arg, status);
    AckShape(l.x, arg, status);
    RequestFields(AckStarted(l.x), AlarmAck(arg, status));
    RequestEndOk(l, AckStarted(l.x), AlarmAck(arg, status), x);
  }

  /** The ack of an alarm while an own frame is unconfirmed ends the connection. */
  lemma AckRefused(l: Link, arg: AlarmArg, status: PnioStatus)
    requires LinkInv(l) && l.x.alpmr == AlpmrUserAck && l.x.apms == ApmsWtack
    ensures Kept(l, AtX(Unbounded, l, Ack(arg, status)))
  {
    var e1 := AckStarted(l.x);
    UserAckNotOpen(Unbounded, l.x, arg, status, AllOk);
    QuietKeepsTold(l.x, AckTaken(|l.x.requests|));
    var x := ErrorInd(e1, AlpmiInvalid, AllOk);
    assert Inv(Unbounded, x) by { AbortedInv(l.x, arg, status); }
    ErrorAtX(l, e1, AlpmiInvalid);
    TackAfterClose(l, x, arg, status);
  }

  lemma AbortedInv(e: Endpoint, arg: AlarmArg, status: PnioStatus)
    requires Inv(Unbounded, e) && e.alpmr == AlpmrUserAck && e.apms == ApmsWtack
    ensures Inv(Unbounded, ErrorInd(AckStarted(e), AlpmiInvalid, AllOk))
  {
    CycleSnoc(e.events, AckTaken(|e.requests|));
    UserStatesKeepCore(Unbounded, e, AckStarted(e));
    RequestNotOpen(Unbounded, AckStarted(e), AlarmAck(arg, status), AllOk);
  }

  lemma TackAfterClose(l: Link, x: Endpoint, arg: AlarmArg, status: PnioStatus)
    requires LinkInv(l) && l.x.alpmr == AlpmrUserAck && l.x.apms == ApmsWtack
    requires UserAck(l.x, arg, status, AllOk).0 == x.(alpmr := AlpmrTack) && x.apms == ApmsClosed
    requires LinkInv(l.(x := x.(out := []), xy := l.xy + x.out))
    ensures Kept(l, AtX(Unbounded, l, Ack(arg, status)))
  {
    hide CountersFit, StopAndWait, RetriesBounded, CycleFits, Direction;
    var x' := x.(alpmr := AlpmrTack, out := []);
    UserAckKeepsInv(Unbounded, l.x, arg, status, AllOk);
    ClearedInv(Unbounded, x.(alpmr := AlpmrTack));
    SameTransportKeeps(x.(out := []), x', l.y, l.xy + x.out, l.yx);
    assert EndOk(x');
  }

  lemma AckAtX(l: Link, arg: AlarmArg, status: PnioStatus)
    requires LinkInv(l)
    ensures Kept(l, AtX(Unbounded, l, Ack(arg, status)))
  {
    if l.x.alpmr != AlpmrUserAck {
      NothingAtX(l);
    } else if l.x.apms == ApmsOpen {
      AckAccepted(l, arg, status);
    } else {
      AckRefused(l, arg, status);
    }
  }
}
