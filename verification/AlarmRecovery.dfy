/**
 Whatever was lost before: once the resend timer fires and the frames in transit are
 delivered, the outstanding frame is accepted and confirmed.
 */
module AlarmRecovery {
  import opened SequenceNumbers
  import opened AlarmEndpoint
  import opened AlarmEndpointRuns
  import opened AlarmLink
  import opened AlarmLinkInv
  import opened AlarmLinkArrive
  import opened AlarmWire
  import opened AlarmTheorems
  import opened Wrappers

  // ---------------------------------------------------------------- one arrival

  /** Does the frame's ack number confirm what the end waits for? */
  predicate Confirmed(e: Endpoint, f: Frame) {
    f.pdu in {PduData, PduAck} && e.apms == ApmsWtack && f.ackSeq == e.confirms
  }

  /** What an arrival at an open end leaves behind; `out` is what the end sends in return. */
  predicate Taken(e: Endpoint, f: Frame, r: Endpoint, out: seq<Frame>) {
    && r.apms != ApmsClosed && r.requests == e.requests && e.confirms <= r.confirms
    && (Confirmed(e, f) ==> r.confirms == e.confirms + 1)
    && (f.pdu == PduAck ==> out == [])
    && (f.pdu == PduData ==>
          && f.sendSeq < |r.accepted| && |out| == 1
          && out[0].pdu == PduAck && out[0].ackSeq == |r.accepted| - 1)
  }

  lemma TackTaken(e: Endpoint, f: Frame)
    requires EndOk(e) && e.apms != ApmsClosed
    ensures var r := ApmsDataInd(Unbounded, e, f);
            && r.apms != ApmsClosed && r.requests == e.requests && e.confirms <= r.confirms && r.out == []
            && (Confirmed(e, f) ==> r.confirms == e.confirms + 1)
  {
    TackEndOk(e, f);
    hide StopAndWait, RetriesBounded, CycleFits, OneAtATime, Told;
  }

  lemma IndicatedTaken(e: Endpoint, body: Body)
    requires e.attached && e.apms != ApmsClosed
    requires (body.AlarmAck? && e.alpmi == AlpmiAck) || (body.Notification? && e.alpmr == AlpmrNotify)
    ensures var r := Indicate(e, body, AllOk).0;
            r.apms == e.apms && r.requests == e.requests && r.accepted == e.accepted && r.confirms == e.confirms
  {
  }

  lemma NewTaken(e: Endpoint, f: Frame)
    requires EndOk(e) && e.apms != ApmsClosed && f.version == 1 && f.pdu == PduData && f.tack
    requires f.sendSeq == |e.accepted|
    requires (f.body.AlarmAck? && e.alpmi == AlpmiAck)
             || (f.body.Notification? && ApmsDataInd(Unbounded, e, f).alpmr == AlpmrNotify)
    ensures var r := Step(Unbounded, e, Deliver(f), AllOk); Taken(e, f, r, r.out)
  {
    TackTaken(e, f);
    TackEndOk(e, f);
    ExpectedShape(e, f);
    var x := ApmsDataInd(Unbounded, e, f);
    CountingKeepsInv(Unbounded, x, f);
    hide ApmsDataInd, Step, Indicate, CycleFits, RetriesBounded, Told, OneAtATime;
    IndicatedTaken(Counting(Unbounded, x, f), f.body);
  }

  lemma DuplicateTaken(e: Endpoint, f: Frame)
    requires EndOk(e) && e.apms != ApmsClosed && f.version == 1 && f.pdu == PduData && f.tack
    requires f.sendSeq == |e.accepted| - 1
    ensures var r := Step(Unbounded, e, Deliver(f), AllOk); Taken(e, f, r, r.out)
  {
    TackTaken(e, f);
    TackEndOk(e, f);
    DuplicateShape(e, f);
    hide ApmsDataInd, Step, CycleFits, RetriesBounded, Told, OneAtATime;
  }

  lemma AckTaken(e: Endpoint, f: Frame)
    requires EndOk(e) && e.apms != ApmsClosed && f.version == 1 && f.varLenOk && f.pdu == PduAck
    ensures var r := Step(Unbounded, e, Deliver(f), AllOk); Taken(e, f, r, r.out)
  {
    TackTaken(e, f);
    hide ApmsDataInd, CountersFit, StopAndWait, RetriesBounded, CycleFits, Told, OneAtATime;
  }

  lemma ArrivalTaken(l: Link, f: Frame, rest: seq<Frame>)
    requires Due(l, f, rest) && l.y.apms != ApmsClosed
    ensures f.pdu in {PduData, PduAck}
    ensures var r := Step(Unbounded, l.x, Deliver(f), AllOk); Taken(l.x, f, r, r.out)
  {
    NextFacts(l, f, rest);
    if f.pdu == PduData {
      assert f == l.y.built[f.sendSeq] && l.y.requests[f.sendSeq] == f.body;
      if f.sendSeq == |l.x.accepted| {
        if f.body.Notification? { NotifyReady(l, f, rest); } else { AckAwaited(l, f, rest); }
        hide Step, Taken;
        NewTaken(l.x, f);
      } else {
        hide Step, Taken;
        DuplicateTaken(l.x, f);
      }
    } else {
      hide Step, Taken;
      AckTaken(l.x, f);
    }
  }

  // ---------------------------------------------------------------- all frames in transit arrive

  function Arrivals(side: Side, n: nat): (r: seq<Action>)
    ensures |r| == n
  {
    seq(n, _ => Arrive(side))
  }

  lemma {:induction false} RunConcat(m: Numbering, l: Link, first: seq<Action>, rest: seq<Action>)
    requires EndsInv(m, l)
    ensures LinkRun(m, l, first + rest) == LinkRun(m, LinkRun(m, l, first), rest)
    decreases |first|
  {
    if first == [] {
      assert first + rest == rest;
    } else {
      assert (first + rest)[1..] == first[1..] + rest;
      hide EndsInv, Act;
      RunConcat(m, Act(m, l, first[0]), first[1..], rest);
    }
  }

  lemma OutMoved(e: Endpoint, f: Frame, r: Endpoint)
    requires Taken(e, f, r, r.out)
    ensures Taken(e, f, r.(out := []), r.out)
  {
  }

  lemma OneArrival(l: Link)
    requires LinkInv(l) && l.x.apms != ApmsClosed && l.y.apms != ApmsClosed && l.yx != []
    ensures var r := Act(Unbounded, l, Arrive(X));
            LinkInv(r) && FirstArrived(l, r) && l.yx[0].pdu in {PduData, PduAck}
  {
    hide EndOk, Direction, Step, Taken;
    ActKeepsInv(l, Arrive(X));
    var f, rest := l.yx[0], l.yx[1..];
    assert l.yx == [f] + rest;
    ArrivalTaken(l, f, rest);
    assert EndsInv(Unbounded, l) by { BothEndsInv(l); }
    var x := Step(Unbounded, l.x, Deliver(f), AllOk);
    OutMoved(l.x, f, x);
  }

  /** The last frame to arrive has been answered, if it is a DATA frame, and its ack number counted. */
  predicate Answered(l: Link, r: Link) {
    && r.x.apms != ApmsClosed && r.y == l.y && r.yx == []
    && r.x.requests == l.x.requests && l.x.confirms <= r.x.confirms
    && (l.yx != [] ==>
          var last := l.yx[|l.yx| - 1];
          && (l.x.apms == ApmsWtack && last.ackSeq == l.x.confirms ==> r.x.confirms == l.x.confirms + 1)
          && (last.pdu == PduData ==>
                && last.sendSeq < |r.x.accepted| && r.xy != []
                && r.xy[|r.xy| - 1].pdu == PduAck && r.xy[|r.xy| - 1].ackSeq == |r.x.accepted| - 1))
  }

  lemma StillWaiting(e: Endpoint, n: nat)
    requires EndOk(e) && e.apms != ApmsClosed && n < |e.requests| <= n + 1 && n <= e.confirms
    ensures e.confirms == n + 1 || (e.confirms == n && e.apms == ApmsWtack)
    ensures e.confirms <= n + 1
  {
    hide CountersFit, RetriesBounded, CycleFits, Told, OneAtATime;
  }

  /** `r` is the link after the first frame on its way to X has arrived. */
  ghost predicate FirstArrived(l: Link, r: Link) {
    && l.yx != [] && r.y == l.y && r.yx == l.yx[1..] && l.x.apms != ApmsClosed
    && exists out :: r.xy == l.xy + out && Taken(l.x, l.yx[0], r.x, out)
  }

  lemma AnsweredLast(l: Link, r: Link)
    requires FirstArrived(l, r) && |l.yx| == 1 && l.yx[0].pdu in {PduData, PduAck}
    ensures Answered(l, r)
  {
    var out :| r.xy == l.xy + out && Taken(l.x, l.yx[0], r.x, out);
    if l.yx[0].pdu == PduData {
      assert r.xy[|r.xy| - 1] == out[0];
    }
  }

  /** Frame `n` of `e` stays unconfirmed, with `e` waiting, or becomes the last confirmed one. */
  lemma ConfirmedOnce(e: Endpoint, e1: Endpoint, r: Endpoint)
    requires EndOk(e) && EndOk(e1) && EndOk(r)
    requires e.apms == ApmsWtack && e1.apms != ApmsClosed && r.apms != ApmsClosed
    requires e.requests == e1.requests == r.requests && e.confirms <= e1.confirms <= r.confirms
    ensures r.confirms <= e.confirms + 1 && (e1.confirms == e.confirms ==> e1.apms == ApmsWtack)
  {
    WaitingHasOne(e);
    hide EndOk;
    StillWaiting(e1, e.confirms);
    StillWaiting(r, e.confirms);
  }

  lemma AnsweredMore(l: Link, l1: Link, r: Link)
    requires FirstArrived(l, l1) && |l.yx| > 1 && Answered(l1, r)
    requires LinkInv(l) && LinkInv(l1) && LinkInv(r)
    ensures Answered(l, r)
  {
    BothEndsOk(l);
    BothEndsOk(l1);
    BothEndsOk(r);
    hide LinkInv, EndOk;
    assert l.yx[|l.yx| - 1] == l1.yx[|l1.yx| - 1];
    if l.x.apms == ApmsWtack {
      ConfirmedOnce(l.x, l1.x, r.x);
    }
  }

  lemma ArrivalsRun(l: Link, n: nat)
    requires EndsInv(Unbounded, l) && n > 0
    ensures LinkRun(Unbounded, l, Arrivals(X, n))
         == LinkRun(Unbounded, Act(Unbounded, l, Arrive(X)), Arrivals(X, n - 1))
  {
    hide Inv, Act;
    assert Arrivals(X, n)[0] == Arrive(X) && Arrivals(X, n)[1..] == Arrivals(X, n - 1);
  }

  lemma {:induction false} DrainX(l: Link)
    requires LinkInv(l) && l.x.apms != ApmsClosed && l.y.apms != ApmsClosed
    ensures var r := LinkRun(Unbounded, l, Arrivals(X, |l.yx|)); LinkInv(r) && Answered(l, r)
    decreases |l.yx|
  {
    BothEndsInv(l);
    if l.yx == [] {
      hide LinkInv, EndsInv;
    } else {
      hide LinkInv, EndsInv, FirstArrived, Answered, Act, Arrivals, LinkRun;
      OneArrival(l);
      var l1 := Act(Unbounded, l, Arrive(X));
      ArrivalsRun(l, |l.yx|);
      StillOpen(l, l1);
      if |l.yx| == 1 {
        NoArrivals(l1);
        AnsweredLast(l, l1);
      } else {
        DrainX(l1);
        AnsweredMore(l, l1, LinkRun(Unbounded, l1, Arrivals(X, |l1.yx|)));
      }
    }
  }

  lemma StillOpen(l: Link, r: Link)
    requires FirstArrived(l, r)
    ensures r.x.apms != ApmsClosed && r.y == l.y && |r.yx| == |l.yx| - 1
  {
  }

  lemma NoArrivals(l: Link)
    requires EndsInv(Unbounded, l)
    ensures LinkRun(Unbounded, l, Arrivals(X, 0)) == l
  {
  }

  lemma WaitingHasOne(e: Endpoint)
    requires EndOk(e) && e.apms == ApmsWtack
    ensures |e.requests| == e.confirms + 1
  {
  }

  // ---------------------------------------------------------------- recovery

  lemma {:induction false} FlipRun(l: Link, n: nat)
    requires EndsInv(Unbounded, l)
    ensures EndsInv(Unbounded, Flip(l))
    ensures LinkRun(Unbounded, l, Arrivals(Y, n)) == Flip(LinkRun(Unbounded, Flip(l), Arrivals(X, n)))
    decreases n
  {
    assert Flip(Flip(l)) == l;
    if n > 0 {
      assert Arrivals(Y, n)[0] == Arrive(Y) && Arrivals(Y, n)[1..] == Arrivals(Y, n - 1);
      assert Arrivals(X, n)[0] == Arrive(X) && Arrivals(X, n)[1..] == Arrivals(X, n - 1);
      var l1 := Act(Unbounded, l, Arrive(Y));
      assert Act(Unbounded, Flip(l), Arrive(X)) == Flip(l1) by { FlipAct(l); }
      hide Inv, Act;
      FlipRun(l1, n - 1);
    }
  }

  lemma FlipAct(l: Link)
    requires EndsInv(Unbounded, l)
    ensures EndsInv(Unbounded, Flip(l))
    ensures Act(Unbounded, l, Arrive(Y)) == Flip(Act(Unbounded, Flip(l), Arrive(X)))
  {
    hide Inv, AtX;
  }

  /** X's frame `n` is the last one on its way to Y. */
  predicate Offered(l: Link, n: nat) {
    && LinkInv(l) && l.x.apms == ApmsWtack && l.y.apms != ApmsClosed
    && |l.x.requests| == n + 1 && l.x.confirms == n
    && l.xy != [] && l.xy[|l.xy| - 1].pdu == PduData && l.xy[|l.xy| - 1].sendSeq == n
  }

  /** Y has accepted X's frame `n`, and its ack is the last frame on its way to X. */
  predicate AckOnItsWay(l: Link, n: nat) {
    && LinkInv(l) && l.x.apms == ApmsWtack && l.x.confirms == n && l.y.apms != ApmsClosed && |l.y.accepted| == n + 1
    && l.yx != [] && l.yx[|l.yx| - 1].pdu == PduAck && l.yx[|l.yx| - 1].ackSeq == n
  }

  /** Frame `n` has been accepted and confirmed, and both ends are open. */
  predicate Settled(l: Link, n: nat) {
    l.x.confirms == n + 1 == |l.y.accepted| && l.x.apms != ApmsClosed && l.y.apms != ApmsClosed && l.yx == []
  }

  /** The timer firing puts the outstanding frame behind whatever is in transit. */
  lemma Resent(l: Link)
    requires LinkInv(l) && l.x.apms == ApmsWtack && l.x.resend > 0 && l.y.apms != ApmsClosed
    ensures Offered(Act(Unbounded, l, Local(X, TimerFires)), l.x.confirms)
  {
    hide LinkInv, Inv, EndOk, Timeout;
    ActKeepsInv(l, Local(X, TimerFires));
    BothEndsInv(l);
    BothEndsOk(l);
    Fired(l.x);
  }

  lemma Fired(e: Endpoint)
    requires EndOk(e) && e.apms == ApmsWtack && e.resend > 0
    ensures var r := Timeout(e, AllOk);
            && r.apms == ApmsWtack && r.requests == e.requests
            && r.confirms == e.confirms && |e.requests| == e.confirms + 1
            && |r.out| == 1 && r.out[0].pdu == PduData && r.out[0].sendSeq == e.confirms
  {
    OutstandingFrame(e);
    hide Inv, OneAtATime, Told;
  }

  lemma OutstandingFrame(e: Endpoint)
    requires EndOk(e) && e.apms == ApmsWtack
    ensures e.rta.Some? && e.rta.value.pdu == PduData && e.rta.value.sendSeq == e.confirms
    ensures |e.requests| == e.confirms + 1
  {
  }

  /** Firing of the timer, then delivery of all that is on its way to Y, and then to X. */
  function Retry(toY: nat, toX: nat): seq<Action> {
    [Local(X, TimerFires)] + Arrivals(Y, toY) + Arrivals(X, toX)
  }

  lemma AckFollows(l: Link, r: Link, n: nat)
    requires Offered(l, n) && LinkInv(r) && Answered(Flip(l), Flip(r)) && |r.y.accepted| <= |r.x.requests|
    ensures AckOnItsWay(r, n)
  {
    hide LinkInv;
  }

  lemma OfferedFlips(l: Link, n: nat)
    requires Offered(l, n)
    ensures LinkInv(l) && LinkInv(Flip(l)) && EndsInv(Unbounded, l) && EndsInv(Unbounded, Flip(l))
    ensures l.x.apms != ApmsClosed && l.y.apms != ApmsClosed
  {
    FlipInv(l);
    BothEndsInv(l);
    hide Inv, EndOk, Direction;
  }

  lemma DrainY(l: Link, n: nat)
    requires Offered(l, n)
    ensures EndsInv(Unbounded, l) && AckOnItsWay(LinkRun(Unbounded, l, Arrivals(Y, |l.xy|)), n)
  {
    hide LinkInv, EndsInv, LinkRun, Arrivals, Offered, Answered, AckOnItsWay;
    OfferedFlips(l, n);
    FlipRun(l, |l.xy|);
    DrainX(Flip(l));
    var r := LinkRun(Unbounded, l, Arrivals(Y, |l.xy|));
    assert Flip(Flip(r)) == r;
    FlipInv(r);
    AcceptedBound(r);
    AckFollows(l, r, n);
  }

  lemma DrainAck(l: Link, n: nat)
    requires AckOnItsWay(l, n)
    ensures EndsInv(Unbounded, l) && Settled(LinkRun(Unbounded, l, Arrivals(X, |l.yx|)), n)
  {
    BothEndsInv(l);
    hide EndOk, Direction, LinkRun, Inv, Arrivals;
    DrainX(l);
  }

  lemma AcceptedBound(l: Link)
    requires LinkInv(l)
    ensures |l.y.accepted| <= |l.x.requests|
  {
  }

  lemma ResentOne(l: Link)
    requires LinkInv(l) && l.x.apms == ApmsWtack && l.x.resend > 0
    ensures EndsInv(Unbounded, l) && |Act(Unbounded, l, Local(X, TimerFires)).xy| == |l.xy| + 1
  {
    hide LinkInv, Inv, EndOk, Timeout;
    BothEndsInv(l);
    BothEndsOk(l);
    Fired(l.x);
  }

  /** The frames on their way to X once the timer has fired at X and everything has arrived at Y. */
  function Answers(l: Link): nat
    requires EndsInv(Unbounded, l)
  {
    |LinkRun(Unbounded, Act(Unbounded, l, Local(X, TimerFires)), Arrivals(Y, |l.xy| + 1)).yx|
  }

  lemma DrainBoth(l: Link, n: nat)
    requires Offered(l, n)
    ensures EndsInv(Unbounded, l)
    ensures var r := LinkRun(Unbounded, l, Arrivals(Y, |l.xy|)); Settled(LinkRun(Unbounded, r, Arrivals(X, |r.yx|)), n)
  {
    hide EndsInv, LinkRun, Arrivals, Offered, AckOnItsWay, Settled;
    DrainY(l, n);
    DrainAck(LinkRun(Unbounded, l, Arrivals(Y, |l.xy|)), n);
  }

  lemma RetryCounts(l: Link)
    requires LinkInv(l) && l.x.apms == ApmsWtack && l.x.resend > 0 && l.y.apms != ApmsClosed
    ensures EndsInv(Unbounded, l) && Settled(LinkRun(Unbounded, l, Retry(|l.xy| + 1, Answers(l))), l.x.confirms)
  {
    BothEndsInv(l);
    hide LinkInv, EndsInv, Act, LinkRun, Arrivals, Retry, Offered, Settled;
    Resent(l);
    ResentOne(l);
    DrainBoth(Act(Unbounded, l, Local(X, TimerFires)), l.x.confirms);
    RetryRun(l, |l.xy| + 1, Answers(l));
  }

  lemma OnTheWire(l: Link, n: nat)
    ensures Settled(WireLink(l), n) == Settled(l, n)
    ensures |WireLink(l).xy| == |l.xy| && |WireLink(l).yx| == |l.yx|
    ensures WireLink(l).x.apms == l.x.apms && WireLink(l).y.apms == l.y.apms
    ensures WireLink(l).x.resend == l.x.resend && WireLink(l).x.confirms == l.x.confirms
  {
  }

  /** What is on its way to X once the timer has fired at X and everything has arrived at Y. */
  function ToX(low: bool, retriesX: nat, retriesY: nat, actions: seq<Action>): nat {
    var l := WireRun(low, retriesX, retriesY, actions);
    |WireRun(low, retriesX, retriesY, actions + Retry(|l.xy| + 1, 0)).yx|
  }

  lemma NoFurtherArrivals(l: Link)
    requires EndsInv(Unbounded, l)
    ensures |LinkRun(Unbounded, l, Retry(|l.xy| + 1, 0)).yx| == Answers(l)
  {
    hide Act, Inv, Retry;
    RetryRun(l, |l.xy| + 1, 0);
  }

  lemma RetrySettles(low: bool, retriesX: nat, retriesY: nat, actions: seq<Action>, l: Link)
    requires LinkInv(l) && l == LinkRun(Unbounded, Connected(Unbounded, low, retriesX, retriesY), actions)
    requires WireRun(low, retriesX, retriesY, actions) == WireLink(l)
    requires l.x.apms == ApmsWtack && l.x.resend > 0 && l.y.apms != ApmsClosed
    ensures Settled(WireRun(low, retriesX, retriesY,
                            actions + Retry(|l.xy| + 1, ToX(low, retriesX, retriesY, actions))), l.x.confirms)
  {
    BothEndsInv(l);
    hide LinkInv, LinkRun, EndsInv, Retry, Settled, Connected, Act, Answers, WireLink;
    var l0 := Connected(Unbounded, low, retriesX, retriesY);
    var toY, toX := |l.xy| + 1, Answers(l);
    RetryCounts(l);
    RunConcat(Unbounded, l0, actions, Retry(toY, toX));
    RunConcat(Unbounded, l0, actions, Retry(toY, 0));
    NoFurtherArrivals(l);
    WireCountersRefineUnbounded(low, retriesX, retriesY, actions + Retry(toY, toX));
    WireCountersRefineUnbounded(low, retriesX, retriesY, actions + Retry(toY, 0));
    OnTheWire(l, 0);
    OnTheWire(LinkRun(Unbounded, l0, actions + Retry(toY, 0)), 0);
    OnTheWire(LinkRun(Unbounded, l0, actions + Retry(toY, toX)), l.x.confirms);
  }

  /** One firing of the timer within the retry budget is enough: if the frames then in transit
      arrive, first at Y and then at X, the outstanding frame is accepted and confirmed. */
  lemma RetryConfirms(low: bool, retriesX: nat, retriesY: nat, actions: seq<Action>)
    ensures var l := WireRun(low, retriesX, retriesY, actions);
            l.x.apms == ApmsWtack && l.x.resend > 0 && l.y.apms != ApmsClosed ==>
              Settled(WireRun(low, retriesX, retriesY,
                              actions + Retry(|l.xy| + 1, ToX(low, retriesX, retriesY, actions))), l.x.confirms)
  {
    WireCountersRefineUnbounded(low, retriesX, retriesY, actions);
    var l := LinkRun(Unbounded, Connected(Unbounded, low, retriesX, retriesY), actions);
    assert WireRun(low, retriesX, retriesY, actions) == WireLink(l);
    OnTheWire(l, 0);
    hide LinkInv, LinkRun, EndsInv, Retry, Settled, Connected, ToX, WireRun, WireLink;
    if l.x.apms == ApmsWtack && l.x.resend > 0 && l.y.apms != ApmsClosed {
      RetrySettles(low, retriesX, retriesY, actions, l);
    }
  }

  lemma SwappedTwice(actions: seq<Action>)
    ensures Swapped(Swapped(actions)) == actions
  {
    forall i | 0 <= i < |actions| ensures Swap(Swap(actions[i])) == actions[i] {}
  }

  lemma SwappedConcat(first: seq<Action>, rest: seq<Action>)
    ensures Swapped(first + rest) == Swapped(first) + Swapped(rest)
  {
  }

  /** The same at end Y. */
  lemma RetryConfirmsAtY(low: bool, retriesX: nat, retriesY: nat, actions: seq<Action>)
    ensures var l := WireRun(low, retriesX, retriesY, actions);
            var toY := ToX(low, retriesY, retriesX, Swapped(actions));
            l.y.apms == ApmsWtack && l.y.resend > 0 && l.x.apms != ApmsClosed ==>
              Settled(Flip(WireRun(low, retriesX, retriesY, actions + Swapped(Retry(|l.yx| + 1, toY)))), l.y.confirms)
  {
    hide Retry, Settled, ToX, WireRun;
    var l := WireRun(low, retriesX, retriesY, actions);
    var more := Retry(|l.yx| + 1, ToX(low, retriesY, retriesX, Swapped(actions)));
    WireRunFlips(low, retriesX, retriesY, actions);
    RetryConfirms(low, retriesY, retriesX, Swapped(actions));
    SwappedConcat(Swapped(actions), more);
    SwappedTwice(actions);
    WireRunFlips(low, retriesY, retriesX, Swapped(actions) + more);
    var r := WireRun(low, retriesY, retriesX, Swapped(actions) + more);
    assert Flip(Flip(r)) == r;
  }

  lemma RetryRun(l: Link, toY: nat, toX: nat)
    requires EndsInv(Unbounded, l)
    ensures var r := LinkRun(Unbounded, Act(Unbounded, l, Local(X, TimerFires)), Arrivals(Y, toY));
            LinkRun(Unbounded, l, Retry(toY, toX)) == LinkRun(Unbounded, r, Arrivals(X, toX))
  {
    hide Act, Inv;
    var act := [Local(X, TimerFires)];
    assert act[1..] == [];
    assert LinkRun(Unbounded, Act(Unbounded, l, act[0]), []) == Act(Unbounded, l, act[0]);
    RunConcat(Unbounded, l, act, Arrivals(Y, toY));
    RunConcat(Unbounded, l, act + Arrivals(Y, toY), Arrivals(X, toX));
  }
}
