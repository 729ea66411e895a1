/**
 What the parameters of an activation mean for the runs that follow, and what the consumer reports
 and counts in them, told from the bytes of the accepted frames.
 */
module CpmActivation {
  import opened CycleCounter
  import opened CpmConsumer
  import opened Wrappers

  // ---------------------------------------------------------------- the parameters

  predicate Fixed(c: Consumer, p: Params) {
    c.holdFactor == p.holdFactor && c.source == p.source && c.bufferLength == p.cSduLength + 20
  }

  lemma StepKeepsFixed(c: Consumer, input: Input, p: Params)
    requires Fixed(c, p) && InputOk(c, input)
    ensures Fixed(Step(c, input), p) && c.accepted <= Step(c, input).accepted
  {
    if input.Received? {
      DataIndCases(c, input.f);
    }
    hide Accepts, DataInd, Cycle, DataStatus;
  }

  lemma {:induction false} RunFixed(c: Consumer, inputs: seq<Input>, p: Params)
    requires Fixed(c, p) && RunOk(c, inputs)
    ensures Fixed(Run(c, inputs), p) && c.accepted <= Run(c, inputs).accepted
    decreases |inputs|
  {
    if inputs != [] {
      StepKeepsFixed(c, inputs[0], p);
      hide Step, Fixed;
      RunFixed(Step(c, inputs[0]), inputs[1..], p);
    }
  }

  /** The frame comes from the agreed source, with valid data of the agreed length. */
  predicate Right(p: Params, f: Frame)
    requires Receivable(f)
  {
    var n := |f.bytes|;
    && f.bytes[n - 1] == 0
    && f.bytes[n - 2] / 4 % 2 == 1
    && f.bytes[6..12] == p.source
    && f.framePos + 6 <= n && |CSdu(f)| == p.cSduLength
  }

  lemma AcceptsIff(c: Consumer, p: Params, f: Frame)
    requires Fresh(c) && Fixed(c, p) && Receivable(f) && InWindow(c, f) && c.state != WaitStart
    ensures Accepts(c, f) <==> Right(p, f) && LastCount(c) < f.count
  {
    hide CheckCycle;
    if DataValid(f) && FrameStructure(c, f) {
      AcceptedIffNewer(c, f);
    }
  }

  lemma AcceptedRecord(c: Consumer, f: Frame)
    requires Receivable(f)
    ensures DataInd(c, f).accepted == if Accepts(c, f) then c.accepted + [f] else c.accepted
  {
    DataIndCases(c, f);
    hide Accepts, DataInd, Cycle, DataStatus;
  }

  /** In any activation that has not been stopped: a frame is accepted exactly if it comes from the
      agreed source with valid data of the agreed length and is newer than all accepted before. */
  lemma AcceptedExactly(p: Params, inputs: seq<Input>, f: Frame)
    requires RunOk(Activate(Zeroed, p, true), inputs) && AllInWindow(Activate(Zeroed, p, true), inputs)
    requires var c := Run(Activate(Zeroed, p, true), inputs);
             c.state != WaitStart && InputOk(c, Received(f)) && InWindow(c, f)
    ensures var c := Run(Activate(Zeroed, p, true), inputs);
            var r := Step(c, Received(f));
            && (r.accepted == c.accepted + [f] || r.accepted == c.accepted)
            && (r.accepted == c.accepted + [f] <==>
                  Right(p, f) && forall i :: 0 <= i < |c.accepted| ==> c.accepted[i].count < f.count)
  {
    var a := Activate(Zeroed, p, true);
    ActivatedFresh(p);
    RunFixed(a, inputs, p);
    AcceptedCountersIncrease(a, inputs);
    var c := Run(a, inputs);
    hide Run, Activate, Right, Accepts, Cycle, DataInd;
    AcceptsIff(c, p, f);
    AcceptedRecord(c, f);
    NewerThanAll(c, f.count);
    assert c.accepted + [f] != c.accepted;
  }

  lemma NewerThanAll(c: Consumer, count: nat)
    requires Fresh(c)
    ensures LastCount(c) < count <==> forall i :: 0 <= i < |c.accepted| ==> c.accepted[i].count < count
  {
  }

  // ---------------------------------------------------------------- the watchdog

  /** What leaves the record as it is has no accepted frame in it. */
  lemma {:induction false} SameRecord(c: Consumer, inputs: seq<Input>, p: Params)
    requires Fixed(c, p) && RunOk(c, inputs) && Run(c, inputs).accepted == c.accepted
    ensures NoneAccepted(c, inputs)
    decreases |inputs|
  {
    if inputs != [] {
      var c1 := Step(c, inputs[0]);
      StepKeepsFixed(c, inputs[0], p);
      RunFixed(c1, inputs[1..], p);
      if inputs[0].Received? {
        AcceptedRecord(c, inputs[0].f);
      }
      hide Step, Accepts, Fixed, DataInd;
      assert c1.accepted == c.accepted;
      SameRecord(c1, inputs[1..], p);
    }
  }

  lemma TakenRuns(c: Consumer, f: Frame)
    requires Inv(c) && InputOk(c, Received(f)) && Step(c, Received(f)).accepted == c.accepted + [f]
    ensures var r := Step(c, Received(f)); Inv(r) && r.state == Running && r.dht == 0
  {
    StepKeepsInv(c, Received(f));
    AcceptedRecord(c, f);
    DataIndCases(c, f);
    hide Inv, Accepts, DataInd, Cycle, DataStatus;
    assert c.accepted + [f] != c.accepted;
  }

  /** After an accepted frame, and as long as no other is accepted, the consumer survives as many
      expiries as the hold factor of its activation says; the next one stops it. */
  lemma StopsAfterHold(p: Params, inputs: seq<Input>, f: Frame, more: seq<Input>)
    requires |p.source| == 6 && RunOk(Activate(Zeroed, p, true), inputs)
    requires var c := Run(Activate(Zeroed, p, true), inputs);
             && InputOk(c, Received(f)) && RunOk(Step(c, Received(f)), more)
             && Step(c, Received(f)).accepted == c.accepted + [f] == Run(Step(c, Received(f)), more).accepted
    ensures var c := Run(Activate(Zeroed, p, true), inputs);
            var r := Run(Step(c, Received(f)), more);
            if Expiries(more) <= p.holdFactor then r.state == Running && StateInds(r.events) == [true]
            else r.state == WaitStart && !r.running && StateInds(r.events) == [true, false]
  {
    var a := Activate(Zeroed, p, true);
    ActivatedInv(p);
    RunInv(a, inputs);
    RunFixed(a, inputs, p);
    var c := Run(a, inputs);
    hide Inv, Run, RunOk, StateInds, Step, Activate;
    TakenRuns(c, f);
    StepKeepsFixed(c, Received(f), p);
    SameRecord(Step(c, Received(f)), more, p);
    WatchdogExact(Step(c, Received(f)), more);
  }

  // ---------------------------------------------------------------- what is reported

  /** The status byte of a frame. */
  function Status(f: Frame): nat
    requires |f.bytes| >= 2
  {
    f.bytes[|f.bytes| - 2]
  }

  predicate HasStatus(s: seq<Frame>) {
    forall i :: 0 <= i < |s| ==> |s[i].bytes| >= 2
  }

  /** The status of the latest frame, and 0 before the first one. */
  function Latest(s: seq<Frame>): nat
    requires HasStatus(s)
  {
    if s == [] then 0 else Status(s[|s| - 1])
  }

  /** From which status to which it changes along the frames. */
  function Changes(s: seq<Frame>): seq<(nat, nat)>
    requires HasStatus(s)
  {
    if s == [] then []
    else
      var n := |s| - 1;
      Changes(s[..n]) + (if Latest(s[..n]) != Status(s[n]) then [(Latest(s[..n]), Status(s[n]))] else [])
  }

  /** The changes told to the application. */
  function ToldChanges(s: seq<Event>): seq<(nat, nat)> {
    if s == [] then []
    else
      var ev := s[|s| - 1];
      ToldChanges(s[..|s| - 1]) + (if ev.StatusChanged? then [(ev.before, ev.after)] else [])
  }

  /** How often the application was told of new data. */
  function ToldUpdates(s: seq<Event>): nat {
    if s == [] then 0
    else ToldUpdates(s[..|s| - 1]) + (if s[|s| - 1].NewData? then 1 else 0)
  }

  /** How often it was told that the control interval could not be started. */
  function ToldErrors(s: seq<Event>): nat {
    if s == [] then 0
    else ToldErrors(s[..|s| - 1]) + (if s[|s| - 1].TimerError? then 1 else 0)
  }

  lemma ToldSnoc(s: seq<Event>, ev: Event)
    ensures ToldChanges(s + [ev]) == ToldChanges(s) + (if ev.StatusChanged? then [(ev.before, ev.after)] else [])
    ensures ToldUpdates(s + [ev]) == ToldUpdates(s) + (if ev.NewData? then 1 else 0)
    ensures ToldErrors(s + [ev]) == ToldErrors(s) + (if ev.TimerError? then 1 else 0)
  {
    assert (s + [ev])[..|s + [ev]| - 1] == s;
  }

  predicate Told(c: Consumer) {
    && HasStatus(c.accepted) && c.dataStatus == Latest(c.accepted)
    && ToldChanges(c.events) == Changes(c.accepted) && ToldUpdates(c.events) == |c.accepted|
  }

  lemma TakenEventsTold(c: Consumer, f: Frame)
    requires Receivable(f)
    ensures var r := Taken(c, f);
            && ToldUpdates(r.events) == ToldUpdates(c.events) + 1
            && ToldErrors(r.events) == ToldErrors(c.events)
            && ToldChanges(r.events) == ToldChanges(c.events)
                 + (if c.dataStatus != Status(f) then [(c.dataStatus, Status(f))] else [])
  {
    hide ToldChanges, ToldUpdates, ToldErrors, Cycle;
    var s1 := if c.state == FirstRun then c.events + [StateInd(true)] else c.events;
    var s2 := s1 + [NewData(true)];
    ToldSnoc(c.events, StateInd(true));
    ToldSnoc(s1, NewData(true));
    ToldSnoc(s2, StatusChanged(c.dataStatus, Status(f)));
    assert Taken(c, f).events
        == if c.dataStatus != Status(f) then s2 + [StatusChanged(c.dataStatus, Status(f))] else s2;
  }

  lemma AcceptedParts(c: Consumer, f: Frame)
    requires Receivable(f) && Accepts(c, f)
    ensures var r := DataInd(c, f);
            && r.events == Taken(c, f).events && r.accepted == c.accepted + [f] && r.dataStatus == Status(f)
            && r.recvCnt == c.recvCnt + 1 && r.errCnt == c.errCnt && c.state != WaitStart
  {
    DataIndCases(c, f);
    hide Cycle, CheckCycle, FrameStructure;
  }

  lemma ChangesSnoc(s: seq<Frame>, f: Frame)
    requires HasStatus(s) && |f.bytes| >= 2
    ensures HasStatus(s + [f]) && Latest(s + [f]) == Status(f)
    ensures Changes(s + [f]) == Changes(s) + (if Latest(s) != Status(f) then [(Latest(s), Status(f))] else [])
  {
    assert (s + [f])[..|s + [f]| - 1] == s;
  }

  lemma AcceptedTold(c: Consumer, f: Frame)
    requires Told(c) && Receivable(f) && Accepts(c, f)
    ensures var r := DataInd(c, f); Told(r) && ToldErrors(r.events) == ToldErrors(c.events)
  {
    hide Accepts, Taken, DataInd, ToldChanges, ToldUpdates, ToldErrors, Changes, Latest, Status;
    AcceptedParts(c, f);
    TakenEventsTold(c, f);
    ChangesSnoc(c.accepted, f);
  }

  /** Expiries with a failing restart that do not stop the consumer. */
  function Failures(inputs: seq<Input>): nat {
    if inputs == [] then 0
    else (if inputs[0].TimerExpires? && !inputs[0].restarted then 1 else 0) + Failures(inputs[1..])
  }

  function Arrivals(inputs: seq<Input>): nat {
    if inputs == [] then 0 else (if inputs[0].Received? then 1 else 0) + Arrivals(inputs[1..])
  }

  lemma ExpiredTold(c: Consumer, restarted: bool)
    requires Inv(c) && Told(c)
    ensures var r := Expired(c, restarted);
            && Told(r) && r.recvCnt == c.recvCnt && r.errCnt == c.errCnt
            && (r.state != WaitStart ==> ToldErrors(r.events) == ToldErrors(c.events) + (if restarted then 0 else 1))
  {
    ToldSnoc(c.events, StateInd(false));
    ToldSnoc(c.events, TimerError);
    ToldSnoc(Ticked(c).events, TimerError);
    hide ToldChanges, ToldUpdates, ToldErrors, Accounted, NewestHeld, Positioned, NeverReloaded, StateInds;
  }

  lemma StepTold(c: Consumer, input: Input)
    requires Inv(c) && Told(c) && InputOk(c, input)
    ensures var r := Step(c, input);
            && Told(r) && r.recvCnt == c.recvCnt + Arrivals([input])
            && r.errCnt == c.errCnt + (if c.state == WaitStart then Arrivals([input]) else 0)
            && (r.state != WaitStart ==> ToldErrors(r.events) == ToldErrors(c.events) + Failures([input]))
  {
    assert [input][1..] == [];
    match input
    case Received(f) =>
      DataIndCases(c, f);
      if Accepts(c, f) {
        AcceptedTold(c, f);
        AcceptedParts(c, f);
      }
      hide Accepts, DataInd, Inv, ToldChanges, ToldUpdates, ToldErrors, Changes;
    case TimerExpires(restarted) =>
      ExpiredTold(c, restarted);
      hide Inv, Told, Expired, ToldErrors;
    case Get =>
      hide Inv, ToldChanges, ToldUpdates, ToldErrors, Changes;
  }

  lemma {:induction false} RunTold(c: Consumer, inputs: seq<Input>)
    requires Inv(c) && Told(c) && RunOk(c, inputs)
    ensures var r := Run(c, inputs);
            && Told(r) && r.recvCnt == c.recvCnt + Arrivals(inputs)
            && (c.state == WaitStart ==> r.errCnt == c.errCnt + Arrivals(inputs) && r.accepted == c.accepted)
            && (r.state != WaitStart ==> r.errCnt == c.errCnt)
            && (r.state != WaitStart ==> ToldErrors(r.events) == ToldErrors(c.events) + Failures(inputs))
    decreases |inputs|
  {
    if inputs != [] {
      assert [inputs[0]][1..] == [];
      StepTold(c, inputs[0]);
      StepKeepsInv(c, inputs[0]);
      StaysStopped(c, inputs[0]);
      hide Inv, Step, Told, ToldErrors, InputOk;
      if Run(c, inputs).state != WaitStart && Step(c, inputs[0]).state == WaitStart {
        StoppedForGood(Step(c, inputs[0]), inputs[1..]);
      }
      RunTold(Step(c, inputs[0]), inputs[1..]);
    }
  }

  lemma StaysStopped(c: Consumer, input: Input)
    requires Inv(c) && InputOk(c, input)
    ensures c.state == WaitStart ==> Step(c, input).state == WaitStart && Step(c, input).accepted == c.accepted
  {
    hide StateInds, Cycle, CheckCycle, Taken, Reloaded;
  }

  lemma StoppedForGood(c: Consumer, inputs: seq<Input>)
    requires Inv(c) && c.state == WaitStart && RunOk(c, inputs)
    ensures Run(c, inputs).state == WaitStart
  {
    StoppedStays(c, inputs);
  }

  /** In any activation: the application is told of new data once for each accepted frame, and of each
      change of the data status along the accepted frames, starting from 0; of a failing control
      interval, as long as the consumer runs, once for each failure.  All frames that arrive are
      counted, none of them as an error while the consumer runs. */
  lemma ReportsOfActivation(p: Params, inputs: seq<Input>)
    requires |p.source| == 6 && RunOk(Activate(Zeroed, p, true), inputs)
    ensures var r := Run(Activate(Zeroed, p, true), inputs);
            && HasStatus(r.accepted) && ToldChanges(r.events) == Changes(r.accepted)
            && ToldUpdates(r.events) == |r.accepted|
            && r.dataStatus == Latest(r.accepted) && r.recvCnt == Arrivals(inputs)
            && (r.state != WaitStart ==> r.errCnt == 0 && ToldErrors(r.events) == Failures(inputs))
  {
    var a := Activate(Zeroed, p, true);
    ActivatedInv(p);
    ActivatedTold(p);
    RunTold(a, inputs);
    hide Inv, Run;
  }

  lemma ActivatedTold(p: Params)
    ensures var a := Activate(Zeroed, p, true);
            Told(a) && ToldErrors(a.events) == 0 && a.recvCnt == 0 && a.errCnt == 0 && a.state != WaitStart
  {
  }

  // ---------------------------------------------------------------- activations that are refused

  /** A consumer that waits for its start drops all frames it gets and counts them as errors. */
  lemma {:induction false} WaitingDrops(c: Consumer, inputs: seq<Input>)
    requires c.state == WaitStart && !c.running && RunOk(c, inputs)
    ensures var r := Run(c, inputs);
            && r.state == WaitStart && r.accepted == c.accepted && r.events == c.events
            && r.errCnt == c.errCnt + Arrivals(inputs) && r.freeCnt == c.freeCnt + Arrivals(inputs)
    decreases |inputs|
  {
    if inputs != [] {
      WaitingDrops(Step(c, inputs[0]), inputs[1..]);
    }
  }

  /** So does one whose control interval could not be started. */
  lemma NotStartedDrops(p: Params, inputs: seq<Input>)
    requires RunOk(Activate(Zeroed, p, false), inputs)
    ensures var r := Run(Activate(Zeroed, p, false), inputs);
            r.accepted == [] && r.events == [] && r.errCnt == r.freeCnt == Arrivals(inputs)
  {
    WaitingDrops(Activate(Zeroed, p, false), inputs);
  }

  lemma {:induction false} RunTwice(c: Consumer, first: seq<Input>, rest: seq<Input>)
    requires RunOk(c, first + rest)
    ensures RunOk(c, first) && RunOk(Run(c, first), rest) && Run(c, first + rest) == Run(Run(c, first), rest)
    decreases |first|
  {
    hide Step;
    if first == [] {
      assert first + rest == rest;
    } else {
      assert (first + rest)[0] == first[0] && (first + rest)[1..] == first[1..] + rest;
      RunTwice(Step(c, first[0]), first[1..], rest);
    }
  }

  /** An attempt to activate a consumer that is active makes no difference to its run. */
  lemma SecondActivationIgnored(p: Params, q: Params, started: bool, first: seq<Input>, rest: seq<Input>)
    requires RunOk(Activate(Zeroed, p, true), first + rest)
    ensures RunOk(Activate(Zeroed, p, true), first)
    ensures var c := Run(Activate(Zeroed, p, true), first);
            c.state != WaitStart ==>
              && RunOk(Activate(c, q, started), rest)
              && Run(Activate(c, q, started), rest) == Run(Activate(Zeroed, p, true), first + rest)
  {
    RunTwice(Activate(Zeroed, p, true), first, rest);
  }
}
