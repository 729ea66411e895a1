/**
 The consumer of cyclic data (CPM) of one connection: what each frame, each expiry of the
 control interval and each access of the application does to its state.  `CpmInstance.Cpm`
 performs this in place.
 */
module CpmConsumer {
  import opened CycleCounter
  import opened EthernetReceive
  import opened Wrappers

  datatype CpmState = WaitStart | FirstRun | Running
  /** A received frame.  `count` is the sender's own unbounded counter; it is not transmitted. */
  datatype Frame = Frame(id: nat, bytes: seq<nat>, framePos: nat, count: nat)

  datatype Event =
    | StateInd(start: bool)
    | NewData(updated: bool)
    | StatusChanged(before: nat, after: nat)
    | TimerError                      // the control interval could not be started again

  /** `expiries` and `accepted` are history. */
  datatype Consumer = Consumer(
    state: CpmState, recvCnt: nat, freeCnt: nat, errCnt: nat,
    source: seq<nat>, holdFactor: nat,
    app: Option<Frame>, cpm: Option<Frame>, newBuf: bool,
    framePos: nat, bufferPos: nat, bufferLength: nat,
    dataStatus: nat, dht: nat, cycle: int, running: bool,
    events: seq<Event>, expiries: nat, accepted: seq<Frame>)

  /** Memory set to zero when the connection is set up. */
  const Zeroed := Consumer(WaitStart, 0, 0, 0, [], 0, None, None, false, 0, 0, 0, 0, 0, 0, false, [], 0, [])

  /** Frames are handed over with the position of their frame id, behind the Ethernet type. */
  predicate Receivable(f: Frame) {
    14 <= f.framePos && f.framePos + 2 <= |f.bytes| && forall i :: 0 <= i < |f.bytes| ==> f.bytes[i] < 0x100
  }

  /** The cycle counter and the two status bytes end the frame. */
  function Cycle(f: Frame): nat
    requires Receivable(f)
  {
    f.bytes[|f.bytes| - 4] * 0x100 + f.bytes[|f.bytes| - 3]
  }

  function DataStatus(f: Frame): nat
    requires Receivable(f)
  {
    f.bytes[|f.bytes| - 2]
  }

  function TransferStatus(f: Frame): nat
    requires Receivable(f)
  {
    f.bytes[|f.bytes| - 1]
  }

  predicate DataValid(f: Frame)
    requires Receivable(f)
  {
    DataStatus(f) / 4 % 2 == 1
  }

  predicate Primary(f: Frame)
    requires Receivable(f)
  {
    DataStatus(f) % 2 == 1
  }

  predicate FrameStructure(c: Consumer, f: Frame)
    requires Receivable(f)
  {
    TransferStatus(f) == 0 && f.bytes[6..12] == c.source && |f.bytes| - f.framePos + 14 == c.bufferLength
  }

  predicate DhtReload(c: Consumer, f: Frame)
    requires Receivable(f)
  {
    FrameStructure(c, f) && CheckCycle(c.cycle, Cycle(f)) && (DataValid(f) || !Primary(f))
  }

  predicate UpdateData(c: Consumer, f: Frame)
    requires Receivable(f)
  {
    FrameStructure(c, f) && CheckCycle(c.cycle, Cycle(f)) && DataValid(f) && (Primary(f) || !Primary(f))
  }

  /** Does this frame replace the data? */
  predicate Accepts(c: Consumer, f: Frame)
    requires Receivable(f)
  {
    c.state != WaitStart && DataValid(f) && DhtReload(c, f)
  }

  // ---------------------------------------------------------------- operations

  /** pf_cpm_put_buf; the buffer that was replaced is left to the caller. */
  function Put(c: Consumer, f: Frame): Consumer {
    c.(cpm := Some(f), newBuf := true, accepted := c.accepted + [f])
  }

  /** What an accepted frame does besides. */
  function Taken(c: Consumer, f: Frame): Consumer
    requires Receivable(f)
  {
    c.(framePos := f.framePos, bufferPos := f.framePos + 2, dht := 0, expiries := 0, cycle := Cycle(f),
       dataStatus := DataStatus(f), state := Running,
       events := c.events + (if c.state == FirstRun then [StateInd(true)] else []) + [NewData(true)]
                 + (if c.dataStatus != DataStatus(f) then [StatusChanged(c.dataStatus, DataStatus(f))] else []))
  }

  /** Branch 21: the frame keeps the connection alive without replacing the data. */
  function Reloaded(c: Consumer, f: Frame): Consumer
    requires Receivable(f)
  {
    c.(dht := 0, expiries := 0, cycle := Cycle(f), dataStatus := DataStatus(f), state := Running,
       events := c.events + (if c.state == FirstRun then [StateInd(true)] else []) + [NewData(false)]
                 + (if c.dataStatus != DataStatus(f) then [StatusChanged(c.dataStatus, DataStatus(f))] else []))
  }

  /** 1 for a buffer, 0 for none. */
  function BufferCount(buffer: Option<Frame>): nat {
    if buffer.Some? then 1 else 0
  }

  /** pf_cpm_c_data_ind */
  function DataInd(c: Consumer, f: Frame): Consumer
    requires Receivable(f)
  {
    var c1 := c.(recvCnt := c.recvCnt + 1);
    if c.state == WaitStart then c1.(errCnt := c.errCnt + 1, freeCnt := c.freeCnt + 1)
    else if DataValid(f) && DhtReload(c, f) then
      if UpdateData(c, f) then Taken(Put(c1, f), f).(freeCnt := c.freeCnt + BufferCount(c.cpm))
      else Reloaded(c1, f).(freeCnt := c.freeCnt + 1)
    else c1.(freeCnt := c.freeCnt + 1)
  }

  /** What an expiry of the control interval means for the watchdog. */
  function Ticked(c: Consumer): Consumer {
    if c.state == Running then
      if c.dht >= c.holdFactor then
        c.(dht := 0, running := false, state := WaitStart, expiries := c.expiries + 1,
           events := c.events + [StateInd(false)])
      else c.(dht := c.dht + 1, expiries := c.expiries + 1)
    else c
  }

  /** pf_cpm_control_interval_expired; `restarted` says whether the interval could be started again. */
  function Expired(c: Consumer, restarted: bool): Consumer {
    if c.running then
      var c1 := Ticked(c);
      if c1.running && !restarted then c1.(events := c1.events + [TimerError]) else c1
    else c
  }

  /** pf_cpm_get_buf */
  function GetBuf(c: Consumer): Consumer {
    if c.newBuf then c.(app := c.cpm, cpm := c.app, newBuf := false) else c
  }

  datatype Params = Params(holdFactor: nat, cSduLength: nat, source: seq<nat>)

  /** pf_cpm_activate_req; `started` says whether the control interval could be started. */
  function Activate(c: Consumer, p: Params, started: bool): Consumer {
    if c.state != WaitStart then c
    else
      c.(state := if started then FirstRun else WaitStart, holdFactor := p.holdFactor,
         cycle := -1, dht := 0, expiries := 0, recvCnt := 0,
         source := p.source, bufferPos := 16, dataStatus := 0, bufferLength := 16 + p.cSduLength + 4,
         running := started || c.running)
  }

  lemma ReloadIsUpdate(c: Consumer, f: Frame)
    requires Receivable(f) && DataValid(f)
    ensures DhtReload(c, f) == UpdateData(c, f)
  {
  }

  // ---------------------------------------------------------------- runs of one activation

  datatype Input =
    | Received(f: Frame)
    | TimerExpires(restarted: bool)
    | Get

  predicate InputOk(c: Consumer, input: Input) {
    input.Received? ==> Receivable(input.f) && !Holds(c, input.f.id)
  }

  /** The buffers the instance holds. */
  predicate Holds(c: Consumer, id: nat) {
    (c.app.Some? && c.app.value.id == id) || (c.cpm.Some? && c.cpm.value.id == id)
  }

  function Step(c: Consumer, input: Input): Consumer
    requires InputOk(c, input)
  {
    match input
    case Received(f) => DataInd(c, f)
    case TimerExpires(restarted) => Expired(c, restarted)
    case Get => GetBuf(c)
  }

  ghost predicate RunOk(c: Consumer, inputs: seq<Input>)
    decreases |inputs|
  {
    inputs == [] || (InputOk(c, inputs[0]) && RunOk(Step(c, inputs[0]), inputs[1..]))
  }

  ghost function Run(c: Consumer, inputs: seq<Input>): Consumer
    requires RunOk(c, inputs)
    decreases |inputs|
  {
    if inputs == [] then c else Run(Step(c, inputs[0]), inputs[1..])
  }

  // ---------------------------------------------------------------- what every step keeps

  /** The start and stop indications among the events. */
  function StateInds(s: seq<Event>): (r: seq<bool>) {
    if s == [] then []
    else
      var ev := s[|s| - 1];
      StateInds(s[..|s| - 1]) + (if ev.StateInd? then [ev.start] else [])
  }

  lemma StateIndsSnoc(s: seq<Event>, ev: Event)
    ensures StateInds(s + [ev]) == StateInds(s) + (if ev.StateInd? then [ev.start] else [])
  {
    assert (s + [ev])[..|s + [ev]| - 1] == s;
  }

  /** Every buffer received was freed or is one of the two held, which are different. */
  predicate Accounted(c: Consumer) {
    && c.recvCnt == c.freeCnt + BufferCount(c.app) + BufferCount(c.cpm)
    && (c.app.Some? && c.cpm.Some? ==> c.app.value.id != c.cpm.value.id)
  }

  /** The newest accepted frame is where the flag says. */
  predicate NewestHeld(c: Consumer) {
    if c.newBuf then c.accepted != [] && c.cpm == Some(c.accepted[|c.accepted| - 1])
    else c.app == if c.accepted == [] then None else Some(c.accepted[|c.accepted| - 1])
  }

  /** The watchdog counts the expiries since the last accepted frame, and indications of one
      activation are a prefix of start, stop. */
  predicate Watched(c: Consumer) {
    && c.running == (c.state != WaitStart)
    && (c.state == Running ==> c.dht == c.expiries <= c.holdFactor && StateInds(c.events) == [true])
    && (c.state == FirstRun ==> c.accepted == [] && StateInds(c.events) == [])
    && (c.state == WaitStart ==> c.expiries == c.holdFactor + 1 && StateInds(c.events) == [true, false])
  }

  /** The position at which the application reads fits the newest frame. */
  predicate Positioned(c: Consumer) {
    && |c.source| == 6 && c.bufferLength >= 20
    && (c.accepted == [] ==> c.bufferPos == 16 && c.cycle == -1)
    && (c.accepted != [] ==>
          var f := c.accepted[|c.accepted| - 1];
          && Receivable(f) && c.cycle == Cycle(f) && c.framePos == f.framePos && c.bufferPos == f.framePos + 2
          && |f.bytes| == c.bufferPos + (c.bufferLength - 20) + 4)
  }

  /** Branch 21, which keeps the connection alive without new data, was never taken. */
  predicate NeverReloaded(c: Consumer) {
    forall i :: 0 <= i < |c.events| ==> c.events[i] != NewData(false)
  }

  predicate Inv(c: Consumer) {
    Accounted(c) && NewestHeld(c) && Watched(c) && Positioned(c) && NeverReloaded(c)
  }

  lemma ActivatedInv(p: Params)
    requires |p.source| == 6
    ensures Inv(Activate(Zeroed, p, true))
  {
  }

  /** The state after a frame was accepted, and after any other frame. */
  function AfterAccepted(c: Consumer, f: Frame): Consumer
    requires Receivable(f)
  {
    Taken(Put(c.(recvCnt := c.recvCnt + 1), f), f).(freeCnt := c.freeCnt + BufferCount(c.cpm))
  }

  lemma DataIndCases(c: Consumer, f: Frame)
    requires Receivable(f)
    ensures DataInd(c, f) ==
            if Accepts(c, f) then AfterAccepted(c, f)
            else c.(recvCnt := c.recvCnt + 1, freeCnt := c.freeCnt + 1,
                    errCnt := if c.state == WaitStart then c.errCnt + 1 else c.errCnt)
  {
    hide CheckCycle, Taken, Reloaded, Cycle;
  }

  lemma CountDoesNotMatter(c: Consumer, f: Frame)
    requires Receivable(f)
    ensures Accepts(c.(recvCnt := c.recvCnt + 1), f) == Accepts(c, f)
    ensures c.state == WaitStart ==> !Accepts(c, f)
  {
  }

  lemma AcceptedKeepsInv(c: Consumer, f: Frame)
    requires Inv(c) && Receivable(f) && !Holds(c, f.id) && Accepts(c, f)
    ensures Inv(AfterAccepted(c, f))
  {
    TakenEvents(c, f);
    TakenNeverReloads(c, f);
    hide StateInds, CheckCycle, Cycle, DataStatus, NeverReloaded;
    var r := AfterAccepted(c, f);
    assert r.events == Taken(c, f).events;
    assert NeverReloaded(r) by { SameEvents(Taken(c, f), r); }
  }

  lemma SameEvents(c: Consumer, r: Consumer)
    requires NeverReloaded(c) && r.events == c.events
    ensures NeverReloaded(r)
  {
  }

  lemma DataIndKeepsInv(c: Consumer, f: Frame)
    requires Inv(c) && Receivable(f) && !Holds(c, f.id)
    ensures Inv(DataInd(c, f))
  {
    DataIndCases(c, f);
    if Accepts(c, f) {
      hide Inv, Accepts, AfterAccepted, DataInd;
      AcceptedKeepsInv(c, f);
    } else {
      hide StateInds, CheckCycle, Cycle, DataStatus, DataInd, Accepts;
    }
  }

  lemma TakenNeverReloads(c: Consumer, f: Frame)
    requires Receivable(f) && NeverReloaded(c)
    ensures NeverReloaded(Taken(c, f))
  {
    hide DataStatus, Cycle;
  }

  lemma TakenEvents(c: Consumer, f: Frame)
    requires Receivable(f)
    ensures StateInds(Taken(c, f).events) == StateInds(c.events) + (if c.state == FirstRun then [true] else [])
  {
    hide DataStatus, Cycle, StateInds;
    var start := if c.state == FirstRun then [StateInd(true)] else [];
    var rest := [NewData(true)]
                + (if c.dataStatus != DataStatus(f) then [StatusChanged(c.dataStatus, DataStatus(f))] else []);
    assert Taken(c, f).events == (c.events + start) + rest;
    QuietEvents(c.events + start, rest);
    if c.state == FirstRun {
      StateIndsSnoc(c.events, StateInd(true));
    } else {
      assert c.events + start == c.events;
    }
  }

  lemma {:induction false} QuietEvents(s: seq<Event>, more: seq<Event>)
    requires forall i :: 0 <= i < |more| ==> !more[i].StateInd?
    ensures StateInds(s + more) == StateInds(s)
    decreases |more|
  {
    if more == [] {
      assert s + more == s;
    } else {
      var k := |more| - 1;
      assert s + more == (s + more[..k]) + [more[k]];
      StateIndsSnoc(s + more[..k], more[k]);
      QuietEvents(s, more[..k]);
    }
  }

  lemma TickedKeepsInv(c: Consumer)
    requires Inv(c) && c.running
    ensures Inv(Ticked(c))
  {
    StateIndsSnoc(c.events, StateInd(false));
    hide StateInds, Cycle;
  }

  lemma TimerErrorKeepsInv(c: Consumer)
    requires Inv(c)
    ensures Inv(c.(events := c.events + [TimerError]))
  {
    StateIndsSnoc(c.events, TimerError);
    hide StateInds, Cycle;
  }

  lemma StepKeepsInv(c: Consumer, input: Input)
    requires Inv(c) && InputOk(c, input)
    ensures Inv(Step(c, input))
  {
    match input
    case Received(f) =>
      DataIndKeepsInv(c, f);
    case TimerExpires(restarted) =>
      if c.running {
        TickedKeepsInv(c);
        TimerErrorKeepsInv(Ticked(c));
        hide Inv, Ticked;
      }
    case Get =>
      hide StateInds, Cycle;
  }

  /** All of this holds at any time during an activation. */
  lemma {:induction false} RunInv(c: Consumer, inputs: seq<Input>)
    requires Inv(c) && RunOk(c, inputs)
    ensures Inv(Run(c, inputs))
    decreases |inputs|
  {
    if inputs != [] {
      StepKeepsInv(c, inputs[0]);
      RunInv(Step(c, inputs[0]), inputs[1..]);
    }
  }

  /** A connection set up on zeroed memory, after any frames, expiries and accesses: every frame
      received was freed or is one of the two held; the indications are a prefix of start, stop; and
      while it runs, the watchdog shows the expiries since the last accepted frame. */
  lemma OneActivation(p: Params, inputs: seq<Input>)
    requires |p.source| == 6 && RunOk(Activate(Zeroed, p, true), inputs)
    ensures var r := Run(Activate(Zeroed, p, true), inputs);
            && r.recvCnt == r.freeCnt + BufferCount(r.app) + BufferCount(r.cpm)
            && (r.app.Some? && r.cpm.Some? ==> r.app.value.id != r.cpm.value.id)
            && StateInds(r.events) <= [true, false]
            && (r.state == Running ==> r.dht == r.expiries <= r.holdFactor)
            && (r.state == WaitStart ==> r.expiries == r.holdFactor + 1)
            && (r.newBuf ==> r.accepted != [] && r.cpm == Some(r.accepted[|r.accepted| - 1]))
            && (!r.newBuf && r.accepted != [] ==> r.app == Some(r.accepted[|r.accepted| - 1]))
            && NewData(false) !in r.events
  {
    hide Activate, Run, Receivable;
    ActivatedInv(p);
    RunInv(Activate(Zeroed, p, true), inputs);
  }

  // ---------------------------------------------------------------- the watchdog

  /** Along the run no frame replaces the data. */
  ghost predicate NoneAccepted(c: Consumer, inputs: seq<Input>)
    requires RunOk(c, inputs)
    decreases |inputs|
  {
    inputs == [] || (!(inputs[0].Received? && Accepts(c, inputs[0].f)) && NoneAccepted(Step(c, inputs[0]), inputs[1..]))
  }

  function Expiries(inputs: seq<Input>): nat {
    if inputs == [] then 0 else (if inputs[0].TimerExpires? then 1 else 0) + Expiries(inputs[1..])
  }

  lemma {:induction false} StoppedStays(c: Consumer, inputs: seq<Input>)
    requires c.state == WaitStart && !c.running && RunOk(c, inputs)
    ensures var r := Run(c, inputs); r.state == WaitStart && !r.running && r.events == c.events
    decreases |inputs|
  {
    if inputs != [] {
      StoppedStays(Step(c, inputs[0]), inputs[1..]);
    }
  }

  /** One input without an accepted frame. */
  lemma QuietStep(c: Consumer, input: Input)
    requires Inv(c) && c.state == Running && InputOk(c, input) && !(input.Received? && Accepts(c, input.f))
    ensures var r := Step(c, input);
            && r.holdFactor == c.holdFactor
            && if !input.TimerExpires? then r.state == Running && r.dht == c.dht
               else if c.dht < c.holdFactor then r.state == Running && r.dht == c.dht + 1
               else c.dht == c.holdFactor && r.state == WaitStart && !r.running
  {
    hide StateInds, Cycle, CheckCycle, Taken, Reloaded;
  }

  lemma SaidSo(c: Consumer)
    requires Inv(c)
    ensures c.state == Running ==> StateInds(c.events) == [true] && c.dht <= c.holdFactor
    ensures c.state == WaitStart ==> StateInds(c.events) == [true, false]
  {
  }

  /** Without accepted frames the consumer survives exactly `holdFactor` expiries: at the next one,
      and not before, it stops and says so once. */
  lemma {:induction false} WatchdogExact(c: Consumer, inputs: seq<Input>)
    requires Inv(c) && c.state == Running && RunOk(c, inputs) && NoneAccepted(c, inputs)
    ensures var r := Run(c, inputs);
            if c.dht + Expiries(inputs) <= c.holdFactor
            then r.state == Running && r.dht == c.dht + Expiries(inputs) && StateInds(r.events) == [true]
            else r.state == WaitStart && !r.running && StateInds(r.events) == [true, false]
    decreases |inputs|
  {
    SaidSo(c);
    if inputs != [] {
      hide Inv, Step, StateInds, InputOk, Accepts;
      var c1 := Step(c, inputs[0]);
      StepKeepsInv(c, inputs[0]);
      QuietStep(c, inputs[0]);
      if c1.state == Running {
        WatchdogExact(c1, inputs[1..]);
      } else {
        SaidSo(c1);
        StoppedStays(c1, inputs[1..]);
      }
    }
  }

  // ---------------------------------------------------------------- freshness

  /** The sender's counter is what the frame carries modulo 65536, and it is at most 4095 behind and
      61440 ahead of the last accepted one, which counts as -1 at the beginning. */
  predicate InWindow(c: Consumer, f: Frame)
    requires Receivable(f)
  {
    && f.bytes[|f.bytes| - 4] * 0x100 + f.bytes[|f.bytes| - 3] == f.count % MODULUS
    && LastCount(c) - (MODULUS - MAX_AHEAD - 1) <= f.count <= LastCount(c) + MAX_AHEAD
  }

  function LastCount(c: Consumer): int {
    if c.accepted == [] then -1 else c.accepted[|c.accepted| - 1].count
  }

  ghost predicate AllInWindow(c: Consumer, inputs: seq<Input>)
    requires RunOk(c, inputs)
    decreases |inputs|
  {
    inputs == [] || ((inputs[0].Received? ==> InWindow(c, inputs[0].f)) && AllInWindow(Step(c, inputs[0]), inputs[1..]))
  }

  predicate Increasing(s: seq<Frame>) {
    forall i, j :: 0 <= i < j < |s| ==> s[i].count < s[j].count
  }

  /** The cycle field is the last accepted counter on 16 bits; all accepted counters increase. */
  predicate Fresh(c: Consumer) {
    && Increasing(c.accepted)
    && c.cycle % MODULUS == LastCount(c) % MODULUS
    && forall i :: 0 <= i < |c.accepted| ==> c.accepted[i].count <= LastCount(c)
  }

  /** A valid frame of the right structure is accepted exactly if it is newer than all accepted before. */
  lemma AcceptedIffNewer(c: Consumer, f: Frame)
    requires Fresh(c) && Receivable(f) && InWindow(c, f)
    requires c.state != WaitStart && DataValid(f) && FrameStructure(c, f)
    ensures Accepts(c, f) <==> forall i :: 0 <= i < |c.accepted| ==> c.accepted[i].count < f.count
    ensures Accepts(c, f) <==> LastCount(c) < f.count
  {
    FreshIffNewer(LastCount(c), f.count);
    SameResidue(c.cycle, LastCount(c), Cycle(f));
  }

  lemma SameResidue(a: int, b: int, now: nat)
    requires a % MODULUS == b % MODULUS
    ensures CheckCycle(a, now) == CheckCycle(b % MODULUS, now)
  {
    assert (b % MODULUS) % MODULUS == b % MODULUS;
  }

  lemma AcceptedKeepsFresh(c: Consumer, f: Frame)
    requires Fresh(c) && Receivable(f) && InWindow(c, f) && Accepts(c, f)
    ensures Fresh(AfterAccepted(c, f))
  {
    AcceptedIffNewer(c, f);
    hide CheckCycle, DataStatus, FrameStructure, Accepts;
    assert AfterAccepted(c, f).cycle == Cycle(f);
    assert (f.count % MODULUS) % MODULUS == f.count % MODULUS;
  }

  lemma StepKeepsFresh(c: Consumer, input: Input)
    requires Fresh(c) && InputOk(c, input) && (input.Received? ==> InWindow(c, input.f))
    ensures Fresh(Step(c, input))
  {
    if input.Received? {
      DataIndCases(c, input.f);
      if Accepts(c, input.f) {
        AcceptedKeepsFresh(c, input.f);
      }
      hide Accepts, AfterAccepted, DataInd;
    }
  }

  /** Over any run in which no frame is too far off, the true counters of the accepted frames
      strictly increase, through every wrap of the 16-bit counter. */
  lemma {:induction false} AcceptedCountersIncrease(c: Consumer, inputs: seq<Input>)
    requires Fresh(c) && RunOk(c, inputs) && AllInWindow(c, inputs)
    ensures Fresh(Run(c, inputs))
    decreases |inputs|
  {
    if inputs != [] {
      StepKeepsFresh(c, inputs[0]);
      AcceptedCountersIncrease(Step(c, inputs[0]), inputs[1..]);
    }
  }

  lemma ActivatedFresh(p: Params)
    ensures Fresh(Activate(Zeroed, p, true))
  {
  }

  /** So they do in any activation of a connection set up on zeroed memory. */
  lemma CountersIncreaseFromStart(p: Params, inputs: seq<Input>)
    requires RunOk(Activate(Zeroed, p, true), inputs) && AllInWindow(Activate(Zeroed, p, true), inputs)
    ensures Increasing(Run(Activate(Zeroed, p, true), inputs).accepted)
  {
    ActivatedFresh(p);
    AcceptedCountersIncrease(Activate(Zeroed, p, true), inputs);
  }

  // ---------------------------------------------------------------- what the application reads

  /** The cyclic data of a frame: between the frame id and the trailing four bytes. */
  function CSdu(f: Frame): seq<nat>
    requires Receivable(f) && f.framePos + 6 <= |f.bytes|
  {
    f.bytes[f.framePos + 2..|f.bytes| - 4]
  }

  /** A data object's place in the cyclic data; `pf_cmdev` has checked that it fits. */
  datatype Slice = Slice(offset: nat, length: nat)

  /** What the copy out of a buffer gives. */
  function Copied(bytes: seq<nat>, pos: nat, s: Slice): Option<seq<nat>> {
    if pos + s.offset + s.length <= |bytes| then Some(bytes[pos + s.offset..pos + s.offset + s.length]) else None
  }

  /** With reception as one step, the application gets its own part of the newest accepted frame,
      whatever the number of VLAN tags. */
  lemma ReadsItsSlice(c: Consumer, s: Slice)
    requires Inv(c) && c.accepted != [] && s.offset + s.length <= c.bufferLength - 20
    ensures var r := GetBuf(c);
            var f := c.accepted[|c.accepted| - 1];
            && r.app == Some(f)
            && Receivable(f) && f.framePos + 6 <= |f.bytes| && |CSdu(f)| == c.bufferLength - 20
            && r.bufferPos + (c.bufferLength - 20) + 4 == |f.bytes|
            && Copied(f.bytes, r.bufferPos, s) == Some(CSdu(f)[s.offset..s.offset + s.length])
  {
    var f := c.accepted[|c.accepted| - 1];
    var from := f.framePos + 2;
    SliceOfSlice(f.bytes, from, |f.bytes| - 4, s);
  }

  lemma SliceOfSlice(b: seq<nat>, from: nat, to: nat, s: Slice)
    requires from <= to <= |b| && s.offset + s.length <= to - from
    ensures b[from + s.offset..from + s.offset + s.length] == b[from..to][s.offset..s.offset + s.length]
  {
  }

  /** A frame with VLAN tags put into it. */
  function WithTags(f: Frame, tags: seq<nat>): Frame
    requires Receivable(f)
  {
    f.(bytes := Tagged(f.bytes, tags), framePos := f.framePos + 4 * |tags|)
  }

  /** Tagging a frame changes neither its data nor whether it is accepted. */
  lemma TagsDoNotMatter(c: Consumer, f: Frame, tags: seq<nat>)
    requires Receivable(f) && f.framePos == 14 && 20 <= |f.bytes|
    requires forall i :: 0 <= i < |tags| ==> tags[i] < 0x10000
    ensures var g := WithTags(f, tags);
            Receivable(g) && CSdu(g) == CSdu(f) && (Accepts(c, g) <==> Accepts(c, f))
  {
    hide Tagged;
    TagLayout(f, tags);
    TagsKeepTrailer(f, tags);
  }

  lemma TagLayout(f: Frame, tags: seq<nat>)
    requires Receivable(f) && f.framePos == 14 && 20 <= |f.bytes|
    requires forall i :: 0 <= i < |tags| ==> tags[i] < 0x10000
    ensures var g := WithTags(f, tags);
            && |g.bytes| == |f.bytes| + 4 * |tags|
            && g.bytes[..12] == f.bytes[..12]
            && g.bytes[12 + 4 * |tags|..] == f.bytes[12..]
            && Receivable(g) && CSdu(g) == CSdu(f) && g.bytes[6..12] == f.bytes[6..12]
  {
    var g := WithTags(f, tags);
    var shift := 4 * |tags|;
    TagBytesAreBytes(tags);
    assert g.bytes[..12] == f.bytes[..12];
    assert g.bytes[12..12 + shift] == TagBytes(tags);
    assert g.bytes[12 + shift..] == f.bytes[12..];
    forall i | 0 <= i < |g.bytes| ensures g.bytes[i] < 0x100 {
      if i < 12 {
        assert g.bytes[i] == g.bytes[..12][i];
      } else if i < 12 + shift {
        assert g.bytes[i] == g.bytes[12..12 + shift][i - 12];
      } else {
        assert g.bytes[i] == g.bytes[12 + shift..][i - 12 - shift];
      }
    }
    SameData(g.bytes, f.bytes, shift);
    assert g.bytes[6..12] == g.bytes[..12][6..12];
  }

  lemma SameData(g: seq<nat>, f: seq<nat>, shift: nat)
    requires 20 <= |f| && |g| == |f| + shift && g[12 + shift..] == f[12..]
    ensures g[16 + shift..|g| - 4] == f[16..|f| - 4]
  {
    var a, b := g[16 + shift..|g| - 4], f[16..|f| - 4];
    forall i | 0 <= i < |b| ensures a[i] == b[i] {
      SameAt(g, f, shift, i + 16);
      assert a[i] == g[i + 16 + shift];
    }
  }

  lemma TagsKeepTrailer(f: Frame, tags: seq<nat>)
    requires Receivable(f) && 20 <= |f.bytes|
    requires Receivable(WithTags(f, tags))
    requires var g := WithTags(f, tags);
             |g.bytes| == |f.bytes| + 4 * |tags| && g.bytes[12 + 4 * |tags|..] == f.bytes[12..]
    ensures var g := WithTags(f, tags);
            Cycle(g) == Cycle(f) && DataStatus(g) == DataStatus(f) && TransferStatus(g) == TransferStatus(f)
  {
    var g := WithTags(f, tags);
    var n := |f.bytes|;
    SameAt(g.bytes, f.bytes, 4 * |tags|, n - 4);
    SameAt(g.bytes, f.bytes, 4 * |tags|, n - 3);
    SameAt(g.bytes, f.bytes, 4 * |tags|, n - 2);
    SameAt(g.bytes, f.bytes, 4 * |tags|, n - 1);
  }

  lemma SameAt(g: seq<nat>, f: seq<nat>, shift: nat, i: nat)
    requires 12 <= i < |f| && |g| == |f| + shift && g[12 + shift..] == f[12..]
    ensures g[i + shift] == f[i]
  {
    assert g[i + shift] == g[12 + shift..][i - 12];
  }

  lemma {:induction false} TagBytesAreBytes(tags: seq<nat>)
    requires forall i :: 0 <= i < |tags| ==> tags[i] < 0x10000
    ensures forall i :: 0 <= i < |TagBytes(tags)| ==> TagBytes(tags)[i] < 0x100
  {
    if tags != [] {
      TagBytesAreBytes(tags[1..]);
    }
  }
}
