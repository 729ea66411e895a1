/**
 The alarm side of an AR: one lane for each priority, sharing the buffer pool.  If one lane
 ends the connection, the other is closed in the same step.
 */
module AlarmAr {
  import opened SequenceNumbers
  import opened AlarmEndpoint
  import opened AlarmEndpointRuns
  import opened AlarmEndpointTheorems
  import opened AlarmFrames
  import opened AlarmLevel
  import opened AlarmQueues
  import opened Buffers
  import opened AlarmLane
  import opened Wrappers

  predicate NoAcks(inputs: seq<(Input, LocalIo)>) {
    forall t :: 0 <= t < |inputs| ==> !inputs[t].0.Ack?
  }

  /** The closing of a lane that the other lane's abort brings along. */
  function Following(aborted: bool, code: nat, io: LocalIo): seq<(Input, LocalIo)> {
    if aborted then [(CloseReq(code), io)] else []
  }

  /** A queue after its turn. */
  function After(queue: seq<Alarm>, taken: bool): seq<Alarm> {
    if taken && queue != [] then queue[1..] else queue
  }

  /** Is this frame a new alarm for a level that has already told its user one? */
  ghost predicate SecondAlarm(e: Endpoint, input: Input, io: LocalIo) {
    && e.apmr == ApmrOpen && (exists i :: 0 <= i < |e.events| && e.events[i].AlarmInd?)
    && input.Deliver? && input.f.version == 1 && input.f.pdu == PduData && input.f.tack
    && input.f.sendSeq == e.expSeq && input.f.body.Notification? && io.alloc && io.send
  }

  predicate EndedByViolation(e: Endpoint) {
    e.apms == ApmsClosed && Aborted(ProtocolViolation) in e.events
  }

  lemma SecondEnds(e: Endpoint, input: Input, io: LocalIo)
    requires Inv(Wire15, e) && NoAckTaken(e) && SecondAlarm(e, input, io)
    ensures EndedByViolation(Step(Wire15, e, input, io))
  {
    var i :| 0 <= i < |e.events| && e.events[i].AlarmInd?;
    ToldWaitsForAck(e, i);
    BusyAlarmEnds(e, input.f, input.f.body.arg, io);
    hide Inv, Step;
  }

  lemma EndedStays(e: Endpoint, inputs: seq<(Input, LocalIo)>)
    requires Inv(Wire15, e) && EndedByViolation(e)
    ensures EndedByViolation(Run(Wire15, e, inputs))
  {
    ClosedForever(Wire15, e, inputs);
    hide Inv, Run;
  }

  lemma UnackedRun(low: bool, retries: nat, inputs: seq<(Input, LocalIo)>)
    requires NoAcks(inputs)
    ensures NoAckTaken(RunFromStart(low, retries, inputs))
  {
    ActivatedInv(Wire15, low, retries);
    NoAckTakenRun(Activated(Wire15, low, retries), inputs);
  }

  /** Without user acks, a second alarm in the run has ended it. */
  lemma SecondInRun(low: bool, retries: nat, inputs: seq<(Input, LocalIo)>, k: nat)
    requires NoAcks(inputs) && k < |inputs|
    requires SecondAlarm(RunFromStart(low, retries, inputs[..k]), inputs[k].0, inputs[k].1)
    ensures EndedByViolation(RunFromStart(low, retries, inputs))
  {
    hide Inv, Step, Run, RunFromStart, SecondAlarm, EndedByViolation;
    var e := RunFromStart(low, retries, inputs[..k]);
    UnackedRun(low, retries, inputs[..k]);
    SecondEnds(e, inputs[k].0, inputs[k].1);
    RunFromStartSnoc(low, retries, inputs[..k], inputs[k].0, inputs[k].1);
    assert inputs[..k + 1] == inputs[..k] + [(inputs[k].0, inputs[k].1)];
    EndedStays(RunFromStart(low, retries, inputs[..k + 1]), inputs[k + 1..]);
    RunFromStartSplit(low, retries, inputs[..k + 1], inputs[k + 1..]);
    assert inputs == inputs[..k + 1] + inputs[k + 1..];
  }

  /** Length of an alarm's payload, and whether one was handed over. */
  datatype Payload = Payload(length: nat, given: bool)

  class Ar {
    const pool: BufferPool
    const low: Lane
    const high: Lane
    const maxPayload: nat        // of the stack
    var maxByController: nat     // of this connection
    var enabled: bool

    ghost function Parts(): set<object> {
      {pool, low.level.pool, high.level.pool} + low.Repr() + high.Repr()
    }

    /** Both lanes are in order; no buffer belongs to both.  User acks never go to the low lane. */
    ghost predicate Joint()
      reads Parts()
    {
      && low.Valid() && high.Valid() && low.level.low && !high.level.low
      && low.level.pool == high.level.pool == pool
      && low.Repr() !! high.Repr()
      && low.Owned() !! high.Owned()
      && NoAcks(low.inputs)
    }

    ghost predicate Sound()
      reads Parts()
    {
      Joint() && low.started == high.started
    }

    ghost predicate Valid()
      reads Parts()
    {
      Sound() && low.level.attached == high.level.attached
    }

    /** The lane of a priority. */
    function Of(urgent: bool): Lane {
      if urgent then high else low
    }

    /** Is the connection open? */
    predicate Open()
      reads low.level
    {
      low.level.attached
    }

    /** The live buffers that do not belong to this AR. */
    ghost function Rest(): set<nat>
      reads Parts()
    {
      pool.live - (low.Owned() + high.Owned())
    }

    constructor (retries: nat, capacity: nat, maxPayload: nat, maxByController: nat, pool: BufferPool)
      requires pool.Valid() && 1 <= capacity
      ensures Valid() && this.pool == pool && !low.started && Rest() == pool.live
      ensures fresh(low.Repr()) && fresh(high.Repr())
    {
      hide Lane.Valid, Lane.Owned;
      this.pool, this.maxPayload, this.maxByController := pool, maxPayload, maxByController;
      low := new Lane(true, retries, capacity, pool);
      high := new Lane(false, retries, capacity, pool);
      enabled := false;
      new;
      assert pool.live - (low.Owned() + high.Owned()) == pool.live;
    }

    // ---------------------------------------------------------------- one lane at a time

    /** The high lane has done something; for the low one only the pool has changed. */
    twostate lemma LowUntouched()
      requires old(Joint()) && high.Valid() && high.Rest() == old(high.Rest())
      requires unchanged(low, low.level, low.rx, low.rx.acc, low.rx.items, low.tx, low.tx.acc, low.tx.items)
      ensures Joint() && Rest() == old(Rest())
      ensures low.Received() == old(low.Received()) && low.Waiting() == old(low.Waiting())
    {
      hide Lane.Valid, Lane.Sound, Lane.Owned, Lane.Received, Lane.Waiting;
      OldOwnedLive();
      high.OwnedLive();
      HeldElsewhere(old(pool.live), old(high.Owned()), pool.live, high.Owned(), low.Owned());
      assert low.Owned() + old(high.Owned()) == old(high.Owned()) + low.Owned();
      assert low.Owned() + high.Owned() == high.Owned() + low.Owned();
      low.PoolChanged();
    }

    /** The low lane has done something; for the high one only the pool has changed. */
    twostate lemma HighUntouched()
      requires old(Joint()) && low.Valid() && low.Rest() == old(low.Rest())
      requires NoAcks(low.inputs)
      requires unchanged(high, high.level, high.rx, high.rx.acc, high.rx.items, high.tx, high.tx.acc, high.tx.items)
      ensures Joint() && Rest() == old(Rest())
      ensures high.Received() == old(high.Received()) && high.Waiting() == old(high.Waiting())
    {
      hide Lane.Valid, Lane.Sound, Lane.Owned, Lane.Received, Lane.Waiting;
      OldOwnedLive();
      low.OwnedLive();
      HeldElsewhere(old(pool.live), old(low.Owned()), pool.live, low.Owned(), high.Owned());
      high.PoolChanged();
    }

    twostate lemma OldOwnedLive()
      requires old(Joint())
      ensures old(low.Owned()) <= old(pool.live) && old(high.Owned()) <= old(pool.live)
    {
    }

    /** What closing one lane means for the other: it is closed with the code of the abort. */
    method EndTogether(io: LocalIo)
      requires Sound() && low.started
      modifies low`inputs, low.level, low.rx.acc, low.rx.items, low.tx.acc, low.tx.items
      modifies high`inputs, high.level, high.rx.acc, high.rx.items, high.tx.acc, high.tx.items, pool
      ensures Valid() && Rest() == old(Rest())
      ensures Open() == (old(Open()) && old(high.level.attached))
      ensures low.inputs == old(low.inputs)
                             + Following(old(Open() && !high.level.attached), old(high.level.errCode), io)
      ensures high.inputs == old(high.inputs)
                              + Following(old(high.level.attached && !Open()), old(low.level.errCode), io)
      ensures low.level.errCode == old(low.level.errCode) && high.level.errCode == old(high.level.errCode)
      ensures Open() ==> QueuesKept()
    {
      hide Lane.Valid, Lane.Sound, Lane.Owned, Lane.Rest, Lane.Received, Lane.Waiting;
      if low.level.attached && !high.level.attached {
        low.Close(high.level.errCode, io);
        HighUntouched();
      } else if high.level.attached && !low.level.attached {
        high.Close(low.level.errCode, io);
        LowUntouched();
      }
    }

    /** All four queues are as before. */
    twostate predicate QueuesKept()
      requires old(Sound()) && Sound()
      reads Parts()
    {
      && low.Received() == old(low.Received()) && low.Waiting() == old(low.Waiting())
      && high.Received() == old(high.Received()) && high.Waiting() == old(high.Waiting())
    }

    // ---------------------------------------------------------------- opening and closing

    /** pf_alarm_activate on an AR that is closed in all its machines, or open.  An open AR stays as
        it is, except that alarms waiting to be sent are dropped. */
    method Activate() returns (ok: bool)
      requires Valid() && (Open() || (low.level.Zeroed() && high.level.Zeroed()))
      modifies low, low.level, low.rx.acc, low.rx.items, low.tx.acc, low.tx.items
      modifies high, high.level, high.rx.acc, high.rx.items, high.tx.acc, high.tx.items, pool
      ensures Valid() && Rest() == old(Rest()) && Open() && low.started && ok == !old(Open())
      ensures ok ==> low.inputs == [] && low.posted == [] && high.inputs == [] && high.posted == []
      ensures !ok ==> low.inputs == old(low.inputs) && high.inputs == old(high.inputs)
      ensures !ok ==> low.level.State() == old(low.level.State()) && high.level.State() == old(high.level.State())
      ensures low.Waiting() == [] && high.Waiting() == []
      ensures low.Received() == old(low.Received()) && high.Received() == old(high.Received())
    {
      hide Lane.Valid, Lane.Sound, Lane.Owned, Lane.Rest, Lane.Received, Lane.Waiting, Level.Zeroed;
      var _ := low.Activate();
      HighUntouched();
      label Between:
      ok := high.Activate();
      LowUntouched@Between();
    }

    /** pf_alarm_close: afterwards all that is left are buffers that belong to somebody else, and all
        machines are in their initial states; on a closed AR only the latter is news. */
    method Close(code: nat, io: LocalIo)
      requires Valid()
      modifies low`inputs, low.level, low.rx.acc, low.rx.items, low.tx.acc, low.tx.items
      modifies high`inputs, high.level, high.rx.acc, high.rx.items, high.tx.acc, high.tx.items, pool
      ensures Valid() && !Open() && pool.live == old(Rest()) && low.level.Zeroed() && high.level.Zeroed()
      ensures low.inputs == old(low.inputs) + (if low.started then [(CloseReq(code), io)] else [])
      ensures high.inputs == old(high.inputs) + (if low.started then [(CloseReq(code), io)] else [])
    {
      hide Lane.Valid, Lane.Sound, Lane.Owned, Lane.Rest, Lane.Received, Lane.Waiting, Level.Zeroed;
      low.Close(code, io);
      HighUntouched();
      label Between:
      high.Close(code, io);
      LowUntouched@Between();
      low.OwnedLive();
      high.OwnedLive();
      assert Rest() == pool.live;
    }

    /** Every alarm posted at a priority was handed to the transport or waits, in order. */
    lemma PostedAreSentOrWait()
      requires Valid() && Open()
      ensures low.posted == Raised(low.level.past.requests) + low.Waiting()
      ensures high.posted == Raised(high.level.past.requests) + high.Waiting()
    {
    }

    /** As acks always go to the high lane, the low lane tells its user one alarm at most. */
    lemma LowIndicatesOnce(i: nat, j: nat)
      requires Valid() && low.started && i < j < |low.level.past.events|
      ensures !(low.level.past.events[i].AlarmInd? && low.level.past.events[j].AlarmInd?)
    {
      OneIndicationWithoutAcks(true, low.level.retries, low.inputs, i, j);
      assert low.level.past.events == low.level.State().events;
    }

    /** The second low alarm whose TACK is sent has ended the connection at both priorities. */
    lemma SecondLowAlarmCloses(k: nat)
      requires Valid() && low.started && k < |low.inputs|
      requires var e := RunFromStart(true, low.level.retries, low.inputs[..k]);
               SecondAlarm(e, low.inputs[k].0, low.inputs[k].1)
      ensures !Open() && !high.level.attached
      ensures Aborted(ProtocolViolation) in low.level.past.events
    {
      SecondInRun(true, low.level.retries, low.inputs, k);
      ClosedIffDetached(low.level.State());
      assert low.level.past.events == low.level.State().events;
      hide Inv, Run;
    }

    // ---------------------------------------------------------------- users

    /** pf_alarm_send_alarm: the alarm is queued unless alarms are disabled, for the device or for this
        AR, its payload is too long or missing, or the queue is unavailable or full. */
    method SendAlarm(urgent: bool, alarm: Alarm, allowed: bool, payload: Payload) returns (ok: bool)
      requires Valid()
      modifies low`posted, low.tx.acc, low.tx.items, high`posted, high.tx.acc, high.tx.items
      ensures Valid() && Rest() == old(Rest())
      ensures ok == (allowed && enabled && Fits(payload)
                     && Open() && old(|Of(urgent).Waiting()|) < Of(urgent).tx.acc.capacity)
      ensures low.posted == old(low.posted) + (if ok && !urgent then [alarm] else [])
      ensures high.posted == old(high.posted) + (if ok && urgent then [alarm] else [])
      ensures low.Waiting() == old(low.Waiting()) + (if ok && !urgent then [alarm] else [])
      ensures high.Waiting() == old(high.Waiting()) + (if ok && urgent then [alarm] else [])
      ensures low.Received() == old(low.Received()) && high.Received() == old(high.Received())
    {
      hide Lane.Valid, Lane.Sound, Lane.Owned, Lane.Rest, Lane.Received, Lane.Waiting;
      if !allowed || !enabled {
        return false;
      }
      if payload.length > maxPayload || payload.length > maxByController {
        return false;
      }
      if payload.length > 0 && !payload.given {
        return false;
      }
      if urgent {
        ok := high.PostAlarm(alarm);
        LowUntouched();
      } else {
        ok := low.PostAlarm(alarm);
        HighUntouched();
      }
    }

    /** No longer than the stack and the controller allow, and there if it has a length. */
    predicate Fits(payload: Payload)
      reads this
    {
      payload.length <= maxPayload && payload.length <= maxByController && (payload.length == 0 || payload.given)
    }

    /** pf_alarm_alpmr_alarm_ack: the ack always goes to the high lane. */
    method AckAlarm(arg: AlarmArg, status: PnioStatus, io: LocalIo) returns (ok: bool)
      requires Valid() && low.started
      modifies low`inputs, low.level, low.rx.acc, low.rx.items, low.tx.acc, low.tx.items
      modifies high`inputs, high.level, high.rx.acc, high.rx.items, high.tx.acc, high.tx.items, pool
      ensures Valid() && Rest() == old(Rest())
      ensures ok <==> old(high.level.alpmr) == AlpmrUserAck && old(high.level.apms) == ApmsOpen
                      && io.alloc && io.send && io.sched
      ensures high.inputs == old(high.inputs)
                             + (if old(high.level.alpmr) == AlpmrUserAck then [(Ack(arg, status), io)] else [])
      ensures low.inputs == old(low.inputs) + Following(old(Open()) && !Open(), high.level.errCode, io)
      ensures Open() ==> old(Open()) && QueuesKept()
    {
      hide Lane.Valid, Lane.Sound, Lane.Owned, Lane.Rest, Lane.Received, Lane.Waiting;
      ok := high.UserAck(arg, status, io);
      LowUntouched();
      EndTogether(io);
    }

    /** The resend timer of one priority fires. */
    method Timeout(urgent: bool, io: LocalIo)
      requires Valid() && low.started && Open()
      modifies low`inputs, low.level, low.rx.acc, low.rx.items, low.tx.acc, low.tx.items
      modifies high`inputs, high.level, high.rx.acc, high.rx.items, high.tx.acc, high.tx.items, pool
      ensures Valid() && Rest() == old(Rest())
      ensures urgent ==>
                && high.inputs == old(high.inputs) + [(TimerFires, io)]
                && low.inputs == old(low.inputs) + Following(!Open(), high.level.errCode, io)
      ensures !urgent ==>
                && low.inputs == old(low.inputs) + [(TimerFires, io)]
                && high.inputs == old(high.inputs) + Following(!Open(), low.level.errCode, io)
      ensures Open() ==> QueuesKept()
    {
      hide Lane.Valid, Lane.Sound, Lane.Owned, Lane.Rest, Lane.Received, Lane.Waiting;
      if urgent {
        high.Timeout(io);
        LowUntouched();
      } else {
        low.Timeout(io);
        HighUntouched();
      }
      EndTogether(io);
    }

    // ---------------------------------------------------------------- receiving

    /** The frame handler, once it knows the AR: a frame is queued and its buffer taken over, or it
        stays with the caller. */
    method PostFrame(urgent: bool, msg: Message) returns (ok: bool)
      requires Valid() && msg.buf.id in Rest()
      modifies low.rx.acc, low.rx.items, high.rx.acc, high.rx.items
      ensures Valid()
      ensures ok == (Open() && old(|Of(urgent).Received()|) < Of(urgent).rx.acc.capacity)
      ensures Rest() == old(Rest()) - (if ok then {msg.buf.id} else {})
      ensures low.Received() == old(low.Received()) + (if ok && !urgent then [msg] else [])
      ensures high.Received() == old(high.Received()) + (if ok && urgent then [msg] else [])
      ensures low.Waiting() == old(low.Waiting()) && high.Waiting() == old(high.Waiting())
    {
      hide Lane.Valid, Lane.Sound, Lane.Owned, Lane.Received, Lane.Waiting;
      if urgent {
        ok := high.PostFrame(msg);
        high.OwnedLive();
        OldOwnedLive();
        low.PoolChanged();
      } else {
        ok := low.PostFrame(msg);
        low.OwnedLive();
        OldOwnedLive();
        high.PoolChanged();
      }
    }

    /** The receiving loop for the low priority. */
    method DrainLow(io: LocalIo) returns (ok: bool, ghost n: nat, ghost ios: seq<LocalIo>)
      requires Valid() && low.started
      modifies low`inputs, low.level, low.rx.acc, low.rx.items, low.tx.acc, low.tx.items
      modifies high`inputs, high.level, high.rx.acc, high.rx.items, high.tx.acc, high.tx.items, pool
      ensures Valid() && Rest() == old(Rest())
      ensures n == |ios| <= |old(low.Received())| && (n == 0 ==> Open() == old(Open())) && (Open() ==> old(Open()))
      ensures low.inputs == old(low.inputs) + Deliveries(old(low.Received())[..n], ios)
      ensures high.inputs == old(high.inputs) + Following(old(Open()) && !Open(), low.level.errCode, io)
      ensures high.level.errCode == old(high.level.errCode)
      ensures Open() ==>
                && low.Received() == old(low.Received())[n..] && low.Waiting() == old(low.Waiting())
                && high.Received() == old(high.Received()) && high.Waiting() == old(high.Waiting())
      ensures Open() && ok ==> low.Received() == []
      ensures ok == GoesOn(true, low.level.retries, low.inputs, |old(low.inputs)|, n)
      ensures n > 0 ==> GoesOn(true, low.level.retries, low.inputs, |old(low.inputs)|, n - 1)
      ensures !old(Open()) ==> n == 0
    {
      hide Lane.Valid, Lane.Sound, Lane.Owned, Lane.Rest, Lane.Received, Lane.Waiting, NoAcks, GoesOn;
      low.OwnedLive();
      ok, n, ios := low.Drain();
      NoAcksDelivered(old(low.inputs), old(low.Received())[..n], ios);
      HighUntouched();
      EndTogether(io);
    }

    /** The receiving loop for the high priority. */
    method DrainHigh(io: LocalIo) returns (ok: bool, ghost n: nat, ghost ios: seq<LocalIo>)
      requires Valid() && low.started
      modifies low`inputs, low.level, low.rx.acc, low.rx.items, low.tx.acc, low.tx.items
      modifies high`inputs, high.level, high.rx.acc, high.rx.items, high.tx.acc, high.tx.items, pool
      ensures Valid() && Rest() == old(Rest())
      ensures n == |ios| <= |old(high.Received())| && (n == 0 ==> Open() == old(Open())) && (Open() ==> old(Open()))
      ensures high.inputs == old(high.inputs) + Deliveries(old(high.Received())[..n], ios)
      ensures low.inputs == old(low.inputs) + Following(old(Open()) && !Open(), high.level.errCode, io)
      ensures low.level.errCode == old(low.level.errCode)
      ensures Open() ==>
                && high.Received() == old(high.Received())[n..] && high.Waiting() == old(high.Waiting())
                && low.Received() == old(low.Received()) && low.Waiting() == old(low.Waiting())
      ensures Open() && ok ==> high.Received() == []
      ensures ok == GoesOn(false, high.level.retries, high.inputs, |old(high.inputs)|, n)
      ensures n > 0 ==> GoesOn(false, high.level.retries, high.inputs, |old(high.inputs)|, n - 1)
      ensures !old(Open()) ==> n == 0
    {
      hide Lane.Valid, Lane.Sound, Lane.Owned, Lane.Rest, Lane.Received, Lane.Waiting, NoAcks, GoesOn;
      high.OwnedLive();
      ok, n, ios := high.Drain();
      LowUntouched();
      EndTogether(io);
    }

    /** pf_alarm_apmr_periodic: the low queue is handled first, then the high one.  Unless an error
        stops it, both are emptied, and each frame is handled exactly once, in order. */
    method ReceivePeriodic(io: LocalIo)
      returns (ok: bool, ghost n: nat, ghost k: nat, ghost ios: seq<LocalIo>, ghost jos: seq<LocalIo>)
      requires Valid() && low.started
      modifies low`inputs, low.level, low.rx.acc, low.rx.items, low.tx.acc, low.tx.items
      modifies high`inputs, high.level, high.rx.acc, high.rx.items, high.tx.acc, high.tx.items, pool
      ensures Valid() && Rest() == old(Rest())
      ensures n == |ios| <= |old(low.Received())| && k == |jos| <= |old(high.Received())|
      ensures low.inputs == old(low.inputs) + Deliveries(old(low.Received())[..n], ios)
                            + Following(k > 0 && !Open(), high.level.errCode, io)
      ensures high.inputs == old(high.inputs) + Deliveries(old(high.Received())[..k], jos)
                             + Following(old(Open()) && k == 0 && !Open(), low.level.errCode, io)
      ensures Open() ==>
                && low.Received() == old(low.Received())[n..] && high.Received() == old(high.Received())[k..]
                && low.Waiting() == old(low.Waiting()) && high.Waiting() == old(high.Waiting())
      ensures ok == (LowGoesOn(|old(low.inputs)|, n) && HighGoesOn(|old(high.inputs)|, k))
      ensures n > 0 ==> LowGoesOn(|old(low.inputs)|, n - 1)
      ensures k > 0 ==> LowGoesOn(|old(low.inputs)|, n) && HighGoesOn(|old(high.inputs)|, k - 1)
      ensures Open() && LowGoesOn(|old(low.inputs)|, n) ==> low.Received() == []
      ensures Open() && ok ==> low.Received() == [] && high.Received() == []
    {
      hide Lane.Valid, Lane.Sound, Lane.Owned, Lane.Rest, Lane.Received, Lane.Waiting, NoAcks, GoesOn;
      ok, n, ios := DrainLow(io);
      ghost var lows, highs := low.inputs, high.inputs;
      k, jos := 0, [];
      NoDeliveries(old(high.Received()));
      NothingStops(false, high.level.retries, high.inputs, |old(high.inputs)|);
      if ok {
        ok, k, jos := DrainHigh(io);
        LongerGoesOn(true, low.level.retries, lows, low.inputs, |old(low.inputs)|, n);
        if k == 0 {
          NothingStops(false, high.level.retries, high.inputs, |highs|);
          NothingStops(false, high.level.retries, high.inputs, |old(high.inputs)|);
        }
      }
    }

    /** None of the `n` inputs of this priority from `from` on stops the receiving loop. */
    ghost predicate LowGoesOn(from: nat, n: nat)
      reads low, low.level
    {
      from + n <= |low.inputs| && GoesOn(true, low.level.retries, low.inputs, from, n)
    }

    ghost predicate HighGoesOn(from: nat, n: nat)
      reads high, high.level
    {
      from + n <= |high.inputs| && GoesOn(false, high.level.retries, high.inputs, from, n)
    }

    // ---------------------------------------------------------------- sending

    /** Is it this lane's turn, as far as the lane goes? */
    ghost predicate Ready(urgent: bool)
      requires Sound()
      reads Parts()
    {
      if urgent then high.level.alpmi == AlpmiAlarm && high.Waiting() != []
      else low.level.alpmi == AlpmiAlarm && low.Waiting() != []
    }

    /** pf_alarm_almpi_periodic: at most one alarm is handed over, a high one if possible. */
    method SendPeriodic(io: LocalIo) returns (ghost highTurn: bool, ghost lowTurn: bool)
      requires Valid() && low.started
      modifies low`inputs, low.level, low.rx.acc, low.rx.items, low.tx.acc, low.tx.items
      modifies high`inputs, high.level, high.rx.acc, high.rx.items, high.tx.acc, high.tx.items, pool
      ensures Valid() && Rest() == old(Rest())
      ensures highTurn == (enabled && old(Ready(true)))
      ensures lowTurn == (enabled && !highTurn && old(Ready(false)))
      ensures highTurn ==> high.inputs == old(high.inputs) + [(Send(old(high.Waiting())[0]), io)]
      ensures lowTurn ==> low.inputs == old(low.inputs) + [(Send(old(low.Waiting())[0]), io)]
      ensures !highTurn ==> high.inputs == old(high.inputs) + Following(lowTurn && !Open(), low.level.errCode, io)
      ensures !lowTurn ==> low.inputs == old(low.inputs) + Following(highTurn && !Open(), high.level.errCode, io)
      ensures Open() ==>
                && high.Waiting() == After(old(high.Waiting()), highTurn)
                && low.Waiting() == After(old(low.Waiting()), lowTurn)
                && low.Received() == old(low.Received()) && high.Received() == old(high.Received())
    {
      hide Lane.Valid, Lane.Sound, Lane.Owned, Lane.Rest, Lane.Received, Lane.Waiting;
      highTurn, lowTurn := false, false;
      if enabled {
        var fetched := high.HandOver(io);
        highTurn := fetched;
        LowUntouched();
        if !fetched {
          label Before:
          fetched := low.HandOver(io);
          lowTurn := fetched;
          HighUntouched@Before();
        }
        EndTogether(io);
      }
    }
  }

  /** Inputs that come later make no difference to earlier ones. */
  lemma LongerGoesOn(low: bool, retries: nat, inputs: seq<(Input, LocalIo)>, longer: seq<(Input, LocalIo)>,
                     from: nat, n: nat)
    requires inputs <= longer && from + n <= |inputs|
    ensures GoesOn(low, retries, longer, from, n) == GoesOn(low, retries, inputs, from, n)
    ensures n > 0 ==> GoesOn(low, retries, longer, from, n - 1) == GoesOn(low, retries, inputs, from, n - 1)
  {
    hide StopsAt;
    assert longer == inputs + longer[|inputs|..];
    forall k | from <= k < from + n
      ensures StopsAt(low, retries, longer, k) == StopsAt(low, retries, inputs, k)
    {
      StopsAtPrefix(low, retries, inputs, longer[|inputs|..], k);
    }
  }

  lemma NoAcksDelivered(inputs: seq<(Input, LocalIo)>, ms: seq<Message>, ios: seq<LocalIo>)
    requires NoAcks(inputs) && |ms| == |ios|
    ensures NoAcks(inputs + Deliveries(ms, ios))
  {
  }
}
