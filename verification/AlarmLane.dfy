/**
 What an AR keeps for one priority: the level with its state machines, the queue of received
 frames and the queue of alarms to send.  Methods keep the record `inputs` of what the level
 was given, so that every result about runs of `AlarmEndpointRuns` speaks about this object.
 */
module AlarmLane {
  import opened SequenceNumbers
  import AE = AlarmEndpoint
  import opened AlarmEndpoint
  import opened AlarmEndpointRuns
  import opened AlarmEndpointTheorems
  import opened AlarmFrames
  import opened AlarmLevel
  import opened AlarmQueues
  import opened Buffers
  import opened Wrappers

  /** The alarms among a sequence of DATA bodies, as their users gave them. */
  function Raised(s: seq<Body>): (r: seq<Alarm>) {
    if s == [] then []
    else
      var b := s[|s| - 1];
      Raised(s[..|s| - 1]) + (if b.Notification? then [b.arg.alarm] else [])
  }

  lemma RaisedSnoc(s: seq<Body>, b: Body)
    ensures Raised(s + [b]) == Raised(s) + (if b.Notification? then [b.arg.alarm] else [])
  {
    assert (s + [b])[..|s + [b]| - 1] == s;
  }

  // ---------------------------------------------------------------- what an input does to the requests

  /** The alarm a Send input hands to the transport. */
  function Sent(e: Endpoint, input: Input): seq<Alarm> {
    if input.Send? && e.alpmi == AlpmiAlarm then [input.alarm] else []
  }

  /** Unless the connection ends, exactly the alarm sent is added to the requests. */
  lemma StepRaised(m: Numbering, e: Endpoint, input: Input, io: LocalIo)
    requires Inv(m, e)
    ensures var r := Step(m, e, input, io);
            r.apms != ApmsClosed ==> Raised(r.requests) == Raised(e.requests) + Sent(e, input)
  {
    hide OnFrame, UserAck, SendAlarm;
    match input
    case Deliver(f) => DeliverRequests(m, e, f, io);
    case TimerFires =>
    case Ack(arg, status) => AckRaised(m, e, arg, status, io);
    case Send(alarm) => if e.alpmi == AlpmiAlarm { SendRaised(m, e, alarm, io); }
    case CloseReq(_) =>
  }

  lemma AckRaised(m: Numbering, e: Endpoint, arg: AlarmArg, status: PnioStatus, io: LocalIo)
    requires Inv(m, e)
    ensures var r := UserAck(e, arg, status, io).0;
            r.apms != ApmsClosed ==> Raised(r.requests) == Raised(e.requests)
  {
    RaisedSnoc(e.requests, AlarmAck(arg, status));
  }

  lemma SendRaised(m: Numbering, e: Endpoint, alarm: Alarm, io: LocalIo)
    requires Inv(m, e) && e.alpmi == AlpmiAlarm
    ensures var r := SendAlarm(e, alarm, io).0;
            r.apms != ApmsClosed ==> Raised(r.requests) == Raised(e.requests) + [alarm]
  {
    RaisedSnoc(e.requests, Notification(AlarmArg(alarm, e.alarmSeq)));
  }

  // ---------------------------------------------------------------- the object

  function Deliveries(ms: seq<Message>, ios: seq<LocalIo>): (inputs: seq<(Input, LocalIo)>)
    requires |ms| == |ios|
    ensures |inputs| == |ms|
  {
    seq(|ms|, k requires 0 <= k < |ms| && |ms| == |ios| => (Deliver(ms[k].buf.frame), ios[k]))
  }

  lemma NoDeliveries(ms: seq<Message>)
    ensures Deliveries(ms[..0], []) == []
  {
  }

  lemma DeliveriesSnoc(ms: seq<Message>, n: nat, ios: seq<LocalIo>, io: LocalIo)
    requires n == |ios| < |ms|
    ensures Deliveries(ms[..n + 1], ios + [io]) == Deliveries(ms[..n], ios) + [(Deliver(ms[n].buf.frame), io)]
  {
  }

  /** A level that accounts for its own buffers leaves those held elsewhere alone. */
  lemma HeldElsewhere(live: set<nat>, own: set<nat>, live': set<nat>, own': set<nat>, held: set<nat>)
    requires live - own == live' - own' && held <= live && held !! own
    ensures held <= live' && held !! own' && live - (own + held) == live' - (own' + held)
  {
    assert held <= live - own;
    assert live - (own + held) == (live - own) - held;
    assert live' - (own' + held) == (live' - own') - held;
  }

  /** None of the `n` inputs from `from` on stops the receiving loop. */
  predicate GoesOn(low: bool, retries: nat, inputs: seq<(Input, LocalIo)>, from: nat, n: nat)
    requires from + n <= |inputs|
  {
    forall k :: from <= k < from + n ==> !StopsAt(low, retries, inputs, k)
  }

  lemma NothingStops(low: bool, retries: nat, inputs: seq<(Input, LocalIo)>, from: nat)
    requires from <= |inputs|
    ensures GoesOn(low, retries, inputs, from, 0)
  {
  }

  /** With one more input the earlier ones are judged as before. */
  lemma GoesOnOnce(low: bool, retries: nat, inputs: seq<(Input, LocalIo)>, next: (Input, LocalIo), from: nat, n: nat)
    requires from + n == |inputs|
    ensures GoesOn(low, retries, inputs + [next], from, n) == GoesOn(low, retries, inputs, from, n)
    ensures GoesOn(low, retries, inputs + [next], from, n + 1)
         == (GoesOn(low, retries, inputs, from, n) && !StopsAt(low, retries, inputs + [next], |inputs|))
  {
    hide StopsAt;
    forall k | from <= k < from + n
      ensures StopsAt(low, retries, inputs + [next], k) == StopsAt(low, retries, inputs, k)
    {
      StopsAtPrefix(low, retries, inputs, [next], k);
    }
  }

  class Lane {
    const level: Level
    const rx: ReceiveQueue
    const tx: SendQueue

    ghost var started: bool
    ghost var inputs: seq<(Input, LocalIo)>   // since activation
    ghost var posted: seq<Alarm>              // alarms put into the send queue since activation

    ghost function Repr(): set<object> {
      {this, level, rx, rx.acc, rx.items, tx, tx.acc, tx.items}
    }

    /** The buffers that belong to this lane. */
    ghost function Owned(): set<nat>
      reads level, rx, rx.items
    {
      level.Own() + rx.Held()
    }

    /** The live buffers that belong to somebody else. */
    ghost function Rest(): set<nat>
      reads level, level.pool, rx, rx.items
    {
      level.pool.live - Owned()
    }

    /** The parts fit together, and the level is where its inputs took it. */
    ghost predicate Sound()
      reads this, level, level.pool, rx, rx.acc, rx.items, tx, tx.acc, tx.items
    {
      && rx.acc != tx.acc
      && level.Valid() && rx.Valid() && tx.Valid()
      && rx.Held() <= level.pool.live && rx.Held() !! level.Own()
      && (if started then level.State() == RunFromStart(level.low, level.retries, inputs)
          else level.Zeroed() && !level.attached && level.rta.None?)
    }

    /** An open lane has both queues, and every alarm posted since activation was either handed to
        the transport or still waits, in order.  A closed lane holds nothing. */
    ghost predicate Valid()
      reads this, level, level.pool, rx, rx.acc, rx.items, tx, tx.acc, tx.items
    {
      && Sound()
      && rx.acc.available == level.attached && tx.acc.available == level.attached
      && (level.attached ==> Raised(level.past.requests) + tx.Contents() == posted)
      && (!level.attached ==> Owned() == {} && rx.Contents() == [] && tx.Contents() == [])
    }

    /** The frames not handled yet. */
    ghost function Received(): seq<Message>
      requires Valid()
      reads this, level, level.pool, rx, rx.acc, rx.items, tx, tx.acc, tx.items
    {
      rx.Contents()
    }

    /** The alarms not handed over yet. */
    ghost function Waiting(): seq<Alarm>
      requires Valid()
      reads this, level, level.pool, rx, rx.acc, rx.items, tx, tx.acc, tx.items
    {
      tx.Contents()
    }

    lemma OwnedLive()
      requires Valid()
      ensures level.pool.Valid() && Owned() <= level.pool.live
      ensures !level.attached ==> Owned() == {} && Received() == [] && Waiting() == []
    {
    }

    /** Nothing has happened to this lane except that the pool has changed around its buffers. */
    twostate lemma PoolChanged()
      requires old(Valid()) && level.pool.Valid() && Owned() <= level.pool.live
      requires unchanged(this, level, rx, rx.acc, rx.items, tx, tx.acc, tx.items)
      ensures Valid() && Received() == old(Received()) && Waiting() == old(Waiting())
    {
    }

    constructor (low: bool, retries: nat, capacity: nat, pool: BufferPool)
      requires pool.Valid() && 1 <= capacity
      ensures Valid() && fresh(Repr()) && level.pool == pool && level.low == low && level.retries == retries
      ensures !started && !level.attached && inputs == [] && Owned() == {}
      ensures rx.acc.capacity == tx.acc.capacity == capacity
    {
      level := new Level(low, retries, pool);
      rx := new ReceiveQueue(capacity);
      tx := new SendQueue(capacity);
      started, inputs, posted := false, [], [];
    }

    /** Creates the queues and opens the level.  On an open lane only the send queue is emptied. */
    method Activate() returns (ok: bool)
      requires Valid() && (level.attached || level.Zeroed())
      modifies this, level, rx.acc, rx.items, tx.acc, tx.items, level.pool
      ensures Valid() && started && level.attached && Rest() == old(Rest())
      ensures ok == !old(level.attached) && Waiting() == [] && Received() == old(Received())
      ensures ok ==> inputs == [] && posted == [] && Owned() == {}
      ensures !ok ==> inputs == old(inputs) && level.State() == old(level.State()) && Owned() == old(Owned())
    {
      hide RunFromStart, Inv, Raised, Level.State;
      hide ReceiveQueue.Valid, SendQueue.Valid, ReceiveQueue.Held, ReceiveQueue.Contents, SendQueue.Contents, BuffersIn;
      OpenMeansBoth();
      CreateSendQueue();
      ok := OpenLevel();
      if ok {
        CreateReceiveQueue();
        started, inputs := true, [];
      }
      posted := Raised(level.past.requests);
    }

    method CreateSendQueue()
      requires tx.Valid()
      modifies tx.acc, tx.items
      ensures tx.Valid() && tx.acc.available && tx.Contents() == []
    {
      tx.acc.available := true;
      tx.Reset();
    }

    lemma OpenMeansBoth()
      requires Valid()
      ensures level.attached ==> started && level.alpmi != AlpmiStart && level.apms != ApmsClosed
    {
      if started {
        hide RunFromStart;
        OpenStates(level.State());
      }
    }

    method OpenLevel() returns (ok: bool)
      requires level.Valid() && (level.Zeroed() ==> level.rta.None?)
      requires level.Zeroed() || (level.alpmi != AlpmiStart && level.apms != ApmsClosed)
      modifies level
      ensures level.Valid() && ok == old(level.Zeroed()) && level.Own() == old(level.Own())
      ensures ok ==> level.attached && level.rta.None? && Raised(level.past.requests) == []
      ensures ok ==> level.State() == RunFromStart(level.low, level.retries, [])
      ensures !ok ==> level.State() == old(level.State()) && level.attached == old(level.attached)
    {
      ok := level.Activate();
    }

    method CreateReceiveQueue()
      requires rx.Valid() && level.pool.Valid() && rx.Held() == {} && rx.Contents() == []
      modifies rx.acc, rx.items, level.pool
      ensures rx.Valid() && level.pool.Valid() && rx.acc.available && rx.Held() == {} && rx.Contents() == []
      ensures level.pool.live == old(level.pool.live)
    {
      rx.acc.available := true;
      rx.Reset(level.pool);
    }

    /** pf_alarm_close as far as the queues go. */
    method CloseQueues()
      requires rx.acc != tx.acc && rx.acc.available && tx.acc.available
      requires level.pool.Valid() && rx.Valid() && tx.Valid() && rx.Held() <= level.pool.live
      modifies rx.acc, rx.items, tx.acc, tx.items, level.pool
      ensures level.pool.Valid() && rx.Valid() && tx.Valid() && !rx.acc.available && !tx.acc.available
      ensures rx.Contents() == [] && tx.Contents() == [] && rx.Held() == {}
      ensures level.pool.live == old(level.pool.live) - old(rx.Held())
    {
      tx.Reset();
      tx.acc.available := false;
      rx.Reset(level.pool);
      rx.acc.available := false;
    }

    /** If the level has ended the connection, its queues are closed with it. */
    method Settle()
      requires Sound() && rx.acc.available && tx.acc.available
      requires level.attached ==> Raised(level.past.requests) + tx.Contents() == posted
      requires started
      modifies rx.acc, rx.items, tx.acc, tx.items, level.pool
      ensures Valid() && Rest() == old(Rest())
      ensures level.attached ==> rx.Contents() == old(rx.Contents()) && tx.Contents() == old(tx.Contents())
    {
      if !level.attached {
        CloseQueues();
      }
    }

    /** What a record of one more input means for the level. */
    ghost method Record(input: Input, io: LocalIo)
      requires started && Inv(Wire15, RunFromStart(level.low, level.retries, inputs))
      requires level.State() == Step(Wire15, RunFromStart(level.low, level.retries, inputs), input, io)
      modifies this`inputs
      ensures inputs == old(inputs) + [(input, io)]
      ensures level.State() == RunFromStart(level.low, level.retries, inputs)
    {
      RunFromStartSnoc(level.low, level.retries, inputs, input, io);
      inputs := inputs + [(input, io)];
    }

    /** One frame fetched from the receive queue; its buffer still belongs to the caller. */
    method HandleFrame(f: Frame, io: LocalIo) returns (ok: bool)
      requires Valid() && started && level.apmr != ApmrClosed
      modifies this`inputs, level, rx.acc, rx.items, tx.acc, tx.items, level.pool
      ensures level.attached ==> old(level.attached)
      ensures Valid() && Rest() == old(Rest())
      ensures inputs == old(inputs) + [(Deliver(f), io)]
      ensures ok == !Stops(old(level.State()), f, io)
      ensures level.attached ==> rx.Contents() == old(rx.Contents()) && tx.Contents() == old(tx.Contents())
    {
      hide OnFrame, RunFromStart, Inv, Stops;
      ghost var e := level.State();
      StopsIff(Wire15, e, f, io);
      StepRaised(Wire15, e, Deliver(f), io);
      assert level.attached by { AttachedIfOpen(e); }
      ok := level.OnFrame(f, io);
      HeldElsewhere(old(level.pool.live), old(level.Own()), level.pool.live, level.Own(), rx.Held());
      Record(Deliver(f), io);
      ClosedIffDetached(level.State());
      Settle();
    }

    /** Takes the oldest frame out of the queue; its buffer now belongs to the caller. */
    method FetchFrame() returns (fetched: bool, msg: Message)
      requires Valid()
      modifies rx.acc, rx.items
      ensures Valid() && fetched == (old(level.attached) && old(Received()) != [])
      ensures fetched ==> msg == old(Received())[0] && Received() == old(Received())[1..]
      ensures fetched ==> msg.buf.id in Rest() && Rest() == old(Rest()) + {msg.buf.id} && msg.buf.id !in old(Rest())
      ensures !fetched ==> Received() == old(Received()) && Rest() == old(Rest())
    {
      fetched, msg := rx.Fetch();
    }

    /** Frees a buffer that does not belong to this lane. */
    method FreeForeign(id: nat)
      requires Valid() && id in Rest()
      modifies level.pool
      ensures Valid() && Rest() == old(Rest()) - {id}
    {
      level.pool.Free(id);
    }

    /** One turn of the receiving loop. */
    method HandleNext() returns (fetched: bool, ok: bool, io: LocalIo)
      requires Valid() && started && level.attached && level.apmr != ApmrClosed
      modifies this`inputs, level, rx.acc, rx.items, tx.acc, tx.items, level.pool
      ensures level.attached ==> old(level.attached)
      ensures Valid() && Rest() == old(Rest()) && fetched == (old(Received()) != [])
      ensures inputs == old(inputs) + (if fetched then [(Deliver(old(Received())[0].buf.frame), io)] else [])
      ensures level.attached ==> Waiting() == old(Waiting())
      ensures level.attached ==> Received() == if fetched then old(Received())[1..] else []
      ensures !fetched ==> level.attached && ok
      ensures fetched ==> ok == !StopsAt(level.low, level.retries, inputs, |old(inputs)|)
    {
      hide RunFromStart, Inv, BuffersIn, Level.Valid, Level.State, Raised, Stops;
      io := *;
      ok := true;
      var msg;
      fetched, msg := FetchFrame();
      if fetched {
        ok := HandleFrame(msg.buf.frame, io);
        FreeForeign(msg.buf.id);
        assert inputs[..|old(inputs)|] == old(inputs);
      }
    }

    lemma OpenIffAttached()
      requires Sound() && started
      ensures level.attached == (level.apmr != ApmrClosed)
    {
      ClosedIffDetached(level.State());
    }

    /** The receiving loop for this priority: frames are taken and handled until the queue is empty,
        an error stops the loop or the connection ends.  Each buffer is freed once its frame is done. */
    method Drain() returns (ok: bool, ghost n: nat, ghost ios: seq<LocalIo>)
      requires Valid() && started
      modifies this`inputs, level, rx.acc, rx.items, tx.acc, tx.items, level.pool
      ensures level.attached ==> old(level.attached)
      ensures Valid() && Rest() == old(Rest())
      ensures n == |ios| <= |old(Received())| && inputs == old(inputs) + Deliveries(old(Received())[..n], ios)
      ensures level.attached ==> Received() == old(Received())[n..] && Waiting() == old(Waiting())
      ensures level.attached && ok ==> n == |old(Received())|
      ensures n == 0 ==> level.attached == old(level.attached)
      ensures ok == GoesOn(level.low, level.retries, inputs, |old(inputs)|, n)
      ensures n > 0 ==> GoesOn(level.low, level.retries, inputs, |old(inputs)|, n - 1)
    {
      hide StopsAt, GoesOn, Deliveries;
      hide RunFromStart, Inv, ReceiveQueue.Valid, ReceiveQueue.Contents, SendQueue.Valid, SendQueue.Contents, BuffersIn;
      hide Level.Valid, Level.State, Raised;
      ok, n, ios := true, 0, [];
      ghost var queue := rx.Contents();
      NoDeliveries(queue);
      NothingStops(level.low, level.retries, inputs, |inputs|);
      while ok && level.apmr != ApmrClosed
        invariant Valid() && started && Rest() == old(Rest()) && (level.attached ==> old(level.attached))
        invariant n == 0 ==> level.attached == old(level.attached)
        invariant n == |ios| <= |queue| && inputs == old(inputs) + Deliveries(queue[..n], ios)
        invariant level.attached ==> rx.Contents() == queue[n..] && tx.Contents() == old(tx.Contents())
        invariant ok == GoesOn(level.low, level.retries, inputs, |old(inputs)|, n)
        invariant n > 0 ==> GoesOn(level.low, level.retries, inputs, |old(inputs)|, n - 1)
        decreases |queue| - n
      {
        OpenIffAttached();
        ghost var before := inputs;
        var fetched, result, io := HandleNext();
        if !fetched {
          break;
        }
        ok := result;
        GoesOnOnce(level.low, level.retries, before, inputs[|before|], |old(inputs)|, n);
        assert inputs == before + [inputs[|before|]];
        DeliveriesSnoc(queue, n, ios, io);
        n, ios := n + 1, ios + [io];
      }
      OpenIffAttached();
    }

    /** The resend timer of this level fires. */
    method Timeout(io: LocalIo)
      requires Valid() && started
      modifies this`inputs, level, rx.acc, rx.items, tx.acc, tx.items, level.pool
      ensures level.attached ==> old(level.attached)
      ensures Valid() && Rest() == old(Rest())
      ensures inputs == if old(level.attached) then old(inputs) + [(TimerFires, io)] else old(inputs)
      ensures level.attached ==> Received() == old(Received()) && Waiting() == old(Waiting())
    {
      hide AE.Timeout, RunFromStart, Inv, Raised;
      hide ReceiveQueue.Valid, SendQueue.Valid, ReceiveQueue.Held, ReceiveQueue.Contents, SendQueue.Contents, BuffersIn;
      ClosedIffDetached(level.State());
      if level.attached {
        StepRaised(Wire15, level.State(), TimerFires, io);
        level.Timeout(io);
        HeldElsewhere(old(level.pool.live), old(level.Own()), level.pool.live, level.Own(), rx.Held());
        Record(TimerFires, io);
        ClosedIffDetached(level.State());
        Settle();
      }
    }

    /** The user acks the alarm told last. */
    method UserAck(arg: AlarmArg, status: PnioStatus, io: LocalIo) returns (ok: bool)
      requires Valid() && started
      modifies this`inputs, level, rx.acc, rx.items, tx.acc, tx.items, level.pool
      ensures level.attached ==> old(level.attached)
      ensures Valid() && Rest() == old(Rest())
      ensures inputs == if old(level.alpmr) == AlpmrUserAck then old(inputs) + [(Ack(arg, status), io)] else old(inputs)
      ensures ok <==> old(level.alpmr) == AlpmrUserAck && old(level.apms) == ApmsOpen && io.alloc && io.send && io.sched
      ensures level.attached ==> Received() == old(Received()) && Waiting() == old(Waiting())
    {
      hide AE.UserAck, RunFromStart, Inv, Raised;
      hide ReceiveQueue.Valid, SendQueue.Valid, ReceiveQueue.Held, ReceiveQueue.Contents, SendQueue.Contents, BuffersIn;
      ClosedIffDetached(level.State());
      ok := false;
      if level.alpmr == AlpmrUserAck {
        StepRaised(Wire15, level.State(), Ack(arg, status), io);
        AckOutcome(level.State(), arg, status, io);
        ok := level.UserAck(arg, status, io);
        HeldElsewhere(old(level.pool.live), old(level.Own()), level.pool.live, level.Own(), rx.Held());
        Record(Ack(arg, status), io);
        ClosedIffDetached(level.State());
        Settle();
      }
    }

    /** An alarm just taken out of the send queue is handed to APMS. */
    method SendFetched(alarm: Alarm, io: LocalIo)
      requires Sound() && started && rx.acc.available && tx.acc.available
      requires level.attached && level.alpmi == AlpmiAlarm
      requires Raised(level.past.requests) + [alarm] + tx.Contents() == posted
      modifies this`inputs, level, rx.acc, rx.items, tx.acc, tx.items, level.pool
      ensures Valid() && Rest() == old(Rest())
      ensures inputs == old(inputs) + [(Send(alarm), io)]
      ensures level.attached ==> rx.Contents() == old(rx.Contents()) && tx.Contents() == old(tx.Contents())
    {
      hide AE.SendAlarm, RunFromStart, Inv, Raised;
      hide ReceiveQueue.Valid, SendQueue.Valid, ReceiveQueue.Held, ReceiveQueue.Contents, SendQueue.Contents, BuffersIn;
      StepRaised(Wire15, level.State(), Send(alarm), io);
      var _ := level.SendAlarm(alarm, io);
      HeldElsewhere(old(level.pool.live), old(level.Own()), level.pool.live, level.Own(), rx.Held());
      Record(Send(alarm), io);
      ClosedIffDetached(level.State());
      Settle();
    }

    /** If ALPMI is free and an alarm waits, the oldest one is handed to APMS. */
    method HandOver(io: LocalIo) returns (fetched: bool)
      requires Valid() && started
      modifies this`inputs, level, rx.acc, rx.items, tx.acc, tx.items, level.pool
      ensures level.attached ==> old(level.attached)
      ensures Valid() && Rest() == old(Rest())
      ensures fetched == (old(level.alpmi) == AlpmiAlarm && old(Waiting()) != []) && (fetched ==> old(level.attached))
      ensures !fetched ==> level.attached == old(level.attached) && level.alpmi == old(level.alpmi)
      ensures inputs == if fetched then old(inputs) + [(Send(old(Waiting())[0]), io)] else old(inputs)
      ensures level.attached ==>
                Received() == old(Received()) && Waiting() == old(Waiting())[if fetched then 1 else 0..]
    {
      hide RunFromStart, Inv, Raised;
      hide ReceiveQueue.Valid, SendQueue.Valid, ReceiveQueue.Held, ReceiveQueue.Contents, SendQueue.Contents, BuffersIn;
      ClosedIffDetached(level.State());
      fetched := false;
      if level.alpmi == AlpmiAlarm {
        var alarm;
        fetched, alarm := tx.Fetch();
        if fetched {
          SendFetched(alarm, io);
        }
      }
    }

    /** pf_alarm_close as far as this lane goes; a closed lane only has its user machines reset. */
    method Close(code: nat, io: LocalIo)
      requires Valid()
      modifies this`inputs, level, rx.acc, rx.items, tx.acc, tx.items, level.pool
      ensures Valid() && Rest() == old(Rest()) && !level.attached && level.Zeroed()
      ensures inputs == old(inputs) + (if started then [(CloseReq(code), io)] else [])
      ensures level.errCode == old(level.errCode)
    {
      hide AE.Close, RunFromStart, Inv, Raised;
      hide ReceiveQueue.Valid, SendQueue.Valid, ReceiveQueue.Held, ReceiveQueue.Contents, SendQueue.Contents, BuffersIn;
      OpenMeansBoth();
      ghost var e := level.State();
      level.Close(code, io.bye);
      HeldElsewhere(old(level.pool.live), old(level.Own()), level.pool.live, level.Own(), rx.Held());
      ClosedZeroes(e, code, io.bye);
      if rx.acc.available {
        CloseQueues();
      }
      if started {
        Record(CloseReq(code), io);
      }
    }

    /** A frame arrives; if it is taken, its buffer now belongs to this lane. */
    method PostFrame(msg: Message) returns (ok: bool)
      requires Valid() && msg.buf.id in Rest()
      modifies rx.acc, rx.items
      ensures Valid()
      ensures ok == (old(level.attached) && |old(Received())| < rx.acc.capacity)
      ensures Owned() == old(Owned()) + (if ok then {msg.buf.id} else {})
      ensures Received() == old(Received()) + (if ok then [msg] else []) && Waiting() == old(Waiting())
    {
      ok := rx.Post(msg);
    }

    /** An alarm is put into the send queue. */
    method PostAlarm(alarm: Alarm) returns (ok: bool)
      requires Valid()
      modifies this`posted, tx.acc, tx.items
      ensures Valid() && Rest() == old(Rest())
      ensures ok == (old(level.attached) && |old(Waiting())| < tx.acc.capacity)
      ensures posted == old(posted) + (if ok then [alarm] else [])
      ensures Waiting() == old(Waiting()) + (if ok then [alarm] else []) && Received() == old(Received())
    {
      hide RunFromStart, Inv;
      hide ReceiveQueue.Valid, SendQueue.Valid, ReceiveQueue.Held, ReceiveQueue.Contents, SendQueue.Contents, BuffersIn;
      ok := tx.Post(alarm);
      if ok {
        posted := posted + [alarm];
      }
    }
  }

  lemma AttachedIfOpen(e: Endpoint)
    requires Inv(Wire15, e) && e.apmr != ApmrClosed
    ensures e.attached
  {
  }

  lemma ClosedIffDetached(e: Endpoint)
    requires Inv(Wire15, e)
    ensures e.attached == (e.apms != ApmsClosed) == (e.apmr != ApmrClosed)
    ensures !e.attached ==> e.rta.None? && e.alpmr != AlpmrUserAck && e.alpmi == AlpmiStart
  {
  }

  lemma ClosedZeroes(e: Endpoint, code: nat, bye: bool)
    ensures var r := AE.Close(e, code, bye);
            && r.apms == ApmsClosed && r.apmr == ApmrClosed && r.alpmi == AlpmiStart && r.alpmr == AlpmrStart
            && r.rta.None? && ((e.attached ==> e.apms != ApmsClosed) ==> !r.attached)
  {
  }

  lemma OpenStates(e: Endpoint)
    requires Inv(Wire15, e)
    ensures e.attached ==> e.alpmi != AlpmiStart && e.apms != ApmsClosed
  {
  }
}
