/**
 The consumer of one connection, updated in place.  Each method does to the state what
 the function of `CpmConsumer` says, and accounts for the frame buffers.
 */
module CpmInstance {
  import opened CycleCounter
  import C = CpmConsumer
  import opened CpmConsumer
  import opened Buffers
  import opened Wrappers

  /** Where a sub-slot's data and provider status lie in the cyclic data. */
  datatype Descriptor = Descriptor(data: Slice, iops: Slice)

  /** The part of a buffer a slice names. */
  method CopyOut(bytes: seq<nat>, pos: nat, s: Slice) returns (r: seq<nat>)
    requires pos + s.offset + s.length <= |bytes|
    ensures Copied(bytes, pos, s) == Some(r)
  {
    r := [];
    if s.length > 0 {
      var from := pos + s.offset;
      for i := 0 to s.length
        invariant r == bytes[from..from + i]
      {
        r := r + [bytes[from + i]];
      }
    }
    assert r == bytes[pos + s.offset..pos + s.offset + s.length];
  }

  /** History. */
  datatype Past = Past(events: seq<Event>, expiries: nat, accepted: seq<Frame>)

  class Cpm {
    const pool: BufferPool

    var state: CpmState
    var recvCnt: nat
    var freeCnt: nat
    var errCnt: nat
    var source: seq<nat>
    var holdFactor: nat
    var app: Option<Frame>
    var cpm: Option<Frame>
    var newBuf: bool
    var framePos: nat
    var bufferPos: nat
    var bufferLength: nat
    var dataStatus: nat
    var dht: nat
    var cycle: int
    var running: bool

    ghost var past: Past

    ghost function State(): Consumer
      reads this
    {
      Consumer(state, recvCnt, freeCnt, errCnt, source, holdFactor, app, cpm, newBuf, framePos, bufferPos,
               bufferLength, dataStatus, dht, cycle, running, past.events, past.expiries, past.accepted)
    }

    /** The buffers this instance holds. */
    ghost function Own(): set<nat>
      reads this
    {
      (if app.Some? then {app.value.id} else {}) + (if cpm.Some? then {cpm.value.id} else {})
    }

    ghost function Rest(): set<nat>
      reads this, pool
    {
      pool.live - Own()
    }

    ghost predicate Valid()
      reads this, pool
    {
      && pool.Valid() && Own() <= pool.live
      && (app.Some? && cpm.Some? ==> app.value.id != cpm.value.id)
    }

    /** Memory set to zero. */
    constructor (pool: BufferPool)
      requires pool.Valid()
      ensures Valid() && this.pool == pool && Own() == {} && State() == Zeroed
    {
      this.pool := pool;
      state, recvCnt, freeCnt, errCnt, source, holdFactor := WaitStart, 0, 0, 0, [], 0;
      app, cpm, newBuf, framePos, bufferPos, bufferLength := None, None, false, 0, 0, 0;
      dataStatus, dht, cycle, running := 0, 0, 0, false;
      past := Past([], 0, []);
    }

    /** pf_cpm_activate_req: refused unless the instance waits for its start, and without effect on
        the state if the control interval could not be started. */
    method Activate(p: Params, started: bool) returns (ok: bool)
      requires Valid()
      modifies this`state, this`holdFactor, this`cycle, this`dht, this`past, this`recvCnt, this`source
      modifies this`bufferPos, this`dataStatus, this`bufferLength, this`running
      ensures Valid() && Rest() == old(Rest()) && ok == (old(state) == WaitStart && started)
      ensures State() == C.Activate(old(State()), p, started)
    {
      ok := false;
      if state == WaitStart {
        Begin(p);
        if started {
          running := true;
          state := FirstRun;
          ok := true;
        }
      }
    }

    /** What an activation sets up before the control interval is started. */
    method Begin(p: Params)
      requires state == WaitStart
      modifies this`holdFactor, this`cycle, this`dht, this`past, this`recvCnt, this`source
      modifies this`bufferPos, this`dataStatus, this`bufferLength
      ensures State() == C.Activate(old(State()), p, false)
    {
      Configure(p);
      Restart();
    }

    method Restart()
      modifies this`cycle, this`dht, this`past, this`recvCnt, this`dataStatus
      ensures cycle == -1 && dht == 0 && recvCnt == 0 && dataStatus == 0 && past == old(past).(expiries := 0)
    {
      cycle, dht, recvCnt, dataStatus := -1, 0, 0, 0;
      past := past.(expiries := 0);
    }

    /** Takes over what the connection has agreed on. */
    method Configure(p: Params)
      modifies this`holdFactor, this`source, this`bufferPos, this`bufferLength
      ensures holdFactor == p.holdFactor && source == p.source && bufferPos == 16
      ensures bufferLength == bufferPos + p.cSduLength + 4
    {
      holdFactor, source := p.holdFactor, p.source;
      bufferPos := 2 * 6 + 2 + 2;
      bufferLength := bufferPos + p.cSduLength + 2 + 1 + 1;
    }

    /** pf_cpm_put_buf: the frame becomes the newest, and its place's former buffer is handed back. */
    method PutBuf(f: Frame) returns (former: Option<Frame>)
      modifies this`cpm, this`newBuf, this`past
      ensures State() == Put(old(State()), f) && former == old(cpm)
    {
      former := cpm;
      cpm := Some(f);
      newBuf := true;
      past := past.(accepted := past.accepted + [f]);
    }

    /** pf_cpm_get_buf: the newest buffer comes to the application's side. */
    method GetBuf() returns (isNew: bool)
      requires Valid()
      modifies this`app, this`cpm, this`newBuf
      ensures Valid() && Rest() == old(Rest()) && isNew == old(newBuf)
      ensures State() == C.GetBuf(old(State()))
    {
      isNew := newBuf;
      if newBuf {
        var p := app;
        app := cpm;
        cpm := p;
        newBuf := false;
      }
    }

    /** pf_cpm_c_data_ind: the frame is always handled, and its buffer taken over. */
    method DataInd(f: Frame)
      requires Valid() && Receivable(f) && f.id in Rest()
      modifies this, pool
      ensures Valid() && Rest() == old(Rest()) - {f.id}
      ensures State() == C.DataInd(old(State()), f)
    {
      hide Accepts, Taken, C.DataInd;
      DataIndCases(State(), f);
      CountDoesNotMatter(State(), f);
      recvCnt := recvCnt + 1;
      var left := Some(f);
      if state == WaitStart {
        errCnt := errCnt + 1;
      } else {
        left := Handle(f);
      }
      Release(left);
    }

    /** A frame in an active state; what is handed back is to be freed. */
    method Handle(f: Frame) returns (left: Option<Frame>)
      requires Receivable(f) && state != WaitStart
      modifies this`state, this`cpm, this`newBuf, this`past, this`framePos, this`bufferPos
      modifies this`dht, this`cycle, this`dataStatus
      ensures old(Accepts(State(), f)) ==>
                left == old(cpm) && cpm == Some(f) && State() == Taken(Put(old(State()), f), f)
      ensures !old(Accepts(State(), f)) ==> left == Some(f) && State() == old(State())
    {
      hide DataValid, Taken, Reloaded;
      left := Some(f);
      var dataValid, dhtReload, updateData := Examine(f);
      if dataValid && dhtReload {
        ReloadIsUpdate(State(), f);
        left := Accept(f, updateData);
      }
    }

    /** What the frame's structure, counter and status say. */
    method Examine(f: Frame) returns (dataValid: bool, dhtReload: bool, updateData: bool)
      requires Receivable(f)
      ensures dataValid == DataValid(f) && dhtReload == DhtReload(State(), f) && updateData == UpdateData(State(), f)
    {
      var pos := |f.bytes| - 4;
      var now := f.bytes[pos] * 0x100 + f.bytes[pos + 1];
      var status := f.bytes[pos + 2];
      var transfer := f.bytes[pos + 3];
      dataValid := status / 4 % 2 != 0;
      var backup, primary := status % 2 == 0, status % 2 != 0;
      var len := |f.bytes| - f.framePos + (2 * 6 + 2);
      var frameStructure := transfer == 0 && f.bytes[6..12] == source && len == bufferLength;
      var isFresh := CheckCycle(cycle, now);
      dhtReload := frameStructure && isFresh && (dataValid || backup);
      updateData := frameStructure && isFresh && dataValid && (primary || backup);
    }

    /** Branches 20 and 21 of the state table. */
    method Accept(f: Frame, updateData: bool) returns (left: Option<Frame>)
      requires Receivable(f)
      modifies this`state, this`cpm, this`newBuf, this`past, this`framePos, this`bufferPos
      modifies this`dht, this`cycle, this`dataStatus
      ensures updateData ==> left == old(cpm) && cpm == Some(f)
      ensures updateData ==> State() == Taken(Put(old(State()), f), f)
      ensures !updateData ==> left == Some(f) && State() == Reloaded(old(State()), f)
    {
      hide DataStatus, Cycle;
      if state == FirstRun {
        past := past.(events := past.events + [StateInd(true)]);
      }
      left := Some(f);
      if updateData {
        left := Replace(f);
      } else {
        past := past.(events := past.events + [NewData(false)]);
      }
      Refresh(Cycle(f), DataStatus(f));
    }

    /** The frame becomes the newest, and its position the one to read at. */
    method Replace(f: Frame) returns (former: Option<Frame>)
      modifies this`cpm, this`newBuf, this`past, this`framePos, this`bufferPos
      ensures former == old(cpm) && cpm == Some(f)
      ensures State() == Put(old(State()), f).(framePos := f.framePos, bufferPos := f.framePos + 2,
                                               events := old(past.events) + [NewData(true)])
    {
      former := PutBuf(f);
      framePos := f.framePos;
      bufferPos := framePos + 2;
      past := past.(events := past.events + [NewData(true)]);
    }

    method Refresh(now: nat, status: nat)
      modifies this`dht, this`cycle, this`dataStatus, this`state, this`past
      ensures dht == 0 && cycle == now && dataStatus == status && state == Running
      ensures past == old(past).(expiries := 0, events := old(past.events) +
                (if old(dataStatus) != status then [StatusChanged(old(dataStatus), status)] else []))
    {
      dht := 0;
      past := past.(expiries := 0);
      cycle := now;
      if dataStatus != status {
        past := past.(events := past.events + [StatusChanged(dataStatus, status)]);
      }
      dataStatus := status;
      state := Running;
    }

    /** Frees what reception has left over. */
    method Release(left: Option<Frame>)
      requires pool.Valid() && (left.Some? ==> left.value.id in pool.live)
      modifies this`freeCnt, pool
      ensures pool.Valid() && pool.live == old(pool.live) - (if left.Some? then {left.value.id} else {})
      ensures freeCnt == old(freeCnt) + BufferCount(left)
    {
      if left.Some? {
        freeCnt := freeCnt + 1;
        pool.Free(left.value.id);
      }
    }

    /** pf_cpm_control_interval_expired */
    method Expired(restarted: bool)
      requires Valid()
      modifies this`dht, this`running, this`state, this`past
      ensures Valid() && Rest() == old(Rest()) && State() == C.Expired(old(State()), restarted)
    {
      if running {
        Tick();
        if running && !restarted {
          past := past.(events := past.events + [TimerError]);
        }
      }
    }

    /** The watchdog counts, or stops the consumer. */
    method Tick()
      modifies this`dht, this`running, this`state, this`past
      ensures State() == Ticked(old(State()))
    {
      match state {
        case WaitStart =>
        case FirstRun =>
        case Running =>
          past := past.(expiries := past.expiries + 1);
          if dht >= holdFactor {
            dht := 0;
            running := false;
            past := past.(events := past.events + [StateInd(false)]);
            state := WaitStart;
          } else {
            dht := dht + 1;
          }
      }
    }

    /** pf_cpm_get_data_and_iops, with room for `dataRoom` and `iopsRoom` bytes. */
    method GetDataAndIops(d: Descriptor, dataRoom: nat, iopsRoom: nat)
      returns (ok: bool, isNew: bool, data: seq<nat>, iops: seq<nat>)
      requires Valid() && Inv(State())
      requires d.data.offset + d.data.length <= bufferLength - 20 && d.iops.offset + d.iops.length <= bufferLength - 20
      modifies this`app, this`cpm, this`newBuf
      ensures Valid() && Rest() == old(Rest()) && Inv(State()) && past == old(past)
      ensures ok == (old(state) != WaitStart && d.data.length <= dataRoom && d.iops.length <= iopsRoom
                     && past.accepted != [])
      ensures ok ==>
                var f := past.accepted[|past.accepted| - 1];
                && Receivable(f) && f.framePos + 6 <= |f.bytes| && |CSdu(f)| == bufferLength - 20
                && data == CSdu(f)[d.data.offset..d.data.offset + d.data.length]
                && iops == CSdu(f)[d.iops.offset..d.iops.offset + d.iops.length]
      ensures isNew == (ok && old(newBuf)) && (ok ==> !newBuf) && (!ok ==> data == [] && iops == [])
      ensures State() == if old(state) != WaitStart && d.data.length <= dataRoom && d.iops.length <= iopsRoom
                         then C.GetBuf(old(State())) else old(State())
    {
      ok, isNew, data, iops := false, false, [], [];
      if state != WaitStart && d.data.length <= dataRoom && d.iops.length <= iopsRoom {
        if past.accepted != [] {
          ReadsItsSlice(State(), d.data);
          ReadsItsSlice(State(), d.iops);
        }
        StepKeepsInv(State(), Get);
        hide Accounted, Watched, Positioned, NeverReloaded, CSdu;
        isNew := GetBuf();
        if app.Some? {
          data := CopyOut(app.value.bytes, bufferPos, d.data);
          iops := CopyOut(app.value.bytes, bufferPos, d.iops);
          ok := true;
        } else {
          isNew := false;
        }
      }
    }

    /** pf_cpm_close_req: both buffers are freed.  The pointers stay, so the instance is not to be
        used again. */
    method Close()
      requires Valid()
      modifies this`state, this`running, pool
      ensures pool.Valid() && pool.live == old(Rest()) && state == WaitStart && !running
    {
      state := WaitStart;
      running := false;
      if cpm.Some? {
        pool.Free(cpm.value.id);
      }
      if app.Some? {
        pool.Free(app.value.id);
      }
    }
  }
}
