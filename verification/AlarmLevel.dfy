/**
 One priority level of an AR (a pf_apmx_t with its pf_alpmx_t), updated in place.  Each method
 does to the state what the function of the same name in `AlarmEndpoint` says, and accounts for
 every frame buffer: apart from the one saved for retransmission, it leaves the set of live
 buffers as it found it.
 */
module AlarmLevel {
  import opened SequenceNumbers
  import AE = AlarmEndpoint
  import opened AlarmEndpoint
  import opened AlarmQueues
  import opened Buffers
  import opened Wrappers

  datatype Past = Past(out: seq<Frame>, requests: seq<Body>, built: seq<Frame>, tx: seq<nat>, confirms: nat,
                       accepted: seq<Body>, acceptedSeq: seq<int>, events: seq<Event>)
  const NoPast := Past([], [], [], [], 0, [], [], [])

  class Level {
    const low: bool
    const retries: nat
    const pool: BufferPool

    var attached: bool
    var apms: ApmsState
    var apmr: ApmrState
    var alpmi: AlpmiState
    var alpmr: AlpmrState
    var sendSeq: int
    var sendSeqO: int
    var expSeq: int
    var expSeqO: int
    var rta: Option<Buffer>
    var resend: nat
    var alarmSeq: nat
    var errCode: nat                  // second error code of the latest abort

    // What the surroundings have seen, and the history the specification speaks about.
    ghost var past: Past

    ghost function State(): Endpoint
      reads this
    {
      Endpoint(low, retries, attached, apms, apmr, alpmi, alpmr, sendSeq, sendSeqO, expSeq, expSeqO,
               if rta.Some? then Some(rta.value.frame) else None, resend, alarmSeq,
               past.out, past.requests, past.built, past.tx, past.confirms,
               past.accepted, past.acceptedSeq, past.events)
    }

    /** The buffer this level owns. */
    ghost function Own(): set<nat>
      reads this
    {
      if rta.Some? then {rta.value.id} else {}
    }

    /** The live buffers this level does not own. */
    ghost function Rest(): set<nat>
      reads this, pool
    {
      pool.live - Own()
    }

    ghost predicate Valid()
      reads this, pool
    {
      pool.Valid() && Own() <= pool.live && CodeFits()
    }

    /** After an abort, `errCode` is the code of its reason. */
    ghost predicate CodeFits()
      reads this
    {
      past.events != [] && past.events[|past.events| - 1].Aborted? ==>
        errCode == ErrCode(past.events[|past.events| - 1].reason)
    }

    /** A level of a zeroed AR. */
    constructor (low: bool, retries: nat, pool: BufferPool)
      requires pool.Valid()
      ensures Valid() && this.low == low && this.retries == retries && this.pool == pool && Own() == {}
      ensures Zeroed() && !attached
    {
      this.low, this.retries, this.pool := low, retries, pool;
      attached, apms, apmr, alpmi, alpmr := false, ApmsClosed, ApmrClosed, AlpmiStart, AlpmrStart;
      sendSeq, sendSeqO, expSeq, expSeqO := 0, 0, 0, 0;
      rta, resend, alarmSeq, errCode := None, 0, 0, 0;
      past := NoPast;
    }

    /** All four state machines rest in their initial states. */
    ghost predicate Zeroed()
      reads this
    {
      apms == ApmsClosed && apmr == ApmrClosed && alpmi == AlpmiStart && alpmr == AlpmrStart
    }

    /** pf_alarm_activate at this level.  The user machines and the transport are opened
        independently of each other; success means that both were closed before. */
    method Activate() returns (ok: bool)
      requires Valid()
      modifies this
      ensures Valid() && rta == old(rta) && errCode == old(errCode)
      ensures ok == old(Zeroed())
      ensures ok ==> State() == Activated(Wire15, low, retries).(rta := old(State()).rta)
      ensures (alpmi, alpmr) ==
              if old(alpmi == AlpmiStart && alpmr == AlpmrStart) then (AlpmiAlarm, AlpmrNotify) else old((alpmi, alpmr))
      ensures (apms, apmr) ==
              if old(apms == ApmsClosed && apmr == ApmrClosed) then (ApmsOpen, ApmrOpen) else old((apms, apmr))
      ensures old(alpmi != AlpmiStart && apms != ApmsClosed) ==> State() == old(State())
    {
      var users := ActivateUsers();
      var transport := ActivateTransport();
      ok := users && transport;
      if ok {
        past := NoPast;
      }
    }

    method ActivateUsers() returns (ok: bool)
      modifies this`alpmi, this`alpmr, this`alarmSeq
      ensures ok == old(alpmi == AlpmiStart && alpmr == AlpmrStart)
      ensures ok ==> alpmi == AlpmiAlarm && alpmr == AlpmrNotify && alarmSeq == 0
      ensures !ok ==> alpmi == old(alpmi) && alpmr == old(alpmr) && alarmSeq == old(alarmSeq)
    {
      ok := alpmi == AlpmiStart && alpmr == AlpmrStart;
      if ok {
        alpmi, alpmr, alarmSeq := AlpmiAlarm, AlpmrNotify, 0;
      }
    }

    method ActivateTransport() returns (ok: bool)
      modifies this`apms, this`apmr, this`attached, this`sendSeq, this`sendSeqO, this`expSeq, this`expSeqO, this`resend
      ensures ok == old(apms == ApmsClosed && apmr == ApmrClosed)
      ensures ok ==> apms == ApmsOpen && apmr == ApmrOpen && attached
      ensures ok ==> sendSeq == expSeq == Start(Wire15) && sendSeqO == expSeqO == BeforeStart(Wire15) && resend == 0
      ensures !ok ==> apms == old(apms) && apmr == old(apmr) && attached == old(attached) && resend == old(resend)
      ensures !ok ==> sendSeq == old(sendSeq) && sendSeqO == old(sendSeqO)
      ensures !ok ==> expSeq == old(expSeq) && expSeqO == old(expSeqO)
    {
      ok := apms == ApmsClosed && apmr == ApmrClosed;
      if ok {
        ResetCounters();
        attached := true;
        apms, apmr := ApmsOpen, ApmrOpen;
      }
    }

    method ResetCounters()
      modifies this`sendSeq, this`sendSeqO, this`expSeq, this`expSeqO, this`resend
      ensures sendSeq == expSeq == Start(Wire15) && sendSeqO == expSeqO == BeforeStart(Wire15) && resend == 0
    {
      sendSeq, sendSeqO := 0xffff, 0xfffe;
      expSeq, expSeqO := 0xffff, 0xfffe;
      resend := 0;
    }

    method Transmit(f: Frame, alloc: bool, send: bool) returns (ok: bool)
      requires Valid()
      modifies this`past, this`rta, pool
      ensures Valid() && Rest() == old(Rest())
      ensures (State(), ok) == AE.Transmit(old(State()), f, alloc, send)
      ensures !f.tack ==> rta == old(rta)
    {
      if !alloc {
        return false;
      }
      var id := pool.Alloc();
      if send {
        past := past.(out := past.out + [f], tx := if f.tack then Counted(past.tx) else past.tx);
      }
      if f.tack && rta.None? {
        rta := Some(Buffer(id, f));
      } else {
        pool.Free(id);
      }
      ok := send;
    }

    method Close(code: nat, bye: bool)
      requires Valid()
      modifies this`alpmi, this`alpmr, this`attached, this`apms, this`apmr, this`past, this`rta, pool
      ensures Valid() && Rest() == old(Rest()) && Own() == {} && alpmr == AlpmrStart
      ensures State() == AE.Close(old(State()), code, bye)
    {
      alpmi := AlpmiStart;
      alpmr := AlpmrStart;
      CloseTransport(code, bye);
    }

    /** pf_alarm_apmx_close at this level: by now the user level is closed. */
    method CloseTransport(code: nat, bye: bool)
      requires Valid() && alpmi == AlpmiStart && alpmr == AlpmrStart
      modifies this`attached, this`apms, this`apmr, this`past, this`rta, pool
      ensures Valid() && Rest() == old(Rest()) && rta == None
      ensures State() == AE.Close(old(State()), code, bye)
    {
      if low && apms != ApmsClosed {
        var _ := Transmit(CloseFrame(Counters(), code), true, bye);
      }
      if apms != ApmsClosed {
        attached := false;
        apms := ApmsClosed;
      }
      ReleaseRta();
      if apmr != ApmrClosed {
        apmr := ApmrClosed;
      }
    }

    /** The state as far as the header of a frame depends on it. */
    function Counters(): Endpoint
      reads this
    {
      Endpoint(low, retries, attached, apms, apmr, alpmi, alpmr, sendSeq, sendSeqO, expSeq, expSeqO,
               None, resend, alarmSeq, [], [], [], [], 0, [], [], [])
    }

    /** Frees the saved frame, if there is one. */
    method ReleaseRta()
      requires Valid()
      modifies this`rta, pool
      ensures Valid() && Rest() == old(Rest()) && rta == None
    {
      if rta.Some? {
        var id := rta.value.id;
        rta := None;
        pool.Free(id);
      }
    }

    method ErrorInd(reason: AbortReason, io: LocalIo)
      requires Valid() && attached
      modifies this, pool
      ensures Valid() && Rest() == old(Rest()) && Own() == {} && errCode == ErrCode(reason) && alpmr == AlpmrStart
      ensures State() == AE.ErrorInd(old(State()), reason, io)
    {
      hide AE.Close;
      past := past.(events := past.events + [Aborted(reason)]);
      errCode := ErrCode(reason);
      Close(errCode, io.bye);
    }

    method AlpmiCnf(positive: bool, io: LocalIo)
      requires Valid() && (!positive ==> attached)
      modifies this, pool
      ensures Valid() && Rest() == old(Rest())
      ensures State() == AE.AlpmiCnf(old(State()), positive, io)
      ensures !positive ==> alpmr == AlpmrStart
    {
      if !positive {
        ErrorInd(AlpmiInvalid, io);
      }
    }

    method AlpmrCnf(positive: bool, ghost index: nat, io: LocalIo)
      requires Valid() && (!positive && alpmr != AlpmrStart ==> attached)
      modifies this, pool
      ensures Valid() && Rest() == old(Rest())
      ensures State() == AE.AlpmrCnf(old(State()), positive, index, io)
      ensures positive ==> attached == old(attached) && apmr == old(apmr)
    {
      match alpmr {
        case AlpmrStart =>
        case AlpmrNotify =>
          if !positive {
            ErrorInd(AlpmrInvalid, io);
          }
        case AlpmrUserAck =>
          if !positive {
            ErrorInd(AlpmrInvalid, io);
          }
        case AlpmrTack =>
          if !positive {
            ErrorInd(AlpmrInvalid, io);
          } else {
            past := past.(events := past.events + [AckCnf(index)]);
            alpmr := AlpmrNotify;
          }
      }
    }

    method ApmsDataInd(f: Frame)
      requires Valid()
      modifies this, pool
      ensures Valid() && Rest() == old(Rest())
      ensures State() == AE.ApmsDataInd(Wire15, old(State()), f)
      ensures attached == old(attached) && apmr == old(apmr)
    {
      if f.pdu == PduAck || f.pdu == PduData {
        if apms == ApmsWtack && f.ackSeq == sendSeq {
          Confirm(f);
        }
      }
    }

    /** The outstanding DATA frame is confirmed: its buffer is freed and both users are told. */
    method Confirm(f: Frame)
      requires Valid() && Confirms(State(), f)
      modifies this, pool
      ensures Valid() && Rest() == old(Rest())
      ensures State() == AE.ApmsDataInd(Wire15, old(State()), f)
      ensures attached == old(attached) && apmr == old(apmr)
    {
      hide AE.AlpmrCnf;
      Advance();
      TellUsers(past.confirms - 1);
      apms := ApmsOpen;
    }

    /** Moves on to the next number and frees the frame kept for retransmission. */
    method Advance()
      requires Valid()
      modifies this`sendSeq, this`sendSeqO, this`rta, this`past, pool
      ensures Valid() && Rest() == old(Rest())
      ensures State() == old(State()).(sendSeqO := old(sendSeq), sendSeq := Next(Wire15, old(sendSeq)), rta := None,
                                       confirms := old(past.confirms) + 1)
    {
      sendSeqO := sendSeq;
      sendSeq := (sendSeq + 1) % 0x8000;
      ReleaseRta();
      past := past.(confirms := past.confirms + 1);
    }

    /** Both user machines hear of a confirmation; ALPMI has nothing to do. */
    method TellUsers(ghost index: nat)
      requires Valid()
      modifies this, pool
      ensures Valid() && Rest() == old(Rest())
      ensures State() == AE.AlpmrCnf(AE.AlpmiCnf(old(State()), true, AllOk), true, index, AllOk)
      ensures attached == old(attached) && apmr == old(apmr)
    {
      hide AE.ErrorInd, AE.AlpmrCnf;
      AlpmiCnf(true, AllOk);
      AlpmrCnf(true, index, AllOk);
    }

    method Request(body: Body, io: LocalIo) returns (ok: bool)
      requires Valid() && attached
      modifies this, pool
      ensures Valid() && Rest() == old(Rest())
      ensures (State(), ok) == AE.Request(old(State()), body, io)
    {
      hide AE.Transmit, AE.ErrorInd;
      if apms != ApmsOpen {
        AlpmiCnf(false, io);
        AlpmrCnf(false, 0, io);
        return false;
      }
      var f := DataFrame(Counters(), body);
      past := past.(requests := past.requests + [body], built := past.built + [f], tx := past.tx + [0]);
      resend := retries;
      ok := Transmit(f, io.alloc, io.send);
      apms := ApmsWtack;
      if !io.sched {
        ok := false;
      }
    }

    method Timeout(io: LocalIo)
      requires Valid() && (apms == ApmsWtack ==> attached)
      modifies this, pool
      ensures Valid() && Rest() == old(Rest())
      ensures State() == AE.Timeout(old(State()), io)
    {
      hide AE.ErrorInd;
      if apms == ApmsWtack {
        if rta.None? {
          // Nothing to send again.
        } else if resend > 0 {
          resend := resend - 1;
          if io.send {
            past := past.(out := past.out + [rta.value.frame], tx := Counted(past.tx));
          }
        } else {
          apms := ApmsOpen;
          ErrorInd(SendNotConfirmed, io);
        }
      } else {
        ReleaseRta();
      }
    }

    method AlpmiDataInd(status: PnioStatus)
      modifies this`alpmi, this`past
      ensures State() == AE.AlpmiDataInd(old(State()), status)
    {
      if alpmi == AlpmiAck {
        alpmi := AlpmiAlarm;
        past := past.(events := past.events + [AlarmCnf(status)]);
      }
    }

    method AlpmrDataInd(arg: AlarmArg, io: LocalIo) returns (ok: bool)
      requires Valid() && (alpmr in {AlpmrUserAck, AlpmrTack} ==> attached)
      modifies this, pool
      ensures Valid() && Rest() == old(Rest())
      ensures (State(), ok) == AE.AlpmrDataInd(old(State()), arg, io)
    {
      hide AE.ErrorInd;
      match alpmr {
        case AlpmrStart =>
          ok := true;
        case AlpmrNotify =>
          alpmr := AlpmrUserAck;
          past := past.(events := past.events + [AlarmInd(arg)]);
          ok := true;
        case AlpmrUserAck =>
          ErrorInd(ProtocolViolation, io);
          ok := false;
        case AlpmrTack =>
          ErrorInd(ProtocolViolation, io);
          ok := false;
      }
    }

    /** A transport acknowledge, or its refusal. */
    method SendControl(pdu: PduType, io: LocalIo) returns (ok: bool)
      requires Valid() && (pdu == PduAck || pdu == PduNack)
      modifies this, pool
      ensures Valid() && Rest() == old(Rest())
      ensures (State(), ok) == AE.Transmit(old(State()), ControlFrame(old(State()), pdu), io.alloc, io.send)
      ensures attached == old(attached) && apmr == old(apmr)
    {
      ok := Transmit(ControlFrame(Counters(), pdu), io.alloc, io.send);
    }

    method Accept(f: Frame, io: LocalIo) returns (ok: bool)
      requires Valid()
      modifies this, pool
      ensures Valid() && Rest() == old(Rest())
      ensures (State(), ok) == AE.Accept(Wire15, old(State()), f, io)
      ensures attached == old(attached) && apmr == old(apmr)
    {
      hide AE.ApmsDataInd;
      ApmsDataInd(f);
      expSeqO := expSeq;
      expSeq := (expSeq + 1) % 0x8000;
      past := past.(accepted := past.accepted + [f.body], acceptedSeq := past.acceptedSeq + [f.sendSeq]);
      ok := SendControl(PduAck, io);
    }

    /** The content of an accepted frame goes to ALPMI or ALPMR. */
    method Indicate(body: Body, io: LocalIo) returns (ok: bool)
      requires Valid() && attached
      modifies this, pool
      ensures Valid() && Rest() == old(Rest())
      ensures (State(), ok) == AE.Indicate(old(State()), body, io)
    {
      hide AE.ErrorInd, AE.AlpmrDataInd;
      match body {
        case AlarmAck(_, status) =>
          AlpmiDataInd(status);
          ok := true;
        case Notification(arg) =>
          apmr := ApmrWcnf;
          ok := AlpmrDataInd(arg, io);
          if ok {
            apmr := ApmrOpen;
          }
        case _ =>
          apmr := ApmrWcnf;
          ok := false;
      }
    }

    method ApmrDataInd(f: Frame, io: LocalIo) returns (ok: bool)
      requires Valid() && attached
      modifies this, pool
      ensures Valid() && Rest() == old(Rest())
      ensures (State(), ok) == AE.ApmrDataInd(Wire15, old(State()), f, io)
    {
      hide AE.ErrorInd, AE.Accept, AE.Indicate, AE.ApmsDataInd, AE.Transmit;
      match apmr {
        case ApmrClosed =>
          ok := true;
        case ApmrWcnf =>
          ok := false;
        case ApmrOpen =>
          if !f.tack {
            ok := true;
          } else if f.sendSeq == expSeq {
            if f.body.AlarmAck? || f.body.Notification? || f.body.MalformedNotification? {
              ok := Accept(f, io);
              if ok {
                ok := Indicate(f.body, io);
              }
            } else {
              ErrorInd(AlarmIndError, io);
              ok := false;
            }
          } else if f.sendSeq == expSeqO {
            ApmsDataInd(f);
            var _ := SendControl(PduAck, io);
            ok := true;
          } else {
            past := past.(events := past.events + [SequenceError]);
            var _ := SendControl(PduNack, io);
            ok := true;
          }
      }
    }

    method OnFrame(f: Frame, io: LocalIo) returns (ok: bool)
      requires Valid() && attached
      modifies this, pool
      ensures Valid() && Rest() == old(Rest())
      ensures (State(), ok) == AE.OnFrame(Wire15, old(State()), f, io)
    {
      hide AE.ErrorInd, AE.ApmrDataInd, AE.ApmsDataInd;
      ok := true;
      if f.version == 1 {
        match f.pdu {
          case PduAck =>
            if f.varLenOk {
              ApmsDataInd(f);
            }
          case PduNack =>
          case PduData =>
            ok := ApmrDataInd(f, io);
          case PduErr =>
            if f.varLenOk {
              if apmr == ApmrOpen {
                ErrorInd(if f.body.ErrStatus? then PeerError(f.body.errCls, f.body.errCode) else PeerError(0, 0), io);
              } else {
                ErrorInd(ApmrInvalidState, io);
              }
            }
          case PduOther =>
        }
      }
    }

    method UserAck(arg: AlarmArg, status: PnioStatus, io: LocalIo) returns (ok: bool)
      requires Valid() && (alpmr == AlpmrUserAck ==> attached)
      modifies this, pool
      ensures Valid() && Rest() == old(Rest())
      ensures (State(), ok) == AE.UserAck(old(State()), arg, status, io)
    {
      hide AE.Request;
      if alpmr != AlpmrUserAck {
        return false;
      }
      alarmSeq := (alarmSeq + 1) % ALARM_SEQUENCE_MODULUS;
      past := past.(events := past.events + [AckTaken(|past.requests|)]);
      ok := Request(AlarmAck(arg, status), io);
      alpmr := AlpmrTack;
    }

    method SendAlarm(alarm: Alarm, io: LocalIo) returns (ok: bool)
      requires Valid() && attached && alpmi == AlpmiAlarm
      modifies this, pool
      ensures Valid() && Rest() == old(Rest())
      ensures (State(), ok) == AE.SendAlarm(old(State()), alarm, io)
    {
      hide AE.Request;
      var arg := AlarmArg(alarm, alarmSeq);
      alarmSeq := (alarmSeq + 1) % ALARM_SEQUENCE_MODULUS;
      ok := Request(Notification(arg), io);
      if ok {
        alpmi := AlpmiAck;
      }
    }
  }
}
