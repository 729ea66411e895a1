/**
 One end of the alarm protocol at one priority level: the transport pair APMS/APMR
 (stop-and-wait with piggybacked acks) under the user-level pair ALPMI/ALPMR.  The
 functions below say what each operation of the endpoint does to its state; class
 `AlarmLevel.Level` performs them in place.

 Every function takes the outcome of the local calls it makes (`LocalIo`), because
 the protocol moves on in its own way when one of them fails.
 */
module AlarmEndpoint {
  import opened SequenceNumbers
  import opened Wrappers

  datatype ApmsState = ApmsClosed | ApmsOpen | ApmsWtack
  datatype ApmrState = ApmrClosed | ApmrOpen | ApmrWcnf
  datatype AlpmiState = AlpmiStart | AlpmiAlarm | AlpmiAck
  datatype AlpmrState = AlpmrStart | AlpmrNotify | AlpmrUserAck | AlpmrTack

  const ALARM_SEQUENCE_MODULUS: nat := 0x0800

  /** What a user puts into an alarm. */
  datatype Alarm = Alarm(alarmType: nat, api: nat, slot: nat, subslot: nat, payload: seq<nat>)
  /** What the peer's user is told about it. */
  datatype AlarmArg = AlarmArg(alarm: Alarm, sequenceNumber: nat)
  datatype PnioStatus = PnioStatus(code: nat, decode: nat, code1: nat, code2: nat)

  datatype PduType = PduData | PduNack | PduAck | PduErr | PduOther

  /** The variable part of an alarm frame, as far as the receiver tells frames apart. */
  datatype Body =
    | Notification(arg: AlarmArg)
    | AlarmAck(ackArg: AlarmArg, status: PnioStatus)
    | MalformedNotification
    | OtherBlock
    | ErrStatus(errCls: nat, errCode: nat)
    | Empty

  /** `varLenOk`: the length field is 0 for ACK and NACK, 4 for ERR. */
  datatype Frame = Frame(version: nat, pdu: PduType, tack: bool, sendSeq: int, ackSeq: int,
                         varLenOk: bool, body: Body)

  datatype AbortReason =
    | AlpmiInvalid
    | AlpmrInvalid
    | SendNotConfirmed
    | ProtocolViolation
    | AlarmIndError
    | ApmrInvalidState
    | PeerError(cls: nat, code: nat)

  /** What the endpoint tells its surroundings. */
  datatype Event =
    | AlarmInd(arg: AlarmArg)        // an alarm reaches the user
    | AckTaken(index: nat)           // the user's ack becomes DATA frame `index`
    | AckCnf(index: nat)             // DATA frame `index`, a user ack, is confirmed
    | AlarmCnf(status: PnioStatus)   // the peer's user has acked our alarm
    | SequenceError                  // log book entry that goes with a NACK
    | Aborted(reason: AbortReason)

  /** Do buffer allocation, sending, timer start and sending of the close alarm succeed? */
  datatype LocalIo = LocalIo(alloc: bool, send: bool, sched: bool, bye: bool)
  const AllOk := LocalIo(true, true, true, true)

  datatype Endpoint = Endpoint(
    low: bool,                   // the low priority level, which carries the close alarm
    retries: nat,
    attached: bool,              // p_ar is set
    apms: ApmsState, apmr: ApmrState, alpmi: AlpmiState, alpmr: AlpmrState,
    sendSeq: int, sendSeqO: int, expSeq: int, expSeqO: int,
    rta: Option<Frame>,          // the frame saved for retransmission
    resend: nat,
    alarmSeq: nat,
    out: seq<Frame>,             // frames handed to Ethernet, oldest first
    // History
    requests: seq<Body>,         // DATA bodies that entered stop-and-wait
    built: seq<Frame>,           // the frame built for each of them
    tx: seq<nat>,                // how often it was handed to Ethernet
    confirms: nat,               // how many of them were confirmed by a TACK
    accepted: seq<Body>,         // DATA bodies accepted by APMR
    acceptedSeq: seq<int>,       // and the numbers they carried
    events: seq<Event>)

  /** pf_alarm_activate on a zeroed AR. */
  function Activated(m: Numbering, low: bool, retries: nat): Endpoint {
    Endpoint(low, retries, true, ApmsOpen, ApmrOpen, AlpmiAlarm, AlpmrNotify,
             Start(m), BeforeStart(m), Start(m), BeforeStart(m),
             None, 0, 0, [], [], [], [], 0, [], [], [])
  }

  function ControlFrame(e: Endpoint, pdu: PduType): Frame {
    Frame(1, pdu, false, e.sendSeqO, e.expSeqO, true, Empty)
  }

  function DataFrame(e: Endpoint, body: Body): Frame {
    Frame(1, PduData, true, e.sendSeq, e.expSeqO, true, body)
  }

  /** RTA error class "protocol", with the code the connection is closed for. */
  function CloseFrame(e: Endpoint, code: nat): Frame {
    Frame(1, PduErr, false, e.sendSeq, e.expSeqO, true, ErrStatus(0xfd, code))
  }

  /** The second error code that goes with an abort. */
  function ErrCode(reason: AbortReason): nat {
    match reason
    case AlpmiInvalid => 0x02
    case AlpmrInvalid => 0x02
    case SendNotConfirmed => 0x08
    case ProtocolViolation => 0x12
    case AlarmIndError => 0x0b
    case ApmrInvalidState => 0x00
    case PeerError(_, code) => code
  }

  /** Counts one more transmission of the latest request. */
  function Counted(tx: seq<nat>): seq<nat> {
    if tx == [] then tx else tx[|tx| - 1 := tx[|tx| - 1] + 1]
  }

  /** pf_alarm_apms_a_data_req: build, send, and save or free. */
  function Transmit(e: Endpoint, f: Frame, alloc: bool, send: bool): (r: (Endpoint, bool)) {
    if !alloc then (e, false)
    else
      var e1 := if send then e.(out := e.out + [f], tx := if f.tack then Counted(e.tx) else e.tx) else e;
      (if f.tack && e1.rta.None? then e1.(rta := Some(f)) else e1, send)
  }

  /** pf_alarm_alpmx_close and pf_alarm_apmx_close at this level. */
  function Close(e: Endpoint, code: nat, bye: bool): Endpoint {
    var e1 := e.(alpmi := AlpmiStart, alpmr := AlpmrStart);
    var e2 := if e.low && e.apms != ApmsClosed then Transmit(e1, CloseFrame(e1, code), true, bye).0 else e1;
    e2.(attached := e.attached && e.apms == ApmsClosed, apms := ApmsClosed, rta := None, apmr := ApmrClosed)
  }

  /** pf_alarm_error_ind, which ends in the closing of the connection. */
  function ErrorInd(e: Endpoint, reason: AbortReason, io: LocalIo): Endpoint
    requires e.attached
  {
    Close(e.(events := e.events + [Aborted(reason)]), ErrCode(reason), io.bye)
  }

  /** pf_alarm_alpmi_apms_a_data_cnf */
  function AlpmiCnf(e: Endpoint, positive: bool, io: LocalIo): Endpoint
    requires !positive ==> e.attached
  {
    if positive then e else ErrorInd(e, AlpmiInvalid, io)
  }

  /** pf_alarm_alpmr_apms_a_data_cnf; `index` is the DATA frame being confirmed. */
  function AlpmrCnf(e: Endpoint, positive: bool, index: nat, io: LocalIo): Endpoint
    requires !positive && e.alpmr != AlpmrStart ==> e.attached
  {
    match e.alpmr
    case AlpmrStart => e
    case AlpmrNotify => if positive then e else ErrorInd(e, AlpmrInvalid, io)
    case AlpmrUserAck => if positive then e else ErrorInd(e, AlpmrInvalid, io)
    case AlpmrTack =>
      if positive then e.(events := e.events + [AckCnf(index)], alpmr := AlpmrNotify)
      else ErrorInd(e, AlpmrInvalid, io)
  }

  /** Does the frame's ack number confirm the outstanding DATA frame? */
  predicate Confirms(e: Endpoint, f: Frame) {
    f.pdu in {PduAck, PduData} && e.apms == ApmsWtack && f.ackSeq == e.sendSeq
  }

  /** pf_alarm_apms_a_data_ind */
  function ApmsDataInd(m: Numbering, e: Endpoint, f: Frame): Endpoint {
    if Confirms(e, f) then
      var e1 := e.(sendSeqO := e.sendSeq, sendSeq := Next(m, e.sendSeq), rta := None,
                   confirms := e.confirms + 1);
      var e2 := AlpmiCnf(e1, true, AllOk);
      var e3 := AlpmrCnf(e2, true, e.confirms, AllOk);
      e3.(apms := ApmsOpen)
    else e
  }

  /** pf_alarm_apms_apms_a_data_req */
  function Request(e: Endpoint, body: Body, io: LocalIo): (r: (Endpoint, bool))
    requires e.attached
  {
    if e.apms != ApmsOpen then
      (AlpmrCnf(AlpmiCnf(e, false, io), false, 0, io), false)
    else
      var e1 := e.(resend := e.retries, requests := e.requests + [body],
                   built := e.built + [DataFrame(e, body)], tx := e.tx + [0]);
      var (e2, sent) := Transmit(e1, DataFrame(e, body), io.alloc, io.send);
      (e2.(apms := ApmsWtack), sent && io.sched)
  }

  /** pf_alarm_apms_timeout: the resend timer fires. */
  function Timeout(e: Endpoint, io: LocalIo): Endpoint
    requires e.apms == ApmsWtack ==> e.attached
  {
    if e.apms == ApmsWtack then
      if e.rta.None? then e
      else if e.resend > 0 then
        var e1 := e.(resend := e.resend - 1);
        if io.send then e1.(out := e1.out + [e.rta.value], tx := Counted(e1.tx)) else e1
      else ErrorInd(e.(apms := ApmsOpen), SendNotConfirmed, io)
    else e.(rta := None)
  }

  /** pf_alarm_alpmi_apmr_a_data_ind: an alarm ack arrives. */
  function AlpmiDataInd(e: Endpoint, status: PnioStatus): Endpoint {
    if e.alpmi == AlpmiAck then e.(alpmi := AlpmiAlarm, events := e.events + [AlarmCnf(status)]) else e
  }

  /** pf_alarm_alpmr_apmr_a_data_ind: an alarm notification arrives. */
  function AlpmrDataInd(e: Endpoint, arg: AlarmArg, io: LocalIo): (r: (Endpoint, bool))
    requires e.alpmr in {AlpmrUserAck, AlpmrTack} ==> e.attached
  {
    match e.alpmr
    case AlpmrStart => (e, true)
    case AlpmrNotify => (e.(alpmr := AlpmrUserAck, events := e.events + [AlarmInd(arg)]), true)
    case _ => (ErrorInd(e, ProtocolViolation, io), false)
  }

  /** The part both block types of an expected DATA frame share: ack handling, counting, TACK. */
  function Accept(m: Numbering, e: Endpoint, f: Frame, io: LocalIo): (r: (Endpoint, bool)) {
    var e1 := ApmsDataInd(m, e, f);
    var e2 := e1.(expSeqO := e1.expSeq, expSeq := Next(m, e1.expSeq),
                  accepted := e1.accepted + [f.body], acceptedSeq := e1.acceptedSeq + [f.sendSeq]);
    Transmit(e2, ControlFrame(e2, PduAck), io.alloc, io.send)
  }

  /** What follows the TACK of an accepted frame: the content reaches ALPMI or ALPMR. */
  function Indicate(e: Endpoint, body: Body, io: LocalIo): (r: (Endpoint, bool))
    requires e.attached
  {
    match body
    case AlarmAck(_, status) => (AlpmiDataInd(e, status), true)
    case Notification(arg) =>
      var (e1, ok) := AlpmrDataInd(e.(apmr := ApmrWcnf), arg, io);
      (if ok then e1.(apmr := ApmrOpen) else e1, ok)
    case _ => (e.(apmr := ApmrWcnf), false)
  }

  /** pf_alarm_apmr_a_data_ind: a DATA frame arrives. */
  function ApmrDataInd(m: Numbering, e: Endpoint, f: Frame, io: LocalIo): (r: (Endpoint, bool))
    requires e.attached
  {
    match e.apmr
    case ApmrClosed => (e, true)
    case ApmrWcnf => (e, false)
    case ApmrOpen =>
      if !f.tack then (e, true)
      else if f.sendSeq == e.expSeq then
        if f.body.AlarmAck? || f.body.Notification? || f.body.MalformedNotification? then
          var (e1, ok) := Accept(m, e, f, io);
          if ok then Indicate(e1, f.body, io) else (e1, false)
        else (ErrorInd(e, AlarmIndError, io), false)
      else if f.sendSeq == e.expSeqO then
        var e1 := ApmsDataInd(m, e, f);
        (Transmit(e1, ControlFrame(e1, PduAck), io.alloc, io.send).0, true)
      else
        var e1 := e.(events := e.events + [SequenceError]);
        (Transmit(e1, ControlFrame(e1, PduNack), io.alloc, io.send).0, true)
  }

  /** The body of pf_alarm_apmr_periodic for one fetched frame. */
  function OnFrame(m: Numbering, e: Endpoint, f: Frame, io: LocalIo): (r: (Endpoint, bool))
    requires e.attached
  {
    if f.version != 1 then (e, true)
    else
      match f.pdu
      case PduAck => (if f.varLenOk then ApmsDataInd(m, e, f) else e, true)
      case PduNack => (e, true)
      case PduData => ApmrDataInd(m, e, f, io)
      case PduErr =>
        if !f.varLenOk then (e, true)
        else if e.apmr == ApmrOpen then
          var reason := if f.body.ErrStatus? then PeerError(f.body.errCls, f.body.errCode) else PeerError(0, 0);
          (ErrorInd(e, reason, io), true)
        else (ErrorInd(e, ApmrInvalidState, io), true)
      case PduOther => (e, true)
  }

  /** pf_alarm_alpmr_alarm_ack: the user acks an alarm. */
  function UserAck(e: Endpoint, arg: AlarmArg, status: PnioStatus, io: LocalIo): (r: (Endpoint, bool))
    requires e.alpmr == AlpmrUserAck ==> e.attached
  {
    if e.alpmr != AlpmrUserAck then (e, false)
    else
      var e1 := e.(alarmSeq := (e.alarmSeq + 1) % ALARM_SEQUENCE_MODULUS,
                   events := e.events + [AckTaken(|e.requests|)]);
      var (e2, ok) := Request(e1, AlarmAck(arg, status), io);
      (e2.(alpmr := AlpmrTack), ok)
  }

  /** pf_alarm_send_internal: hand one queued alarm to APMS. */
  function SendAlarm(e: Endpoint, alarm: Alarm, io: LocalIo): (r: (Endpoint, bool))
    requires e.attached && e.alpmi == AlpmiAlarm
  {
    var e1 := e.(alarmSeq := (e.alarmSeq + 1) % ALARM_SEQUENCE_MODULUS);
    var (e2, ok) := Request(e1, Notification(AlarmArg(alarm, e.alarmSeq)), io);
    (if ok then e2.(alpmi := AlpmiAck) else e2, ok)
  }
}
