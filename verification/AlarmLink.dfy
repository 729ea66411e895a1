/**
 Two endpoints of one priority level joined by two FIFO channels that lose and duplicate
 frames.  Both ends run the same code and both may originate alarms.
 */
module AlarmLink {
  import opened SequenceNumbers
  import opened AlarmEndpoint
  import opened AlarmEndpointRuns
  import opened Wrappers

  datatype Side = X | Y

  datatype Link = Link(x: Endpoint, y: Endpoint, xy: seq<Frame>, yx: seq<Frame>)

  datatype Action =
    | Local(side: Side, input: Input)        // timer, user ack, alarm or closing at one end
    | Arrive(side: Side)                     // the oldest frame in transit reaches this end
    | Lose(side: Side, index: nat)           // a frame on its way to this end is lost
    | Duplicate(side: Side, index: nat)      // or comes twice

  function Flip(l: Link): Link {
    Link(l.y, l.x, l.yx, l.xy)
  }

  predicate EndsInv(m: Numbering, l: Link) {
    Inv(m, l.x) && Inv(m, l.y)
  }

  lemma ClearedInv(m: Numbering, e: Endpoint)
    requires Inv(m, e)
    ensures Inv(m, e.(out := []))
  {
  }

  /** `x` takes an input and what it sends enters the channel to `y`. */
  function AtX(m: Numbering, l: Link, input: Input): (r: Link)
    requires EndsInv(m, l)
    ensures EndsInv(m, r)
  {
    StepKeepsInv(m, l.x, input, AllOk);
    var x := Step(m, l.x, input, AllOk);
    ClearedInv(m, x);
    l.(x := x.(out := []), xy := l.xy + x.out)
  }

  function Without(ch: seq<Frame>, i: nat): seq<Frame> {
    if i < |ch| then ch[..i] + ch[i + 1..] else ch
  }

  function Twice(ch: seq<Frame>, i: nat): seq<Frame> {
    if i < |ch| then ch[..i + 1] + ch[i..] else ch
  }

  /** One action.  Frames only reach an end by arriving. */
  function ActX(m: Numbering, l: Link, a: Action): (r: Link)
    requires EndsInv(m, l)
    ensures EndsInv(m, r)
  {
    match a
    case Local(_, input) => if input.Deliver? then l else AtX(m, l, input)
    case Arrive(_) => if l.yx == [] then l else AtX(m, l.(yx := l.yx[1..]), Deliver(l.yx[0]))
    case Lose(_, i) => l.(yx := Without(l.yx, i))
    case Duplicate(_, i) => l.(yx := Twice(l.yx, i))
  }

  function Act(m: Numbering, l: Link, a: Action): (r: Link)
    requires EndsInv(m, l)
    ensures EndsInv(m, r)
  {
    if a.side == X then ActX(m, l, a) else Flip(ActX(m, Flip(l), a))
  }

  function Connected(m: Numbering, low: bool, retriesX: nat, retriesY: nat): (l: Link)
    ensures EndsInv(m, l)
  {
    ActivatedInv(m, low, retriesX);
    ActivatedInv(m, low, retriesY);
    Link(Activated(m, low, retriesX), Activated(m, low, retriesY), [], [])
  }

  function LinkRun(m: Numbering, l: Link, actions: seq<Action>): (r: Link)
    requires EndsInv(m, l)
    ensures EndsInv(m, r)
    decreases |actions|
  {
    if actions == [] then l else LinkRun(m, Act(m, l, actions[0]), actions[1..])
  }

  /** One more action. */
  lemma {:induction false} LinkRunSnoc(m: Numbering, l: Link, actions: seq<Action>, a: Action)
    requires EndsInv(m, l)
    ensures LinkRun(m, l, actions + [a]) == Act(m, LinkRun(m, l, actions), a)
    decreases |actions|
  {
    hide EndsInv, Act;
    if actions == [] {
      assert [a][1..] == [];
    } else {
      assert (actions + [a])[1..] == actions[1..] + [a];
      LinkRunSnoc(m, Act(m, l, actions[0]), actions[1..], a);
    }
  }

  // ---------------------------------------------------------------- exchanging the ends

  function Swap(a: Action): Action {
    var side := if a.side == X then Y else X;
    match a
    case Local(_, input) => Local(side, input)
    case Arrive(_) => Arrive(side)
    case Lose(_, i) => Lose(side, i)
    case Duplicate(_, i) => Duplicate(side, i)
  }

  function Swapped(actions: seq<Action>): (r: seq<Action>)
    ensures |r| == |actions|
  {
    seq(|actions|, i requires 0 <= i < |actions| => Swap(actions[i]))
  }

  lemma ActFlips(m: Numbering, l: Link, a: Action)
    requires EndsInv(m, l)
    ensures EndsInv(m, Flip(l)) && Act(m, Flip(l), Swap(a)) == Flip(Act(m, l, a))
  {
    hide Inv, AtX;
    SideIgnored(m, l, a);
    SideIgnored(m, Flip(l), a);
    assert Flip(Flip(l)) == l;
    hide ActX;
  }

  lemma SideIgnored(m: Numbering, l: Link, a: Action)
    requires EndsInv(m, l)
    ensures ActX(m, l, Swap(a)) == ActX(m, l, a)
  {
    hide Inv, AtX;
  }

  lemma FlipEnds(m: Numbering, l: Link)
    requires EndsInv(m, l)
    ensures EndsInv(m, Flip(l))
  {
  }

  /** The same run seen from the other end. */
  lemma {:induction false} RunFlips(m: Numbering, l: Link, actions: seq<Action>)
    requires EndsInv(m, l)
    ensures EndsInv(m, Flip(l)) && LinkRun(m, Flip(l), Swapped(actions)) == Flip(LinkRun(m, l, actions))
    decreases |actions|
  {
    hide EndsInv, Act;
    FlipEnds(m, l);
    if actions != [] {
      ActFlips(m, l, actions[0]);
      assert Swapped(actions)[0] == Swap(actions[0]) && Swapped(actions)[1..] == Swapped(actions[1..]);
      RunFlips(m, Act(m, l, actions[0]), actions[1..]);
    }
  }

  // ---------------------------------------------------------------- contents of the two directions

  /** The alarms among a sequence of DATA bodies. */
  function Alarms(s: seq<Body>): (r: seq<AlarmArg>) {
    if s == [] then []
    else
      var b := s[|s| - 1];
      Alarms(s[..|s| - 1]) + (if b.Notification? then [b.arg] else [])
  }

  /** The statuses of the user acks among a sequence of DATA bodies. */
  function Acks(s: seq<Body>): (r: seq<PnioStatus>) {
    if s == [] then []
    else
      var b := s[|s| - 1];
      Acks(s[..|s| - 1]) + (if b.AlarmAck? then [b.status] else [])
  }

  /** The alarms told to the user. */
  function Indications(s: seq<Event>): (r: seq<AlarmArg>) {
    if s == [] then []
    else
      var ev := s[|s| - 1];
      Indications(s[..|s| - 1]) + (if ev.AlarmInd? then [ev.arg] else [])
  }

  /** The acks of the peer's user told to the user. */
  function Confirmations(s: seq<Event>): (r: seq<PnioStatus>) {
    if s == [] then []
    else
      var ev := s[|s| - 1];
      Confirmations(s[..|s| - 1]) + (if ev.AlarmCnf? then [ev.status] else [])
  }

  lemma BodiesSnoc(s: seq<Body>, b: Body)
    ensures Alarms(s + [b]) == Alarms(s) + (if b.Notification? then [b.arg] else [])
    ensures Acks(s + [b]) == Acks(s) + (if b.AlarmAck? then [b.status] else [])
  {
    assert (s + [b])[..|s + [b]| - 1] == s;
  }

  lemma EventsSnoc(s: seq<Event>, ev: Event)
    ensures Indications(s + [ev]) == Indications(s) + (if ev.AlarmInd? then [ev.arg] else [])
    ensures Confirmations(s + [ev]) == Confirmations(s) + (if ev.AlarmCnf? then [ev.status] else [])
  {
    assert (s + [ev])[..|s + [ev]| - 1] == s;
  }

  lemma {:induction false} BodiesPrefix(s: seq<Body>, i: nat)
    requires i <= |s|
    ensures Alarms(s[..i]) <= Alarms(s)
    ensures Acks(s[..i]) <= Acks(s)
    decreases |s|
  {
    if i < |s| {
      BodiesPrefix(s[..|s| - 1], i);
      assert s[..|s| - 1][..i] == s[..i];
    } else {
      assert s[..i] == s;
    }
  }

  predicate UserBodies(s: seq<Body>) {
    forall i :: 0 <= i < |s| ==> s[i].Notification? || s[i].AlarmAck?
  }

  /** Every DATA frame is an alarm or a user ack. */
  lemma {:induction false} BodiesSplit(s: seq<Body>)
    requires UserBodies(s)
    ensures |s| == |Alarms(s)| + |Acks(s)|
    decreases |s|
  {
    if s != [] {
      BodiesSplit(s[..|s| - 1]);
    }
  }

  /** A prefix that already holds all acks of a sequence ending in an ack is the whole sequence. */
  lemma AllAcksMeansAll(s: seq<Body>, i: nat)
    requires 0 < |s| && i <= |s| && s[|s| - 1].AlarmAck? && |Acks(s[..i])| >= |Acks(s)|
    ensures i == |s|
  {
    if i < |s| {
      assert s[..|s| - 1][..i] == s[..i];
      BodiesPrefix(s[..|s| - 1], i);
    }
  }

  // ---------------------------------------------------------------- the invariant, in unbounded numbers

  /** At an open end APMR rests in OPEN and a waiting APMS has its frame saved. */
  predicate Resting(e: Endpoint) {
    && e.out == []
    && (e.apms != ApmsClosed ==> e.apmr == ApmrOpen)
    && (e.apms == ApmsWtack ==> e.rta.Some?)
  }

  /** One alarm at a time in each role. */
  predicate OneAtATime(e: Endpoint) {
    && UserBodies(e.requests)
    && |Alarms(e.requests)| <= |Acks(e.accepted)| + 1
    && (e.alpmi == AlpmiAlarm ==> |Alarms(e.requests)| <= |Acks(e.accepted)|)
    && (e.alpmi == AlpmiAck ==> |Alarms(e.requests)| > |Acks(e.accepted)|)
    && |Acks(e.requests)| <= |Alarms(e.accepted)|
    && (e.alpmr == AlpmrUserAck ==> |Acks(e.requests)| < |Alarms(e.accepted)|)
  }

  predicate HarmlessAbort(ev: Event) {
    ev.Aborted? ==> ev.reason.AlpmiInvalid? || ev.reason.SendNotConfirmed? || ev.reason.PeerError?
  }

  /** Everything accepted was told to the user, and nothing went wrong that the protocol rules out. */
  predicate Told(e: Endpoint) {
    && Indications(e.events) == Alarms(e.accepted)
    && Confirmations(e.events) == Acks(e.accepted)
    && forall i :: 0 <= i < |e.events| ==> e.events[i] != SequenceError && HarmlessAbort(e.events[i])
  }

  predicate EndOk(e: Endpoint) {
    Inv(Unbounded, e) && Resting(e) && OneAtATime(e) && Told(e)
  }

  /** The ack number frozen into DATA frame `k` of `x` is close to `k`, and recent enough to
      cover every user ack of `y` the frame's alarm had to wait for, or the alarm it acks. */
  predicate BuiltOk(x: Endpoint, y: Endpoint, k: nat)
    requires k < |x.built| && |x.requests| == |x.built|
  {
    var r := x.built[k].ackSeq;
    && -1 <= r < |x.accepted| && r < |y.requests|
    && k - 2 <= r <= k
    && (x.requests[k].Notification? ==> |Alarms(x.requests[..k])| <= |Acks(y.requests[..r + 1])|)
    && (x.requests[k].AlarmAck? ==> |Acks(x.requests[..k + 1])| <= |Alarms(y.requests[..r + 1])|)
  }

  /** A frame on its way from `x` to `y`. */
  predicate FrameOk(x: Endpoint, y: Endpoint, f: Frame) {
    && f.version == 1 && f.varLenOk
    && match f.pdu
       case PduData => 0 <= f.sendSeq < |x.built| && |y.accepted| - 1 <= f.sendSeq && f == x.built[f.sendSeq]
       case PduAck => y.confirms - 1 <= f.ackSeq < |x.accepted|
       case PduErr => x.apms == ApmsClosed
       case _ => false
  }

  predicate InOrder(f: Frame, g: Frame) {
    && (f.pdu == PduData && g.pdu == PduData ==> f.sendSeq <= g.sendSeq)
    && (f.pdu in {PduData, PduAck} && g.pdu == PduAck ==> f.ackSeq <= g.ackSeq)
  }

  predicate Ordered(ch: seq<Frame>) {
    forall i, j :: 0 <= i < j < |ch| ==> InOrder(ch[i], ch[j])
  }

  predicate FramesOk(x: Endpoint, y: Endpoint, ch: seq<Frame>) {
    forall i :: 0 <= i < |ch| ==> FrameOk(x, y, ch[i])
  }

  /** The direction from `x` to `y`. */
  predicate Direction(x: Endpoint, y: Endpoint, ch: seq<Frame>) {
    && |x.built| == |x.requests|
    && x.confirms <= |y.accepted| <= |x.requests|
    && y.accepted == x.requests[..|y.accepted|]
    && (forall k :: 0 <= k < |x.built| ==> BuiltOk(x, y, k))
    && FramesOk(x, y, ch)
    && Ordered(ch)
  }

  predicate LinkInv(l: Link) {
    EndOk(l.x) && EndOk(l.y) && Direction(l.x, l.y, l.xy) && Direction(l.y, l.x, l.yx)
  }

  lemma ConnectedInv(low: bool, retriesX: nat, retriesY: nat)
    ensures LinkInv(Connected(Unbounded, low, retriesX, retriesY))
  {
  }

  lemma BothEndsInv(l: Link)
    requires LinkInv(l)
    ensures EndsInv(Unbounded, l)
  {
  }

  lemma BothEndsOk(l: Link)
    requires LinkInv(l)
    ensures EndOk(l.x) && EndOk(l.y)
  {
  }

  lemma FlipInv(l: Link)
    ensures LinkInv(Flip(l)) == LinkInv(l)
  {
  }

  /** How the four counts of a link hang together. */
  lemma Counts(l: Link)
    requires LinkInv(l)
    ensures |l.x.accepted| - 1 <= |l.x.requests| <= |l.x.accepted| + 1
    ensures |l.y.requests| <= |l.x.accepted| + 1
    ensures |Acks(l.x.accepted)| <= |Acks(l.y.requests)| <= |Alarms(l.y.accepted)| <= |Alarms(l.x.requests)|
    ensures |Alarms(l.x.requests)| <= |Acks(l.x.accepted)| + 1
    ensures |Acks(l.y.accepted)| <= |Acks(l.x.requests)| <= |Alarms(l.x.accepted)| <= |Alarms(l.y.requests)|
  {
    BodiesPrefix(l.x.requests, |l.y.accepted|);
    BodiesPrefix(l.y.requests, |l.x.accepted|);
    BodiesSplit(l.x.requests);
    BodiesSplit(l.y.requests);
    BodiesSplit(l.x.accepted);
  }
}
