/**
 The buffer exchange of the consumer between the receiving thread and the application, step
 by step.  Only the two swaps and the copy are done under the lock; setting the position and
 freeing the former buffer are not, so all interleavings of these steps are considered.
 */
module CpmExchange {
  import opened CpmConsumer
  import opened Wrappers

  /** Where the receiving thread stands in the handling of an accepted frame. */
  datatype Receiver =
    | Waiting
    | HasPut(newest: Frame, former: Option<Frame>)
    | HasPositioned(former: Option<Frame>)

  /** Where the application stands in a read; `seen` frames had been accepted at its get step. */
  datatype Reader =
    | Resting
    | HasSwapped(isNew: bool, seen: nat)
    | Pointing(buffer: Frame, pos: nat, isNew: bool, seen: nat)

  datatype Reading = Reading(buffer: Option<Frame>, pos: nat, isNew: bool, seen: nat)

  datatype Exchange = Exchange(
    app: Option<Frame>, cpm: Option<Frame>, newBuf: bool, bufferPos: nat,
    receiver: Receiver, reader: Reader,
    live: set<nat>, nextId: nat,     // the buffers of this consumer that are allocated
    accepted: seq<Frame>, readings: seq<Reading>)

  const Started := Exchange(None, None, false, 16, Waiting, Resting, {}, 0, [], [])

  datatype Step =
    | Take(f: Frame)       // pf_cpm_put_buf for an accepted frame
    | Position             // frame_id_pos and buffer_pos
    | FreeFormer           // pnal_buf_free of the buffer that was replaced
    | Swap                 // the locked part of pf_cpm_get_buf
    | Point                // its rest
    | Copy                 // the locked copy in get_data_and_iops

  function WithoutFormer(live: set<nat>, former: Option<Frame>): set<nat> {
    if former.Some? then live - {former.value.id} else live
  }

  /** One step; a step of a thread that stands elsewhere does nothing. */
  function Next(e: Exchange, step: Step): Exchange {
    match step
    case Take(f) =>
      if e.receiver != Waiting then e
      else
        var g := f.(id := e.nextId);
        e.(cpm := Some(g), newBuf := true, receiver := HasPut(g, e.cpm), live := e.live + {g.id},
           nextId := e.nextId + 1, accepted := e.accepted + [g])
    case Position =>
      if !e.receiver.HasPut? then e
      else e.(bufferPos := e.receiver.newest.framePos + 2, receiver := HasPositioned(e.receiver.former))
    case FreeFormer =>
      if !e.receiver.HasPositioned? then e
      else e.(live := WithoutFormer(e.live, e.receiver.former), receiver := Waiting)
    case Swap =>
      if e.reader != Resting then e
      else
        var e1 := e.(reader := HasSwapped(e.newBuf, |e.accepted|));
        if e.newBuf then e1.(app := e.cpm, cpm := e.app, newBuf := false) else e1
    case Point =>
      if !e.reader.HasSwapped? then e
      else if e.app.Some? then
        e.(reader := Pointing(e.app.value, e.bufferPos, e.reader.isNew, e.reader.seen))
      else e.(readings := e.readings + [Reading(None, 0, false, e.reader.seen)], reader := Resting)
    case Copy =>
      if !e.reader.Pointing? then e
      else
        e.(readings := e.readings + [Reading(Some(e.reader.buffer), e.reader.pos, e.reader.isNew, e.reader.seen)],
           reader := Resting)
  }

  function Run(e: Exchange, steps: seq<Step>): Exchange
    decreases |steps|
  {
    if steps == [] then e else Run(Next(e, steps[0]), steps[1..])
  }

  // ---------------------------------------------------------------- ownership

  function Id(b: Option<Frame>): set<nat> {
    if b.Some? then {b.value.id} else {}
  }

  /** The buffer the receiving thread still has to free. */
  function Former(r: Receiver): Option<Frame> {
    match r
    case Waiting => None
    case HasPut(_, former) => former
    case HasPositioned(former) => former
  }

  /** Each allocated buffer is in exactly one place, and the reader's is the application's. */
  predicate Owned(e: Exchange) {
    && e.live == Id(e.app) + Id(e.cpm) + Id(Former(e.receiver))
    && Id(e.app) !! Id(e.cpm) && Id(e.app) !! Id(Former(e.receiver)) && Id(e.cpm) !! Id(Former(e.receiver))
    && (forall id :: id in e.live ==> id < e.nextId)
    && (e.reader.Pointing? ==> e.app == Some(e.reader.buffer))
  }

  // ---------------------------------------------------------------- what is read

  function Newest(e: Exchange, seen: nat): Option<Frame> {
    if 0 < seen <= |e.accepted| then Some(e.accepted[seen - 1]) else None
  }

  /** How many frames had been accepted at the get step before read `k`. */
  function SeenBefore(readings: seq<Reading>, k: nat): nat
    requires k <= |readings|
  {
    if k == 0 then 0 else readings[k - 1].seen
  }

  /** How many had been accepted at the latest get step. */
  function Seen(e: Exchange): nat {
    match e.reader
    case Resting => SeenBefore(e.readings, |e.readings|)
    case HasSwapped(_, seen) => seen
    case Pointing(_, _, _, seen) => seen
  }

  /** Read `k` gave the newest frame accepted before its get step, and the flag tells whether any
      was accepted since the get step before. */
  predicate ReadOk(e: Exchange, k: nat)
    requires k < |e.readings|
  {
    var r := e.readings[k];
    && SeenBefore(e.readings, k) <= r.seen <= |e.accepted|
    && r.buffer == Newest(e, r.seen)
    && (r.isNew <==> SeenBefore(e.readings, k) < r.seen)
  }

  predicate Current(e: Exchange) {
    && SeenBefore(e.readings, |e.readings|) <= Seen(e) <= |e.accepted|
    && e.app == Newest(e, Seen(e))
    && (e.newBuf <==> Seen(e) < |e.accepted|)
    && (e.newBuf ==> e.cpm == Newest(e, |e.accepted|))
    && (e.reader != Resting ==> (e.reader.isNew <==> SeenBefore(e.readings, |e.readings|) < Seen(e)))
    && (forall k :: 0 <= k < |e.readings| ==> ReadOk(e, k))
  }

  predicate Inv(e: Exchange) {
    Owned(e) && Current(e)
  }

  lemma TakeKeeps(e: Exchange, f: Frame)
    requires Inv(e)
    ensures Inv(Next(e, Take(f)))
  {
    var r := Next(e, Take(f));
    forall k | 0 <= k < |r.readings| ensures ReadOk(r, k) {
      assert ReadOk(e, k);
    }
  }

  lemma ReadEnds(e: Exchange, read: Reading)
    requires Inv(e) && e.reader != Resting
    requires read.seen == Seen(e) && read.buffer == e.app && (read.isNew <==> e.reader.isNew)
    ensures Inv(e.(readings := e.readings + [read], reader := Resting))
  {
    var r := e.(readings := e.readings + [read], reader := Resting);
    forall k | 0 <= k < |r.readings| ensures ReadOk(r, k) {
      if k < |e.readings| {
        assert ReadOk(e, k);
      }
    }
  }

  lemma NextKeepsInv(e: Exchange, step: Step)
    requires Inv(e)
    ensures Inv(Next(e, step))
  {
    match step
    case Take(f) => TakeKeeps(e, f);
    case Point =>
      if e.reader.HasSwapped? && e.app.None? {
        ReadEnds(e, Reading(None, 0, false, e.reader.seen));
      } else {
        OthersKeep(e, step);
      }
    case Copy =>
      if e.reader.Pointing? {
        ReadEnds(e, Reading(Some(e.reader.buffer), e.reader.pos, e.reader.isNew, e.reader.seen));
      }
    case _ => OthersKeep(e, step);
  }

  lemma OthersKeep(e: Exchange, step: Step)
    requires Inv(e) && !step.Take? && Next(e, step).readings == e.readings
    ensures Inv(Next(e, step))
  {
    var r := Next(e, step);
    forall k | 0 <= k < |r.readings| ensures ReadOk(r, k) {
      assert ReadOk(e, k);
    }
  }

  /** Whatever the interleaving: no buffer is lost or freed twice, the buffer the application holds
      between get and copy stays allocated, and every read gives the newest frame accepted before
      its get step, with a flag that says whether it is a new one. */
  lemma {:induction false} ExchangeIsSafe(steps: seq<Step>)
    ensures var e := Run(Started, steps);
            && Inv(e)
            && (e.reader.Pointing? ==> e.reader.buffer.id in e.live)
            && (forall former :: Former(e.receiver) == Some(former) ==> former.id in e.live)
  {
    RunKeepsInv(Started, steps);
  }

  lemma {:induction false} RunKeepsInv(e: Exchange, steps: seq<Step>)
    requires Inv(e)
    ensures Inv(Run(e, steps))
    decreases |steps|
  {
    if steps != [] {
      NextKeepsInv(e, steps[0]);
      RunKeepsInv(Next(e, steps[0]), steps[1..]);
    }
  }

  // ---------------------------------------------------------------- the position

  /** The application has read, and is going to read, at the right place in each frame. */
  predicate PositionsRight(e: Exchange) {
    && (forall k :: 0 <= k < |e.readings| && e.readings[k].buffer.Some? ==>
          e.readings[k].pos == e.readings[k].buffer.value.framePos + 2)
    && (e.reader.Pointing? ==> e.reader.pos == e.reader.buffer.framePos + 2)
  }

  /** Every frame so far has its frame id at the same place, and so does the position in use. */
  predicate Uniform(e: Exchange, framePos: nat) {
    && e.bufferPos == framePos + 2
    && (e.app.Some? ==> e.app.value.framePos == framePos)
    && (e.cpm.Some? ==> e.cpm.value.framePos == framePos)
    && (e.receiver.HasPut? ==> e.receiver.newest.framePos == framePos)
  }

  /** As long as all frames carry the same number of VLAN tags as the position assumes, every read
      takes its data from the right place. */
  lemma {:induction false} UniformFramesReadRight(e: Exchange, steps: seq<Step>, framePos: nat)
    requires Uniform(e, framePos) && PositionsRight(e)
    requires forall i :: 0 <= i < |steps| && steps[i].Take? ==> steps[i].f.framePos == framePos
    ensures Uniform(Run(e, steps), framePos) && PositionsRight(Run(e, steps))
    decreases |steps|
  {
    if steps != [] {
      UniformFramesReadRight(Next(e, steps[0]), steps[1..], framePos);
    }
  }

  function Taken(steps: seq<Step>): seq<Frame> {
    if steps == [] then [] else (if steps[0].Take? then [steps[0].f] else []) + Taken(steps[1..])
  }

  lemma {:induction false} RunTwice(e: Exchange, first: seq<Step>, rest: seq<Step>)
    ensures Run(e, first + rest) == Run(Run(e, first), rest)
    ensures Taken(first + rest) == Taken(first) + Taken(rest)
    decreases |first|
  {
    if first == [] {
      assert first + rest == rest;
    } else {
      assert (first + rest)[1..] == first[1..] + rest;
      RunTwice(Next(e, first[0]), first[1..], rest);
    }
  }

  /** The application reads between the exchange and the update of the position. */
  lemma EarlyRead(e: Exchange, f: Frame)
    requires e.receiver == Waiting && e.reader == Resting && e.bufferPos != f.framePos + 2
    ensures var steps := [Take(f), Swap, Point, Copy];
            Taken(steps) == [f] && !PositionsRight(Run(e, steps))
  {
    var e1 := Next(e, Take(f));
    var e2 := Next(e1, Swap);
    var e3 := Next(e2, Point);
    var e4 := Next(e3, Copy);
    var steps := [Take(f), Swap, Point, Copy];
    assert steps[1..] == [Swap, Point, Copy];
    assert [Swap, Point, Copy][1..] == [Point, Copy];
    assert [Point, Copy][1..] == [Copy];
    assert Run(e3, [Copy]) == e4;
    assert Run(e2, [Point, Copy]) == e4;
    assert Run(e, steps) == e4;
    var k := |e.readings|;
    assert e4.readings[k].buffer == Some(f.(id := e.nextId)) && e4.readings[k].pos == e.bufferPos;
    assert Taken([Point, Copy]) == [] && Taken([Swap, Point, Copy]) == [];
  }

  /** One frame handled without a read in between. */
  lemma Handled(e: Exchange, f: Frame)
    requires e.receiver == Waiting && e.reader == Resting
    ensures var steps := [Take(f), Position, FreeFormer];
            var r := Run(e, steps);
            Taken(steps) == [f] && r.receiver == Waiting && r.reader == Resting && r.bufferPos == f.framePos + 2
  {
    var steps := [Take(f), Position, FreeFormer];
    assert steps[1..] == [Position, FreeFormer];
    assert [Position, FreeFormer][1..] == [FreeFormer];
    var e2 := Next(Next(e, Take(f)), Position);
    assert Run(e2, [FreeFormer]) == Next(e2, FreeFormer);
    assert Taken([Position, FreeFormer]) == [];
  }

  /** If any frame is not where the position in use says, some interleaving reads it wrong. */
  lemma {:induction false} SomeReadIsWrong(e: Exchange, frames: seq<Frame>) returns (steps: seq<Step>)
    requires e.receiver == Waiting && e.reader == Resting
    requires exists i :: 0 <= i < |frames| && frames[i].framePos + 2 != e.bufferPos
    ensures Taken(steps) <= frames && !PositionsRight(Run(e, steps))
    decreases |frames|
  {
    var f := frames[0];
    if f.framePos + 2 != e.bufferPos {
      EarlyRead(e, f);
      steps := [Take(f), Swap, Point, Copy];
    } else {
      var first := [Take(f), Position, FreeFormer];
      Handled(e, f);
      var i :| 0 <= i < |frames| && frames[i].framePos + 2 != e.bufferPos;
      assert frames[1..][i - 1].framePos + 2 != e.bufferPos;
      var rest := SomeReadIsWrong(Run(e, first), frames[1..]);
      RunTwice(e, first, rest);
      steps := first + rest;
    }
  }

  /** Reading is right under every interleaving exactly if all accepted frames are untagged. */
  lemma RightIffUntagged(frames: seq<Frame>)
    ensures (forall steps :: Taken(steps) <= frames ==> PositionsRight(Run(Started, steps))) <==>
            (forall i :: 0 <= i < |frames| ==> frames[i].framePos == 14)
  {
    if forall i :: 0 <= i < |frames| ==> frames[i].framePos == 14 {
      forall steps | Taken(steps) <= frames ensures PositionsRight(Run(Started, steps)) {
        TakenAt(steps, frames);
        UniformFramesReadRight(Started, steps, 14);
      }
    } else {
      var steps := SomeReadIsWrong(Started, frames);
    }
  }

  lemma {:induction false} TakenAt(steps: seq<Step>, frames: seq<Frame>)
    requires Taken(steps) <= frames && forall i :: 0 <= i < |frames| ==> frames[i].framePos == 14
    ensures forall i :: 0 <= i < |steps| && steps[i].Take? ==> steps[i].f.framePos == 14
    decreases |steps|
  {
    if steps != [] {
      var rest := if steps[0].Take? then frames[1..] else frames;
      assert steps[0].Take? ==> steps[0].f == frames[0];
      TakenAt(steps[1..], rest);
      forall i | 0 <= i < |steps| && steps[i].Take? ensures steps[i].f.framePos == 14 {
        if i > 0 {
          assert steps[i] == steps[1..][i - 1];
        }
      }
    }
  }
}
