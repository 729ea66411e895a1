/**
 The bounded queues of an AR: incoming alarm frames wait in a receive queue, outgoing alarms
 in a send queue.  Both are rings of PNET_MAX_ALARMS slots run by the same accountant.
 */
module AlarmQueues {
  import opened AlarmEndpoint
  import opened Buffers
  import opened Wrappers

  /** Frame buffers are told apart by a number that is never used twice. */
  datatype Buffer = Buffer(id: nat, frame: Frame)

  /** The slot `k` places behind `read` in a ring; `capacity` places behind is `read` again. */
  function RingSlot(capacity: nat, read: nat, k: nat): (i: nat)
    requires read < capacity && k <= capacity
    ensures i < capacity
  {
    if read + k < capacity then read + k else read + k - capacity
  }

  /** With the oldest slot given up, the ring starts one slot later. */
  lemma RingAdvanced(capacity: nat, first: nat)
    requires first < capacity
    ensures RingSlot(capacity, first, 0) == first == RingSlot(capacity, first, capacity)
    ensures forall k :: 0 < k < capacity ==> RingSlot(capacity, first, k) != first
    ensures forall k :: 0 <= k < capacity ==>
              RingSlot(capacity, RingSlot(capacity, first, 1), k) == RingSlot(capacity, first, k + 1)
  {
  }

  /** Ring bookkeeping; `available` says that the queue's mutex exists. */
  class Accountant {
    const capacity: nat
    var writeIndex: nat
    var readIndex: nat
    var count: nat
    var available: bool

    ghost predicate Valid()
      reads this
    {
      count <= capacity && readIndex < capacity && writeIndex == RingSlot(capacity, readIndex, count)
    }

    constructor (capacity: nat)
      requires 1 <= capacity
      ensures Valid() && this.capacity == capacity && count == 0 && !available
    {
      this.capacity := capacity;
      writeIndex, readIndex, count, available := 0, 0, 0, false;
    }

    method Reset()
      requires 1 <= capacity
      modifies this
      ensures Valid() && count == 0 && readIndex == 0 && available == old(available)
    {
      count, readIndex, writeIndex := 0, 0, 0;
    }

    /** The slot to write, or failure if all are taken. */
    method GetWriteIndex() returns (ok: bool, index: nat)
      requires Valid()
      modifies this
      ensures Valid() && available == old(available) && readIndex == old(readIndex)
      ensures ok == (old(count) < capacity)
      ensures ok ==> index == RingSlot(capacity, readIndex, old(count)) && count == old(count) + 1
      ensures !ok ==> count == old(count)
    {
      index := 0;
      if count >= capacity {
        return false, index;
      }
      index := writeIndex;
      writeIndex := writeIndex + 1;
      if writeIndex >= capacity {
        writeIndex := 0;
      }
      count := count + 1;
      ok := true;
    }

    /** The slot to read, or failure if none is taken. */
    method GetReadIndex() returns (ok: bool, index: nat)
      requires Valid()
      modifies this
      ensures Valid() && available == old(available)
      ensures ok == (old(count) > 0)
      ensures ok ==> index == old(readIndex) && count == old(count) - 1
      ensures ok ==> readIndex == RingSlot(capacity, old(readIndex), 1)
      ensures !ok ==> count == old(count) && readIndex == old(readIndex)
    {
      index := 0;
      if count == 0 {
        return false, index;
      }
      index := readIndex;
      readIndex := readIndex + 1;
      if readIndex >= capacity {
        readIndex := 0;
      }
      count := count - 1;
      ok := true;
    }
  }

  /** A queued frame and the position of its frame id. */
  datatype Message = Message(framePos: nat, buf: Buffer)

  /** The buffers in a stretch of slots. */
  ghost function BuffersIn(slots: seq<Option<Message>>): set<nat> {
    set i | 0 <= i < |slots| && slots[i].Some? :: slots[i].value.buf.id
  }

  ghost predicate Distinct(slots: seq<Option<Message>>) {
    forall i, j :: 0 <= i < j < |slots| && slots[i].Some? && slots[j].Some? ==>
                     slots[i].value.buf.id != slots[j].value.buf.id
  }

  lemma SlotFilled(slots: seq<Option<Message>>, i: nat, msg: Message)
    requires i < |slots| && slots[i].None?
    ensures BuffersIn(slots[i := Some(msg)]) == BuffersIn(slots) + {msg.buf.id}
  {
    var after := slots[i := Some(msg)];
    assert after[i].value == msg;
    forall id | id in BuffersIn(slots) ensures id in BuffersIn(after) {
      var j :| 0 <= j < |slots| && slots[j].Some? && slots[j].value.buf.id == id;
      assert after[j] == slots[j];
    }
  }

  lemma SlotEmptied(slots: seq<Option<Message>>, i: nat)
    requires i < |slots| && slots[i].Some? && Distinct(slots)
    ensures BuffersIn(slots[i := None]) == BuffersIn(slots) - {slots[i].value.buf.id}
  {
    var after := slots[i := None];
    forall id | id in BuffersIn(slots) && id != slots[i].value.buf.id ensures id in BuffersIn(after) {
      var j :| 0 <= j < |slots| && slots[j].Some? && slots[j].value.buf.id == id;
      assert after[j] == slots[j];
    }
  }

  class ReceiveQueue {
    const acc: Accountant
    const items: array<Option<Message>>

    /** A slot holds a buffer exactly if it lies in the queued stretch of the ring. */
    ghost predicate Valid()
      reads this, acc, items
    {
      && acc.Valid() && items.Length == acc.capacity
      && (forall k :: 0 <= k < acc.capacity ==>
            (items[RingSlot(acc.capacity, acc.readIndex, k)].Some? <==> k < acc.count))
      && Distinct(items[..])
    }

    /** The buffers waiting in the queue. */
    ghost function Held(): set<nat>
      reads this, items
    {
      BuffersIn(items[..])
    }

    ghost function Contents(): (s: seq<Message>)
      requires Valid()
      reads this, acc, items
      ensures |s| == acc.count
    {
      seq(acc.count, k requires 0 <= k < acc.count && Valid() reads this, acc, items =>
        items[RingSlot(acc.capacity, acc.readIndex, k)].value)
    }

    constructor (capacity: nat)
      requires 1 <= capacity
      ensures Valid() && fresh(acc) && fresh(items) && acc.capacity == capacity && !acc.available
      ensures Contents() == [] && Held() == {}
    {
      acc := new Accountant(capacity);
      items := new Option<Message>[capacity](_ => None);
    }

    /** Takes a message unless the queue is unavailable or full; the slot it uses was empty. */
    method Post(msg: Message) returns (ok: bool)
      requires Valid() && msg.buf.id !in Held()
      modifies acc, items
      ensures Valid() && acc.available == old(acc.available)
      ensures ok == (old(acc.available) && old(acc.count) < acc.capacity)
      ensures Contents() == old(Contents()) + (if ok then [msg] else [])
      ensures ok ==> exists i :: 0 <= i < items.Length && old(items[i]).None?
                                 && items[..] == old(items[..])[i := Some(msg)]
      ensures !ok ==> items[..] == old(items[..])
      ensures Held() == old(Held()) + (if ok then {msg.buf.id} else {})
    {
      if !acc.available {
        return false;
      }
      var index;
      ghost var before := Contents();
      ok, index := acc.GetWriteIndex();
      if ok {
        assert items[index].None?;
        items[index] := Some(msg);
        assert Contents() == before + [msg];
        assert items[..] == old(items[..])[index := Some(msg)];
        SlotFilled(old(items[..]), index, msg);
      }
    }

    /** Hands out the oldest message and empties its slot. */
    method Fetch() returns (ok: bool, msg: Message)
      requires Valid()
      modifies acc, items
      ensures Valid() && acc.available == old(acc.available)
      ensures ok == (old(acc.available) && old(acc.count) > 0)
      ensures ok ==> msg == old(Contents())[0] && Contents() == old(Contents())[1..]
      ensures !ok ==> Contents() == old(Contents()) && Held() == old(Held())
      ensures ok ==> msg.buf.id in old(Held()) && Held() == old(Held()) - {msg.buf.id}
    {
      msg := Message(0, Buffer(0, Frame(0, PduOther, false, 0, 0, false, Empty)));
      if !acc.available {
        return false, msg;
      }
      var index;
      ghost var before := Contents();
      ghost var first := acc.readIndex;
      ok, index := acc.GetReadIndex();
      if ok {
        RingAdvanced(acc.capacity, first);
        hide RingSlot, BuffersIn;
        msg := items[index].value;
        items[index] := None;
        assert Contents() == before[1..];
        assert items[..] == old(items[..])[index := None];
        SlotEmptied(old(items[..]), index);
      }
    }

    /** Frees every waiting buffer, each of them once, and empties the ring. */
    method Reset(pool: BufferPool)
      requires Valid() && pool.Valid() && Held() <= pool.live
      modifies acc, items, pool
      ensures Valid() && pool.Valid() && acc.available == old(acc.available) && pool.next == old(pool.next)
      ensures acc.available ==> Contents() == [] && Held() == {} && pool.live == old(pool.live) - old(Held())
      ensures !acc.available ==>
                Contents() == old(Contents()) && Held() == old(Held()) && pool.live == old(pool.live)
    {
      if !acc.available {
        return;
      }
      acc.Reset();
      ghost var held := Held();
      for ix := 0 to items.Length
        invariant acc.Valid() && acc.count == 0 && acc.readIndex == 0 && acc.available
        invariant pool.Valid() && pool.next == old(pool.next)
        invariant forall j :: 0 <= j < ix ==> items[j].None?
        invariant forall j :: ix <= j < items.Length ==> items[j] == old(items[j])
        invariant forall j :: 0 <= j < ix && old(items[j]).Some? ==> old(items[j]).value.buf.id !in pool.live
        invariant forall j :: ix <= j < items.Length && old(items[j]).Some? ==> old(items[j]).value.buf.id in pool.live
        invariant old(pool.live) - held <= pool.live <= old(pool.live)
      {
        if items[ix].Some? {
          pool.Free(items[ix].value.buf.id);
        }
        items[ix] := None;
      }
      assert forall id :: id in held ==> id !in pool.live;
    }
  }

  /** Outgoing alarms; a fetched alarm is copied out and its slot simply reused. */
  class SendQueue {
    const acc: Accountant
    const items: array<Alarm>

    ghost predicate Valid()
      reads this, acc, items
    {
      acc.Valid() && items.Length == acc.capacity
    }

    ghost function Contents(): (s: seq<Alarm>)
      requires Valid()
      reads this, acc, items
      ensures |s| == acc.count
    {
      seq(acc.count, k requires 0 <= k < acc.count && Valid() reads this, acc, items =>
        items[RingSlot(acc.capacity, acc.readIndex, k)])
    }

    constructor (capacity: nat)
      requires 1 <= capacity
      ensures Valid() && fresh(acc) && fresh(items) && acc.capacity == capacity && Contents() == [] && !acc.available
    {
      acc := new Accountant(capacity);
      items := new Alarm[capacity](_ => Alarm(0, 0, 0, 0, []));
    }

    method Reset()
      requires Valid()
      modifies acc, items
      ensures Valid() && acc.available == old(acc.available)
      ensures Contents() == if acc.available then [] else old(Contents())
    {
      if !acc.available {
        return;
      }
      acc.Reset();
      for ix := 0 to items.Length
        invariant Valid() && acc.count == 0 && acc.available
      {
        items[ix] := Alarm(0, 0, 0, 0, []);
      }
    }

    method Post(alarm: Alarm) returns (ok: bool)
      requires Valid()
      modifies acc, items
      ensures Valid() && acc.available == old(acc.available)
      ensures ok == (old(acc.available) && old(acc.count) < acc.capacity)
      ensures Contents() == old(Contents()) + (if ok then [alarm] else [])
    {
      if !acc.available {
        return false;
      }
      var index;
      ghost var before := Contents();
      ok, index := acc.GetWriteIndex();
      if ok {
        items[index] := alarm;
        assert Contents() == before + [alarm];
      }
    }

    method Fetch() returns (ok: bool, alarm: Alarm)
      requires Valid()
      modifies acc, items
      ensures Valid() && acc.available == old(acc.available)
      ensures ok == (old(acc.available) && old(acc.count) > 0)
      ensures ok ==> alarm == old(Contents())[0] && Contents() == old(Contents())[1..]
      ensures !ok ==> Contents() == old(Contents())
    {
      alarm := Alarm(0, 0, 0, 0, []);
      if !acc.available {
        return false, alarm;
      }
      var index;
      ghost var before := Contents();
      ghost var first := acc.readIndex;
      ok, index := acc.GetReadIndex();
      if ok {
        RingAdvanced(acc.capacity, first);
        alarm := items[index];
        assert Contents() == before[1..];
      }
    }
  }
}
