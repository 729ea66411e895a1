/**
 Alarm endpoints of all ARs and the registration of the two alarm frame ids: they are to be
 known to the frame dispatcher exactly while some endpoint is active.
 */
module AlarmRegistration {
  import opened FrameIdMap
  import opened Wrappers

  const ALARM_HIGH := 0xfc01
  const ALARM_LOW := 0xfe01
  const ALARM_HANDLER := 1

  /** An endpoint belongs to an AR or to nobody. */
  datatype Entry = Entry(ar: Option<nat>, active: bool)

  datatype Net = Net(entries: seq<Entry>, slots: seq<Slot>)

  ghost predicate AnyActive(t: seq<Entry>) {
    exists i :: 0 <= i < |t| && t[i].active
  }

  /** The first endpoint of `ar` (or of nobody), or the number of endpoints if there is none. */
  function FirstOf(t: seq<Entry>, ar: Option<nat>): (k: nat)
    ensures k <= |t| && (forall i :: 0 <= i < k ==> t[i].ar != ar) && (k < |t| ==> t[k].ar == ar)
  {
    FirstWhere(t, (e: Entry) => e.ar == ar)
  }

  predicate Holds(t: seq<Entry>, ar: nat) {
    FirstOf(t, Some(ar)) < |t|
  }

  predicate IsActive(t: seq<Entry>, ar: nat) {
    var k := FirstOf(t, Some(ar));
    k < |t| && t[k].active
  }

  function Marked(t: seq<Entry>, ar: nat, active: bool): seq<Entry> {
    var k := FirstOf(t, Some(ar));
    if k < |t| then t[k := t[k].(active := active)] else t
  }

  function Allocated(t: seq<Entry>, ar: nat): seq<Entry> {
    var k := FirstOf(t, None);
    if k < |t| then t[k := Entry(Some(ar), false)] else t
  }

  function Freed(t: seq<Entry>, ar: nat): seq<Entry> {
    var k := FirstOf(t, Some(ar));
    if k < |t| then t[k := Entry(None, false)] else t
  }

  ghost function Activated(n: Net, ar: nat): Net {
    Net(Marked(n.entries, ar, true),
        if AnyActive(n.entries) then n.slots
        else Added(Added(n.slots, ALARM_LOW, ALARM_HANDLER), ALARM_HIGH, ALARM_HANDLER))
  }

  ghost function Closed(n: Net, ar: nat): Net {
    var t := Marked(n.entries, ar, false);
    Net(t, if AnyActive(t) then n.slots else Removed(Removed(n.slots, ALARM_HIGH), ALARM_LOW))
  }

  /** The AR a frame for endpoint `e` is queued at. */
  function Routed(t: seq<Entry>, e: nat): Option<nat> {
    if 0 < e <= |t| && t[e - 1].active then t[e - 1].ar else None
  }

  class Endpoints {
    const entries: array<Entry>
    const table: Table

    constructor (count: nat, table: Table)
      ensures this.table == table && fresh(entries) && entries.Length == count
      ensures forall i :: 0 <= i < count ==> entries[i] == Entry(None, false)
    {
      this.table := table;
      entries := new Entry[count](_ => Entry(None, false));
    }

    ghost function State(): Net
      reads entries, table.slots
    {
      Net(entries[..], table.slots[..])
    }

    /** pf_alarm_allocate_endpoint: the number of the endpoint, counted from 1, or 0. */
    method Allocate(ar: nat) returns (e: nat)
      modifies entries
      ensures entries[..] == Allocated(old(entries[..]), ar)
      ensures e == (if FirstOf(old(entries[..]), None) < entries.Length then FirstOf(old(entries[..]), None) + 1 else 0)
    {
      for i := 0 to entries.Length
        invariant entries[..] == old(entries[..])
        invariant forall j :: 0 <= j < i ==> entries[j].ar != None
      {
        if entries[i].ar == None {
          FirstOfIs(entries[..], None, i);
          entries[i] := Entry(Some(ar), false);
          return i + 1;
        }
      }
      FirstOfIs(entries[..], None, entries.Length);
      e := 0;
    }

    /** pf_alarm_free_endpoint */
    method Free(ar: nat)
      modifies entries
      ensures entries[..] == Freed(old(entries[..]), ar)
    {
      for i := 0 to entries.Length
        invariant entries[..] == old(entries[..])
        invariant forall j :: 0 <= j < i ==> entries[j].ar != Some(ar)
      {
        if entries[i].ar == Some(ar) {
          FirstOfIs(entries[..], Some(ar), i);
          entries[i] := Entry(None, false);
          return;
        }
      }
      FirstOfIs(entries[..], Some(ar), entries.Length);
    }

    /** Is no endpoint active? */
    method NoneActive() returns (none: bool)
      ensures none == !AnyActive(entries[..])
    {
      var ix := 0;
      while ix < entries.Length && !entries[ix].active
        invariant ix <= entries.Length && forall j :: 0 <= j < ix ==> !entries[j].active
      {
        ix := ix + 1;
      }
      none := ix >= entries.Length;
      if !none {
        assert entries[..][ix].active;
      }
    }

    method Mark(ar: nat, active: bool)
      modifies entries
      ensures entries[..] == Marked(old(entries[..]), ar, active)
    {
      for i := 0 to entries.Length
        invariant entries[..] == old(entries[..])
        invariant forall j :: 0 <= j < i ==> entries[j].ar != Some(ar)
      {
        if entries[i].ar == Some(ar) {
          FirstOfIs(entries[..], Some(ar), i);
          entries[i] := entries[i].(active := active);
          return;
        }
      }
      FirstOfIs(entries[..], Some(ar), entries.Length);
    }

    /** What pf_alarm_apmx_activate does outside the AR. */
    method Activate(ar: nat)
      modifies entries, table.slots
      ensures State() == Activated(old(State()), ar)
    {
      var none := NoneActive();
      if none {
        table.Add(ALARM_LOW, ALARM_HANDLER);
        table.Add(ALARM_HIGH, ALARM_HANDLER);
      }
      Mark(ar, true);
    }

    /** What pf_alarm_apmx_close does outside the AR. */
    method Close(ar: nat)
      modifies entries, table.slots
      ensures State() == Closed(old(State()), ar)
    {
      Mark(ar, false);
      var none := NoneActive();
      if none {
        table.Remove(ALARM_HIGH);
        table.Remove(ALARM_LOW);
      }
    }

    /** The AR for which the frame handler queues a frame. */
    method Route(e: nat) returns (ar: Option<nat>)
      ensures ar == Routed(entries[..], e)
    {
      ar := None;
      if e > 0 && e <= entries.Length && entries[e - 1].active {
        ar := entries[e - 1].ar;
      }
    }
  }

  lemma FirstOfIs(t: seq<Entry>, ar: Option<nat>, k: nat)
    requires k <= |t| && (forall i :: 0 <= i < k ==> t[i].ar != ar) && (k < |t| ==> t[k].ar == ar)
    ensures FirstOf(t, ar) == k
  {
  }

  // ---------------------------------------------------------------- the discipline

  /** Both alarm frame ids are registered exactly once if some endpoint is active, else not at all. */
  ghost predicate Registered(n: Net) {
    && (forall i :: 0 <= i < |n.entries| && n.entries[i].ar == None ==> !n.entries[i].active)
    && Handlers(n.slots, ALARM_LOW) == Handlers(n.slots, ALARM_HIGH)
       == (if AnyActive(n.entries) then [ALARM_HANDLER] else [])
  }

  lemma MarkedActive(t: seq<Entry>, ar: nat)
    requires Holds(t, ar)
    ensures AnyActive(Marked(t, ar, true))
  {
    assert Marked(t, ar, true)[FirstOf(t, Some(ar))].active;
  }

  lemma AddedTwice(s: seq<Slot>)
    requires Handlers(s, ALARM_LOW) == Handlers(s, ALARM_HIGH) == []
    ensures var r := Added(Added(s, ALARM_LOW, ALARM_HANDLER), ALARM_HIGH, ALARM_HANDLER);
            && (FreeSlots(s) >= 2 ==> Handlers(r, ALARM_LOW) == Handlers(r, ALARM_HIGH) == [ALARM_HANDLER])
            && (FreeSlots(s) < 2 ==> Handlers(r, ALARM_HIGH) == [])
  {
    var s1 := Added(s, ALARM_LOW, ALARM_HANDLER);
    AddedHandlers(s, ALARM_LOW, ALARM_HANDLER, ALARM_HIGH);
    AddedHandlers(s1, ALARM_HIGH, ALARM_HANDLER, ALARM_LOW);
  }

  lemma RemovedTwice(s: seq<Slot>)
    requires |Handlers(s, ALARM_LOW)| <= 1 && |Handlers(s, ALARM_HIGH)| <= 1
    ensures var r := Removed(Removed(s, ALARM_HIGH), ALARM_LOW);
            Handlers(r, ALARM_LOW) == Handlers(r, ALARM_HIGH) == []
  {
    RemovedHandlers(s, ALARM_HIGH, ALARM_LOW);
    RemovedHandlers(Removed(s, ALARM_HIGH), ALARM_LOW, ALARM_HIGH);
  }

  /** Activating keeps the registration right exactly if somebody is active already, or the AR
      holds an endpoint and there is room for both ids, or it holds none and there is no room at
      all, so that nothing happens. */
  lemma ActivateKeeps(n: Net, ar: nat)
    requires Registered(n)
    ensures Registered(Activated(n, ar)) <==>
              || AnyActive(n.entries)
              || (if Holds(n.entries, ar) then FreeSlots(n.slots) >= 2 else FreeSlots(n.slots) == 0)
  {
    var t := n.entries;
    var t' := Marked(t, ar, true);
    if AnyActive(t) {
      var i :| 0 <= i < |t| && t[i].active;
      assert t'[i].active;
    } else {
      AddedTwice(n.slots);
      if Holds(t, ar) {
        MarkedActive(t, ar);
      } else {
        AddedLow(n.slots);
      }
    }
  }

  /** With a single free slot the low id is registered and the high one is not; with none, neither. */
  lemma AddedLow(s: seq<Slot>)
    requires Handlers(s, ALARM_LOW) == Handlers(s, ALARM_HIGH) == []
    ensures var r := Added(Added(s, ALARM_LOW, ALARM_HANDLER), ALARM_HIGH, ALARM_HANDLER);
            Handlers(r, ALARM_LOW) == if FreeSlots(s) >= 1 then [ALARM_HANDLER] else []
  {
    var s1 := Added(s, ALARM_LOW, ALARM_HANDLER);
    AddedHandlers(s, ALARM_LOW, ALARM_HANDLER, ALARM_HIGH);
    AddedHandlers(s1, ALARM_HIGH, ALARM_HANDLER, ALARM_LOW);
  }

  /** Closing always keeps it right, even for an AR that is not active. */
  lemma CloseKeeps(n: Net, ar: nat)
    requires Registered(n)
    ensures Registered(Closed(n, ar))
  {
    var t := n.entries;
    var t' := Marked(t, ar, false);
    if AnyActive(t') {
      var i :| 0 <= i < |t'| && t'[i].active;
      assert t[i].active;
    } else {
      RemovedTwice(n.slots);
    }
  }

  /** Freeing an endpoint keeps it right exactly if the endpoint is not the only active one. */
  lemma FreeKeeps(n: Net, ar: nat)
    requires Registered(n)
    ensures Registered(n.(entries := Freed(n.entries, ar))) <==>
              !IsActive(n.entries, ar) || AnyActive(Freed(n.entries, ar))
  {
    var t := n.entries;
    var t' := Freed(t, ar);
    if IsActive(t, ar) {
      assert t[FirstOf(t, Some(ar))].active;
    } else {
      assert forall i :: 0 <= i < |t| ==> t'[i].active == t[i].active;
      if AnyActive(t) {
        var i :| 0 <= i < |t| && t[i].active;
        assert t'[i].active;
      }
    }
  }

  lemma AllocateKeeps(n: Net, ar: nat)
    requires Registered(n)
    ensures Registered(n.(entries := Allocated(n.entries, ar)))
  {
    var t := n.entries;
    var t' := Allocated(t, ar);
    assert forall i :: 0 <= i < |t| ==> t'[i].active == t[i].active;
    if AnyActive(t) {
      var i :| 0 <= i < |t| && t[i].active;
      assert t'[i].active;
    }
  }

  // ---------------------------------------------------------------- all interleavings

  datatype Op =
    | Allocate(ar: nat)
    | Free(ar: nat)
    | Activate(ar: nat)
    | Close(ar: nat)
    | Add(id: nat, handler: nat)     // by other parts of the stack
    | Remove(id: nat)

  ghost function Step(n: Net, op: Op): Net {
    match op
    case Allocate(ar) => n.(entries := Allocated(n.entries, ar))
    case Free(ar) => n.(entries := Freed(n.entries, ar))
    case Activate(ar) => Activated(n, ar)
    case Close(ar) => Closed(n, ar)
    case Add(id, handler) => n.(slots := Added(n.slots, id, handler))
    case Remove(id) => n.(slots := Removed(n.slots, id))
  }

  /** An AR is activated only while it holds an endpoint, the first of them only if the dispatcher
      has room; it gives the endpoint back only after closing.  Nobody else uses the alarm ids. */
  ghost predicate Disciplined(n: Net, op: Op) {
    match op
    case Allocate(ar) => !Holds(n.entries, ar)
    case Free(ar) => !IsActive(n.entries, ar)
    case Activate(ar) => Holds(n.entries, ar) && (AnyActive(n.entries) || FreeSlots(n.slots) >= 2)
    case Close(ar) => true
    case Add(id, _) => id != ALARM_LOW && id != ALARM_HIGH
    case Remove(id) => id != ALARM_LOW && id != ALARM_HIGH
  }

  ghost function Run(n: Net, ops: seq<Op>): Net
    decreases |ops|
  {
    if ops == [] then n else Run(Step(n, ops[0]), ops[1..])
  }

  ghost predicate DisciplinedRun(n: Net, ops: seq<Op>)
    decreases |ops|
  {
    ops == [] || (Disciplined(n, ops[0]) && DisciplinedRun(Step(n, ops[0]), ops[1..]))
  }

  lemma StepKeeps(n: Net, op: Op)
    requires Registered(n) && Disciplined(n, op)
    ensures Registered(Step(n, op))
  {
    match op
    case Allocate(ar) => AllocateKeeps(n, ar);
    case Free(ar) => FreeKeeps(n, ar);
    case Activate(ar) => ActivateKeeps(n, ar);
    case Close(ar) => CloseKeeps(n, ar);
    case Add(id, handler) =>
      AddedHandlers(n.slots, id, handler, ALARM_LOW);
      AddedHandlers(n.slots, id, handler, ALARM_HIGH);
    case Remove(id) =>
      RemovedHandlers(n.slots, id, ALARM_LOW);
      RemovedHandlers(n.slots, id, ALARM_HIGH);
  }

  /** However the ARs interleave, alarm frames reach the alarm handler exactly while some endpoint
      is active, and each alarm id takes one slot at most. */
  lemma {:induction false} RegisteredRun(n: Net, ops: seq<Op>)
    requires Registered(n) && DisciplinedRun(n, ops)
    ensures var r := Run(n, ops);
            && Registered(r)
            && Found(r.slots, ALARM_LOW) == Found(r.slots, ALARM_HIGH)
            && Found(r.slots, ALARM_LOW) == (if AnyActive(r.entries) then Some(ALARM_HANDLER) else None)
    decreases |ops|
  {
    if ops == [] {
      HandlersFound(n.slots, ALARM_LOW);
      HandlersFound(n.slots, ALARM_HIGH);
    } else {
      StepKeeps(n, ops[0]);
      RegisteredRun(Step(n, ops[0]), ops[1..]);
    }
  }

  // ---------------------------------------------------------------- endpoint numbers

  /** Endpoint `e`, and no other, belongs to `ar`. */
  predicate HoldsAt(t: seq<Entry>, ar: nat, e: nat) {
    0 < e <= |t| && forall i :: 0 <= i < |t| ==> (t[i].ar == Some(ar) <==> i == e - 1)
  }

  lemma AllocatedHoldsAt(t: seq<Entry>, ar: nat)
    requires !Holds(t, ar) && FirstOf(t, None) < |t|
    ensures HoldsAt(Allocated(t, ar), ar, FirstOf(t, None) + 1)
  {
  }

  /** Until an AR gives its endpoint back, frames for the endpoint's number go to this AR while it
      is active and to nobody otherwise, whatever the other ARs do. */
  lemma {:induction false} EndpointKept(n: Net, ops: seq<Op>, ar: nat, e: nat)
    requires HoldsAt(n.entries, ar, e) && DisciplinedRun(n, ops)
    requires forall k :: 0 <= k < |ops| ==> ops[k] != Free(ar)
    ensures var t := Run(n, ops).entries;
            && HoldsAt(t, ar, e)
            && Routed(t, e) == (if IsActive(t, ar) then Some(ar) else None)
    decreases |ops|
  {
    if ops == [] {
      FirstOfIs(n.entries, Some(ar), e - 1);
    } else {
      FirstOfIs(n.entries, Some(ar), e - 1);
      EndpointKept(Step(n, ops[0]), ops[1..], ar, e);
    }
  }

  /** An AR that was given an endpoint gets the frames for its number exactly while it is active. */
  lemma AllocatedIsRouted(n: Net, ar: nat, ops: seq<Op>)
    requires !Holds(n.entries, ar) && FirstOf(n.entries, None) < |n.entries|
    requires DisciplinedRun(Step(n, Allocate(ar)), ops) && forall k :: 0 <= k < |ops| ==> ops[k] != Free(ar)
    ensures var t := Run(Step(n, Allocate(ar)), ops).entries;
            Routed(t, FirstOf(n.entries, None) + 1) == (if IsActive(t, ar) then Some(ar) else None)
  {
    AllocatedHoldsAt(n.entries, ar);
    EndpointKept(Step(n, Allocate(ar)), ops, ar, FirstOf(n.entries, None) + 1);
  }
}
