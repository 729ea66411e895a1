/**
 The table that tells which handler a Profinet frame id belongs to: a fixed array of slots,
 searched from the front.  It stands for a partial map from frame ids to handlers.
 */
module FrameIdMap {
  import opened Wrappers

  datatype Slot = Slot(inUse: bool, frameId: nat, handler: nat)
  predicate Matches(s: Slot, id: nat) {
    s.inUse && s.frameId == id
  }

  /** The first free slot, or the number of slots if there is none. */
  function FirstFree(s: seq<Slot>): (k: nat)
    ensures k <= |s| && (forall i :: 0 <= i < k ==> s[i].inUse) && (k < |s| ==> !s[k].inUse)
  {
    FirstWhere(s, (slot: Slot) => !slot.inUse)
  }

  /** The first slot in use for `id`, or the number of slots if there is none. */
  function FirstMatch(s: seq<Slot>, id: nat): (k: nat)
    ensures k <= |s| && (forall i :: 0 <= i < k ==> !Matches(s[i], id)) && (k < |s| ==> Matches(s[k], id))
  {
    FirstWhere(s, (slot: Slot) => Matches(slot, id))
  }

  function Added(s: seq<Slot>, id: nat, handler: nat): seq<Slot> {
    var k := FirstFree(s);
    if k < |s| then s[k := Slot(true, id, handler)] else s
  }

  function Removed(s: seq<Slot>, id: nat): seq<Slot> {
    var k := FirstMatch(s, id);
    if k < |s| then s[k := s[k].(inUse := false)] else s
  }

  function Found(s: seq<Slot>, id: nat): Option<nat> {
    var k := FirstMatch(s, id);
    if k < |s| then Some(s[k].handler) else None
  }

  class Table {
    const slots: array<Slot>

    constructor (size: nat)
      ensures fresh(slots) && slots.Length == size && forall i :: 0 <= i < size ==> !slots[i].inUse
    {
      slots := new Slot[size](_ => Slot(false, 0, 0));
    }

    /** The search of pf_eth_recv. */
    method Lookup(id: nat) returns (handler: Option<nat>)
      ensures handler == Found(slots[..], id)
    {
      var ix := 0;
      while ix < slots.Length && (!slots[ix].inUse || slots[ix].frameId != id)
        invariant ix <= slots.Length && forall i :: 0 <= i < ix ==> !Matches(slots[i], id)
      {
        ix := ix + 1;
      }
      FirstMatchIs(slots[..], id, ix);
      handler := if ix < slots.Length then Some(slots[ix].handler) else None;
    }

    /** Takes the first free slot; without one nothing happens and nobody is told. */
    method Add(id: nat, handler: nat)
      modifies slots
      ensures slots[..] == Added(old(slots[..]), id, handler)
    {
      var ix := 0;
      while ix < slots.Length && slots[ix].inUse
        invariant ix <= slots.Length && forall i :: 0 <= i < ix ==> slots[i].inUse
      {
        ix := ix + 1;
      }
      FirstFreeIs(slots[..], ix);
      if ix < slots.Length {
        slots[ix] := Slot(true, id, handler);
      }
    }

    /** Releases the first slot in use for `id`. */
    method Remove(id: nat)
      modifies slots
      ensures slots[..] == Removed(old(slots[..]), id)
    {
      var ix := 0;
      while ix < slots.Length && (!slots[ix].inUse || slots[ix].frameId != id)
        invariant ix <= slots.Length && forall i :: 0 <= i < ix ==> !Matches(slots[i], id)
      {
        ix := ix + 1;
      }
      FirstMatchIs(slots[..], id, ix);
      if ix < slots.Length {
        slots[ix] := slots[ix].(inUse := false);
      }
    }
  }

  lemma FirstMatchIs(s: seq<Slot>, id: nat, k: nat)
    requires k <= |s| && (forall i :: 0 <= i < k ==> !Matches(s[i], id)) && (k < |s| ==> Matches(s[k], id))
    ensures FirstMatch(s, id) == k
  {
  }

  lemma FirstFreeIs(s: seq<Slot>, k: nat)
    requires k <= |s| && (forall i :: 0 <= i < k ==> s[i].inUse) && (k < |s| ==> !s[k].inUse)
    ensures FirstFree(s) == k
  {
  }

  // ---------------------------------------------------------------- the partial map

  /** The map the table stands for. */
  ghost function View(s: seq<Slot>): (m: map<nat, nat>)
    ensures forall id :: Found(s, id) == if id in m then Some(m[id]) else None
  {
    var ids := set i | 0 <= i < |s| && s[i].inUse :: s[i].frameId;
    var m := map id | id in ids :: Handler(s, id);
    assert forall id :: id in ids <==> Found(s, id).Some? by {
      forall id ensures id in ids <==> Found(s, id).Some? {
        if i :| 0 <= i < |s| && s[i].inUse && s[i].frameId == id {
          assert Matches(s[i], id);
        }
      }
    }
    m
  }

  function Handler(s: seq<Slot>, id: nat): nat {
    if Found(s, id).Some? then Found(s, id).value else 0
  }

  lemma SameView(s: seq<Slot>, m: map<nat, nat>)
    requires forall id :: Found(s, id) == if id in m then Some(m[id]) else None
    ensures View(s) == m
  {
    var v := View(s);
    forall id ensures (id in v <==> id in m) && (id in m ==> v[id] == m[id]) {
      assert Found(s, id) == if id in v then Some(v[id]) else None;
    }
  }

  /** What is registered for an id, in the order of the slots. */
  function Handlers(s: seq<Slot>, id: nat): seq<nat> {
    if s == [] then [] else (if Matches(s[0], id) then [s[0].handler] else []) + Handlers(s[1..], id)
  }

  function FreeSlots(s: seq<Slot>): nat {
    if s == [] then 0 else (if s[0].inUse then 0 else 1) + FreeSlots(s[1..])
  }

  lemma {:induction false} HandlersFound(s: seq<Slot>, id: nat)
    ensures Found(s, id) == if Handlers(s, id) == [] then None else Some(Handlers(s, id)[0])
  {
    if s != [] && !Matches(s[0], id) {
      HandlersFound(s[1..], id);
    }
  }

  /** Removing an id takes away the oldest of its registrations and nothing else. */
  lemma {:induction false} RemovedHandlers(s: seq<Slot>, id: nat, other: nat)
    ensures var r := Removed(s, id);
            && Handlers(r, id) == (if Handlers(s, id) == [] then [] else Handlers(s, id)[1..])
            && (other != id ==> Handlers(r, other) == Handlers(s, other))
            && FreeSlots(r) == FreeSlots(s) + (if Handlers(s, id) == [] then 0 else 1)
  {
    if s != [] {
      var r := Removed(s, id);
      if Matches(s[0], id) {
        assert r[1..] == s[1..];
      } else {
        RemovedHandlers(s[1..], id, other);
        assert r[0] == s[0] && r[1..] == Removed(s[1..], id);
      }
    }
  }

  /** Adding an id inserts one registration, at the first free slot, and nothing else. */
  lemma {:induction false} AddedHandlers(s: seq<Slot>, id: nat, handler: nat, other: nat)
    ensures var r := Added(s, id, handler);
            && (FreeSlots(s) == 0 <==> FirstFree(s) == |s|)
            && FreeSlots(r) == (if FreeSlots(s) == 0 then 0 else FreeSlots(s) - 1)
            && (other != id ==> Handlers(r, other) == Handlers(s, other))
            && |Handlers(r, id)| == |Handlers(s, id)| + (if FreeSlots(s) == 0 then 0 else 1)
            && (FreeSlots(s) > 0 && Handlers(s, id) == [] ==> Handlers(r, id) == [handler])
  {
    if s != [] {
      var r := Added(s, id, handler);
      if s[0].inUse {
        AddedHandlers(s[1..], id, handler, other);
        if FirstFree(s) < |s| {
          assert r[0] == s[0] && r[1..] == Added(s[1..], id, handler);
        }
      } else {
        assert r[1..] == s[1..];
      }
    }
  }

  // ---------------------------------------------------------------- refinement

  lemma FoundAfterAdd(s: seq<Slot>, id: nat, handler: nat, other: nat)
    ensures var r := Added(s, id, handler);
            Found(r, other) ==
              if other == id && FirstFree(s) < |s| && FirstFree(s) < FirstMatch(s, id) then Some(handler)
              else Found(s, other)
  {
    var r := Added(s, id, handler);
    var k := FirstFree(s);
    if k < |s| {
      if other == id && k < FirstMatch(s, id) {
        FirstMatchIs(r, id, k);
      } else {
        FirstMatchIs(r, other, FirstMatch(s, other));
      }
    }
  }

  /** Adding a handler has the effect of a map update exactly if a free slot lies before the id's
      present registration, or the handler is the one found already. */
  lemma AddIsUpdate(s: seq<Slot>, id: nat, handler: nat)
    ensures View(Added(s, id, handler)) == View(s)[id := handler] <==>
              FirstFree(s) < FirstMatch(s, id) || Found(s, id) == Some(handler)
    ensures !(FirstFree(s) < FirstMatch(s, id)) ==> View(Added(s, id, handler)) == View(s)
  {
    var r := Added(s, id, handler);
    var v := View(s);
    forall other ensures Found(r, other) == if other == id && FirstFree(s) < |s| && FirstFree(s) < FirstMatch(s, id)
                                            then Some(handler) else Found(s, other)
    {
      FoundAfterAdd(s, id, handler, other);
    }
    if FirstFree(s) < FirstMatch(s, id) {
      SameView(r, v[id := handler]);
    } else {
      SameView(r, v);
      if Found(s, id) == Some(handler) {
        assert v[id := handler] == v;
      } else {
        assert v[id := handler][id] == handler;
      }
    }
  }

  /** Removing an id has the effect of a map removal exactly if it is registered at most once. */
  lemma RemoveIsRemoval(s: seq<Slot>, id: nat)
    ensures View(Removed(s, id)) == View(s) - {id} <==> |Handlers(s, id)| <= 1
  {
    var r := Removed(s, id);
    var v := View(s);
    forall other ensures other != id ==> Found(r, other) == Found(s, other) {
      RemovedHandlers(s, id, other);
      HandlersFound(s, other);
      HandlersFound(r, other);
    }
    RemovedHandlers(s, id, id);
    HandlersFound(r, id);
    if |Handlers(s, id)| <= 1 {
      SameView(r, v - {id});
    } else {
      assert Found(r, id).Some?;
      assert id in View(r);
    }
  }

  lemma NotInView(s: seq<Slot>, id: nat)
    requires Found(s, id) == None
    ensures id !in View(s)
  {
  }

  /** A new registration can be taken back: the map is as before. */
  lemma AddThenRemove(s: seq<Slot>, id: nat, handler: nat)
    requires Found(s, id) == None
    ensures View(Removed(Added(s, id, handler), id)) == View(s)
  {
    hide Added, Removed, Found, View;
    var r := Added(s, id, handler);
    AddedHandlers(s, id, handler, id);
    HandlersFound(s, id);
    RemoveIsRemoval(r, id);
    AddIsUpdate(s, id, handler);
    var v := View(s);
    NotInView(s, id);
    assert v[id := handler] - {id} == v;
    assert v - {id} == v;
  }
}
