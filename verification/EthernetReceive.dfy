/**
 How a received Ethernet frame finds its handler: VLAN tags are skipped, then the frame id
 is looked up.  Bytes are numbers below 256.
 */
module EthernetReceive {
  import opened FrameIdMap
  import opened Wrappers

  const ETHTYPE_VLAN := 0x8100
  const ETHTYPE_PROFINET := 0x8892
  const ETHTYPE_LLDP := 0x88cc

  /** Big-endian word at a position. */
  function Word(p: seq<nat>, pos: nat): nat
    requires pos + 2 <= |p|
  {
    p[pos] * 0x100 + p[pos + 1]
  }

  /** How many VLAN tags follow each other from `pos` on. */
  function VlanTags(p: seq<nat>, pos: nat): nat
    decreases |p| - pos
  {
    if pos + 2 <= |p| && Word(p, pos) == ETHTYPE_VLAN then 1 + VlanTags(p, pos + 4) else 0
  }

  /** Where the Ethernet type that is not a VLAN tag lies. */
  function EthTypePos(p: seq<nat>): nat {
    12 + 4 * VlanTags(p, 12)
  }

  /** The frame has an Ethernet type after its tags and, if it is a Profinet frame, a frame id. */
  predicate Complete(p: seq<nat>) {
    var pos := EthTypePos(p);
    pos + 2 <= |p| && (Word(p, pos) == ETHTYPE_PROFINET ==> pos + 4 <= |p|)
  }

  datatype Destination =
    | Handler(handler: nat, frameId: nat, framePos: nat)
    | Lldp(framePos: nat)
    | NotHandled

  /** Who gets the frame, as a function of the partial map of frame ids. */
  function Destined(m: map<nat, nat>, p: seq<nat>): Destination
    requires Complete(p)
  {
    var pos := EthTypePos(p);
    var ethType := Word(p, pos);
    if ethType == ETHTYPE_PROFINET then
      var frameId := Word(p, pos + 2);
      if frameId in m then Handler(m[frameId], frameId, pos + 2) else NotHandled
    else if ethType == ETHTYPE_LLDP then Lldp(pos + 2)
    else NotHandled
  }

  lemma {:induction false} TagsFit(p: seq<nat>, pos: nat, tags: nat)
    requires tags < VlanTags(p, pos)
    ensures pos + 4 * tags + 2 <= |p| && Word(p, pos + 4 * tags) == ETHTYPE_VLAN
    ensures VlanTags(p, pos + 4 * tags) == VlanTags(p, pos) - tags
    decreases tags
  {
    if tags > 0 {
      TagsFit(p, pos + 4, tags - 1);
    }
  }

  /** pf_eth_recv */
  method Receive(table: Table, p: seq<nat>) returns (d: Destination)
    requires Complete(p)
    ensures d == Destined(View(table.slots[..]), p)
  {
    var pos := 12;
    ghost var tags := 0;
    var ethType := Word(p, pos);
    while ethType == ETHTYPE_VLAN
      invariant pos == 12 + 4 * tags && tags <= VlanTags(p, 12) && pos + 2 <= |p|
      invariant VlanTags(p, pos) == VlanTags(p, 12) - tags
      invariant ethType == Word(p, pos)
      decreases |p| - pos
    {
      pos, tags := pos + 4, tags + 1;
      if tags < VlanTags(p, 12) {
        TagsFit(p, 12, tags);
      }
      ethType := Word(p, pos);
    }
    var framePos := pos + 2;
    if ethType == ETHTYPE_PROFINET {
      var frameId := Word(p, framePos);
      var handler := table.Lookup(frameId);
      d := if handler.Some? then Handler(handler.value, frameId, framePos) else NotHandled;
    } else if ethType == ETHTYPE_LLDP {
      d := Lldp(framePos);
    } else {
      d := NotHandled;
    }
  }

  /** An untagged frame: type 0x8892 in bytes 12 and 13 makes it a Profinet frame, whose id lies in bytes
      14 and 15; type 0x88cc makes it an LLDP frame; nobody gets any other. */
  lemma Untagged(m: map<nat, nat>, p: seq<nat>)
    requires |p| >= 16 && !(p[12] == 0x81 && p[13] == 0x00) && p[13] < 0x100 && p[15] < 0x100
    ensures Complete(p)
    ensures var frameId := p[14] * 0x100 + p[15];
            Destined(m, p) ==
              if p[12] == 0x88 && p[13] == 0x92 then
                if frameId in m then Handler(m[frameId], frameId, 14) else NotHandled
              else if p[12] == 0x88 && p[13] == 0xcc then Lldp(14)
              else NotHandled
  {
    assert VlanTags(p, 12) == 0;
    var high, low := p[12], p[13];
    assert high * 0x100 + low == 0x8892 ==> high == 0x88 && low == 0x92;
    assert high * 0x100 + low == 0x88cc ==> high == 0x88 && low == 0xcc;
  }

  // ---------------------------------------------------------------- tagging does not matter

  /** An untagged frame with VLAN tags put between its addresses and its type. */
  function Tagged(p: seq<nat>, tags: seq<nat>): seq<nat>
    requires 12 <= |p|
  {
    p[..12] + TagBytes(tags) + p[12..]
  }

  function TagBytes(tags: seq<nat>): (r: seq<nat>)
    ensures |r| == 4 * |tags|
  {
    if tags == [] then [] else [0x81, 0x00, tags[0] / 0x100, tags[0] % 0x100] + TagBytes(tags[1..])
  }

  lemma {:induction false} TagsCounted(head: seq<nat>, tags: seq<nat>, rest: seq<nat>)
    requires |rest| >= 2 && Word(rest, 0) != ETHTYPE_VLAN
    ensures VlanTags(head + TagBytes(tags) + rest, |head|) == |tags|
    decreases |tags|
  {
    var p := head + TagBytes(tags) + rest;
    if tags == [] {
      assert Word(p, |head|) == Word(rest, 0);
    } else {
      var tag := [0x81, 0x00, tags[0] / 0x100, tags[0] % 0x100];
      assert p == (head + tag) + TagBytes(tags[1..]) + rest;
      assert Word(p, |head|) == ETHTYPE_VLAN;
      TagsCounted(head + tag, tags[1..], rest);
    }
  }

  /** The same frame with its position, whatever the tagging. */
  function Moved(d: Destination, shift: nat): Destination {
    match d
    case Handler(h, frameId, pos) => Handler(h, frameId, pos + shift)
    case Lldp(pos) => Lldp(pos + shift)
    case NotHandled => NotHandled
  }

  /** Any number of VLAN tags leaves the destination as it is and moves the frame position by
      their length, so that handlers see the same bytes from there on. */
  lemma TaggingIsTransparent(m: map<nat, nat>, p: seq<nat>, tags: seq<nat>)
    requires Complete(p) && VlanTags(p, 12) == 0
    ensures var q := Tagged(p, tags);
            && Complete(q)
            && Destined(m, q) == Moved(Destined(m, p), 4 * |tags|)
            && EthTypePos(q) == 12 + 4 * |tags|
            && q[EthTypePos(q)..] == p[12..]
  {
    var q := Tagged(p, tags);
    assert Word(p, 12) == Word(p[12..], 0);
    TagsCounted(p[..12], tags, p[12..]);
    assert q[12 + 4 * |tags|..] == p[12..];
    var pos := EthTypePos(q);
    assert Word(q, pos) == Word(q[pos..], 0) == Word(p, 12);
    if Word(p, 12) == ETHTYPE_PROFINET {
      assert Word(q, pos + 2) == Word(q[pos..], 2) == Word(p[12..], 2) == Word(p, 14);
    }
  }
}
