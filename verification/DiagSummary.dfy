/**
 The alarm specifier and the maintenance status that go with an alarm: a summary of all
 diagnosis items of the sub-slot, collected along a linked list.  A 32-bit word is given by
 the set of its bits that are 1.
 */
module DiagSummary {
  type Bits = set<nat>

  function BitsFromTo(lo: nat, hi: nat): (r: Bits)
    ensures forall b :: b in r <==> lo <= b <= hi
    decreases hi - lo
  {
    if lo > hi then {} else {lo} + BitsFromTo(lo + 1, hi)
  }

  const USI_CHANNEL_DIAGNOSIS: nat := 0x8000

  const SEVERITY_MASK := BitsFromTo(3, 31)      // ~0x7
  const MASK_FAULT := BitsFromTo(27, 31)        // 0xf8000000
  const MASK_DEMANDED := BitsFromTo(17, 26)     // 0x07fe0000
  const MASK_REQUIRED := BitsFromTo(7, 16)      // 0x0001ff80
  const BIT_REQUIRED: nat := 0
  const BIT_DEMANDED: nat := 1

  datatype Severity = Fault | Required | Demanded | Qualified
  datatype Specifier = AllDisappear | Appears | Disappears | OthersRemain

  /** `severity` and `specifier` are bits 9..10 and 11..12 of the channel properties.  `next` is the
      index of the next item of the same sub-slot. */
  datatype Item = Item(usi: nat, severity: Severity, specifier: Specifier, qualifier: Bits, next: nat)

  datatype Summary = Summary(channel: bool, manufacturer: bool, submodule: bool, ar: bool, maintenance: Bits)
  const NoDiagnosis := Summary(false, false, false, false, {})

  // ---------------------------------------------------------------- what the summary means

  predicate Standard(d: Item) {
    d.usi >= USI_CHANNEL_DIAGNOSIS
  }

  /** The severity is given either directly or by a qualifier. */
  predicate Says(d: Item, severity: Severity, mask: Bits) {
    d.severity == severity || (d.severity == Qualified && d.qualifier * SEVERITY_MASK * mask != {})
  }

  predicate Appearing(d: Item) {
    Standard(d) && d.specifier == Appears
  }

  /** A manufacturer specific diagnosis, or a fault that appears. */
  predicate Serious(d: Item) {
    !Standard(d) || (Appearing(d) && Says(d, Fault, MASK_FAULT))
  }

  /** Is this bit of the maintenance status due to the item? */
  predicate Contributes(d: Item, bit: nat) {
    && Standard(d)
    && ((bit in d.qualifier && bit in SEVERITY_MASK)
        || (bit == BIT_REQUIRED && Says(d, Required, MASK_REQUIRED))
        || (bit == BIT_DEMANDED && Says(d, Demanded, MASK_DEMANDED)))
  }

  /** Each flag and each bit says that some item is so. */
  ghost predicate Summarizes(s: Summary, items: seq<Item>, sameAr: bool) {
    && (s.channel <==> exists d :: d in items && Appearing(d))
    && (s.manufacturer <==> exists d :: d in items && !Standard(d))
    && (s.submodule <==> exists d :: d in items && Serious(d))
    && (s.ar <==> sameAr && exists d :: d in items && Serious(d))
    && (forall bit :: bit in s.maintenance <==> exists d :: d in items && Contributes(d, bit))
  }

  // ---------------------------------------------------------------- one item more

  /** pf_alarm_add_diag_item_to_summary; `sameAr` says that this AR owns the sub-slot. */
  method AddItem(s: Summary, d: Item, sameAr: bool) returns (r: Summary)
    ensures r == Added(s, d, sameAr)
  {
    r := s;
    if d.usi < USI_CHANNEL_DIAGNOSIS {
      r := r.(manufacturer := true, submodule := true);
      if sameAr {
        r := r.(ar := true);
      }
    } else {
      r := AddStandard(s, d, sameAr);
    }
  }

  /** Diagnosis in standard format. */
  method AddStandard(s: Summary, d: Item, sameAr: bool) returns (r: Summary)
    requires Standard(d)
    ensures r == Added(s, d, sameAr)
  {
    hide Says;
    var qualifier := d.qualifier * SEVERITY_MASK;
    var required, demanded, fault := Grade(d, qualifier);
    var appears := d.specifier == Appears;
    var maintenance := s.maintenance + qualifier;
    if required {
      maintenance := maintenance + {BIT_REQUIRED};
    }
    if demanded {
      maintenance := maintenance + {BIT_DEMANDED};
    }
    assert maintenance == s.maintenance + Maintenance(d);
    r := s.(maintenance := maintenance);
    if appears {
      r := r.(channel := true);
    }
    if appears && fault {
      r := r.(submodule := true);
    }
    if appears && fault && sameAr {
      r := r.(ar := true);
    }
  }

  /** The severities of a diagnosis in standard format. */
  method Grade(d: Item, qualifier: Bits) returns (required: bool, demanded: bool, fault: bool)
    requires qualifier == d.qualifier * SEVERITY_MASK
    ensures required == Says(d, Required, MASK_REQUIRED)
    ensures demanded == Says(d, Demanded, MASK_DEMANDED)
    ensures fault == Says(d, Fault, MASK_FAULT)
  {
    required, demanded, fault := false, false, false;
    if d.severity == Required {
      required := true;
    } else if d.severity == Qualified {
      required := qualifier * MASK_REQUIRED != {};
    }
    if d.severity == Demanded {
      demanded := true;
    } else if d.severity == Qualified {
      demanded := qualifier * MASK_DEMANDED != {};
    }
    if d.severity == Fault {
      fault := true;
    } else if d.severity == Qualified {
      fault := qualifier * MASK_FAULT != {};
    }
  }

  /** The item's share of the maintenance status. */
  function Maintenance(d: Item): (r: Bits) {
    if !Standard(d) then {}
    else
      d.qualifier * SEVERITY_MASK
      + (if Says(d, Required, MASK_REQUIRED) then {BIT_REQUIRED} else {})
      + (if Says(d, Demanded, MASK_DEMANDED) then {BIT_DEMANDED} else {})
  }

  lemma MaintenanceBit(d: Item, bit: nat)
    ensures bit in Maintenance(d) <==> Contributes(d, bit)
  {
    hide Says;
  }

  function Added(s: Summary, d: Item, sameAr: bool): Summary {
    Summary(s.channel || Appearing(d), s.manufacturer || !Standard(d),
            s.submodule || Serious(d), s.ar || (sameAr && Serious(d)), s.maintenance + Maintenance(d))
  }

  /** Adding an item to a summary gives the summary of one item more. */
  lemma AddedSummarizes(s: Summary, items: seq<Item>, d: Item, sameAr: bool)
    requires Summarizes(s, items, sameAr)
    ensures Summarizes(Added(s, d, sameAr), items + [d], sameAr)
  {
    assert forall e :: e in items + [d] <==> e in items || e == d;
    forall bit
      ensures bit in s.maintenance + Maintenance(d) <==> exists e :: e in items + [d] && Contributes(e, bit)
    {
      MaintenanceBit(d, bit);
      if e :| e in items && Contributes(e, bit) {
        assert e in items + [d];
      }
      if Contributes(d, bit) {
        assert d in items + [d];
      }
    }
  }

  lemma NothingToSummarize(sameAr: bool)
    ensures Summarizes(NoDiagnosis, [], sameAr)
  {
  }

  // ---------------------------------------------------------------- the list

  /** Following `next` from `start` visits the items `path` and then leaves the store. */
  predicate Visits(store: seq<Item>, start: nat, path: seq<nat>)
    decreases |path|
  {
    if path == [] then start >= |store|
    else start < |store| && path[0] == start && Visits(store, store[start].next, path[1..])
  }

  function ItemsOf(store: seq<Item>, path: seq<nat>): (r: seq<Item>)
    requires forall ix :: ix in path ==> ix < |store|
    ensures |r| == |path|
  {
    seq(|path|, k requires 0 <= k < |path| && path[k] in path => store[path[k]])
  }

  lemma {:induction false} VisitsInStore(store: seq<Item>, start: nat, path: seq<nat>)
    requires Visits(store, start, path)
    ensures forall ix :: ix in path ==> ix < |store|
    decreases |path|
  {
    if path != [] {
      VisitsInStore(store, store[start].next, path[1..]);
      assert path == [start] + path[1..];
    }
  }

  lemma OneMoreItem(store: seq<Item>, path: seq<nat>, k: nat, current: seq<Item>)
    requires k < |path| && path[k] < |store| && forall ix :: ix in path ==> ix < |store|
    ensures (current + ItemsOf(store, path)[..k]) + [store[path[k]]] == current + ItemsOf(store, path)[..k + 1]
  {
  }

  /** pf_alarm_get_diag_summary for an existing sub-slot: the item not reported yet, if there is one,
      and then those of the sub-slot's list, which ends. */
  method Summarize(store: seq<Item>, start: nat, current: seq<Item>, sameAr: bool, ghost path: seq<nat>)
    returns (s: Summary)
    requires |current| <= 1 && Visits(store, start, path) && forall ix :: ix in path ==> ix < |store|
    ensures Summarizes(s, current + ItemsOf(store, path), sameAr)
  {
    hide Summarizes, Added, Contributes, Serious, Appearing, Standard, Says, BitsFromTo;
    s := NoDiagnosis;
    NothingToSummarize(sameAr);
    if current != [] {
      AddedSummarizes(s, [], current[0], sameAr);
      s := AddItem(s, current[0], sameAr);
      assert [] + [current[0]] == current;
    }
    var ix: nat := start;
    ghost var k := 0;
    assert current + ItemsOf(store, path)[..0] == current;
    while ix < |store|
      invariant k <= |path| && Visits(store, ix, path[k..])
      invariant Summarizes(s, current + ItemsOf(store, path)[..k], sameAr)
      decreases |path| - k
    {
      ghost var items := current + ItemsOf(store, path)[..k];
      assert path[k..][0] == ix && path[k..][1..] == path[k + 1..];
      AddedSummarizes(s, items, store[ix], sameAr);
      s := AddItem(s, store[ix], sameAr);
      OneMoreItem(store, path, k, current);
      ix := store[ix].next;
      k := k + 1;
    }
    assert ItemsOf(store, path)[..k] == ItemsOf(store, path);
  }

  // ---------------------------------------------------------------- properties of the summary

  /** The summary depends only on which items there are, not on their order or repetition. */
  lemma SummaryOfSet(s: Summary, t: Summary, items: seq<Item>, others: seq<Item>, sameAr: bool)
    requires Summarizes(s, items, sameAr) && Summarizes(t, others, sameAr)
    requires forall d :: d in items <==> d in others
    ensures s == t
  {
    forall bit ensures bit in s.maintenance <==> bit in t.maintenance {
      if d :| d in items && Contributes(d, bit) {
        assert d in others;
      }
      if d :| d in others && Contributes(d, bit) {
        assert d in items;
      }
    }
    assert s.maintenance == t.maintenance;
    SameFlags(items, others);
  }

  lemma SameFlags(items: seq<Item>, others: seq<Item>)
    requires forall d :: d in items <==> d in others
    ensures (exists d :: d in items && Appearing(d)) <==> (exists d :: d in others && Appearing(d))
    ensures (exists d :: d in items && !Standard(d)) <==> (exists d :: d in others && !Standard(d))
    ensures (exists d :: d in items && Serious(d)) <==> (exists d :: d in others && Serious(d))
  {
  }

  /** A diagnosis in the AR is one in the sub-module, and that is a channel's or a manufacturer's. */
  lemma FlagsAreNested(s: Summary, items: seq<Item>, sameAr: bool)
    requires Summarizes(s, items, sameAr)
    ensures s.ar ==> s.submodule
    ensures s.submodule ==> s.channel || s.manufacturer
    ensures s.ar <==> sameAr && s.submodule
  {
    if s.submodule {
      var d :| d in items && Serious(d);
      assert !Standard(d) || Appearing(d);
    }
  }

  /** Bit 2 is never set; bits 0 and 1 only tell of severities. */
  lemma MaintenanceBits(s: Summary, items: seq<Item>, sameAr: bool)
    requires Summarizes(s, items, sameAr)
    ensures 2 !in s.maintenance
    ensures BIT_REQUIRED in s.maintenance <==> exists d :: d in items && Standard(d) && Says(d, Required, MASK_REQUIRED)
    ensures BIT_DEMANDED in s.maintenance <==> exists d :: d in items && Standard(d) && Says(d, Demanded, MASK_DEMANDED)
  {
    if d :| d in items && Standard(d) && Says(d, Required, MASK_REQUIRED) {
      assert Contributes(d, BIT_REQUIRED);
    }
    if d :| d in items && Standard(d) && Says(d, Demanded, MASK_DEMANDED) {
      assert Contributes(d, BIT_DEMANDED);
    }
  }

  lemma OneItem(s: Summary, d: Item, sameAr: bool)
    requires Summarizes(s, [d], sameAr)
    ensures s.channel == Appearing(d) && s.manufacturer == !Standard(d) && s.submodule == Serious(d)
    ensures s.ar == (sameAr && Serious(d)) && forall bit :: bit in s.maintenance <==> Contributes(d, bit)
  {
    assert [d][0] == d;
    hide Appearing, Standard, Serious, Contributes;
  }

  lemma QualifierSays(d: Item, bit: nat)
    requires d.severity == Qualified && d.qualifier == {bit} && bit <= 31
    ensures Says(d, Required, MASK_REQUIRED) <==> 7 <= bit <= 16
    ensures Says(d, Demanded, MASK_DEMANDED) <==> 17 <= bit <= 26
    ensures Says(d, Fault, MASK_FAULT) <==> 27 <= bit
  {
    OneBit(bit, MASK_REQUIRED);
    OneBit(bit, MASK_DEMANDED);
    OneBit(bit, MASK_FAULT);
  }

  /** What a qualified diagnosis amounts to, qualifier bit by qualifier bit: bits 7 to 16 ask for
      maintenance, bits 17 to 26 demand it, and bits 27 to 31 are faults; bits 0 to 2 say nothing. */
  lemma QualifierGrades(s: Summary, d: Item, bit: nat)
    requires Summarizes(s, [d], true) && bit <= 31
    requires d.usi >= 0x8000 && d.severity == Qualified && d.qualifier == {bit}
    ensures s.maintenance == (if bit >= 3 then {bit} else {})
                             + (if 7 <= bit <= 16 then {0} else {}) + (if 17 <= bit <= 26 then {1} else {})
    ensures s.submodule == s.ar == (d.specifier == Appears && 27 <= bit)
    ensures s.channel == (d.specifier == Appears) && !s.manufacturer
  {
    hide Says, Summarizes, Contributes, BitsFromTo;
    OneItem(s, d, true);
    QualifierSays(d, bit);
    forall b
      ensures b in s.maintenance <==>
                (b == bit && 3 <= bit) || (b == 0 && 7 <= bit <= 16) || (b == 1 && 17 <= bit <= 26)
    {
      QualifierBit(d, bit, b);
    }
  }

  lemma QualifierBit(d: Item, bit: nat, b: nat)
    requires d.usi >= 0x8000 && d.severity == Qualified && d.qualifier == {bit} && bit <= 31
    ensures Contributes(d, b) <==>
              (b == bit && 3 <= bit) || (b == 0 && 7 <= bit <= 16) || (b == 1 && 17 <= bit <= 26)
  {
    QualifierSays(d, bit);
    hide Says;
  }

  lemma OneBit(bit: nat, mask: Bits)
    ensures {bit} * SEVERITY_MASK * mask != {} <==> bit in SEVERITY_MASK && bit in mask
  {
    if bit in SEVERITY_MASK && bit in mask {
      assert bit in {bit} * SEVERITY_MASK * mask;
    }
  }
}
