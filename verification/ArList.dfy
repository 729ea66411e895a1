/**
 The sample application's list of ARs: an array whose entries end at the first unused one.
 Entries may be deleted while the list is iterated over; when the iteration ends, the
 remaining ones move together.
 */
module ArList {
  import opened EventBits
  import opened Wrappers

  /** The reserved number of an unused entry. */
  const UNUSED: nat := 0xffff_ffff

  datatype Entry = Entry(arep: nat, events: bv32)

  function WithEvent(e: Entry, event: bv32): (r: Entry)
    ensures r.arep == e.arep
  {
    e.(events := With(e.events, event))
  }

  function WithoutEvent(e: Entry, event: bv32): Entry {
    e.(events := Without(e.events, event))
  }

  // ---------------------------------------------------------------- contents

  /** The entries in use, in order. */
  function Live(s: seq<Entry>): seq<Entry> {
    if s == [] then []
    else Live(s[..|s| - 1]) + (if s[|s| - 1].arep != UNUSED then [s[|s| - 1]] else [])
  }

  /** The entries in use come first. */
  predicate Tidy(s: seq<Entry>) {
    forall i, j :: 0 <= i < j < |s| && s[i].arep == UNUSED ==> s[j].arep == UNUSED
  }

  lemma {:induction false} LiveConcat(s: seq<Entry>, t: seq<Entry>)
    ensures Live(s + t) == Live(s) + Live(t)
    decreases |t|
  {
    if t == [] {
      assert s + t == s;
    } else {
      assert (s + t)[..|s + t| - 1] == s + t[..|t| - 1];
      LiveConcat(s, t[..|t| - 1]);
    }
  }

  lemma {:induction false} AllUnused(s: seq<Entry>)
    requires forall i :: 0 <= i < |s| ==> s[i].arep == UNUSED
    ensures Live(s) == []
  {
    if s != [] {
      AllUnused(s[..|s| - 1]);
    }
  }

  lemma {:induction false} AllUsed(s: seq<Entry>)
    requires forall i :: 0 <= i < |s| ==> s[i].arep != UNUSED
    ensures Live(s) == s
  {
    if s != [] {
      AllUsed(s[..|s| - 1]);
      assert s == s[..|s| - 1] + [s[|s| - 1]];
    }
  }

  /** A tidy array starts with its contents. */
  lemma TidyLive(s: seq<Entry>, n: nat)
    requires n <= |s| && (forall i :: 0 <= i < n ==> s[i].arep != UNUSED)
    requires forall i :: n <= i < |s| ==> s[i].arep == UNUSED
    ensures Live(s) == s[..n]
  {
    var used, unused := s[..n], s[n..];
    assert s == used + unused;
    hide Live;
    AllUsed(used);
    AllUnused(unused);
    LiveConcat(used, unused);
    assert used + [] == used;
  }

  lemma LiveOfFour(a: seq<Entry>, b: seq<Entry>, c: seq<Entry>, d: seq<Entry>)
    ensures Live(a + b + c + d) == Live(a) + Live(b) + Live(c) + Live(d)
  {
    LiveConcat(a, b);
    LiveConcat(a + b, c);
    LiveConcat(a + b + c, d);
  }

  /** The array in four parts, before and after. */
  lemma MovedParts(s: seq<Entry>, i: nat, j: nat, hole: Entry)
    requires i < j < |s|
    ensures s == s[..i] + s[i..j] + [s[j]] + s[j + 1..]
    ensures s[i := s[j]][j := hole] == s[..i] + [s[j]] + (s[i + 1..j] + [hole]) + s[j + 1..]
  {
  }

  /** Moving the next entry in use into a hole does not change the contents. */
  lemma LiveMoved(s: seq<Entry>, i: nat, j: nat)
    requires i < j < |s| && (forall k :: i <= k < j ==> s[k].arep == UNUSED) && s[j].arep != UNUSED
    ensures Live(s[i := s[j]][j := s[j].(arep := UNUSED)]) == Live(s)
  {
    hide Live;
    var hole := s[j].(arep := UNUSED);
    var gap, filled := s[i..j], s[i + 1..j] + [hole];
    MovedParts(s, i, j, hole);
    AllUnused(gap);
    AllUnused(filled);
    LiveOfFour(s[..i], gap, [s[j]], s[j + 1..]);
    LiveOfFour(s[..i], [s[j]], filled, s[j + 1..]);
  }

  // ---------------------------------------------------------------- iteration

  class Iterator {
    const ar: array<Entry>
    var index: int
    var modified: bool

    /** app_ar_iterator_init */
    constructor (ar: array<Entry>)
      ensures this.ar == ar && index == -1 && !modified
    {
      this.ar, index, modified := ar, -1, false;
    }

    /** app_ar_iterator_next: when there is no further entry, holes are closed. */
    method Next() returns (found: bool)
      requires -1 <= index < ar.Length
      modifies this, ar
      ensures index == old(index) + 1 && modified == old(modified)
      ensures found == (index < ar.Length && old(ar[..])[index].arep != UNUSED)
      ensures found || !modified || ar.Length <= 1 ==> ar[..] == old(ar[..])
      ensures Live(ar[..]) == Live(old(ar[..]))
      ensures !found && modified && 1 < ar.Length ==> Tidy(ar[..])
    {
      index := index + 1;
      found := index < ar.Length && ar[index].arep != UNUSED;
      if !found && ar.Length > 1 && modified {
        Compact();
      }
    }

    /** Each hole is filled with the next entry in use, until there is none. */
    method Compact()
      requires ar.Length > 1
      modifies ar
      ensures Live(ar[..]) == Live(old(ar[..])) && Tidy(ar[..])
    {
      var i := 0;
      while i < ar.Length
        invariant 0 <= i <= ar.Length
        invariant forall k :: 0 <= k < i ==> ar[k].arep != UNUSED
        invariant Live(ar[..]) == Live(old(ar[..]))
      {
        if ar[i].arep == UNUSED {
          var j := i + 1;
          while j < ar.Length && ar[j].arep == UNUSED
            invariant i < j <= ar.Length && forall k :: i <= k < j ==> ar[k].arep == UNUSED
          {
            j := j + 1;
          }
          if j < ar.Length {
            LiveMoved(ar[..], i, j);
            ghost var before := ar[..];
            ar[i] := ar[j];
            ar[j] := ar[j].(arep := UNUSED);
            assert ar[..] == before[i := before[j]][j := before[j].(arep := UNUSED)];
          }
          if j >= ar.Length - 1 {
            break;
          }
        }
        i := i + 1;
      }
    }

    /** app_ar_iterator_done */
    method Done() returns (done: bool)
      requires -1 <= index
      ensures done == !(index < 0 || (index < ar.Length && ar[index].arep != UNUSED))
    {
      done := !(index < 0 || (index < ar.Length && ar[index].arep != UNUSED));
    }

    /** app_ar_iterator_delete_current */
    method DeleteCurrent()
      requires 0 <= index
      modifies this`modified, ar
      ensures index < ar.Length ==> modified && ar[..] == old(ar[..])[index := old(ar[index]).(arep := UNUSED)]
      ensures index >= ar.Length ==> modified == old(modified) && ar[..] == old(ar[..])
    {
      if index < ar.Length {
        ar[index] := ar[index].(arep := UNUSED);
        modified := true;
      }
    }
  }

  lemma {:induction false} TidyPrefix(s: seq<Entry>)
    requires Tidy(s)
    ensures |Live(s)| <= |s| && Live(s) == s[..|Live(s)|]
    ensures forall i :: |Live(s)| <= i < |s| ==> s[i].arep == UNUSED
    ensures forall i :: 0 <= i < |Live(s)| ==> s[i].arep != UNUSED
  {
    if s != [] {
      var t := s[..|s| - 1];
      TidyPrefix(t);
      if s[|s| - 1].arep != UNUSED {
        AllUsed(s);
      }
    }
  }

  // ---------------------------------------------------------------- setting an event

  /** The first entry of an AR, or the number of entries if there is none. */
  function Position(s: seq<Entry>, arep: nat): (k: nat)
    ensures k <= |s| && (forall i :: 0 <= i < k ==> s[i].arep != arep) && (k < |s| ==> s[k].arep == arep)
  {
    FirstWhere(s, (e: Entry) => e.arep == arep)
  }

  lemma PositionIs(s: seq<Entry>, arep: nat, k: nat)
    requires k <= |s| && (forall i :: 0 <= i < k ==> s[i].arep != arep) && (k < |s| ==> s[k].arep == arep)
    ensures Position(s, arep) == k
  {
  }

  /** The event is noted at the AR's entry; a new entry is made at the end if that is wanted. */
  function EventSet(s: seq<Entry>, arep: nat, event: bv32, add: bool, room: nat): seq<Entry> {
    var k := Position(s, arep);
    if k < |s| then s[k := WithEvent(s[k], event)]
    else if add && |s| < room && arep != UNUSED then s + [WithEvent(Entry(arep, 0), event)]
    else s
  }

  /** The same on the array.  Only the entries before the first unused one are seen, and that one is
      taken for a new entry. */
  function Noted(s: seq<Entry>, arep: nat, event: bv32, add: bool): seq<Entry> {
    var n := Position(s, UNUSED);
    var k := Position(s[..n], arep);
    if k < n then s[k := WithEvent(s[k], event)]
    else if add && n < |s| then s[n := WithEvent(Entry(arep, 0), event)]
    else s
  }

  /** app_ar_add_arep */
  method AddArep(ar: array<Entry>, arep: nat) returns (ok: bool, k: nat)
    modifies ar
    ensures k == Position(old(ar[..]), UNUSED) && ok == (k < ar.Length)
    ensures ar[..] == if ok then old(ar[..])[k := Entry(arep, 0)] else old(ar[..])
  {
    for i := 0 to ar.Length
      invariant forall j :: 0 <= j < i ==> ar[j].arep != UNUSED
      invariant ar[..] == old(ar[..])
    {
      if ar[i].arep == UNUSED {
        PositionIs(ar[..], UNUSED, i);
        ar[i] := Entry(arep, 0);
        return true, i;
      }
    }
    PositionIs(ar[..], UNUSED, ar.Length);
    return false, ar.Length;
  }

  /** app_event_set */
  method SetEvent(ar: array<Entry>, arep: nat, event: bv32, add: bool)
    modifies ar
    ensures ar[..] == Noted(old(ar[..]), arep, event, add)
  {
    ghost var s := ar[..];
    ghost var n := Position(s, UNUSED);
    var it := new Iterator(ar);
    var found := it.Next();
    while found
      invariant 0 <= it.index <= n && found == (it.index < n) && !it.modified && it.ar == ar && ar[..] == s
      invariant forall j :: 0 <= j < it.index ==> s[j].arep != arep
      decreases n - it.index
    {
      if ar[it.index].arep == arep {
        ar[it.index] := WithEvent(ar[it.index], event);
        break;
      }
      found := it.Next();
    }
    PositionIs(s[..n], arep, it.index);
    if add {
      var done := it.Done();
      if done {
        var ok, k := AddArep(ar, arep);
        if ok {
          ar[k] := WithEvent(ar[k], event);
        }
      }
    }
  }

  /** The first `n` entries are in use and no others. */
  predicate Split(s: seq<Entry>, n: nat) {
    && n <= |s| && (forall i :: 0 <= i < n ==> s[i].arep != UNUSED)
    && forall i :: n <= i < |s| ==> s[i].arep == UNUSED
  }

  lemma SplitLive(s: seq<Entry>, n: nat)
    requires Split(s, n)
    ensures Tidy(s) && Live(s) == s[..n] && Position(s, UNUSED) == n
  {
    TidyLive(s, n);
    PositionIs(s, UNUSED, n);
  }

  lemma TidySplit(s: seq<Entry>)
    requires Tidy(s)
    ensures Split(s, |Live(s)|)
  {
    TidyPrefix(s);
  }

  lemma SplitReplaced(s: seq<Entry>, n: nat, k: nat, e: Entry)
    requires Split(s, n) && k < n && e.arep == s[k].arep
    ensures Split(s[k := e], n) && s[k := e][..n] == s[..n][k := e]
  {
  }

  lemma SplitAdded(s: seq<Entry>, n: nat, e: Entry)
    requires Split(s, n) && n < |s|
    ensures Split(s[n := e], if e.arep == UNUSED then n else n + 1)
    ensures s[n := e][..n] == s[..n] && s[n := e][..n + 1] == s[..n] + [e]
  {
  }

  /** On a tidy array this is what it should be. */
  lemma TidyNoted(s: seq<Entry>, arep: nat, event: bv32, add: bool)
    requires Tidy(s)
    ensures Tidy(Noted(s, arep, event, add))
    ensures Live(Noted(s, arep, event, add)) == EventSet(Live(s), arep, event, add, |s|)
  {
    hide Live, Tidy, Position, Split, WithEvent;
    var n := |Live(s)|;
    TidySplit(s);
    SplitLive(s, n);
    var k := Position(s[..n], arep);
    if k < n {
      var e := WithEvent(s[k], event);
      SplitReplaced(s, n, k, e);
      SplitLive(s[k := e], n);
    } else if add && n < |s| {
      var e := WithEvent(Entry(arep, 0), event);
      SplitAdded(s, n, e);
      SplitLive(s[n := e], if arep == UNUSED then n else n + 1);
    }
  }

  /** No AR has two entries in use. */
  predicate UniqueUsed(s: seq<Entry>) {
    forall i, j :: 0 <= i < j < |s| && s[i].arep != UNUSED && s[j].arep != UNUSED ==> s[i].arep != s[j].arep
  }

  /** Does an entry for `arep` lie behind a hole that would be taken for a new one? */
  predicate Hidden(s: seq<Entry>, arep: nat) {
    var n := Position(s, UNUSED);
    && arep != UNUSED && Position(s[..n], arep) == n
    && exists j :: n < j < |s| && s[j].arep == arep
  }

  /** While an iteration that deletes is under way there may be holes.  Then adding makes a second
      entry for an AR exactly if the AR's entry lies behind the first hole. */
  lemma NotedKeepsUniqueUsed(s: seq<Entry>, arep: nat, event: bv32, add: bool)
    requires UniqueUsed(s)
    ensures UniqueUsed(Noted(s, arep, event, add)) <==> !(add && Hidden(s, arep))
  {
    var n := Position(s, UNUSED);
    var r := Noted(s, arep, event, add);
    if add && Hidden(s, arep) {
      var j :| n < j < |s| && s[j].arep == arep;
      assert r[n].arep == r[j].arep;
    }
  }

  // ---------------------------------------------------------------- handling an event

  /** The ARs with the event pending, in order. */
  function Pending(s: seq<Entry>, event: bv32): seq<nat> {
    if s == [] then []
    else
      var e := s[|s| - 1];
      Pending(s[..|s| - 1], event) + (if Has(e.events, event) then [e.arep] else [])
  }

  /** What remains if `results` tells for each pending AR, in order, whether its handler wants it
      deleted. */
  function Remaining(s: seq<Entry>, event: bv32, results: seq<bool>): seq<Entry>
    requires |results| == |Pending(s, event)|
  {
    if s == [] then []
    else
      var e := s[|s| - 1];
      if Has(e.events, event) then
        Remaining(s[..|s| - 1], event, results[..|results| - 1])
          + (if results[|results| - 1] then [] else [WithoutEvent(e, event)])
      else Remaining(s[..|s| - 1], event, results) + [e]
  }

  lemma PendingSnoc(s: seq<Entry>, e: Entry, event: bv32)
    ensures Pending(s + [e], event) == Pending(s, event) + Pending([e], event)
  {
    assert (s + [e])[..|s + [e]| - 1] == s;
    assert Pending([e][..0], event) == [];
  }

  lemma RemainingSnoc(s: seq<Entry>, e: Entry, event: bv32, results: seq<bool>, last: seq<bool>)
    requires |results| == |Pending(s, event)| && |last| == |Pending([e], event)|
    ensures |results + last| == |Pending(s + [e], event)|
    ensures Remaining(s + [e], event, results + last) == Remaining(s, event, results) + Remaining([e], event, last)
  {
    PendingSnoc(s, e, event);
    assert (s + [e])[..|s + [e]| - 1] == s;
    assert Pending([e][..0], event) == [];
    if Has(e.events, event) {
      assert (results + last)[..|results + last| - 1] == results;
      assert Remaining([e][..0], event, last[..0]) == [];
    } else {
      assert results + last == results;
      assert Remaining([e][..0], event, []) == [];
    }
  }

  /** The first `k` entries have been dealt with, the others not yet. */
  ghost predicate Progress(a: seq<Entry>, s: seq<Entry>, k: nat, event: bv32, calls: seq<nat>, results: seq<bool>) {
    && k <= |s| == |a| && a[k..] == s[k..]
    && calls == Pending(s[..k], event) && |results| == |calls|
    && Live(a[..k]) == Remaining(s[..k], event, results)
  }

  lemma Advance(a: seq<Entry>, b: seq<Entry>, s: seq<Entry>, k: nat, event: bv32, calls: seq<nat>, results: seq<bool>,
                called: seq<nat>, answers: seq<bool>)
    requires Progress(a, s, k, event, calls, results) && k < |s| && |b| == |s| && b == a[k := b[k]]
    requires called == Pending([s[k]], event) && |answers| == |called|
    requires Live([b[k]]) == Remaining([s[k]], event, answers)
    ensures Progress(b, s, k + 1, event, calls + called, results + answers)
  {
    assert s[..k + 1] == s[..k] + [s[k]];
    assert b[..k + 1] == a[..k] + [b[k]];
    PendingSnoc(s[..k], s[k], event);
    RemainingSnoc(s[..k], s[k], event, results, answers);
    LiveConcat(a[..k], [b[k]]);
    assert b[k + 1..] == a[k..][1..] && s[k + 1..] == s[k..][1..];
  }

  lemma Finished(a: seq<Entry>, s: seq<Entry>, n: nat, event: bv32, calls: seq<nat>, results: seq<bool>)
    requires Progress(a, s, n, event, calls, results) && Tidy(s) && n == |Live(s)|
    ensures calls == Pending(Live(s), event) && Live(a) == Remaining(Live(s), event, results)
  {
    TidyPrefix(s);
    forall i | 0 <= i < |a[n..]| ensures a[n..][i].arep == UNUSED {
      assert a[n..][i] == s[n..][i];
    }
    AllUnused(a[n..]);
    LiveConcat(a[..n], a[n..]);
    assert a == a[..n] + a[n..];
  }

  /** What happens to the current entry: its event is cleared, and it goes if the handler says so. */
  method Visit(it: Iterator, event: bv32) returns (called: seq<nat>, answers: seq<bool>)
    requires 0 <= it.index < it.ar.Length && it.ar[it.index].arep != UNUSED
    modifies it`modified, it.ar
    ensures |answers| == |called| && called == Pending([old(it.ar[it.index])], event)
    ensures Live([it.ar[it.index]]) == Remaining([old(it.ar[it.index])], event, answers)
    ensures it.ar[..] == old(it.ar[..])[it.index := it.ar[it.index]]
    ensures !it.modified ==> !old(it.modified) && it.ar[it.index].arep == old(it.ar[it.index]).arep
  {
    called, answers := [], [];
    ghost var e := it.ar[it.index];
    assert Pending([e][..0], event) == [] && Remaining([e][..0], event, []) == [];
    if Has(it.ar[it.index].events, event) {
      it.ar[it.index] := WithoutEvent(it.ar[it.index], event);
      var deletes: bool := *;
      called, answers := [it.ar[it.index].arep], [deletes];
      assert answers[..0] == [];
      if deletes {
        it.DeleteCurrent();
      }
    }
    assert Live([it.ar[it.index]][..0]) == [];
  }

  /** app_handle_event_ar; the handler's answers are up to the handler. */
  method HandleEvent(ar: array<Entry>, event: bv32) returns (calls: seq<nat>, results: seq<bool>)
    requires Tidy(ar[..])
    modifies ar
    ensures Tidy(ar[..])
    ensures calls == Pending(Live(old(ar[..])), event) && |results| == |calls|
    ensures Live(ar[..]) == Remaining(Live(old(ar[..])), event, results)
  {
    hide Live, Pending, Remaining;
    ghost var s := ar[..];
    ghost var n := |Live(s)|;
    TidyPrefix(s);
    calls, results := [], [];
    assert Progress(s, s, 0, event, calls, results) by {
      NothingYet(s, event);
    }
    var it := new Iterator(ar);
    ghost var a := s;
    if n == 0 {
      Finished(a, s, n, event, calls, results);
    }
    var found := it.Next();
    while found
      invariant 0 <= it.index <= n && found == (it.index < n) && it.ar == ar
      invariant found ==> a == ar[..] && Progress(a, s, it.index, event, calls, results)
      invariant !it.modified ==> |a| == |s| && forall j :: 0 <= j < |s| ==> a[j].arep == s[j].arep
      invariant !found ==> calls == Pending(Live(s), event) && |results| == |calls|
      invariant !found ==> Live(ar[..]) == Remaining(Live(s), event, results) && Tidy(ar[..])
      decreases n - it.index
    {
      ghost var k := it.index;
      assert ar[k] == s[k..][0];
      var called, answers := Visit(it, event);
      Advance(a, ar[..], s, k, event, calls, results, called, answers);
      calls, results := calls + called, results + answers;
      a := ar[..];
      if k + 1 == n {
        Finished(a, s, n, event, calls, results);
      } else {
        assert ar[k + 1] == s[k + 1..][0];
      }
      found := it.Next();
    }
  }

  lemma NothingYet(s: seq<Entry>, event: bv32)
    ensures Pending(s[..0], event) == [] && Remaining(s[..0], event, []) == [] && Live(s[..0]) == []
  {
  }

  // ---------------------------------------------------------------- what the users of the list rely on

  /** No two entries belong to the same AR. */
  predicate Unique(s: seq<Entry>) {
    && (forall i :: 0 <= i < |s| ==> s[i].arep != UNUSED)
    && (forall i, j :: 0 <= i < j < |s| ==> s[i].arep != s[j].arep)
  }

  /** The ARs whose handler asked for deletion. */
  function Dismissed(calls: seq<nat>, results: seq<bool>): set<nat>
    requires |results| == |calls|
  {
    if calls == [] then {}
    else
      var n := |calls| - 1;
      Dismissed(calls[..n], results[..n]) + (if results[n] then {calls[n]} else {})
  }

  /** The list without the dismissed ARs; those that were called and stay have lost the event. */
  function Kept(s: seq<Entry>, event: bv32, dismissed: set<nat>): seq<Entry> {
    if s == [] then []
    else
      var e := s[|s| - 1];
      Kept(s[..|s| - 1], event, dismissed)
        + (if !Has(e.events, event) then [e] else if e.arep in dismissed then [] else [WithoutEvent(e, event)])
  }

  predicate Listed(s: seq<Entry>, arep: nat) {
    exists i :: 0 <= i < |s| && s[i].arep == arep
  }

  lemma {:induction false} DismissedWerePending(s: seq<Entry>, event: bv32, results: seq<bool>, arep: nat)
    requires |results| == |Pending(s, event)| && arep in Dismissed(Pending(s, event), results)
    ensures Listed(s, arep)
    decreases |s|
  {
    var n := |s| - 1;
    var calls := Pending(s, event);
    var m := |calls| - 1;
    if s != [] {
      if Has(s[n].events, event) {
        assert calls[..m] == Pending(s[..n], event);
        if arep in Dismissed(calls[..m], results[..m]) {
          DismissedWerePending(s[..n], event, results[..m], arep);
        } else {
          assert s[n].arep == arep;
        }
      } else {
        assert calls == Pending(s[..n], event);
        DismissedWerePending(s[..n], event, results, arep);
      }
    }
  }

  lemma ListedSnoc(t: seq<Entry>, e: Entry, arep: nat)
    ensures Listed(t + [e], arep) <==> Listed(t, arep) || e.arep == arep
  {
    if Listed(t, arep) {
      var i :| 0 <= i < |t| && t[i].arep == arep;
      assert (t + [e])[i].arep == arep;
    }
    assert (t + [e])[|t|] == e;
  }

  lemma {:induction false} KeptIgnoresOthers(s: seq<Entry>, event: bv32, dismissed: set<nat>, other: nat)
    requires !Listed(s, other)
    ensures Kept(s, event, dismissed + {other}) == Kept(s, event, dismissed)
  {
    if s != [] {
      var n := |s| - 1;
      ListedSnoc(s[..n], s[n], other);
      assert s == s[..n] + [s[n]];
      KeptIgnoresOthers(s[..n], event, dismissed, other);
    }
  }

  /** Handling an event removes exactly the ARs whose handler asked for it and leaves the others in
      their order. */
  lemma {:induction false} HandlingKeeps(s: seq<Entry>, event: bv32, results: seq<bool>)
    requires Unique(s) && |results| == |Pending(s, event)|
    ensures Remaining(s, event, results) == Kept(s, event, Dismissed(Pending(s, event), results))
    decreases |s|
  {
    if s != [] {
      var n := |s| - 1;
      var calls := Pending(s, event);
      if Has(s[n].events, event) {
        var m := |calls| - 1;
        assert calls[..m] == Pending(s[..n], event);
        var before := Dismissed(calls[..m], results[..m]);
        HandlingKeeps(s[..n], event, results[..m]);
        assert !Listed(s[..n], s[n].arep);
        KeptIgnoresOthers(s[..n], event, before, s[n].arep);
        assert Dismissed(calls, results) == before + (if results[m] then {s[n].arep} else {});
        assert before + {} == before;
        if s[n].arep in before {
          DismissedWerePending(s[..n], event, results[..m], s[n].arep);
        }
      } else {
        assert calls == Pending(s[..n], event);
        HandlingKeeps(s[..n], event, results);
      }
    }
  }

  /** What is kept is kept once. */
  lemma {:induction false} KeptUnique(s: seq<Entry>, event: bv32, dismissed: set<nat>)
    requires Unique(s)
    ensures Unique(Kept(s, event, dismissed)) && |Kept(s, event, dismissed)| <= |s|
    ensures forall arep :: Listed(Kept(s, event, dismissed), arep) ==> Listed(s, arep)
    decreases |s|
  {
    if s != [] {
      var n := |s| - 1;
      var t := s[..n];
      var r, q := Kept(s, event, dismissed), Kept(t, event, dismissed);
      KeptUnique(t, event, dismissed);
      assert !Listed(t, s[n].arep);
      assert s == t + [s[n]];
      var last := if r == q then s[n] else r[|q|];
      assert r == q || r == q + [last];
      forall arep ensures Listed(r, arep) ==> Listed(s, arep) {
        ListedSnoc(t, s[n], arep);
        ListedSnoc(q, last, arep);
      }
      UniqueSnoc(q, last);
    }
  }

  lemma UniqueSnoc(q: seq<Entry>, e: Entry)
    requires Unique(q) && !Listed(q, e.arep) && e.arep != UNUSED
    ensures Unique(q + [e])
  {
  }

  /** After handling, the event is no longer pending anywhere. */
  lemma {:induction false} NothingPending(s: seq<Entry>, event: bv32, dismissed: set<nat>)
    ensures Pending(Kept(s, event, dismissed), event) == []
    decreases |s|
  {
    if s != [] {
      var n := |s| - 1;
      var q := Kept(s[..n], event, dismissed);
      NothingPending(s[..n], event, dismissed);
      WithoutHas(s[n].events, event, event);
      var last := if Has(s[n].events, event) then WithoutEvent(s[n], event) else s[n];
      PendingSnoc(q, last, event);
      assert Pending([last][..0], event) == [];
      assert Kept(s, event, dismissed) == q || Kept(s, event, dismissed) == q + [last];
    }
  }

  lemma SettingKeepsUnique(s: seq<Entry>, arep: nat, event: bv32, add: bool, room: nat)
    requires Unique(s)
    ensures Unique(EventSet(s, arep, event, add, room))
    ensures |EventSet(s, arep, event, add, room)| <= if |s| < room then |s| + 1 else |s|
  {
  }

  // ---------------------------------------------------------------- other events

  lemma {:induction false} PendingIff(s: seq<Entry>, event: bv32, arep: nat)
    ensures arep in Pending(s, event) <==> exists i :: 0 <= i < |s| && s[i].arep == arep && Has(s[i].events, event)
  {
    if s != [] {
      var n := |s| - 1;
      PendingIff(s[..n], event, arep);
      assert forall i :: 0 <= i < n ==> s[..n][i] == s[i];
    }
  }

  /** Setting an event makes it pending for its AR, if that is listed or is added, and changes nothing
      for the other ARs or for those who look for other events. */
  lemma SettingPends(s: seq<Entry>, arep: nat, event: bv32, add: bool, room: nat, who: nat, other: bv32)
    requires Unique(s)
    ensures who in Pending(EventSet(s, arep, event, add, room), other) <==>
              || who in Pending(s, other)
              || (who == arep && Has(event, other) && (Listed(s, arep) || (add && |s| < room && arep != UNUSED)))
  {
    hide Has, With;
    var r := EventSet(s, arep, event, add, room);
    var k := Position(s, arep);
    PendingIff(s, other, who);
    PendingIff(r, other, who);
    if k < |s| {
      WithHas(s[k].events, event, other);
      assert forall i :: 0 <= i < |s| && i != k ==> r[i] == s[i];
      assert r[k] == WithEvent(s[k], event);
      OneOfEntries(s, r, k, who, other);
    } else if r != s {
      WithHas(0, event, other);
      NothingHas(other);
      assert r[|s|] == WithEvent(Entry(arep, 0), event);
      assert forall i :: 0 <= i < |s| ==> r[i] == s[i];
      LastOfEntries(s, r, who, other);
    }
  }

  ghost predicate PendsFor(s: seq<Entry>, who: nat, event: bv32) {
    exists i :: 0 <= i < |s| && s[i].arep == who && Has(s[i].events, event)
  }

  lemma OneOfEntries(s: seq<Entry>, r: seq<Entry>, k: nat, who: nat, event: bv32)
    requires k < |s| == |r| && r == s[k := r[k]] && r[k].arep == s[k].arep
    requires Has(s[k].events, event) ==> Has(r[k].events, event)
    ensures PendsFor(r, who, event) <==> PendsFor(s, who, event) || (who == s[k].arep && Has(r[k].events, event))
  {
    if PendsFor(s, who, event) {
      var i :| 0 <= i < |s| && s[i].arep == who && Has(s[i].events, event);
      assert r[i].arep == who && Has(r[i].events, event);
    }
    if PendsFor(r, who, event) {
      var i :| 0 <= i < |r| && r[i].arep == who && Has(r[i].events, event);
      if i != k { assert s[i] == r[i]; }
    }
  }

  lemma LastOfEntries(s: seq<Entry>, r: seq<Entry>, who: nat, event: bv32)
    requires |r| == |s| + 1 && r == s + [r[|s|]]
    ensures PendsFor(r, who, event) <==> PendsFor(s, who, event) || (who == r[|s|].arep && Has(r[|s|].events, event))
  {
    if PendsFor(s, who, event) {
      var i :| 0 <= i < |s| && s[i].arep == who && Has(s[i].events, event);
      assert r[i] == s[i];
    }
    if PendsFor(r, who, event) {
      var i :| 0 <= i < |r| && r[i].arep == who && Has(r[i].events, event);
      if i < |s| { assert s[i] == r[i]; }
    }
  }

  /** Handling an event leaves other events pending, except for the ARs it removes. */
  lemma {:induction false} HandlingLeavesOthers(s: seq<Entry>, event: bv32, dismissed: set<nat>, who: nat, other: bv32)
    requires Unique(s) && !Has(event, other)
    ensures who in Pending(Kept(s, event, dismissed), other) <==>
              who in Pending(s, other) && !(who in dismissed && who in Pending(s, event))
    decreases |s|
  {
    hide Has, Without;
    if s != [] {
      var n := |s| - 1;
      var t, e := s[..n], s[n];
      var q := Kept(t, event, dismissed);
      var last := if Has(e.events, event) then WithoutEvent(e, event) else e;
      HandlingLeavesOthers(t, event, dismissed, who, other);
      WithoutHas(e.events, event, other);
      if e.arep == who {
        NotTwice(s, event, who);
        NotTwice(s, other, who);
      }
      PendingLast(s, event);
      PendingLast(s, other);
      PendingSnoc(q, last, other);
      OnePending(last, other);
      assert Kept(s, event, dismissed) == if Has(e.events, event) && e.arep in dismissed then q else q + [last];
      hide Kept, Pending, Unique, WithoutEvent;
      OneMore(who, e.arep, Pending(q, other), Pending(t, other), Pending(t, event),
              Has(e.events, other), Has(e.events, event), dismissed);
    }
  }

  lemma NotTwice(s: seq<Entry>, event: bv32, who: nat)
    requires Unique(s) && s != [] && s[|s| - 1].arep == who
    ensures who !in Pending(s[..|s| - 1], event)
  {
    PendingIff(s[..|s| - 1], event, who);
  }

  lemma PendingLast(s: seq<Entry>, event: bv32)
    requires s != []
    ensures var e := s[|s| - 1];
            Pending(s, event) == Pending(s[..|s| - 1], event) + (if Has(e.events, event) then [e.arep] else [])
  {
  }

  lemma OneMore(who: nat, arep: nat, kept: seq<nat>, others: seq<nat>, called: seq<nat>,
                seesOther: bool, seesEvent: bool, dismissed: set<nat>)
    requires who in kept <==> who in others && !(who in dismissed && who in called)
    requires who == arep ==> who !in others && who !in called
    ensures who in kept + (if !(seesEvent && arep in dismissed) && seesOther then [arep] else []) <==>
              who in others + (if seesOther then [arep] else [])
              && !(who in dismissed && who in called + (if seesEvent then [arep] else []))
  {
  }

  lemma OnePending(e: Entry, event: bv32)
    ensures Pending([e], event) == if Has(e.events, event) then [e.arep] else []
  {
    assert Pending([e][..0], event) == [];
  }

  datatype Op =
    | Set(arep: nat, event: bv32, add: bool)
    | Handle(event: bv32, dismissed: set<nat>)

  function Step(s: seq<Entry>, op: Op, room: nat): seq<Entry> {
    match op
    case Set(arep, event, add) => EventSet(s, arep, event, add, room)
    case Handle(event, dismissed) => Kept(s, event, dismissed)
  }

  function Run(s: seq<Entry>, ops: seq<Op>, room: nat): seq<Entry>
    decreases |ops|
  {
    if ops == [] then s else Run(Step(s, ops[0], room), ops[1..], room)
  }

  /** An event that is pending for an AR stays so until one that shares a bit with it is handled or the
      AR's handler asks for its removal. */
  lemma {:induction false} StaysPending(s: seq<Entry>, ops: seq<Op>, room: nat, who: nat, event: bv32)
    requires Unique(s) && who in Pending(s, event)
    requires forall i :: 0 <= i < |ops| && ops[i].Handle? ==> !Has(ops[i].event, event) && who !in ops[i].dismissed
    ensures who in Pending(Run(s, ops, room), event)
    decreases |ops|
  {
    if ops != [] {
      match ops[0] {
        case Set(arep, ev, add) =>
          SettingPends(s, arep, ev, add, room, who, event);
          SettingKeepsUnique(s, arep, ev, add, room);
        case Handle(ev, dismissed) =>
          HandlingLeavesOthers(s, ev, dismissed, who, event);
          KeptUnique(s, ev, dismissed);
      }
      hide Pending, Unique, EventSet, Kept;
      StaysPending(Step(s, ops[0], room), ops[1..], room, who, event);
    }
  }

  /** At any time each AR is listed once at most, and the list fits its array. */
  lemma {:induction false} AlwaysUnique(s: seq<Entry>, ops: seq<Op>, room: nat)
    requires Unique(s) && |s| <= room
    ensures Unique(Run(s, ops, room)) && |Run(s, ops, room)| <= room
    decreases |ops|
  {
    if ops != [] {
      match ops[0] {
        case Set(arep, event, add) => SettingKeepsUnique(s, arep, event, add, room);
        case Handle(event, dismissed) => KeptUnique(s, event, dismissed);
      }
      AlwaysUnique(Step(s, ops[0], room), ops[1..], room);
    }
  }
}
