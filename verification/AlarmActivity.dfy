/**
 Which ARs get alarm frames, told from the calls that were made: those that were activated and not
 closed since.
 */
module AlarmActivity {
  import opened FrameIdMap
  import opened AlarmRegistration
  import opened Wrappers

  // ---------------------------------------------------------------- one call

  /** No AR has two endpoints, and an endpoint that belongs to nobody is not active. */
  predicate OneEach(t: seq<Entry>) {
    && (forall i, j :: 0 <= i < j < |t| && t[i].ar.Some? ==> t[i].ar != t[j].ar)
    && (forall i :: 0 <= i < |t| && t[i].ar.None? ==> !t[i].active)
  }

  /** `r` is `t` except at `k`. */
  predicate SameBut(t: seq<Entry>, r: seq<Entry>, k: nat) {
    |r| == |t| && forall i :: 0 <= i < |t| && i != k ==> r[i] == t[i]
  }

  /** Closing deactivates the AR's endpoint, which it keeps, and no other. */
  lemma CloseDeactivates(n: Net, ar: nat, e: nat)
    requires HoldsAt(n.entries, ar, e)
    ensures var t := Closed(n, ar).entries;
            SameBut(n.entries, t, e - 1) && t[e - 1] == Entry(Some(ar), false) && HoldsAt(t, ar, e)
    ensures !IsActive(Closed(n, ar).entries, ar) && Routed(Closed(n, ar).entries, e) == None
  {
    FirstOfIs(n.entries, Some(ar), e - 1);
    FirstOfIs(Closed(n, ar).entries, Some(ar), e - 1);
  }

  lemma ActivateActivates(n: Net, ar: nat, e: nat)
    requires HoldsAt(n.entries, ar, e)
    ensures var t := Activated(n, ar).entries;
            SameBut(n.entries, t, e - 1) && t[e - 1] == Entry(Some(ar), true) && HoldsAt(t, ar, e)
    ensures IsActive(Activated(n, ar).entries, ar) && Routed(Activated(n, ar).entries, e) == Some(ar)
  {
    FirstOfIs(n.entries, Some(ar), e - 1);
    FirstOfIs(Activated(n, ar).entries, Some(ar), e - 1);
  }

  /** Freeing gives the endpoint back for others to allocate. */
  lemma FreeReleases(t: seq<Entry>, ar: nat, e: nat)
    requires HoldsAt(t, ar, e)
    ensures SameBut(t, Freed(t, ar), e - 1) && Freed(t, ar)[e - 1] == Entry(None, false)
    ensures !Holds(Freed(t, ar), ar) && Routed(Freed(t, ar), e) == None && FirstOf(Freed(t, ar), None) < e
  {
    FirstOfIs(t, Some(ar), e - 1);
  }

  // ---------------------------------------------------------------- all interleavings

  /** Activating opens an AR and closing closes it. */
  function After(open: set<nat>, op: Op): set<nat> {
    match op
    case Activate(ar) => open + {ar}
    case Close(ar) => open - {ar}
    case _ => open
  }

  /** The ARs activated and not closed since, if those in `open` were before. */
  function Opened(open: set<nat>, ops: seq<Op>): set<nat>
    decreases |ops|
  {
    if ops == [] then open else Opened(After(open, ops[0]), ops[1..])
  }

  ghost predicate Follows(n: Net, open: set<nat>) {
    Registered(n) && OneEach(n.entries) && forall ar :: IsActive(n.entries, ar) <==> ar in open
  }

  lemma HolderAt(t: seq<Entry>, ar: nat)
    requires OneEach(t) && Holds(t, ar)
    ensures HoldsAt(t, ar, FirstOf(t, Some(ar)) + 1)
  {
  }

  /** An entry of another AR that stays as it is keeps that AR as active as it was. */
  lemma OthersKeep(t: seq<Entry>, r: seq<Entry>, k: nat, other: nat)
    requires SameBut(t, r, k) && k < |t| && t[k].ar != Some(other) && r[k].ar != Some(other)
    ensures IsActive(r, other) == IsActive(t, other)
  {
    var j := FirstOf(t, Some(other));
    FirstOfIs(r, Some(other), j);
  }

  /** One entry changes, and `ar`, whose it is, becomes active or inactive. */
  lemma EntryFollows(n: Net, r: Net, open: set<nat>, ar: nat, k: nat, active: bool)
    requires Follows(n, open) && Registered(r) && k < |n.entries| && SameBut(n.entries, r.entries, k)
    requires n.entries[k].ar == r.entries[k].ar == Some(ar) && IsActive(r.entries, ar) == active
    ensures Follows(r, if active then open + {ar} else open - {ar})
  {
    hide Registered;
    NobodysInactive(r);
    forall other | other != ar ensures IsActive(r.entries, other) == IsActive(n.entries, other) {
      OthersKeep(n.entries, r.entries, k, other);
    }
  }

  lemma NobodysInactive(n: Net)
    requires Registered(n)
    ensures forall i :: 0 <= i < |n.entries| && n.entries[i].ar.None? ==> !n.entries[i].active
  {
  }

  lemma ActivateFollows(n: Net, open: set<nat>, ar: nat)
    requires Follows(n, open) && Disciplined(n, Activate(ar))
    ensures Follows(Step(n, Activate(ar)), open + {ar})
  {
    StepKeeps(n, Activate(ar));
    hide Registered;
    HolderAt(n.entries, ar);
    var k := FirstOf(n.entries, Some(ar));
    ActivateActivates(n, ar, k + 1);
    EntryFollows(n, Activated(n, ar), open, ar, k, true);
  }

  lemma CloseFollows(n: Net, open: set<nat>, ar: nat)
    requires Follows(n, open)
    ensures Follows(Step(n, Close(ar)), open - {ar})
  {
    StepKeeps(n, Close(ar));
    if Holds(n.entries, ar) {
      hide Registered;
      HolderAt(n.entries, ar);
      var k := FirstOf(n.entries, Some(ar));
      CloseDeactivates(n, ar, k + 1);
      EntryFollows(n, Closed(n, ar), open, ar, k, false);
    } else {
      assert open - {ar} == open;
    }
  }

  lemma AllocateFollows(n: Net, open: set<nat>, ar: nat)
    requires Follows(n, open) && Disciplined(n, Allocate(ar))
    ensures Follows(Step(n, Allocate(ar)), open)
  {
    StepKeeps(n, Allocate(ar));
    hide Registered;
    var t, r := n.entries, Step(n, Allocate(ar)).entries;
    var k := FirstOf(t, None);
    if k < |t| {
      forall other ensures IsActive(r, other) == IsActive(t, other) {
        if other == ar { FirstOfIs(r, Some(ar), k); } else { OthersKeep(t, r, k, other); }
      }
    }
  }

  lemma FreeFollows(n: Net, open: set<nat>, ar: nat)
    requires Follows(n, open) && Disciplined(n, Free(ar))
    ensures Follows(Step(n, Free(ar)), open)
  {
    StepKeeps(n, Free(ar));
    hide Registered;
    var t, r := n.entries, Step(n, Free(ar)).entries;
    if Holds(t, ar) {
      HolderAt(t, ar);
      var k := FirstOf(t, Some(ar));
      FreeReleases(t, ar, k + 1);
      forall other | other != ar ensures IsActive(r, other) == IsActive(t, other) {
        OthersKeep(t, r, k, other);
      }
    } else {
      assert r == t;
    }
  }

  lemma StepFollows(n: Net, open: set<nat>, op: Op)
    requires Follows(n, open) && Disciplined(n, op)
    ensures Follows(Step(n, op), After(open, op))
  {
    match op
    case Allocate(ar) => AllocateFollows(n, open, ar);
    case Free(ar) => FreeFollows(n, open, ar);
    case Activate(ar) => ActivateFollows(n, open, ar);
    case Close(ar) => CloseFollows(n, open, ar);
    case _ => StepKeeps(n, op);
  }

  lemma {:induction false} RunFollows(n: Net, open: set<nat>, ops: seq<Op>)
    requires Follows(n, open) && DisciplinedRun(n, ops)
    ensures Follows(Run(n, ops), Opened(open, ops))
    decreases |ops|
  {
    if ops != [] {
      StepFollows(n, open, ops[0]);
      hide Follows, Step, Disciplined, After;
      RunFollows(Step(n, ops[0]), After(open, ops[0]), ops[1..]);
    }
  }

  lemma ActiveIsOpen(n: Net, open: set<nat>)
    requires Follows(n, open)
    ensures AnyActive(n.entries) <==> open != {}
  {
    var t := n.entries;
    if AnyActive(t) {
      var i :| 0 <= i < |t| && t[i].active;
      FirstOfIs(t, t[i].ar, i);
      assert t[i].ar.value in open;
    }
    if open != {} {
      var ar :| ar in open;
      assert t[FirstOf(t, Some(ar))].active;
    }
  }

  /** From a table in which nobody is active on, however the ARs interleave: an AR is active exactly if
      it was activated and not closed since; frames for its endpoint's number reach it exactly then; and
      the alarm ids are registered exactly as long as there is such an AR. */
  lemma ActiveIffOpened(n: Net, ops: seq<Op>, ar: nat, e: nat)
    requires Registered(n) && OneEach(n.entries) && !AnyActive(n.entries) && DisciplinedRun(n, ops)
    ensures var r := Run(n, ops);
            && (IsActive(r.entries, ar) <==> ar in Opened({}, ops))
            && (HoldsAt(r.entries, ar, e) ==> Routed(r.entries, e) == if ar in Opened({}, ops) then Some(ar) else None)
            && Found(r.slots, ALARM_LOW) == Found(r.slots, ALARM_HIGH)
               == (if Opened({}, ops) != {} then Some(ALARM_HANDLER) else None)
  {
    NobodyActive(n);
    RunFollows(n, {}, ops);
    RegisteredRun(n, ops);
    hide Registered, Run, Opened, DisciplinedRun;
    ActiveIsOpen(Run(n, ops), Opened({}, ops));
    if HoldsAt(Run(n, ops).entries, ar, e) {
      FirstOfIs(Run(n, ops).entries, Some(ar), e - 1);
    }
  }

  lemma NobodyActive(n: Net)
    requires Registered(n) && OneEach(n.entries) && !AnyActive(n.entries)
    ensures Follows(n, {})
  {
    forall other ensures !IsActive(n.entries, other) {}
  }
}
