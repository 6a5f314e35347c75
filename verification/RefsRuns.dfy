/**
 * Whole runs: sequences of allocations, assignments and scope ends, starting from empty memory. An assignment of an
 * object is part of a run when the slot holds that object already, or the object and the owner of the slot live on
 * without what the slot holds. `RefAssignmentIsSafeIff` and its weak twin show that no other assignment is safe.
 */
module RefsRuns {
  import opened Common
  import opened RefsState
  import opened RefsCascade
  import opened RefsReach

  ghost predicate Consistent(st: Store) {
    Inv(st) && Quiet(st) && NoDangling(st)
  }

  ghost predicate SlotStep(a: Store, b: Store, strong: bool, owner: Option<ObjId>) {
    |a.slots| + 1 < U32 && (owner.Some? ==> owner.value in a.objs) && b == AllocSlot(a, strong, owner)
  }

  ghost predicate DropStep(a: Store, mid: Store, b: Store, s: SlotId) {
    s in a.slots && Cascade(a, mid, {s}, {}) && Inv(mid) && b == mid.(slots := mid.slots - {s})
  }

  /** The slot points at `t`, directly or through its counter. */
  ghost predicate PointsAt(a: Store, s: SlotId, t: Option<ObjId>)
    requires s in a.slots
  {
    if a.slots[s].target.Strong? then a.slots[s].target == Strong(t) else a.slots[s].target == Weak(CounterOf(a, t))
  }

  /** The slot holds the target already, or the target and the owner of the slot live on without what it holds. */
  ghost predicate KeptFor(a: Store, s: SlotId, t: Option<ObjId>)
    requires s in a.slots
  {
    t.Some? ==> t.value in a.objs && (PointsAt(a, s, t) || (Upheld(a, s, t.value) && OwnerUpheld(a, s)))
  }

  ghost predicate RefStep(a: Store, mid: Store, b: Store, s: SlotId, t: Option<ObjId>) {
    s in a.slots && a.slots[s].target.Strong? && KeptFor(a, s, t) && RefAssigned(a, mid, b, s, t)
  }

  ghost predicate WeakStep(a: Store, mid: Store, b: Store, w: SlotId, t: Option<ObjId>) {
    w in a.slots && a.slots[w].target.Weak? && KeptFor(a, w, t) && WeakAssigned(a, mid, b, w, t, true)
  }

  ghost predicate Step(a: Store, b: Store) {
    || b == AllocObject(a)
    || (exists strong, owner :: SlotStep(a, b, strong, owner))
    || (exists s, mid :: DropStep(a, mid, b, s))
    || (exists s, t, mid :: RefStep(a, mid, b, s, t))
    || (exists w, t, mid :: WeakStep(a, mid, b, w, t))
  }

  /** What is freed stays freed: addresses are taken once, objects, counters and slots are gone for good. */
  ghost predicate Onward(a: Store, b: Store) {
    && a.next <= b.next && a.held <= b.held
    && (forall o :: o in b.objs && o < a.next ==> o in a.objs)
    && (forall c :: c in b.ctrs && c < a.next ==> c in a.ctrs)
    && (forall s :: s in b.slots && s < a.next ==> s in a.slots)
  }

  lemma CascadeIsOnward(a: Store, mid: Store, s: SlotId)
    requires Consistent(a) && Inv(mid) && Cascade(a, mid, {s}, {})
    ensures Onward(a, mid) && Quiet(mid) && NoDangling(mid)
  {
    CascadeKeepsQuiet(a, mid, {s});
    CascadeKeepsNoDangling(a, mid, {s});
  }

  lemma AllocStep(a: Store)
    requires Consistent(a)
    ensures Consistent(AllocObject(a)) && Onward(a, AllocObject(a))
  {
    AllocObjectFresh(a);
  }

  lemma SlotStepIsSafe(a: Store, b: Store, strong: bool, owner: Option<ObjId>)
    requires Consistent(a) && SlotStep(a, b, strong, owner)
    ensures Consistent(b) && Onward(a, b)
  {
    AllocSlotKeepsInv(a, strong, owner);
  }

  lemma DropStepIsSafe(a: Store, mid: Store, b: Store, s: SlotId)
    requires Consistent(a) && DropStep(a, mid, b, s)
    ensures Consistent(b) && Onward(a, b)
  {
    CascadeIsOnward(a, mid, s);
    FreeEmptiedSlot(a, mid, s);
  }

  lemma RefStepIsSafe(a: Store, mid: Store, b: Store, s: SlotId, t: Option<ObjId>)
    requires Consistent(a) && RefStep(a, mid, b, s, t)
    ensures Consistent(b) && Onward(a, b)
  {
    if !PointsAt(a, s, t) {
      CascadeIsOnward(a, mid, s);
      KeptTargetSurvives(a, mid, s, t);
    }
  }

  lemma WeakStepIsSafe(a: Store, mid: Store, b: Store, w: SlotId, t: Option<ObjId>)
    requires Consistent(a) && WeakStep(a, mid, b, w, t)
    ensures Consistent(b) && Onward(a, b)
  {
    if !PointsAt(a, w, t) {
      CascadeIsOnward(a, mid, w);
      KeptTargetSurvives(a, mid, w, t);
      if t.Some? {
        AttachWeakExact(mid, w, t.value, mid.objs[t.value].value);
      }
    }
  }

  /** The target and the slot survive the Unset of a kept assignment. */
  lemma KeptTargetSurvives(a: Store, mid: Store, s: SlotId, t: Option<ObjId>)
    requires Consistent(a) && s in a.slots && KeptFor(a, s, t) && !PointsAt(a, s, t)
    requires Inv(mid) && Cascade(a, mid, {s}, {})
    ensures t.Some? ==> t.value in mid.objs && s in mid.slots
  {
    if t.Some? {
      SurvivorsExact(a, mid, s, t.value);
      SlotSurvives(a, mid, s);
    }
  }

  /**
   * Assigning an object to a Ref leaves a consistent state and the Ref itself if and only if the assignment is kept, so
   * the runs leave out exactly the assignments that go wrong.
   */
  lemma RefAssignmentIsSafeIff(a: Store, mid: Store, b: Store, s: SlotId, t: ObjId)
    requires Consistent(a) && s in a.slots && a.slots[s].target.Strong? && t < a.next
    requires RefAssigned(a, mid, b, s, Some(t))
    ensures Consistent(b) && s in b.slots <==> KeptFor(a, s, Some(t))
  {
    if PointsAt(a, s, Some(t)) {
      assert t in a.objs;
    } else {
      CascadeIsOnward(a, mid, s);
      AssignSafeIff(a, mid, s, Some(t));
      SurvivorsExact(a, mid, s, t);
    }
  }

  /** The same for a WeakRef, whose assignment also has to read the counter of the target. */
  lemma WeakAssignmentIsSafeIff(a: Store, mid: Store, b: Store, w: SlotId, t: ObjId, ok: bool)
    requires Consistent(a) && w in a.slots && a.slots[w].target.Weak? && t in a.objs
    requires WeakAssigned(a, mid, b, w, Some(t), ok)
    ensures ok && Consistent(b) && w in b.slots <==> KeptFor(a, w, Some(t))
  {
    if !PointsAt(a, w, Some(t)) {
      CascadeIsOnward(a, mid, w);
      WeakAssignSafeIff(a, mid, w, t);
      if t in mid.objs {
        AttachWeakExact(mid, w, t, mid.objs[t].value);
      }
    }
  }

  /** An empty slot can be given any live object, one that lives only in an unreachable cycle included. */
  lemma NullSlotTakesAny(a: Store, s: SlotId, t: ObjId)
    requires Consistent(a) && s in a.slots && a.slots[s].target.IsNull() && t in a.objs
    ensures KeptFor(a, s, Some(t))
  {
    NullSlotKeepsNothing(a, s, t);
  }

  /** A local can be given what another local or global Ref holds. */
  lemma LocalTakesFromRoot(a: Store, s: SlotId, r: SlotId, t: ObjId)
    requires Consistent(a) && s in a.slots && a.slots[s].owner.None?
    requires r in a.slots && r != s && a.slots[r].owner.None? && a.slots[r].target == Strong(Some(t))
    ensures KeptFor(a, s, Some(t))
  {
    RootKeeps(a, s, r, t);
  }

  /** One operation. */
  lemma StepIsSafe(a: Store, b: Store)
    requires Consistent(a) && Step(a, b)
    ensures Consistent(b) && Onward(a, b)
  {
    if b == AllocObject(a) {
      AllocStep(a);
    } else if exists strong, owner :: SlotStep(a, b, strong, owner) {
      var strong, owner :| SlotStep(a, b, strong, owner);
      SlotStepIsSafe(a, b, strong, owner);
    } else if exists s, mid :: DropStep(a, mid, b, s) {
      var s, mid :| DropStep(a, mid, b, s);
      DropStepIsSafe(a, mid, b, s);
    } else if exists s, t, mid :: RefStep(a, mid, b, s, t) {
      var s, t, mid :| RefStep(a, mid, b, s, t);
      RefStepIsSafe(a, mid, b, s, t);
    } else {
      var w, t, mid :| WeakStep(a, mid, b, w, t);
      WeakStepIsSafe(a, mid, b, w, t);
    }
  }

  const EMPTY: Store := Store(map[], map[], map[], 0, {}, map[])

  ghost predicate Run(trace: seq<Store>) {
    trace != [] && trace[0] == EMPTY && forall i :: 0 < i < |trace| ==> Reached(trace, i)
  }

  ghost predicate Reached(trace: seq<Store>, i: nat)
    requires 0 < i < |trace|
  {
    Step(trace[i - 1], trace[i])
  }

  /** Every state of every run is consistent: exact counts, no dangling Ref, no destructor left running. */
  lemma {:induction false} RunIsSafe(trace: seq<Store>, i: nat)
    requires Run(trace) && i < |trace|
    ensures Consistent(trace[i])
  {
    if i == 0 {
      EmptyStoreInv(0);
    } else {
      RunIsSafe(trace, i - 1);
      assert Reached(trace, i);
      StepIsSafe(trace[i - 1], trace[i]);
    }
  }

  lemma OnwardTwice(a: Store, b: Store, c: Store)
    requires Onward(a, b) && Onward(b, c)
    ensures Onward(a, c)
  {
  }

  lemma OnwardFrom(a: Store)
    ensures Onward(a, a)
  {
  }

  lemma StepInRun(trace: seq<Store>, j: nat)
    requires Run(trace) && 0 < j < |trace|
    ensures Onward(trace[j - 1], trace[j])
  {
    RunIsSafe(trace, j - 1);
    assert Reached(trace, j);
    StepIsSafe(trace[j - 1], trace[j]);
  }

  lemma {:induction false} RunGoesOn(trace: seq<Store>, i: nat, j: nat)
    requires Run(trace) && i <= j < |trace|
    ensures Onward(trace[i], trace[j])
  {
    if i < j {
      RunGoesOn(trace, i, j - 1);
      StepInRun(trace, j);
      OnwardTwice(trace[i], trace[j - 1], trace[j]);
    } else {
      OnwardFrom(trace[i]);
    }
  }

  /** In every run an object or counter that is gone never comes back: each is freed at most once. */
  lemma FreedAtMostOnce(trace: seq<Store>, i: nat, j: nat, k: nat, o: nat)
    requires Run(trace) && i <= j <= k < |trace|
    ensures o in trace[i].objs && o !in trace[j].objs ==> o !in trace[k].objs
    ensures o in trace[i].ctrs && o !in trace[j].ctrs ==> o !in trace[k].ctrs
  {
    RunGoesOn(trace, i, j);
    RunGoesOn(trace, j, k);
    RunIsSafe(trace, i);
    if o in trace[i].objs {
      assert ObjOk(trace[i], o);
    }
    if o in trace[i].ctrs {
      assert CtrOk(trace[i], o);
    }
  }

  /**
   * In every run, wherever the Ref edges are acyclic, an object that some Ref held at an earlier time is allocated
   * exactly when it is reachable.
   */
  lemma HeldInRunIffReachable(trace: seq<Store>, i: nat, j: nat, rank: ObjId -> nat, s: SlotId, o: ObjId)
    requires Run(trace) && i <= j < |trace| && RefsAcyclic(trace[j], rank)
    requires s in trace[i].slots && trace[i].slots[s].target == Strong(Some(o))
    ensures o in trace[j].objs <==> exists n: nat :: RefReach(trace[j], o, n)
  {
    RunIsSafe(trace, i);
    RunIsSafe(trace, j);
    RunGoesOn(trace, i, j);
    HolderIsHeld(trace[i], s, o);
    HeldLiveIffReachable(trace[j], rank, o);
  }

  lemma HolderIsHeld(st: Store, s: SlotId, o: ObjId)
    requires Consistent(st) && s in st.slots && st.slots[s].target == Strong(Some(o))
    ensures o in st.held
  {
    assert o in st.objs;
    assert ObjOk(st, o);
    assert s in Holding(st.slots, Strong(Some(o)));
  }
}
