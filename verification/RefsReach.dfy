/**
 * Which objects a cascade frees: in any heap exactly those that no group keeps without the emptied slot, and in a heap
 * without keeping cycles exactly those that stop being reachable.
 */
module RefsReach {
  import opened Common
  import opened RefsState
  import opened RefsCascade

  /** Kept, in at most n ownership steps and without slot `skip`, by a local, a global or an unreferenced object. */
  ghost predicate KeptIn(st: Store, skip: Option<SlotId>, o: ObjId, n: nat)
    decreases n, 1
  {
    || (o in st.objs && Unreferenced(st, o))
    || exists s :: s in st.slots && Some(s) != skip && Keeps(st, s, o) && OwnerKept(st, skip, st.slots[s].owner, n)
  }

  ghost predicate OwnerKept(st: Store, skip: Option<SlotId>, owner: Option<ObjId>, n: nat)
    decreases n, 0
  {
    owner.None? || (n > 0 && KeptIn(st, skip, owner.value, n - 1))
  }

  ghost predicate Kept(st: Store, skip: Option<SlotId>, o: ObjId) {
    exists n: nat :: KeptIn(st, skip, o, n)
  }

  /** Every slot that keeps an object belongs to one of strictly smaller rank, so keeping has no cycle. */
  ghost predicate Acyclic(st: Store, rank: ObjId -> nat) {
    forall s, o :: s in st.slots && st.slots[s].owner.Some? && Keeps(st, s, o) ==>
      rank(st.slots[s].owner.value) < rank(o)
  }

  /** Some group with the object in it stays alive without the slot `s`; a cycle of objects may be such a group. */
  ghost predicate Upheld(st: Store, s: SlotId, o: ObjId) {
    exists group :: SelfKept(st, {s}, {}, group) && o in group
  }

  /** The slot is a local or global, or a field of an object that lives on without it. */
  ghost predicate OwnerUpheld(st: Store, s: SlotId)
    requires s in st.slots
  {
    st.slots[s].owner.Some? ==> Upheld(st, s, st.slots[s].owner.value)
  }

  // ---------------------------------------------------------------------------------------------
  // Any heap, cyclic or not.

  /** Between two operations, a slot keeps only live objects. */
  lemma KeeperIsLive(st: Store, s: SlotId, o: ObjId)
    requires Inv(st) && Quiet(st) && NoDangling(st) && s in st.slots && Keeps(st, s, o)
    ensures o in st.objs
  {
    assert SlotOk(st, s);
    match st.slots[s].target
    case Strong(t) =>
    case Weak(Some(c)) => assert CtrOk(st, c);
  }

  lemma SomeKeeper(st: Store, o: ObjId) returns (s: SlotId)
    requires Inv(st) && Quiet(st) && o in st.objs && !Unreferenced(st, o)
    ensures s in st.slots && Keeps(st, s, o)
  {
    assert ObjOk(st, o);
    var strong := Holding(st.slots, Strong(Some(o)));
    if strong != {} {
      s :| s in strong;
    } else {
      s :| s in Holding(st.slots, Weak(st.objs[o]));
    }
  }

  lemma KeeperBefore(a: Store, b: Store, s: SlotId, t: SlotId, o: ObjId)
    requires Inv(a) && Quiet(a)
    requires Cascade(a, b, {s}, {})
    requires t in b.slots && Keeps(b, t, o)
    ensures t != s && t in a.slots && a.slots[t] == b.slots[t] && Keeps(a, t, o)
  {
    assert SlotOk(a, t);
    if b.slots[t].target.Weak? {
      assert CtrOk(a, b.slots[t].target.ctr.value);
    }
  }

  /**
   * Emptying a slot frees exactly the objects that need it: an object is allocated afterwards if and only if it belongs
   * to a group that was kept without that slot. A cycle that nothing else reaches survives only if it did not need it.
   */
  lemma SurvivorsExact(a: Store, b: Store, s: SlotId, o: ObjId)
    requires Inv(a) && Quiet(a)
    requires Inv(b) && Cascade(a, b, {s}, {})
    ensures o in b.objs <==> Upheld(a, s, o)
  {
    if o in b.objs {
      SurvivorsKeepThemselves(a, b, s);
    }
  }

  lemma SurvivorsKeepThemselves(a: Store, b: Store, s: SlotId)
    requires Inv(a) && Quiet(a)
    requires Inv(b) && Cascade(a, b, {s}, {})
    ensures SelfKept(a, {s}, {}, b.objs.Keys)
  {
    CascadeKeepsQuiet(a, b, {s});
    forall o | o in b.objs ensures KeptWithin(a, {s}, b.objs.Keys, o) {
      if Unreferenced(b, o) {
        assert Unreferenced(a, o);
      } else {
        var t := SomeKeeper(b, o);
        KeeperBefore(a, b, s, t, o);
        assert SlotOk(b, t);
        assert OwnedWithin(a.slots[t], b.objs.Keys);
      }
    }
  }

  /** The slot itself is still there afterwards if and only if its owner lives on without it. */
  lemma SlotSurvives(a: Store, b: Store, s: SlotId)
    requires Inv(a) && Quiet(a) && s in a.slots
    requires Inv(b) && Cascade(a, b, {s}, {})
    ensures s in b.slots <==> OwnerUpheld(a, s)
  {
    var owner := a.slots[s].owner;
    if owner.Some? {
      SurvivorsExact(a, b, s, owner.value);
    }
    if s in b.slots {
      assert SlotOk(b, s);
    } else {
      assert OwnerGone(a, b, {}, owner);
    }
  }

  /** An empty slot keeps nothing, so every live object lives on without it. */
  lemma NullSlotKeepsNothing(a: Store, s: SlotId, o: ObjId)
    requires Inv(a) && Quiet(a) && s in a.slots && a.slots[s].target.IsNull() && o in a.objs
    ensures Upheld(a, s, o) && OwnerUpheld(a, s)
  {
    forall p | p in a.objs ensures KeptWithin(a, {s}, a.objs.Keys, p) {
      if !Unreferenced(a, p) {
        var t := SomeKeeper(a, p);
        assert SlotOk(a, t);
        assert OwnedWithin(a.slots[t], a.objs.Keys);
      }
    }
    assert SelfKept(a, {s}, {}, a.objs.Keys);
    assert SlotOk(a, s);
  }

  /** A local or global Ref other than the emptied slot keeps its object. */
  lemma RootKeeps(a: Store, s: SlotId, r: SlotId, t: ObjId)
    requires NoDangling(a)
    requires r in a.slots && r != s && a.slots[r].owner.None? && a.slots[r].target == Strong(Some(t))
    ensures Upheld(a, s, t)
  {
    assert Keeps(a, r, t) && OwnedWithin(a.slots[r], {t});
    assert SelfKept(a, {s}, {}, {t});
  }

  /** Each of the two objects has a field that holds the other; they may be one object with one field. */
  ghost predicate HoldEachOther(st: Store, x: ObjId, f: SlotId, y: ObjId, g: SlotId) {
    && x in st.objs && y in st.objs
    && f in st.slots && st.slots[f] == Slot(Some(x), Strong(Some(y)))
    && g in st.slots && st.slots[g] == Slot(Some(y), Strong(Some(x)))
  }

  /** No Unset of another slot ever frees them, be it the last one through which they can be reached. */
  lemma CycleStays(a: Store, b: Store, s: SlotId, x: ObjId, f: SlotId, y: ObjId, g: SlotId)
    requires Inv(a) && Quiet(a) && HoldEachOther(a, x, f, y, g) && s != f && s != g
    requires Inv(b) && Cascade(a, b, {s}, {})
    ensures HoldEachOther(b, x, f, y, g)
  {
    assert Keeps(a, f, y) && Keeps(a, g, x);
    assert OwnedWithin(a.slots[f], {x, y}) && OwnedWithin(a.slots[g], {x, y});
    assert SelfKept(a, {s}, {}, {x, y});
    SurvivorsExact(a, b, s, x);
    SurvivorsExact(a, b, s, y);
    forall t | t in a.slots && t !in b.slots ensures OwnerGone(a, b, {}, a.slots[t].owner) { }
  }

  // ---------------------------------------------------------------------------------------------
  // Chains of keepers.

  lemma KeeperOf(st: Store, skip: Option<SlotId>, o: ObjId, n: nat) returns (t: SlotId)
    requires KeptIn(st, skip, o, n) && !(o in st.objs && Unreferenced(st, o))
    ensures t in st.slots && Some(t) != skip && Keeps(st, t, o)
    ensures st.slots[t].owner.None? || (n > 0 && KeptIn(st, skip, st.slots[t].owner.value, n - 1))
  {
    t :| t in st.slots && Some(t) != skip && Keeps(st, t, o) && OwnerKept(st, skip, st.slots[t].owner, n);
  }

  /** What a chain keeps without the slot `s` lives on without it, in any heap. */
  lemma {:induction false} KeptIsUpheld(a: Store, s: SlotId, o: ObjId, n: nat)
    requires Inv(a) && Quiet(a) && NoDangling(a) && KeptIn(a, Some(s), o, n)
    ensures Upheld(a, s, o)
    decreases n
  {
    if o in a.objs && Unreferenced(a, o) {
      assert SelfKept(a, {s}, {}, {o});
    } else {
      var t := KeeperOf(a, Some(s), o, n);
      KeeperIsLive(a, t, o);
      var group := {};
      if a.slots[t].owner.Some? {
        KeptIsUpheld(a, s, a.slots[t].owner.value, n - 1);
        group :| SelfKept(a, {s}, {}, group) && a.slots[t].owner.value in group;
      }
      GroupGrows(a, s, group, t, o);
    }
  }

  lemma GroupGrows(a: Store, s: SlotId, group: set<ObjId>, t: SlotId, o: ObjId)
    requires SelfKept(a, {s}, {}, group)
    requires o in a.objs && t in a.slots && t != s && Keeps(a, t, o) && OwnedWithin(a.slots[t], group)
    ensures SelfKept(a, {s}, {}, group + {o})
  {
    forall p | p in group ensures KeptWithin(a, {s}, group + {o}, p) {
      if a.objs[p].Some? && !Unreferenced(a, p) {
        var k :| k in a.slots && k != s && Keeps(a, k, p) && OwnedWithin(a.slots[k], group);
        assert OwnedWithin(a.slots[k], group + {o});
      }
    }
    assert OwnedWithin(a.slots[t], group + {o});
  }

  /** In a heap without keeping cycles a group is kept by chains. */
  lemma {:induction false} UpheldIsKept(a: Store, s: SlotId, group: set<ObjId>, rank: ObjId -> nat, o: ObjId)
    requires Quiet(a) && Acyclic(a, rank) && SelfKept(a, {s}, {}, group) && o in group
    ensures KeptIn(a, Some(s), o, rank(o))
    decreases rank(o)
  {
    if !Unreferenced(a, o) {
      var t :| t in a.slots && t != s && Keeps(a, t, o) && OwnedWithin(a.slots[t], group);
      var owner := a.slots[t].owner;
      if owner.Some? {
        UpheldIsKept(a, s, group, rank, owner.value);
        KeptLonger(a, Some(s), owner.value, rank(owner.value), rank(o) - 1);
      }
      assert OwnerKept(a, Some(s), owner, rank(o));
    }
  }

  /** Where keeping has no cycle, to live on without a slot is to be reachable without it. */
  lemma UpheldIffKept(a: Store, s: SlotId, rank: ObjId -> nat, o: ObjId)
    requires Inv(a) && Quiet(a) && NoDangling(a) && Acyclic(a, rank)
    ensures Upheld(a, s, o) <==> Kept(a, Some(s), o)
  {
    if Upheld(a, s, o) {
      var group :| SelfKept(a, {s}, {}, group) && o in group;
      UpheldIsKept(a, s, group, rank, o);
    }
    if Kept(a, Some(s), o) {
      var n: nat :| KeptIn(a, Some(s), o, n);
      KeptIsUpheld(a, s, o, n);
    }
  }

  /** What a chain keeps without the slot survives emptying it. */
  lemma KeptSurvives(a: Store, b: Store, s: SlotId, o: ObjId, n: nat)
    requires Inv(a) && Quiet(a) && NoDangling(a)
    requires Inv(b) && Cascade(a, b, {s}, {})
    requires KeptIn(a, Some(s), o, n)
    ensures o in b.objs
  {
    KeptIsUpheld(a, s, o, n);
    SurvivorsExact(a, b, s, o);
  }

  /** In a heap without keeping cycles every live object is kept. */
  lemma {:induction false} LiveIsKept(st: Store, rank: ObjId -> nat, o: ObjId)
    requires Inv(st) && Quiet(st) && Acyclic(st, rank) && o in st.objs
    ensures KeptIn(st, None, o, rank(o))
    decreases rank(o)
  {
    if !Unreferenced(st, o) {
      var s := SomeKeeper(st, o);
      var owner := st.slots[s].owner;
      if owner.Some? {
        assert SlotOk(st, s);
        LiveIsKept(st, rank, owner.value);
        KeptLonger(st, None, owner.value, rank(owner.value), rank(o) - 1);
      }
      assert OwnerKept(st, None, owner, rank(o));
    }
  }

  lemma {:induction false} KeptLonger(st: Store, skip: Option<SlotId>, o: ObjId, n: nat, m: nat)
    requires KeptIn(st, skip, o, n) && n <= m
    ensures KeptIn(st, skip, o, m)
    decreases n
  {
    if !(o in st.objs && Unreferenced(st, o)) {
      var s :| s in st.slots && Some(s) != skip && Keeps(st, s, o) && OwnerKept(st, skip, st.slots[s].owner, n);
      if st.slots[s].owner.Some? {
        KeptLonger(st, skip, st.slots[s].owner.value, n - 1, m - 1);
      }
      assert OwnerKept(st, skip, st.slots[s].owner, m);
    }
  }

  // ---------------------------------------------------------------------------------------------
  // The same for Refs alone.

  /** Reachable through Refs from a local or global, or from an object no Ref ever held. */
  ghost predicate RefReach(st: Store, o: ObjId, n: nat)
    decreases n, 1
  {
    || (o in st.objs && o !in st.held)
    || exists s :: s in st.slots && st.slots[s].target == Strong(Some(o)) && RefOwner(st, st.slots[s].owner, n)
  }

  ghost predicate RefOwner(st: Store, owner: Option<ObjId>, n: nat)
    decreases n, 0
  {
    owner.None? || (n > 0 && RefReach(st, owner.value, n - 1))
  }

  ghost predicate RefsAcyclic(st: Store, rank: ObjId -> nat) {
    forall s, o :: s in st.slots && st.slots[s].owner.Some? && st.slots[s].target == Strong(Some(o)) ==>
      rank(st.slots[s].owner.value) < rank(o)
  }

  lemma {:induction false} RefReachLonger(st: Store, o: ObjId, n: nat, m: nat)
    requires RefReach(st, o, n) && n <= m
    ensures RefReach(st, o, m)
    decreases n
  {
    if !(o in st.objs && o !in st.held) {
      var s :| s in st.slots && st.slots[s].target == Strong(Some(o)) && RefOwner(st, st.slots[s].owner, n);
      if st.slots[s].owner.Some? {
        RefReachLonger(st, st.slots[s].owner.value, n - 1, m - 1);
      }
      assert RefOwner(st, st.slots[s].owner, m);
    }
  }

  lemma {:induction false} LiveIsReachable(st: Store, rank: ObjId -> nat, o: ObjId)
    requires Inv(st) && Quiet(st) && RefsAcyclic(st, rank) && o in st.objs
    ensures RefReach(st, o, rank(o))
    decreases rank(o)
  {
    if o in st.held {
      assert ObjOk(st, o);
      var s :| s in Holding(st.slots, Strong(Some(o)));
      var owner := st.slots[s].owner;
      if owner.Some? {
        assert SlotOk(st, s);
        LiveIsReachable(st, rank, owner.value);
        RefReachLonger(st, owner.value, rank(owner.value), rank(o) - 1);
      }
      assert RefOwner(st, owner, rank(o));
    }
  }

  /**
   * Between two operations of a run whose Ref edges are acyclic, an object that some Ref ever held is allocated
   * exactly when it is reachable.
   */
  lemma HeldLiveIffReachable(st: Store, rank: ObjId -> nat, o: ObjId)
    requires Inv(st) && Quiet(st) && NoDangling(st) && RefsAcyclic(st, rank) && o in st.held
    ensures o in st.objs <==> exists n: nat :: RefReach(st, o, n)
  {
    if o in st.objs {
      LiveIsReachable(st, rank, o);
      var n := rank(o);
      assert RefReach(st, o, n);
    }
    if exists n: nat :: RefReach(st, o, n) {
      var n: nat :| RefReach(st, o, n);
      ReachableIsLive(st, o, n);
    }
  }

  lemma ReachableIsLive(st: Store, o: ObjId, n: nat)
    requires NoDangling(st) && RefReach(st, o, n)
    ensures o in st.objs
  {
    if !(o in st.objs && o !in st.held) {
      var s :| s in st.slots && st.slots[s].target == Strong(Some(o)) && RefOwner(st, st.slots[s].owner, n);
    }
  }

  /** Once every local and global is gone an acyclic heap has freed everything that was ever referenced. */
  lemma NoRootsNoObjects(st: Store, rank: ObjId -> nat, o: ObjId)
    requires Inv(st) && Quiet(st) && NoDangling(st) && Acyclic(st, rank)
    requires forall s :: s in st.slots ==> st.slots[s].owner.Some?
    requires o in st.objs
    ensures exists p :: p in st.objs && Unreferenced(st, p)
  {
    LiveIsKept(st, rank, o);
    KeptBottomsOut(st, o, rank(o));
  }

  lemma {:induction false} KeptBottomsOut(st: Store, o: ObjId, n: nat)
    requires KeptIn(st, None, o, n)
    requires forall s :: s in st.slots ==> st.slots[s].owner.Some?
    ensures exists p :: p in st.objs && Unreferenced(st, p)
    decreases n
  {
    if !(o in st.objs && Unreferenced(st, o)) {
      var s :| s in st.slots && Keeps(st, s, o) && OwnerKept(st, None, st.slots[s].owner, n);
      KeptBottomsOut(st, st.slots[s].owner.value, n - 1);
    }
  }

  // ---------------------------------------------------------------------------------------------
  // WeakRef.Ptr and Ref.operator=.

  /** WeakRef.Ptr. */
  function WeakPtr(st: Store, w: SlotId): Option<ObjId>
    requires w in st.slots && st.slots[w].target.Weak?
  {
    var t := st.slots[w].target.ctr;
    if t.Some? && t.value in st.ctrs && !st.ctrs[t.value].deleted then Some(st.ctrs[t.value].obj) else None
  }

  /** It yields the object its counter was made for while that object lives, and NULL from then on. */
  lemma WeakPtrIsLive(st: Store, w: SlotId)
    requires Inv(st) && Quiet(st) && w in st.slots && st.slots[w].target.Weak? && st.slots[w].target.ctr.Some?
    ensures var c := st.slots[w].target.ctr.value;
      && c in st.ctrs
      && WeakPtr(st, w) == (if st.ctrs[c].obj in st.objs then Some(st.ctrs[c].obj) else None)
      && (WeakPtr(st, w).Some? ==> st.objs[WeakPtr(st, w).value] == Some(c))
  {
    assert SlotOk(st, w);
    var c := st.slots[w].target.ctr.value;
    assert CtrOk(st, c);
  }

  /** A counter lives exactly as long as its object or some WeakRef on it. */
  lemma CountersDoNotLeak(st: Store, c: CtrId)
    requires Inv(st) && Quiet(st) && c in st.ctrs
    ensures !st.ctrs[c].deleted <==> st.ctrs[c].obj in st.objs
    ensures st.ctrs[c].obj in st.objs || exists w :: w in st.slots && st.slots[w].target == Weak(Some(c))
    ensures st.ctrs[c].numWeak == |set w | w in st.slots && st.slots[w].target == Weak(Some(c))|
    ensures st.ctrs[c].obj in st.objs ==>
      st.ctrs[c].numStrong == |set s | s in st.slots && st.slots[s].target == Strong(Some(st.ctrs[c].obj))|
  {
    assert CtrOk(st, c);
    if st.ctrs[c].obj in st.objs { assert ObjOk(st, st.ctrs[c].obj); }
    if st.ctrs[c].deleted {
      var w :| w in Holding(st.slots, Weak(Some(c)));
    }
    assert Holding(st.slots, Weak(Some(c))) == set w | w in st.slots && st.slots[w].target == Weak(Some(c));
    assert Holding(st.slots, Strong(Some(st.ctrs[c].obj)))
        == set s | s in st.slots && st.slots[s].target == Strong(Some(st.ctrs[c].obj));
  }

  /**
   * Assigning `t` to the Ref `s` keeps the counts exact and no Ref dangling if and only if, before the assignment, the
   * target is NULL, or it lives on without `s` exactly when the owner of `s` does.
   */
  lemma AssignSafeIff(a: Store, mid: Store, s: SlotId, t: Option<ObjId>)
    requires Inv(a) && Quiet(a) && NoDangling(a)
    requires s in a.slots && a.slots[s].target.Strong? && a.slots[s].target != Strong(t)
    requires t.Some? ==> t.value < a.next
    requires Inv(mid) && Cascade(a, mid, {s}, {})
    ensures s in mid.slots <==> OwnerUpheld(a, s)
    ensures Inv(AttachStrong(mid, s, t)) && NoDangling(AttachStrong(mid, s, t))
      <==> (t.Some? ==> (Upheld(a, s, t.value) <==> OwnerUpheld(a, s)))
  {
    CascadeKeepsQuiet(a, mid, {s});
    CascadeKeepsNoDangling(a, mid, {s});
    AttachStrongExact(mid, s, t);
    SlotSurvives(a, mid, s);
    if t.Some? {
      SurvivorsExact(a, mid, s, t.value);
    }
  }

  /**
   * Assigning the live object `t` to the WeakRef `w` reads only allocated memory if and only if the object lives on
   * without `w`, and then keeps the counts exact if and only if the owner of `w` lives on likewise.
   */
  lemma WeakAssignSafeIff(a: Store, mid: Store, w: SlotId, t: ObjId)
    requires Inv(a) && Quiet(a) && NoDangling(a)
    requires w in a.slots && a.slots[w].target.Weak? && t in a.objs && a.slots[w].target != Weak(a.objs[t])
    requires Inv(mid) && Cascade(a, mid, {w}, {})
    ensures w in mid.slots <==> OwnerUpheld(a, w)
    ensures t in mid.objs <==> Upheld(a, w, t)
    ensures t in mid.objs ==>
      && mid.objs[t].Some? && mid.objs[t].value in mid.ctrs
      && (Inv(AttachWeak(mid, w, mid.objs[t].value)) <==> OwnerUpheld(a, w))
  {
    SurvivorsExact(a, mid, w, t);
    SlotSurvives(a, mid, w);
    CascadeKeepsQuiet(a, mid, {w});
    CascadeKeepsNoDangling(a, mid, {w});
    if t in mid.objs {
      AttachWeakExact(mid, w, t, mid.objs[t].value);
    }
  }

  /** Where keeping has no cycle, the owner of a slot never needs that slot. */
  lemma OwnerOutlives(a: Store, s: SlotId, rank: ObjId -> nat)
    requires Inv(a) && Quiet(a) && NoDangling(a) && Acyclic(a, rank) && s in a.slots
    ensures OwnerUpheld(a, s)
  {
    var owner := a.slots[s].owner;
    if owner.Some? {
      assert SlotOk(a, s);
      KeptWithoutHigherSlot(a, s, owner.value, rank);
      KeptIsUpheld(a, s, owner.value, rank(owner.value));
    }
  }

  /** A slot of an object does not take part in keeping objects of no higher rank. */
  lemma {:induction false} KeptWithoutHigherSlot(st: Store, s: SlotId, o: ObjId, rank: ObjId -> nat)
    requires Inv(st) && Quiet(st) && Acyclic(st, rank) && o in st.objs
    requires s in st.slots && st.slots[s].owner.Some? && rank(o) <= rank(st.slots[s].owner.value)
    ensures KeptIn(st, Some(s), o, rank(o))
    decreases rank(o)
  {
    if !Unreferenced(st, o) {
      var t := SomeKeeper(st, o);
      assert t != s;
      var owner := st.slots[t].owner;
      if owner.Some? {
        assert SlotOk(st, t);
        KeptWithoutHigherSlot(st, s, owner.value, rank);
        KeptLonger(st, Some(s), owner.value, rank(owner.value), rank(o) - 1);
      }
      assert OwnerKept(st, Some(s), owner, rank(o));
    }
  }

  /** So there the two assignments are safe if and only if the target is reachable without the slot. */
  lemma AssignSafeIffKept(a: Store, mid: Store, s: SlotId, t: Option<ObjId>, rank: ObjId -> nat)
    requires Inv(a) && Quiet(a) && NoDangling(a) && Acyclic(a, rank)
    requires s in a.slots && a.slots[s].target.Strong? && a.slots[s].target != Strong(t)
    requires t.Some? ==> t.value < a.next
    requires Inv(mid) && Cascade(a, mid, {s}, {})
    ensures Inv(AttachStrong(mid, s, t)) && NoDangling(AttachStrong(mid, s, t))
      <==> (t.Some? ==> Kept(a, Some(s), t.value))
  {
    AssignSafeIff(a, mid, s, t);
    OwnerOutlives(a, s, rank);
    if t.Some? {
      UpheldIffKept(a, s, rank, t.value);
    }
  }

  lemma WeakAssignSafeIffKept(a: Store, mid: Store, w: SlotId, t: ObjId, rank: ObjId -> nat)
    requires Inv(a) && Quiet(a) && NoDangling(a) && Acyclic(a, rank)
    requires w in a.slots && a.slots[w].target.Weak? && t in a.objs && a.slots[w].target != Weak(a.objs[t])
    requires Inv(mid) && Cascade(a, mid, {w}, {})
    ensures t in mid.objs <==> Kept(a, Some(w), t)
    ensures t in mid.objs ==>
      mid.objs[t].Some? && mid.objs[t].value in mid.ctrs && Inv(AttachWeak(mid, w, mid.objs[t].value))
  {
    WeakAssignSafeIff(a, mid, w, t);
    OwnerOutlives(a, w, rank);
    UpheldIffKept(a, w, rank, t);
  }

  /**
   * `cur = cur.next`: the Ref `s` is all that keeps `x`, and only fields of `x` keep `y`. Emptying `s` frees both
   * objects before the new target is counted, so the assignment leaves `s` dangling.
   */
  lemma AdvanceAlongListDangles(a: Store, mid: Store, s: SlotId, x: ObjId, y: ObjId)
    requires Inv(a) && Quiet(a) && NoDangling(a)
    requires s in a.slots && a.slots[s].target == Strong(Some(x)) && OwnerUpheld(a, s) && y in a.objs && x != y
    requires forall t :: t in a.slots && Keeps(a, t, x) ==> t == s
    requires forall t :: t in a.slots && Keeps(a, t, y) ==> a.slots[t].owner == Some(x)
    requires !Unreferenced(a, y)
    requires Inv(mid) && Cascade(a, mid, {s}, {})
    ensures x !in mid.objs && y !in mid.objs && !NoDangling(AttachStrong(mid, s, Some(y)))
  {
    assert s in Holding(a.slots, Strong(Some(x)));
    NoGroupKeeps(a, s, x, y);
    SurvivorsExact(a, mid, s, x);
    SurvivorsExact(a, mid, s, y);
    SlotSurvives(a, mid, s);
    CascadeKeepsQuiet(a, mid, {s});
    CascadeKeepsNoDangling(a, mid, {s});
    assert ObjOk(a, y);
    AttachStrongExact(mid, s, Some(y));
  }

  lemma NoGroupKeeps(a: Store, s: SlotId, x: ObjId, y: ObjId)
    requires Quiet(a) && y in a.objs && (x in a.objs ==> !Unreferenced(a, x)) && !Unreferenced(a, y)
    requires forall t :: t in a.slots && Keeps(a, t, x) ==> t == s
    requires forall t :: t in a.slots && Keeps(a, t, y) ==> a.slots[t].owner == Some(x)
    ensures !Upheld(a, s, x) && !Upheld(a, s, y)
  {
    forall group | SelfKept(a, {s}, {}, group) ensures x !in group && y !in group {
      assert x in a.objs ==> !KeptWithin(a, {s}, group, x);
      assert !KeptWithin(a, {s}, group, y);
    }
  }

  /** Such a heap exists: the local 4 holds object 0, whose field 5 holds object 2. */
  function ListOfTwo(): Store {
    Store(map[0 := Some(1), 2 := Some(3)],
          map[1 := Counter(0, 1, 0, false), 3 := Counter(0, 1, 2, false)],
          map[4 := Slot(None, Strong(Some(0))), 5 := Slot(Some(0), Strong(Some(2)))],
          6, {0, 2}, map[])
  }

  /** The same before the two assignments. */
  function ListOfTwoEmpty(): Store {
    Store(map[0 := Some(1), 2 := Some(3)],
          map[1 := Counter(0, 0, 0, false), 3 := Counter(0, 0, 2, false)],
          map[4 := Slot(None, Strong(None)), 5 := Slot(Some(0), Strong(None))],
          6, {}, map[])
  }

  lemma ListOfTwoAllocated()
    ensures var two := AllocObject(AllocObject(Store(map[], map[], map[], 0, {}, map[])));
      AllocSlot(AllocSlot(two, true, None), true, Some(0)) == ListOfTwoEmpty()
  {
  }

  lemma ListOfTwoLinked()
    ensures AttachStrong(AttachStrong(ListOfTwoEmpty(), 4, Some(0)), 5, Some(2)) == ListOfTwo()
  {
    var a := AttachStrong(ListOfTwoEmpty(), 4, Some(0));
    assert a.ctrs == map[1 := Counter(0, 1, 0, false), 3 := Counter(0, 0, 2, false)];
    assert a.slots == map[4 := Slot(None, Strong(Some(0))), 5 := Slot(Some(0), Strong(None))];
    assert AttachStrong(a, 5, Some(2)).ctrs == ListOfTwo().ctrs;
    assert AttachStrong(a, 5, Some(2)).slots == ListOfTwo().slots;
  }

  lemma ListOfTwoHoldings()
    ensures StrongOn(ListOfTwo(), 0) == 1 && StrongOn(ListOfTwo(), 2) == 1
    ensures WeakOn(ListOfTwo(), 1) == 0 && WeakOn(ListOfTwo(), 3) == 0
  {
    var m := ListOfTwo().slots;
    assert m.Keys == {4, 5};
    assert Holding(m, Strong(Some(0))) == {4};
    assert Holding(m, Strong(Some(2))) == {5};
    assert Holding(m, Weak(Some(1))) == {};
    assert Holding(m, Weak(Some(3))) == {};
  }

  lemma ListOfTwoIsConsistent()
    ensures Inv(ListOfTwo()) && Quiet(ListOfTwo()) && NoDangling(ListOfTwo())
  {
    var a := ListOfTwo();
    ListOfTwoHoldings();
    assert a.objs.Keys == {0, 2} && a.ctrs.Keys == {1, 3} && a.slots.Keys == {4, 5};
    assert ObjOk(a, 0) && ObjOk(a, 2);
    assert CtrOk(a, 1) && CtrOk(a, 3);
    assert SlotOk(a, 4) && SlotOk(a, 5);
  }

  lemma ListOfTwoShape()
    ensures var a := ListOfTwo();
      && a.objs.Keys == {0, 2} && !Unreferenced(a, 2)
      && (forall t :: t in a.slots && Keeps(a, t, 0) ==> t == 4)
      && (forall t :: t in a.slots && Keeps(a, t, 2) ==> a.slots[t].owner == Some(0))
  {
    ListOfTwoHoldings();
    assert ListOfTwo().slots.Keys == {4, 5};
  }

  /** The same two objects with a field each: 5 of the object 0 and 6 of the object 2. */
  function CycleOfTwoEmpty(): Store {
    Store(map[0 := Some(1), 2 := Some(3)],
          map[1 := Counter(0, 0, 0, false), 3 := Counter(0, 0, 2, false)],
          map[4 := Slot(None, Strong(None)), 5 := Slot(Some(0), Strong(None)), 6 := Slot(Some(2), Strong(None))],
          7, {}, map[])
  }

  lemma CycleOfTwoAllocated()
    ensures var two := AllocObject(AllocObject(Store(map[], map[], map[], 0, {}, map[])));
      AllocSlot(AllocSlot(AllocSlot(two, true, None), true, Some(0)), true, Some(2)) == CycleOfTwoEmpty()
  {
  }

  lemma ListOfTwoDangles(mid: Store)
    requires Inv(mid) && Cascade(ListOfTwo(), mid, {4}, {})
    ensures Inv(ListOfTwo()) && Quiet(ListOfTwo()) && NoDangling(ListOfTwo())
    ensures 2 !in mid.objs && !NoDangling(AttachStrong(mid, 4, Some(2)))
  {
    ListOfTwoIsConsistent();
    ListOfTwoShape();
    AdvanceAlongListDangles(ListOfTwo(), mid, 4, 0, 2);
  }
}
