/**
 * What one Unset may change, however many nested deletions it starts. The relation is about two states only,
 * so that it composes along the recursion of `Memory.UnsetRef`, `Memory.UnsetWeak` and `Memory.DeleteObject`.
 */
module RefsCascade {
  import opened Common
  import opened RefsState

  /**
   * From `a` to `b` the slots in `nulled` were emptied on purpose; everything else that happened is that some
   * objects were freed together with the fields they own. Objects being destroyed at `a` are still there at `b`
   * unless they are in `dying`. No object is freed that something else keeps, none is left alive after losing its
   * last reference, and no Ref starts to dangle.
   */
  ghost predicate Cascade(a: Store, b: Store, nulled: set<SlotId>, dying: set<ObjId>) {
    && ObjsStep(a, b, dying)
    && SlotsStep(a, b, nulled, dying)
    && CtrsStep(a, b)
    && SparesKept(a, b, nulled, dying)
    && NoOrphans(a, b)
    && NoNewDangling(a, b)
  }

  ghost predicate ObjsStep(a: Store, b: Store, dying: set<ObjId>) {
    && b.next == a.next && b.held == a.held && b.flight == a.flight
    && (forall o :: o in b.objs ==> o in a.objs && b.objs[o] == a.objs[o])
    && (forall o :: o in a.objs && a.objs[o] == None && o !in dying ==> o in b.objs)
  }

  ghost predicate SlotsStep(a: Store, b: Store, nulled: set<SlotId>, dying: set<ObjId>) {
    && (forall s :: s in b.slots ==>
          && s in a.slots
          && b.slots[s] == if s in nulled then a.slots[s].(target := a.slots[s].target.Nulled()) else a.slots[s])
    && (forall s :: s in a.slots && s !in b.slots ==> OwnerGone(a, b, dying, a.slots[s].owner))
  }

  ghost predicate OwnerGone(a: Store, b: Store, dying: set<ObjId>, owner: Option<ObjId>) {
    owner.Some? && owner.value in a.objs && (owner.value in b.objs ==> owner.value in dying)
  }

  ghost predicate CtrsStep(a: Store, b: Store) {
    forall c :: c in b.ctrs ==> c in a.ctrs && b.ctrs[c].obj == a.ctrs[c].obj
  }

  ghost predicate SparesKept(a: Store, b: Store, nulled: set<SlotId>, dying: set<ObjId>) {
    forall group :: SelfKept(a, nulled, dying, group) ==> group <= b.objs.Keys
  }

  ghost predicate NoOrphans(a: Store, b: Store) {
    forall o {:trigger Unreferenced(b, o)} :: o in a.objs && o in b.objs && Unreferenced(b, o) ==> Unreferenced(a, o)
  }

  ghost predicate NoNewDangling(a: Store, b: Store) {
    forall s, o :: s in b.slots && b.slots[s].target == Strong(Some(o)) && o in a.objs ==> o in b.objs
  }

  /**
   * What `Ref.operator=` of `t` to the slot `s` does, from `a` over the state `mid` after its Unset to `b`. The Unset
   * of a NULL slot changes nothing. The counts
   * stay exact unless the slot itself died in its Unset and a live target is attached to it; no Ref dangles unless
   * the target died in the Unset.
   */
  ghost predicate RefAssigned(a: Store, mid: Store, b: Store, s: SlotId, t: Option<ObjId>)
    requires s in a.slots
  {
    if a.slots[s].target == Strong(t) then b == a
    else
      && Cascade(a, mid, {s}, {}) && Inv(mid) && (a.slots[s].target.IsNull() ==> mid == a)
      && b == AttachStrong(mid, s, t)
      && (Inv(b) <==> (t.Some? && t.value in mid.objs ==> s in mid.slots))
      && (NoDangling(b) <==> (t.Some? && s in mid.slots ==> t.value in mid.objs))
  }

  ghost function CounterOf(a: Store, t: Option<ObjId>): Option<CtrId> {
    if t.None? || t.value !in a.objs then None else a.objs[t.value]
  }

  /**
   * The same for `WeakRef.operator=`, which reads the counter of the target again after the Unset: `ok` tells whether
   * the target is still allocated then. The counts stay exact unless the slot itself died in its Unset.
   */
  ghost predicate WeakAssigned(a: Store, mid: Store, b: Store, w: SlotId, t: Option<ObjId>, ok: bool)
    requires w in a.slots
  {
    if a.slots[w].target == Weak(CounterOf(a, t)) then ok && b == a
    else
      && Cascade(a, mid, {w}, {}) && Inv(mid) && (a.slots[w].target.IsNull() ==> mid == a)
      && (ok <==> (t.Some? ==> t.value in mid.objs))
      && b == (if ok && CounterOf(a, t).Some? then AttachWeak(mid, w, CounterOf(a, t).value) else mid)
      && (Inv(b) <==> (ok && t.Some? ==> w in mid.slots))
  }

  /** The slot keeps the object alive: a Ref always does, a WeakRef only while no Ref ever held the object. */
  ghost predicate Keeps(st: Store, s: SlotId, o: ObjId)
    requires s in st.slots
  {
    match st.slots[s].target
    case Strong(t) => t == Some(o)
    case Weak(Some(c)) => c in st.ctrs && !st.ctrs[c].deleted && st.ctrs[c].obj == o && o !in st.held
    case Weak(None) => false
  }

  /** The group needs nothing but itself, locals and globals, and none of the slots in `nulled`, to stay alive. */
  ghost predicate SelfKept(st: Store, nulled: set<SlotId>, dying: set<ObjId>, group: set<ObjId>) {
    forall o :: o in group ==> o in st.objs && o !in dying && KeptWithin(st, nulled, group, o)
  }

  /** Nobody refers to the object, or it is waiting for the end of its own destructor, or the group keeps it. */
  ghost predicate KeptWithin(st: Store, nulled: set<SlotId>, group: set<ObjId>, o: ObjId)
    requires o in st.objs
  {
    || st.objs[o] == None
    || Unreferenced(st, o)
    || exists s :: s in st.slots && s !in nulled && Keeps(st, s, o) && OwnedWithin(st.slots[s], group)
  }

  ghost predicate OwnedWithin(x: Slot, group: set<ObjId>) {
    x.owner.None? || x.owner.value in group
  }

  /** No Ref is on the object and no WeakRef on its counter. */
  ghost predicate Unreferenced(st: Store, o: ObjId)
    requires o in st.objs
  {
    st.objs[o].Some? && StrongOn(st, o) == 0 && WeakOn(st, st.objs[o].value) == 0
  }

  /** An object nobody refers to is still such an object after slots were emptied or freed. */
  lemma StaysUnreferenced(a: Store, b: Store, o: ObjId)
    requires o in a.objs && Unreferenced(a, o) && o in b.objs && b.objs[o] == a.objs[o]
    requires forall s :: s in b.slots ==>
      s in a.slots && (b.slots[s].target == a.slots[s].target || b.slots[s].target.IsNull())
    ensures Unreferenced(b, o)
  {
    FewerHolding(a.slots, b.slots, Strong(Some(o)));
    FewerHolding(a.slots, b.slots, Weak(a.objs[o]));
  }

  lemma FewerHolding(m: map<SlotId, Slot>, n: map<SlotId, Slot>, u: Target)
    requires !u.IsNull()
    requires forall s :: s in n ==> s in m && (n[s].target == m[s].target || n[s].target.IsNull())
    ensures |Holding(n, u)| <= |Holding(m, u)|
  {
    SubsetSize(Holding(n, u), Holding(m, u));
  }

  lemma NormalShrinks(a: Store, b: Store, nulled: set<SlotId>, dying: set<ObjId>)
    requires Cascade(a, b, nulled, dying)
    ensures Normal(b) <= Normal(a) && |Normal(b)| <= |Normal(a)|
  {
    SubsetSize(Normal(b), Normal(a));
  }

  /** One field of a dying object: empty it, then free its memory. */
  lemma DestroyFieldCascade(a: Store, x: Store, y: Store, f: SlotId, o: ObjId)
    requires Inv(x) && Cascade(a, x, {}, {o}) && o in x.objs && x.objs[o] == None
    requires f in x.slots && x.slots[f].owner == Some(o)
    requires Cascade(x, y, {f}, {}) && Inv(y)
    ensures f in y.slots
    ensures Cascade(a, y.(slots := y.slots - {f}), {}, {o}) && Inv(y.(slots := y.slots - {f}))
  {
    assert ObjsStep(x, y, {}) && SlotsStep(x, y, {f}, {});
    assert o in y.objs;
    assert OwnerGone(x, y, {}, x.slots[f].owner) ==> o !in y.objs;
    FreeSlotKeepsInv(y, f);
    var z := y.(slots := y.slots - {f});
    assert ObjsStep(a, z, {o});
    DestroyFieldSlots(a, x, y, f, o);
    DestroyFieldRest(a, x, y, f, o);
  }

  lemma DestroyFieldSlots(a: Store, x: Store, y: Store, f: SlotId, o: ObjId)
    requires ObjsStep(a, x, {o}) && SlotsStep(a, x, {}, {o}) && o in x.objs
    requires f in x.slots && x.slots[f].owner == Some(o)
    requires ObjsStep(x, y, {}) && SlotsStep(x, y, {f}, {}) && o in y.objs
    ensures SlotsStep(a, y.(slots := y.slots - {f}), {}, {o})
  {
    var z := y.(slots := y.slots - {f});
    forall s | s in a.slots && s !in z.slots ensures OwnerGone(a, z, {o}, a.slots[s].owner) {
      if s !in x.slots { assert OwnerGone(a, x, {o}, a.slots[s].owner); }
      else if s !in y.slots { assert OwnerGone(x, y, {}, x.slots[s].owner); }
    }
  }

  lemma DestroyFieldRest(a: Store, x: Store, y: Store, f: SlotId, o: ObjId)
    requires Inv(x) && Cascade(a, x, {}, {o}) && Cascade(x, y, {f}, {}) && f in y.slots
    requires f in x.slots && x.slots[f].owner == Some(o)
    ensures var z := y.(slots := y.slots - {f});
      CtrsStep(a, z) && SparesKept(a, z, {}, {o}) && NoOrphans(a, z) && NoNewDangling(a, z)
  {
    var z := y.(slots := y.slots - {f});
    DestroyFieldSpares(a, x, y, f, o);
    DestroyFieldOrphans(a, x, y, f);
    forall s, p | s in z.slots && z.slots[s].target == Strong(Some(p)) && p in a.objs ensures p in z.objs {
      assert x.slots[s].target == Strong(Some(p));
    }
  }

  lemma DestroyFieldSpares(a: Store, x: Store, y: Store, f: SlotId, o: ObjId)
    requires Inv(x) && Cascade(a, x, {}, {o}) && SparesKept(x, y, {f}, {})
    requires f in x.slots && x.slots[f].owner == Some(o)
    ensures SparesKept(a, y, {}, {o})
  {
    forall group | SelfKept(a, {}, {o}, group) ensures group <= y.objs.Keys {
      forall p | p in group ensures p in x.objs && KeptWithin(x, {f}, group, p) {
        StaysKept(a, x, f, o, group, p);
      }
      assert SelfKept(x, {f}, {}, group);
    }
  }

  lemma StaysKept(a: Store, x: Store, f: SlotId, o: ObjId, group: set<ObjId>, p: ObjId)
    requires Inv(x) && Cascade(a, x, {}, {o})
    requires f in x.slots && x.slots[f].owner == Some(o)
    requires SelfKept(a, {}, {o}, group) && p in group
    ensures p in x.objs && KeptWithin(x, {f}, group, p)
  {
    if a.objs[p].Some? && Unreferenced(a, p) {
      StaysUnreferenced(a, x, p);
    } else if a.objs[p].Some? {
      var k :| k in a.slots && Keeps(a, k, p) && OwnedWithin(a.slots[k], group);
      assert !OwnerGone(a, x, {o}, a.slots[k].owner);
      SameKeeper(a, x, k, p);
    }
  }

  /** A keeper that is left as it was still keeps. */
  lemma SameKeeper(a: Store, x: Store, k: SlotId, p: ObjId)
    requires k in a.slots && k in x.slots && x.slots[k].target == a.slots[k].target
    requires Inv(x) && x.held == a.held && CtrsStep(a, x)
    requires Keeps(a, k, p)
    ensures Keeps(x, k, p)
  {
    assert SlotOk(x, k);
    if a.slots[k].target.Weak? {
      assert CtrOk(x, a.slots[k].target.ctr.value);
    }
  }

  lemma DestroyFieldOrphans(a: Store, x: Store, y: Store, f: SlotId)
    requires ObjsStep(x, y, {}) && NoOrphans(a, x) && NoOrphans(x, y) && f in y.slots && y.slots[f].target.IsNull()
    ensures NoOrphans(a, y.(slots := y.slots - {f}))
  {
    var z := y.(slots := y.slots - {f});
    forall p | p in a.objs && p in z.objs && Unreferenced(z, p) ensures Unreferenced(a, p) {
      assert Holding(z.slots, Strong(Some(p))) == Holding(y.slots, Strong(Some(p)));
      assert Holding(z.slots, Weak(y.objs[p])) == Holding(y.slots, Weak(y.objs[p]));
      assert Unreferenced(y, p) && p in x.objs;
      assert Unreferenced(x, p);
    }
  }

  lemma CascadeRefl(a: Store, dying: set<ObjId>)
    ensures Cascade(a, a, {}, dying)
  {
  }

  /** The destructor has freed the last field; now the object's own memory goes. */
  lemma FreeObjectCascade(a: Store, b: Store, o: ObjId)
    requires Inv(b) && Cascade(a, b, {}, {o}) && o in b.objs && b.objs[o] == None
    requires forall s :: s in b.slots ==> b.slots[s].owner != Some(o)
    ensures Cascade(a, b.(objs := b.objs - {o}), {}, {o}) && Inv(b.(objs := b.objs - {o}))
  {
    FreeObjectKeepsInv(b, o);
    FreeObjectStep(a, b, o);
  }

  lemma FreeObjectStep(a: Store, b: Store, o: ObjId)
    requires Inv(b) && Cascade(a, b, {}, {o}) && o in b.objs && b.objs[o] == None
    ensures Cascade(a, b.(objs := b.objs - {o}), {}, {o})
  {
    var z := b.(objs := b.objs - {o});
    assert ObjOk(b, o);
    forall s | s in b.slots ensures b.slots[s].target != Strong(Some(o)) {
      assert s in Holding(b.slots, Strong(Some(o))) <==> b.slots[s].target == Strong(Some(o));
    }
    assert o in a.objs && a.objs[o] == None;
    forall s | s in a.slots && s !in z.slots ensures OwnerGone(a, z, {o}, a.slots[s].owner) {
      assert OwnerGone(a, b, {o}, a.slots[s].owner);
    }
    forall p | p in z.objs && Unreferenced(z, p) ensures Unreferenced(a, p) { assert Unreferenced(b, p); }
  }

  /** Ref.Unset that did not delete the object, and what it prepares when it does. */
  lemma DropStrongCascade(a: Store, s: SlotId, o: ObjId, c: CtrId)
    requires Inv(a) && s in a.slots && a.slots[s].target == Strong(Some(o)) && o in a.objs && a.objs[o] == Some(c)
      && c in a.ctrs
    requires Dec32(a.ctrs[c].numStrong) > 0
    ensures Cascade(a, DropStrong(a, s, o, c), {s}, {})
  {
    var b := DropStrong(a, s, o, c);
    DropStrongCounts(a, s, o, c);
    assert ObjOk(a, o) && CtrOk(a, c);
    assert s in Holding(a.slots, Strong(Some(o)));
    forall p | p in b.objs && Unreferenced(b, p) ensures Unreferenced(a, p) { }
  }

  /** Everything about the first half of Ref.Unset on a live object. */
  lemma DropStrongFacts(a: Store, s: SlotId, o: ObjId)
    requires Inv(a) && s in a.slots && a.slots[s].target == Strong(Some(o)) && o in a.objs
    ensures a.objs[o].Some? && a.objs[o].value in a.ctrs
    ensures var c := a.objs[o].value; var m := DropStrong(a, s, o, c);
      && Inv(m)
      && (m.objs == a.objs ==> Cascade(a, m, {s}, {}))
      && (m.objs != a.objs ==> m.objs == a.objs[o := None] && |Normal(m)| < |Normal(a)|)
      && (m.objs != a.objs <==> Dec32(a.ctrs[c].numStrong) == 0)
  {
    assert ObjOk(a, o);
    assert s in Holding(a.slots, Strong(Some(o)));
    var c := a.objs[o].value;
    DropStrongKeepsInv(a, s, o, c);
    var m := DropStrong(a, s, o, c);
    if Dec32(a.ctrs[c].numStrong) > 0 {
      DropStrongCascade(a, s, o, c);
    } else {
      assert o in Normal(a) && Normal(m) == Normal(a) - {o};
    }
  }

  /** Ref.Unset that deleted the object `o`: alive at `a`, dying at `m`, freed at `b`. */
  lemma RefCascade(a: Store, m: Store, b: Store, s: SlotId, o: ObjId, c: CtrId)
    requires Inv(a) && s in a.slots && a.slots[s].target == Strong(Some(o)) && o in a.objs && a.objs[o] == Some(c)
      && c in a.ctrs
    requires m == DropStrong(a, s, o, c) && m.objs == a.objs[o := None]
    requires Cascade(m, b, {}, {o}) && o !in b.objs
    ensures Cascade(a, b, {s}, {})
  {
    assert ObjsStep(a, b, {});
    DropStrongCounts(a, s, o, c);
    assert s in Holding(a.slots, Strong(Some(o)));
    forall p | p in a.objs && p != o ensures Unreferenced(a, p) <==> Unreferenced(m, p) { }
    forall p | p in b.objs && Unreferenced(b, p) ensures Unreferenced(a, p) { assert Unreferenced(m, p); }
    RefCascadeSpares(a, m, b, s, o, c);
    RefCascadeSlots(a, m, b, s, o, c);
  }

  /** The object that lost its last Ref was in no group that keeps itself; the others keep themselves as before. */
  lemma RefCascadeSpares(a: Store, m: Store, b: Store, s: SlotId, o: ObjId, c: CtrId)
    requires Inv(a) && s in a.slots && a.slots[s].target == Strong(Some(o))
    requires o in a.objs && a.objs[o] == Some(c) && c in a.ctrs
    requires m == DropStrong(a, s, o, c) && m.objs == a.objs[o := None]
    requires SparesKept(m, b, {}, {o})
    ensures SparesKept(a, b, {s}, {})
  {
    forall group | SelfKept(a, {s}, {}, group) ensures group <= b.objs.Keys {
      LastRefKeeps(a, s, o, c);
      assert KeptWithin(a, {s}, group, o) ==> false;
      forall p | p in group ensures p in m.objs && p != o && KeptWithin(m, {}, group, p) {
        KeptBesides(a, m, s, o, c, group, p);
      }
      assert SelfKept(m, {}, {o}, group);
    }
  }

  lemma LastRefKeeps(a: Store, s: SlotId, o: ObjId, c: CtrId)
    requires Inv(a) && s in a.slots && a.slots[s].target == Strong(Some(o))
    requires o in a.objs && a.objs[o] == Some(c) && c in a.ctrs && Dec32(a.ctrs[c].numStrong) == 0
    ensures !Unreferenced(a, o)
    ensures forall k :: k in a.slots && Keeps(a, k, o) ==> k == s
  {
    assert ObjOk(a, o) && CtrOk(a, c);
    var h := Holding(a.slots, Strong(Some(o)));
    assert s in h;
    forall k | k in a.slots && Keeps(a, k, o) ensures k == s {
      if k != s {
        assert {k, s} <= h;
        SubsetSize({k, s}, h);
      }
    }
  }

  lemma KeptBesides(a: Store, m: Store, s: SlotId, o: ObjId, c: CtrId, group: set<ObjId>, p: ObjId)
    requires Inv(a) && s in a.slots && a.slots[s].target == Strong(Some(o))
    requires o in a.objs && a.objs[o] == Some(c) && c in a.ctrs
    requires m == DropStrong(a, s, o, c) && m.objs == a.objs[o := None]
    requires p in a.objs && p != o && KeptWithin(a, {s}, group, p)
    ensures KeptWithin(m, {}, group, p)
  {
    assert ObjOk(a, o);
    DropStrongCounts(a, s, o, c);
    if a.objs[p].Some? && !Unreferenced(a, p) {
      var k :| k in a.slots && k != s && Keeps(a, k, p) && OwnedWithin(a.slots[k], group);
      assert Keeps(m, k, p);
    }
  }

  lemma RefCascadeSlots(a: Store, m: Store, b: Store, s: SlotId, o: ObjId, c: CtrId)
    requires s in a.slots && a.slots[s].target == Strong(Some(o)) && o in a.objs && c in a.ctrs
    requires m == DropStrong(a, s, o, c) && m.objs == a.objs[o := None]
    requires ObjsStep(m, b, {o}) && SlotsStep(m, b, {}, {o}) && CtrsStep(m, b) && NoNewDangling(m, b) && o !in b.objs
    ensures SlotsStep(a, b, {s}, {}) && CtrsStep(a, b) && NoNewDangling(a, b)
  {
    forall x | x in a.slots && x !in b.slots ensures OwnerGone(a, b, {}, a.slots[x].owner) {
      assert OwnerGone(m, b, {o}, m.slots[x].owner);
    }
    forall x, p | x in b.slots && b.slots[x].target == Strong(Some(p)) && p in a.objs ensures p in b.objs {
      assert p in m.objs;
    }
  }

  /** WeakRef.Unset that did not delete the object. */
  lemma DropWeakCascade(a: Store, w: SlotId, c: CtrId)
    requires Inv(a) && w in a.slots && a.slots[w].target == Weak(Some(c)) && c in a.ctrs
      && !LastWeakKillsObject(a.ctrs[c])
    ensures Cascade(a, DropWeak(a, w, c), {w}, {})
  {
    var b := DropWeak(a, w, c);
    DropWeakCounts(a, w, c);
    assert CtrOk(a, c);
    forall p | p in b.objs && Unreferenced(b, p) ensures Unreferenced(a, p) {
      assert ObjOk(a, p);
    }
  }

  /** WeakRef.Unset that deleted the never strongly held object: alive at `a`, dying at `m`, freed at `x`. */
  lemma WeakCascade(a: Store, m: Store, x: Store, w: SlotId, c: CtrId, o: ObjId)
    requires Inv(a) && w in a.slots && a.slots[w].target == Weak(Some(c)) && c in a.ctrs && c !in a.flight
    requires LastWeakKillsObject(a.ctrs[c]) && o == a.ctrs[c].obj && o in a.objs && a.objs[o] == Some(c)
    requires m == DropWeak(a, w, c)
    requires Cascade(m, x, {}, {o}) && o !in x.objs && Inv(x)
    ensures Cascade(a, FinishFlight(x, w, c), {w}, {})
  {
    WeakCascadeObjs(a, m, x, w, c, o);
    WeakCascadeSlots(a, m, x, w, c, o);
    WeakCascadeSpares(a, m, x, w, c, o);
    WeakCascadeOrphans(a, m, x, w, c, o);
  }

  lemma WeakCascadeObjs(a: Store, m: Store, x: Store, w: SlotId, c: CtrId, o: ObjId)
    requires w in a.slots && c in a.ctrs && c !in a.flight
    requires LastWeakKillsObject(a.ctrs[c]) && o == a.ctrs[c].obj && o in a.objs && a.objs[o].Some?
    requires m == DropWeak(a, w, c) && ObjsStep(m, x, {o}) && CtrsStep(m, x) && o !in x.objs
    ensures ObjsStep(a, FinishFlight(x, w, c), {}) && CtrsStep(a, FinishFlight(x, w, c))
  {
    assert FinishFlight(x, w, c).flight == a.flight;
  }

  lemma KillFacts(a: Store, w: SlotId, c: CtrId, o: ObjId, p: ObjId)
    requires w in a.slots && a.slots[w].target == Weak(Some(c)) && c in a.ctrs
    requires LastWeakKillsObject(a.ctrs[c]) && o == a.ctrs[c].obj && o in a.objs && a.objs[o] == Some(c)
    requires p in a.objs
    ensures Unreferenced(a, p) <==> Unreferenced(DropWeak(a, w, c), p)
  {
    assert w in Holding(a.slots, Weak(Some(c)));
  }

  lemma WeakCascadeSpares(a: Store, m: Store, x: Store, w: SlotId, c: CtrId, o: ObjId)
    requires Inv(a) && w in a.slots && a.slots[w].target == Weak(Some(c)) && c in a.ctrs
    requires LastWeakKillsObject(a.ctrs[c]) && o == a.ctrs[c].obj && o in a.objs && a.objs[o] == Some(c)
    requires m == DropWeak(a, w, c) && SparesKept(m, x, {}, {o})
    ensures SparesKept(a, FinishFlight(x, w, c), {w}, {})
  {
    forall group | SelfKept(a, {w}, {}, group) ensures group <= x.objs.Keys {
      LastWeakKeeps(a, w, c, o);
      assert KeptWithin(a, {w}, group, o) ==> false;
      forall p | p in group ensures p in m.objs && p != o && KeptWithin(m, {}, group, p) {
        KillFacts(a, w, c, o, p);
        if a.objs[p].Some? && !Unreferenced(a, p) {
          var k :| k in a.slots && k != w && Keeps(a, k, p) && OwnedWithin(a.slots[k], group);
          assert Keeps(m, k, p);
        }
      }
      assert SelfKept(m, {}, {o}, group);
    }
  }

  lemma LastWeakKeeps(a: Store, w: SlotId, c: CtrId, o: ObjId)
    requires Inv(a) && w in a.slots && a.slots[w].target == Weak(Some(c)) && c in a.ctrs
    requires LastWeakKillsObject(a.ctrs[c]) && o == a.ctrs[c].obj && o in a.objs && a.objs[o] == Some(c)
    ensures !Unreferenced(a, o)
    ensures forall k :: k in a.slots && Keeps(a, k, o) ==> k == w
  {
    assert ObjOk(a, o) && CtrOk(a, c);
    var h := Holding(a.slots, Weak(Some(c)));
    assert w in h && Holding(a.slots, Strong(Some(o))) == {};
    forall k | k in a.slots && Keeps(a, k, o) ensures k == w {
      if k != w {
        assert a.slots[k].target.Weak? by {
          assert k !in Holding(a.slots, Strong(Some(o)));
        }
        assert CtrOk(a, a.slots[k].target.ctr.value);
        assert {k, w} <= h;
        SubsetSize({k, w}, h);
      }
    }
  }

  /** The end of WeakRef.Unset does not change who is referenced. */
  lemma FinishFacts(x: Store, w: SlotId, c: CtrId, p: ObjId)
    requires Inv(x) && c in x.flight && x.flight[c] == w && c in x.ctrs && p in x.objs
    requires w in x.slots ==> x.slots[w].target == Weak(Some(c))
    requires Unreferenced(FinishFlight(x, w, c), p)
    ensures Unreferenced(x, p)
  {
    assert ObjOk(x, p);
    FinishFlightCounts(x, w, c);
  }

  lemma WeakCascadeOrphans(a: Store, m: Store, x: Store, w: SlotId, c: CtrId, o: ObjId)
    requires w in a.slots && a.slots[w].target == Weak(Some(c)) && c in a.ctrs
    requires LastWeakKillsObject(a.ctrs[c]) && o == a.ctrs[c].obj && o in a.objs && a.objs[o] == Some(c)
    requires m == DropWeak(a, w, c) && Inv(x) && ObjsStep(m, x, {o}) && NoOrphans(m, x) && SlotsStep(m, x, {}, {o})
      && o !in x.objs
    ensures NoOrphans(a, FinishFlight(x, w, c))
  {
    var b := FinishFlight(x, w, c);
    assert c in x.flight && x.flight[c] == w;
    forall p | p in a.objs && p in b.objs && Unreferenced(b, p) ensures Unreferenced(a, p) {
      FinishFacts(x, w, c, p);
      KillFacts(a, w, c, o, p);
    }
  }

  lemma WeakCascadeSlots(a: Store, m: Store, x: Store, w: SlotId, c: CtrId, o: ObjId)
    requires w in a.slots && a.slots[w].target == Weak(Some(c)) && c in a.ctrs
    requires LastWeakKillsObject(a.ctrs[c]) && o == a.ctrs[c].obj && o in a.objs
    requires m == DropWeak(a, w, c)
    requires ObjsStep(m, x, {o}) && SlotsStep(m, x, {}, {o}) && NoNewDangling(m, x) && o !in x.objs
    ensures SlotsStep(a, FinishFlight(x, w, c), {w}, {})
    ensures NoNewDangling(a, FinishFlight(x, w, c))
  {
    var b := FinishFlight(x, w, c);
    forall s | s in a.slots && s !in b.slots ensures OwnerGone(a, b, {}, a.slots[s].owner) {
      assert OwnerGone(m, x, {o}, m.slots[s].owner);
    }
    forall s, p | s in b.slots && b.slots[s].target == Strong(Some(p)) && p in a.objs ensures p in b.objs {
      assert x.slots[s].target == Strong(Some(p));
    }
  }

  /** Emptying a slot that holds NULL or a freed address. */
  lemma EmptySlotCascade(a: Store, s: SlotId)
    requires s in a.slots
    requires a.slots[s].target.IsNull() || (a.slots[s].target.Strong? && a.slots[s].target.obj.value !in a.objs)
    ensures Cascade(a, PutSlot(a, s, a.slots[s].target.Nulled()), {s}, {})
  {
    PutSlotCounts(a, s, a.slots[s].target.Nulled());
    var b := PutSlot(a, s, a.slots[s].target.Nulled());
    forall p | p in b.objs && Unreferenced(b, p) ensures Unreferenced(a, p) { }
  }

  lemma EmptySlotKeepsInv(a: Store, s: SlotId)
    requires Inv(a) && s in a.slots
    requires a.slots[s].target.IsNull() || (a.slots[s].target.Strong? && a.slots[s].target.obj.value !in a.objs)
    ensures Inv(PutSlot(a, s, a.slots[s].target.Nulled()))
  {
    var b := PutSlot(a, s, a.slots[s].target.Nulled());
    PutSlotCounts(a, s, a.slots[s].target.Nulled());
    forall x | x in b.objs ensures ObjOk(b, x) { assert ObjOk(a, x); ObjFrame(a, b, x); }
    forall x | x in b.ctrs ensures CtrOk(b, x) { assert CtrOk(a, x); CtrFrame(a, b, x); }
    forall x | x in b.slots ensures SlotOk(b, x) { assert SlotOk(a, x); }
  }

  /** A cascade never makes a Ref dangle and leaves no destructor running. */
  lemma CascadeKeepsNoDangling(a: Store, b: Store, nulled: set<SlotId>)
    requires NoDangling(a) && Cascade(a, b, nulled, {})
    ensures NoDangling(b)
  {
  }

  lemma CascadeKeepsQuiet(a: Store, b: Store, nulled: set<SlotId>)
    requires Quiet(a) && Cascade(a, b, nulled, {})
    ensures Quiet(b)
  {
  }

  /** Freeing the memory of a slot after its Unset, unless it went with its owner. */
  lemma FreeEmptiedSlot(a: Store, mid: Store, s: SlotId)
    requires Quiet(a) && s in a.slots && Inv(mid) && Cascade(a, mid, {s}, {})
    ensures var b := mid.(slots := mid.slots - {s});
      Inv(b) && Quiet(b) && (NoDangling(a) ==> NoDangling(b))
  {
    var b := mid.(slots := mid.slots - {s});
    if s in mid.slots {
      FreeSlotKeepsInv(mid, s);
    } else {
      assert b.slots == mid.slots;
    }
    CascadeKeepsQuiet(a, mid, {s});
    if NoDangling(a) { CascadeKeepsNoDangling(a, mid, {s}); }
  }
}
