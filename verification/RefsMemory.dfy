/**
 * Ref<X>, WeakRef<X>, ReferenceCounter and the destructor of Dynamic, as methods over one memory.
 *
 * A slot identifier stands for the address of a Ref or WeakRef (`this` in the templates), an object identifier for
 * an X*. Which field a destructor runs first is left open, so the contracts hold for every field order.
 */
module RefsMemory {
  import opened Common
  import opened RefsState
  import opened RefsCascade
  import opened RefsReach
  import opened RefsRuns

  class Memory {
    var objs: map<ObjId, Option<CtrId>>
    var ctrs: map<CtrId, Counter>
    var slots: map<SlotId, Slot>
    var next: nat
    ghost var held: set<ObjId>
    ghost var flight: map<CtrId, SlotId>

    ghost function Now(): Store
      reads this
    {
      Store(objs, ctrs, slots, next, held, flight)
    }

    ghost predicate Valid()
      reads this
    {
      Inv(Now()) && Quiet(Now())
    }

    constructor ()
      ensures Valid() && NoDangling(Now()) && Now() == EMPTY
    {
      objs, ctrs, slots, next, held, flight := map[], map[], map[], 0, {}, map[];
    }

    // -----------------------------------------------------------------------------------------
    // Deallocation. Each of these demands that the address is still allocated.

    /** `delete` of a ReferenceCounter. */
    method FreeCounter(c: CtrId)
      requires c in ctrs
      modifies this`ctrs
      ensures ctrs == old(ctrs) - {c}
    {
      ctrs := ctrs - {c};
    }

    /** `delete` of an object: its fields are destroyed one by one, then its memory is freed. */
    method DeleteObject(o: ObjId)
      requires Inv(Now()) && o in objs && objs[o] == None
      modifies this
      ensures Inv(Now()) && o !in objs
      ensures Cascade(old(Now()), Now(), {}, {o})
      decreases |Normal(Now())|, 3
    {
      ghost var start := Now();
      CascadeRefl(start, {o});
      var fields := set f | f in slots && slots[f].owner == Some(o);
      while fields != {}
        invariant Inv(Now()) && o in objs && objs[o] == None
        invariant Cascade(start, Now(), {}, {o})
        invariant fields == set f | f in slots && slots[f].owner == Some(o)
        decreases fields
      {
        var f :| f in fields;
        DestroyField(f, o, start);
        fields := set g | g in slots && slots[g].owner == Some(o);
      }
      FreeObjectCascade(start, Now(), o);
      objs := objs - {o};
    }

    /** The destructor of one field of the object `o`, whose destruction began at `start`. */
    method DestroyField(f: SlotId, o: ObjId, ghost start: Store)
      requires Inv(Now()) && o in objs && objs[o] == None
      requires Cascade(start, Now(), {}, {o}) && f in slots && slots[f].owner == Some(o)
      modifies this
      ensures Inv(Now()) && o in objs && objs[o] == None
      ensures Cascade(start, Now(), {}, {o})
      ensures f !in slots && slots.Keys <= old(slots.Keys)
      ensures forall s :: s in slots ==> slots[s].owner == old(slots[s].owner)
      decreases |Normal(start)|, 2
    {
      ghost var x := Now();
      NormalShrinks(start, x, {}, {o});
      Unset(f);
      ghost var y := Now();
      DestroyFieldCascade(start, x, y, f, o);
      slots := slots - {f};
    }

    // -----------------------------------------------------------------------------------------
    // Unset.

    method Unset(s: SlotId)
      requires Inv(Now()) && s in slots
      modifies this
      ensures Inv(Now())
      ensures Cascade(old(Now()), Now(), {s}, {})
      ensures old(slots[s].target.IsNull()) ==> Now() == old(Now())
      decreases |Normal(Now())|, 1
    {
      if slots[s].target.Strong? {
        UnsetRef(s);
      } else {
        UnsetWeak(s);
      }
    }

    /** Ref<X>::Unset. */
    method UnsetRef(s: SlotId)
      requires Inv(Now()) && s in slots && slots[s].target.Strong?
      modifies this
      ensures Inv(Now())
      ensures Cascade(old(Now()), Now(), {s}, {})
      ensures old(slots[s].target.IsNull()) ==> Now() == old(Now())
      decreases |Normal(Now())|, 0
    {
      ghost var start := Now();
      if slots[s].target.obj.Some? {
        var o := slots[s].target.obj.value;
        if o !in objs {
          // CheckPointer(ptr_object) == POINTER_INVALID
          EmptySlotKeepsInv(start, s);
          EmptySlotCascade(start, s);
          slots := slots[s := slots[s].(target := Strong(None))];
          return;
        }
        DropStrongFacts(start, s, o);
        var c := objs[o].value;
        ghost var mid := DropStrong(start, s, o, c);

        var strong := Dec32(ctrs[c].numStrong);
        ctrs := ctrs[c := ctrs[c].(numStrong := strong)];
        if strong == 0 {
          if ctrs[c].numWeak == 0 {
            FreeCounter(c);
          } else {
            ctrs := ctrs[c := ctrs[c].(deleted := true)];
          }
          objs := objs[o := None];
          slots := slots[s := slots[s].(target := Strong(None))];
          assert Now() == mid;
          DeleteObject(o);
          RefCascade(start, mid, Now(), s, o, c);
        } else {
          slots := slots[s := slots[s].(target := Strong(None))];
          assert Now() == mid;
        }
      } else {
        EmptySlotCascade(start, s);
        assert PutSlot(start, s, Strong(None)) == start;
      }
    }

    /** WeakRef<X>::Unset. */
    method UnsetWeak(w: SlotId)
      requires Inv(Now()) && w in slots && slots[w].target.Weak?
      modifies this
      ensures Inv(Now())
      ensures Cascade(old(Now()), Now(), {w}, {})
      ensures old(slots[w].target.IsNull()) ==> Now() == old(Now())
      decreases |Normal(Now())|, 0
    {
      ghost var start := Now();
      if slots[w].target.ctr.Some? {
        var c := slots[w].target.ctr.value;
        assert SlotOk(start, w);
        DropWeakKeepsInv(start, w, c);
        ghost var mid := DropWeak(start, w, c);
        var weak := Dec32(ctrs[c].numWeak);
        ctrs := ctrs[c := ctrs[c].(numWeak := weak)];
        if weak == 0 && ctrs[c].numStrong == 0 {
          if !ctrs[c].deleted {
            var o := ctrs[c].obj;
            assert CtrOk(start, c);
            objs := objs[o := None];
            flight := flight[c := w];
            assert Now() == mid;
            assert o in Normal(start) && Normal(mid) == Normal(start) - {o};
            DeleteObject(o);
            WeakCascade(start, mid, Now(), w, c, o);
            FinishFlightKeepsInv(Now(), w, c);
            ghost var x := Now();
            FreeCounter(c);
            flight := flight - {c};
            if w in slots {
              slots := slots[w := slots[w].(target := Weak(None))];
            }
            assert Now() == FinishFlight(x, w, c);
            return;
          }
          FreeCounter(c);
        }
        slots := slots[w := slots[w].(target := Weak(None))];
        assert Now() == mid;
        DropWeakCascade(start, w, c);
      } else {
        EmptySlotCascade(start, w);
        assert PutSlot(start, w, Weak(None)) == start;
      }
    }

    // -----------------------------------------------------------------------------------------
    // What a program calls.

    /** `new X` of a Dynamic class. */
    method NewObject() returns (o: ObjId)
      requires Valid()
      modifies this
      ensures Valid() && Now() == AllocObject(old(Now())) && o == old(next) && o !in old(objs)
      ensures Step(old(Now()), Now())
      ensures NoDangling(old(Now())) ==> NoDangling(Now())
    {
      ghost var start := Now();
      AllocObjectFresh(start);
      o := next;
      objs, ctrs, next := objs[o := Some(o + 1)], ctrs[o + 1 := Counter(0, 0, o, false)], next + 2;
      assert Now() == AllocObject(start);
    }

    /** The default constructor of a Ref or WeakRef, as a local or as a field of `owner`. */
    method NewSlot(strong: bool, owner: Option<ObjId>) returns (s: SlotId)
      requires Valid() && |slots| + 1 < U32
      requires owner.Some? ==> owner.value in objs
      modifies this
      ensures Valid() && Now() == AllocSlot(old(Now()), strong, owner) && s == old(next)
      ensures Step(old(Now()), Now())
      ensures NoDangling(old(Now())) ==> NoDangling(Now())
    {
      ghost var start := Now();
      AllocSlotKeepsInv(start, strong, owner);
      s := next;
      slots, next := slots[s := Slot(owner, if strong then Strong(None) else Weak(None))], next + 1;
      assert SlotStep(start, Now(), strong, owner);
    }

    /** The destructor of a Ref or WeakRef that goes out of scope. */
    method DropSlot(s: SlotId) returns (ghost mid: Store)
      requires Valid() && s in slots
      modifies this
      ensures Valid() && s !in slots
      ensures DropStep(old(Now()), mid, Now(), s) && Step(old(Now()), Now())
      ensures NoDangling(old(Now())) ==> NoDangling(Now())
    {
      ghost var start := Now();
      Unset(s);
      mid := Now();
      FreeEmptiedSlot(start, mid, s);
      slots := slots - {s};
      assert DropStep(start, mid, Now(), s);
    }

    /** Ref<X>::operator=(X*), of a live or freed target. */
    method RefAssign(s: SlotId, t: Option<ObjId>) returns (r: Option<ObjId>, ghost mid: Store)
      requires Valid() && NoDangling(Now()) && s in slots && slots[s].target.Strong?
      requires t.Some? ==> t.value < next
      modifies this
      ensures r == t
      ensures RefAssigned(old(Now()), mid, Now(), s, t)
      ensures Quiet(Now())
    {
      mid := Now();
      if slots[s].target.obj == t {
        return t, mid;
      }
      Unset(s);
      mid := Now();
      CascadeKeepsNoDangling(old(Now()), mid, {s});
      AttachStrongExact(mid, s, t);
      if s in slots {
        slots := slots[s := slots[s].(target := Strong(t))];
      }
      r := t;
      if t.Some? && t.value in objs && objs[t.value].Some? {
        var c := objs[t.value].value;
        assert ObjOk(mid, t.value);
        ctrs := ctrs[c := ctrs[c].(numStrong := Inc32(ctrs[c].numStrong))];
        held := held + {t.value};
      }
    }

    /** A safe assignment: the slot holds the target already, or the target and the slot's owner live on without it. */
    method RefAssignKept(s: SlotId, t: Option<ObjId>)
      requires Valid() && NoDangling(Now()) && s in slots && slots[s].target.Strong?
      requires KeptFor(Now(), s, t)
      modifies this
      ensures Valid() && NoDangling(Now()) && Step(old(Now()), Now())
      ensures s in slots ==> slots[s].target == Strong(t)
      ensures t.Some? ==> t.value in objs
      ensures old(slots[s].target) == Strong(None) && t.Some? ==> Now() == AttachStrong(old(Now()), s, t)
    {
      ghost var start := Now();
      ghost var before := slots[s];
      if t.Some? { assert ObjOk(start, t.value); }
      var r, mid := RefAssign(s, t);
      assert RefStep(start, mid, Now(), s, t);
      if before.target != Strong(t) {
        KeptTargetSurvives(start, mid, s, t);
      }
    }

    /** The first assignment to a Ref: it takes the object and nothing else changes but the counts. */
    method RefFill(s: SlotId, t: ObjId)
      requires Valid() && NoDangling(Now()) && s in slots && slots[s].target == Strong(None) && t in objs
      modifies this
      ensures Valid() && NoDangling(Now()) && Now() == AttachStrong(old(Now()), s, Some(t))
      ensures objs == old(objs) && slots == old(slots[s := slots[s].(target := Strong(Some(t)))])
    {
      NullSlotTakesAny(Now(), s, t);
      RefAssignKept(s, Some(t));
    }

    /** WeakRef<X>::operator=(X*). The method stops where the template would read the counter of a freed target. */
    method WeakAssign(w: SlotId, t: Option<ObjId>) returns (r: Option<ObjId>, ok: bool, ghost mid: Store)
      requires Valid() && NoDangling(Now()) && w in slots && slots[w].target.Weak?
      requires t.Some? ==> t.value in objs
      modifies this
      ensures ok ==> r == t
      ensures WeakAssigned(old(Now()), mid, Now(), w, t, ok)
      ensures Quiet(Now()) && NoDangling(Now())
    {
      ghost var start := Now();
      mid := start;
      var c := if t.None? then None else objs[t.value];
      if slots[w].target.ctr == c {
        return t, true, mid;
      }
      Unset(w);
      mid := Now();
      CascadeKeepsNoDangling(start, mid, {w});
      CascadeKeepsQuiet(start, mid, {w});
      if t.None? {
        return t, true, mid;
      }
      if t.value !in objs {
        return None, false, mid;
      }
      AttachWeakExact(mid, w, t.value, c.value);
      var k := ctrs[objs[t.value].value];
      var live := !k.deleted;
      if w in slots {
        slots := slots[w := slots[w].(target := Weak(if live then objs[t.value] else None))];
      }
      if live {
        ctrs := ctrs[c.value := k.(numWeak := Inc32(k.numWeak))];
      }
      assert Now() == AttachWeak(mid, w, c.value);
      return t, true, mid;
    }

    /** The same for a WeakRef. */
    method WeakAssignKept(w: SlotId, t: Option<ObjId>)
      requires Valid() && NoDangling(Now()) && w in slots && slots[w].target.Weak?
      requires KeptFor(Now(), w, t)
      modifies this
      ensures Valid() && NoDangling(Now()) && Step(old(Now()), Now())
      ensures t.Some? ==>
        t.value in objs && w in slots && slots[w].target == Weak(objs[t.value]) && WeakPtr(Now(), w) == t
      ensures t.None? && w in slots ==> slots[w].target == Weak(None)
    {
      ghost var start := Now();
      ghost var same := slots[w].target.ctr == if t.None? then None else objs[t.value];
      var r, ok, mid := WeakAssign(w, t);
      if !same {
        KeptTargetSurvives(start, mid, w, t);
      }
      assert WeakStep(start, mid, Now(), w, t);
      if t.Some? {
        assert ObjOk(Now(), t.value);
      }
    }

    /** WeakRef<X>::Ptr: NULL or an object that is still allocated. */
    method Ptr(w: SlotId) returns (r: Option<ObjId>)
      requires Valid() && w in slots && slots[w].target.Weak?
      ensures r == WeakPtr(Now(), w)
      ensures r.Some? ==> r.value in objs && objs[r.value] == slots[w].target.ctr
    {
      var t := slots[w].target.ctr;
      if t.Some? {
        assert SlotOk(Now(), w);
        WeakPtrIsLive(Now(), w);
      }
      r := if t.Some? && !ctrs[t.value].deleted then Some(ctrs[t.value].obj) else None;
    }

    /** Ref<X>::operator=(WeakRef<X>&). */
    method RefAssignWeak(s: SlotId, w: SlotId) returns (r: Option<ObjId>, ghost mid: Store)
      requires Valid() && NoDangling(Now()) && s in slots && slots[s].target.Strong?
      requires w in slots && slots[w].target.Weak?
      modifies this
      ensures r == old(WeakPtr(Now(), w))
      ensures RefAssigned(old(Now()), mid, Now(), s, r)
      ensures Quiet(Now())
    {
      r := Ptr(w);
      if r.Some? {
        assert ObjOk(Now(), r.value);
      }
      r, mid := RefAssign(s, r);
    }

    /** WeakRef<X>::operator=(Ref<X>&). */
    method WeakAssignRef(w: SlotId, s: SlotId) returns (r: Option<ObjId>, ok: bool, ghost mid: Store)
      requires Valid() && NoDangling(Now()) && w in slots && slots[w].target.Weak?
      requires s in slots && slots[s].target.Strong?
      modifies this
      ensures WeakAssigned(old(Now()), mid, Now(), w, old(slots[s].target.obj), ok)
      ensures Quiet(Now()) && NoDangling(Now())
    {
      r, ok, mid := WeakAssign(w, slots[s].target.obj);
    }
  }

  /** A local and two objects, the first with a Ref field, all empty. */
  method AllocateList() returns (m: Memory)
    ensures fresh(m) && m.Now() == ListOfTwoEmpty() && m.Valid()
  {
    m := new Memory();
    var head := m.NewObject();
    var second := m.NewObject();
    var cur := m.NewSlot(true, None);
    var link := m.NewSlot(true, Some(head));
    ListOfTwoAllocated();
  }

  /** The local 4 takes the object 0, whose field 5 takes the object 2. */
  method BuildList() returns (m: Memory)
    ensures fresh(m) && m.Now() == ListOfTwo() && m.Valid() && NoDangling(m.Now())
  {
    m := AllocateList();
    m.RefFill(4, 0);
    m.RefFill(5, 2);
    ListOfTwoLinked();
  }

  /** `cur = cur.next` on a list of two built from nothing: the counts stay exact, and the local `cur` dangles. */
  method AdvanceAlongList() returns (m: Memory, cur: SlotId)
    ensures fresh(m) && Inv(m.Now()) && Quiet(m.Now()) && !NoDangling(m.Now())
    ensures cur in m.slots && m.slots[cur].owner.None? && m.slots[cur].target == Strong(Some(2)) && 2 !in m.objs
  {
    m := BuildList();
    cur := 4;
    var _, mid := m.RefAssign(cur, m.slots[5].target.obj);
    ListOfTwoDangles(mid);
  }

  /** A local and two objects with a Ref field each, all empty. */
  method AllocateCycle() returns (m: Memory)
    ensures fresh(m) && m.Now() == CycleOfTwoEmpty() && m.Valid() && NoDangling(m.Now())
  {
    m := new Memory();
    var first := m.NewObject();
    var second := m.NewObject();
    var root := m.NewSlot(true, None);
    var forth := m.NewSlot(true, Some(first));
    var back := m.NewSlot(true, Some(second));
    CycleOfTwoAllocated();
  }

  /** The local 4 takes the object 0, and each of the objects takes the other. */
  method BuildCycle() returns (m: Memory)
    ensures fresh(m) && m.Valid() && NoDangling(m.Now()) && HoldEachOther(m.Now(), 0, 5, 2, 6)
    ensures m.slots.Keys == {4, 5, 6} && m.slots[4] == Slot(None, Strong(Some(0)))
  {
    m := AllocateCycle();
    m.RefFill(4, 0);
    m.RefFill(5, 2);
    m.RefFill(6, 0);
  }

  /** The local goes out of scope: no root is left, and both objects stay allocated. */
  method LeakCycle() returns (m: Memory)
    ensures fresh(m) && m.Valid() && NoDangling(m.Now())
    ensures forall s :: s in m.slots ==> m.slots[s].owner.Some?
    ensures HoldEachOther(m.Now(), 0, 5, 2, 6)
  {
    m := BuildCycle();
    ghost var start := m.Now();
    ghost var mid := m.DropSlot(4);
    CycleStays(start, mid, 4, 0, 5, 2, 6);
    assert mid.slots.Keys <= {4, 5, 6};
  }
}
