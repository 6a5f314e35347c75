/**
 * The memory that the reference-counting templates work on, and what it means for it to be consistent.
 *
 * A deallocated address is an address that is absent from a map, so every dereference in the methods of
 * `Memory` carries the proof obligation that the address is still allocated. Addresses are never reused.
 */
module RefsState {
  import opened Common

  type ObjId = nat
  type CtrId = nat
  type SlotId = nat

  const U32: nat := 0x1_0000_0000

  /** What a Ref (object pointer) or a WeakRef (counter pointer) holds; None is NULL. */
  datatype Target = Strong(obj: Option<ObjId>) | Weak(ctr: Option<CtrId>) {
    function Nulled(): Target {
      if Strong? then Strong(None) else Weak(None)
    }

    predicate IsNull() {
      if Strong? then obj.None? else ctr.None?
    }
  }

  /** One allocated Ref or WeakRef. A slot without an owner is a local or global; otherwise it is a field. */
  datatype Slot = Slot(owner: Option<ObjId>, target: Target)

  /** ReferenceCounter. */
  datatype Counter = Counter(numWeak: nat, numStrong: nat, obj: ObjId, deleted: bool)

  /**
   * `objs` gives the ptr_ref_counter of each allocated object; it is NULL exactly while the object is being
   * destroyed. `held` remembers the objects that some Ref ever pointed to. `flight` lists the counters that a
   * WeakRef.Unset still on the call stack is about to free, with the slot it was called on.
   */
  datatype Store = Store(
    objs: map<ObjId, Option<CtrId>>,
    ctrs: map<CtrId, Counter>,
    slots: map<SlotId, Slot>,
    next: nat,
    held: set<ObjId>,
    flight: map<CtrId, SlotId>)

  /** The allocated slots that hold `t`. */
  ghost function Holding(slots: map<SlotId, Slot>, t: Target): set<SlotId> {
    set s | s in slots && slots[s].target == t
  }

  /** Number of Refs on an object and of WeakRefs on a counter, counted from the slots themselves. */
  ghost function StrongOn(st: Store, o: ObjId): nat { |Holding(st.slots, Strong(Some(o)))| }

  ghost function WeakOn(st: Store, c: CtrId): nat { |Holding(st.slots, Weak(Some(c)))| }

  /** Objects that are not in the middle of their destructor. */
  ghost function Normal(st: Store): set<ObjId> {
    set o | o in st.objs && st.objs[o].Some?
  }

  ghost predicate ObjOk(st: Store, o: ObjId)
    requires o in st.objs
  {
    && o < st.next
    && match st.objs[o]
       case None => StrongOn(st, o) == 0
       case Some(c) =>
         && c in st.ctrs && c !in st.flight
         && st.ctrs[c].obj == o && !st.ctrs[c].deleted
         && (o in st.held <==> StrongOn(st, o) > 0)
  }

  /** A counter outside `flight` holds the exact numbers of live slots. */
  ghost predicate CtrOk(st: Store, c: CtrId)
    requires c in st.ctrs
  {
    var k := st.ctrs[c];
    && c < st.next && k.obj < st.next
    && if c in st.flight then
         && !k.deleted && k.numStrong == 0
         && (WeakOn(st, c) > 0 ==> k.numWeak == 0)
         && (k.obj in st.objs ==> st.objs[k.obj] == None)
       else
         && k.numWeak == WeakOn(st, c)
         && if k.deleted then
              && k.numStrong == 0 && k.numWeak > 0 && k.obj in st.held
              && (k.obj in st.objs ==> st.objs[k.obj] == None)
            else
              && k.obj in st.objs && st.objs[k.obj] == Some(c)
              && k.numStrong == StrongOn(st, k.obj)
  }

  ghost predicate SlotOk(st: Store, s: SlotId)
    requires s in st.slots
  {
    && s < st.next
    && (st.slots[s].owner.Some? ==> st.slots[s].owner.value in st.objs)
    && match st.slots[s].target
       case Strong(Some(o)) => o < st.next
       case Weak(Some(c)) => c in st.ctrs && (c in st.flight ==> st.flight[c] == s)
       case _ => true
  }

  /** The invariant of every moment of every run, the middle of nested deletions included. */
  ghost predicate Inv(st: Store) {
    && (forall o {:trigger ObjOk(st, o)} :: o in st.objs ==> ObjOk(st, o))
    && (forall c {:trigger CtrOk(st, c)} :: c in st.ctrs ==> CtrOk(st, c))
    && (forall s {:trigger SlotOk(st, s)} :: s in st.slots ==> SlotOk(st, s))
    && (forall o :: o in st.held ==> o < st.next)
    && st.flight.Keys <= st.ctrs.Keys
    && |st.slots| < U32
  }

  /** No destructor is running: the states a program can see between two operations. */
  ghost predicate Quiet(st: Store) {
    && (forall o :: o in st.objs ==> st.objs[o].Some?)
    && st.flight == map[]
  }

  /** No Ref holds a freed address. */
  ghost predicate NoDangling(st: Store) {
    forall s, o :: s in st.slots && st.slots[s].target == Strong(Some(o)) ==> o in st.objs
  }

  // ---------------------------------------------------------------------------------------------
  // The elementary updates.

  function Dec32(n: nat): nat { if n == 0 then U32 - 1 else n - 1 }

  function Inc32(n: nat): nat { (n + 1) % U32 }

  /** A store through a slot pointer; lost when the slot's memory is already free. */
  function PutSlot(st: Store, s: SlotId, target: Target): Store {
    if s in st.slots then st.(slots := st.slots[s := st.slots[s].(target := target)]) else st
  }

  /** Ref.Unset up to the point where it deletes the object (if it does). */
  function DropStrong(st: Store, s: SlotId, o: ObjId, c: CtrId): Store
    requires s in st.slots && c in st.ctrs
  {
    var k := st.ctrs[c].(numStrong := Dec32(st.ctrs[c].numStrong));
    var ctrs := st.ctrs[c := k];
    var slots := st.slots[s := st.slots[s].(target := Strong(None))];
    if k.numStrong != 0 then st.(ctrs := ctrs, slots := slots)
    else
      var ctrs' := if k.numWeak == 0 then ctrs - {c} else ctrs[c := k.(deleted := true)];
      st.(ctrs := ctrs', objs := st.objs[o := None], slots := slots)
  }

  /** True when WeakRef.Unset on counter `k` deletes the object itself. */
  predicate LastWeakKillsObject(k: Counter) {
    Dec32(k.numWeak) == 0 && k.numStrong == 0 && !k.deleted
  }

  /** WeakRef.Unset up to the point where it deletes the object, or all of it when it does not. */
  function DropWeak(st: Store, w: SlotId, c: CtrId): Store
    requires w in st.slots && c in st.ctrs
  {
    var k := st.ctrs[c].(numWeak := Dec32(st.ctrs[c].numWeak));
    var ctrs := st.ctrs[c := k];
    var slots := st.slots[w := st.slots[w].(target := Weak(None))];
    if LastWeakKillsObject(st.ctrs[c]) then
      st.(ctrs := ctrs, objs := st.objs[k.obj := None], flight := st.flight[c := w])
    else
      st.(ctrs := if k.numWeak == 0 && k.numStrong == 0 then ctrs - {c} else ctrs, slots := slots)
  }

  /** The end of a WeakRef.Unset that deleted the object. */
  function FinishFlight(st: Store, w: SlotId, c: CtrId): Store {
    PutSlot(st.(ctrs := st.ctrs - {c}, flight := st.flight - {c}), w, Weak(None))
  }

  /** The end of Ref.operator=: the slot is written, then a live counted target gets one more reference. */
  function AttachStrong(st: Store, s: SlotId, t: Option<ObjId>): Store
  {
    var st' := PutSlot(st, s, Strong(t));
    if t.None? || t.value !in st.objs || st.objs[t.value].None? then st'
    else
      var c := st.objs[t.value].value;
      if c !in st.ctrs then st'
      else st'.(ctrs := st.ctrs[c := st.ctrs[c].(numStrong := Inc32(st.ctrs[c].numStrong))],
                held := st.held + {t.value})
  }

  /** The end of WeakRef.operator= for a non-NULL pointer whose counter is `c`. */
  function AttachWeak(st: Store, w: SlotId, c: CtrId): Store {
    if c !in st.ctrs || st.ctrs[c].deleted then PutSlot(st, w, Weak(None))
    else
      var st' := PutSlot(st, w, Weak(Some(c)));
      st'.(ctrs := st.ctrs[c := st.ctrs[c].(numWeak := Inc32(st.ctrs[c].numWeak))])
  }

  // ---------------------------------------------------------------------------------------------
  // Each elementary update keeps the invariant.

  /** Writing a slot moves it from the slots holding its old target to those holding the new one. */
  lemma UpdateCounts(m: map<SlotId, Slot>, s: SlotId, x: Slot, u: Target)
    requires s in m
    ensures |Holding(m[s := x], u)|
      == |Holding(m, u)| - (if m[s].target == u then 1 else 0) + (if x.target == u then 1 else 0)
  {
    var rest := Holding(m, u) - {s};
    assert Holding(m, u) == if m[s].target == u then rest + {s} else rest;
    assert Holding(m[s := x], u) == if x.target == u then rest + {s} else rest;
  }

  lemma PutSlotCounts(a: Store, s: SlotId, t: Target)
    requires s in a.slots
    ensures var b := PutSlot(a, s, t);
      && b.slots.Keys == a.slots.Keys && |b.slots| == |a.slots|
      && (forall x :: StrongOn(b, x) == StrongOn(a, x)
            - (if a.slots[s].target == Strong(Some(x)) then 1 else 0) + (if t == Strong(Some(x)) then 1 else 0))
      && (forall x :: WeakOn(b, x) == WeakOn(a, x)
            - (if a.slots[s].target == Weak(Some(x)) then 1 else 0) + (if t == Weak(Some(x)) then 1 else 0))
  {
    var b := PutSlot(a, s, t);
    var y := a.slots[s].(target := t);
    assert b.slots == a.slots[s := y];
    assert b.slots.Keys == a.slots.Keys;
    forall x ensures StrongOn(b, x) == StrongOn(a, x)
      - (if a.slots[s].target == Strong(Some(x)) then 1 else 0) + (if t == Strong(Some(x)) then 1 else 0)
    {
      UpdateCounts(a.slots, s, y, Strong(Some(x)));
    }
    forall x ensures WeakOn(b, x) == WeakOn(a, x)
      - (if a.slots[s].target == Weak(Some(x)) then 1 else 0) + (if t == Weak(Some(x)) then 1 else 0)
    {
      UpdateCounts(a.slots, s, y, Weak(Some(x)));
    }
  }

  lemma ObjFrame(a: Store, b: Store, x: ObjId)
    requires x in a.objs && ObjOk(a, x) && x in b.objs && b.objs[x] == a.objs[x] && a.next <= b.next
    requires StrongOn(b, x) == StrongOn(a, x) && (x in a.held <==> x in b.held)
    requires a.objs[x].Some? ==>
      var c := a.objs[x].value;
      c in b.ctrs && b.ctrs[c].obj == x && !b.ctrs[c].deleted && c !in b.flight
    ensures ObjOk(b, x)
  {
  }

  lemma CtrFrame(a: Store, b: Store, x: CtrId)
    requires x in a.ctrs && CtrOk(a, x) && x in b.ctrs && b.ctrs[x] == a.ctrs[x] && a.next <= b.next
    requires WeakOn(b, x) == WeakOn(a, x) && (x in b.flight <==> x in a.flight)
    requires a.held <= b.held
    requires var o := a.ctrs[x].obj;
      if o in a.objs && a.objs[o] == Some(x) then
        o in b.objs && b.objs[o] == Some(x) && StrongOn(b, o) == StrongOn(a, o)
      else o in b.objs ==> b.objs[o] == None || (o in a.objs && b.objs[o] == a.objs[o])
    ensures CtrOk(b, x)
  {
  }

  lemma DropStrongCounts(a: Store, s: SlotId, o: ObjId, c: CtrId)
    requires s in a.slots && c in a.ctrs && a.slots[s].target == Strong(Some(o))
    ensures var b := DropStrong(a, s, o, c);
      && b.slots.Keys == a.slots.Keys && |b.slots| == |a.slots|
      && (forall x :: StrongOn(b, x) == if x == o then StrongOn(a, o) - 1 else StrongOn(a, x))
      && (forall x :: WeakOn(b, x) == WeakOn(a, x))
  {
    assert DropStrong(a, s, o, c).slots == PutSlot(a, s, Strong(None)).slots;
    PutSlotCounts(a, s, Strong(None));
  }

  lemma DropStrongObj(a: Store, s: SlotId, o: ObjId, c: CtrId, x: ObjId)
    requires s in a.slots && a.slots[s].target == Strong(Some(o))
    requires o in a.objs && a.objs[o] == Some(c) && ObjOk(a, o) && CtrOk(a, c)
    requires x in a.objs && ObjOk(a, x)
    ensures ObjOk(DropStrong(a, s, o, c), x)
  {
    var b := DropStrong(a, s, o, c);
    DropStrongCounts(a, s, o, c);
    if x != o {
      ObjFrame(a, b, x);
    }
  }

  lemma DropStrongCtr(a: Store, s: SlotId, o: ObjId, c: CtrId, x: CtrId)
    requires s in a.slots && a.slots[s].target == Strong(Some(o))
    requires o in a.objs && a.objs[o] == Some(c) && ObjOk(a, o) && CtrOk(a, c)
    requires x in DropStrong(a, s, o, c).ctrs && CtrOk(a, x)
    ensures CtrOk(DropStrong(a, s, o, c), x)
  {
    var b := DropStrong(a, s, o, c);
    DropStrongCounts(a, s, o, c);
    if x != c {
      CtrFrame(a, b, x);
    }
  }

  lemma DropStrongSlot(a: Store, s: SlotId, o: ObjId, c: CtrId, x: SlotId)
    requires s in a.slots && a.slots[s].target == Strong(Some(o))
    requires o in a.objs && c in a.ctrs && CtrOk(a, c) && c !in a.flight
    requires x in a.slots && SlotOk(a, x)
    ensures SlotOk(DropStrong(a, s, o, c), x)
  {
    if a.slots[x].target == Weak(Some(c)) {
      assert x in Holding(a.slots, Weak(Some(c)));
    }
  }

  lemma DropStrongKeepsInv(a: Store, s: SlotId, o: ObjId, c: CtrId)
    requires Inv(a) && s in a.slots && a.slots[s].target == Strong(Some(o))
    requires o in a.objs && a.objs[o] == Some(c)
    ensures c in a.ctrs && a.ctrs[c].numStrong > 0
    ensures Inv(DropStrong(a, s, o, c))
  {
    assert ObjOk(a, o) && CtrOk(a, c);
    assert s in Holding(a.slots, Strong(Some(o)));
    var b := DropStrong(a, s, o, c);
    DropStrongCounts(a, s, o, c);
    forall x | x in b.objs ensures ObjOk(b, x) { assert ObjOk(a, x); DropStrongObj(a, s, o, c, x); }
    forall x | x in b.ctrs ensures CtrOk(b, x) { assert CtrOk(a, x); DropStrongCtr(a, s, o, c, x); }
    forall x | x in b.slots ensures SlotOk(b, x) { assert SlotOk(a, x); DropStrongSlot(a, s, o, c, x); }
  }

  // WeakRef.Unset.

  /** All the slots on a counter in flight are the one slot recorded for it. */
  lemma FlightHasOneSlot(a: Store, c: CtrId)
    requires Inv(a) && c in a.ctrs && c in a.flight
    ensures WeakOn(a, c) <= 1
  {
    var h := Holding(a.slots, Weak(Some(c)));
    forall x | x in h ensures x in {a.flight[c]} { assert SlotOk(a, x); }
    SubsetSize(h, {a.flight[c]});
  }

  lemma DropWeakCounts(a: Store, w: SlotId, c: CtrId)
    requires w in a.slots && c in a.ctrs && a.slots[w].target == Weak(Some(c))
    ensures var b := DropWeak(a, w, c);
      && b.slots.Keys == a.slots.Keys && |b.slots| == |a.slots|
      && (forall x :: StrongOn(b, x) == StrongOn(a, x))
      && (forall x :: WeakOn(b, x) ==
            if x == c && !LastWeakKillsObject(a.ctrs[c]) then WeakOn(a, c) - 1 else WeakOn(a, x))
  {
    var b := DropWeak(a, w, c);
    if LastWeakKillsObject(a.ctrs[c]) {
      assert b.slots == a.slots;
    } else {
      assert b.slots == PutSlot(a, w, Weak(None)).slots;
      PutSlotCounts(a, w, Weak(None));
    }
  }

  lemma DropWeakObj(a: Store, w: SlotId, c: CtrId, x: ObjId)
    requires w in a.slots && c in a.ctrs && a.slots[w].target == Weak(Some(c)) && CtrOk(a, c)
    requires c in a.flight ==> a.ctrs[c].numWeak == 0
    requires x in a.objs && ObjOk(a, x)
    ensures ObjOk(DropWeak(a, w, c), x)
  {
    DropWeakCounts(a, w, c);
    if a.objs[x] != Some(c) {
      ObjFrame(a, DropWeak(a, w, c), x);
    }
  }

  lemma DropWeakCtr(a: Store, w: SlotId, c: CtrId, x: CtrId)
    requires w in a.slots && c in a.ctrs && a.slots[w].target == Weak(Some(c)) && CtrOk(a, c)
    requires c in a.flight ==> a.ctrs[c].numWeak == 0 && WeakOn(a, c) == 1
    requires x in DropWeak(a, w, c).ctrs && CtrOk(a, x)
    ensures CtrOk(DropWeak(a, w, c), x)
  {
    DropWeakCounts(a, w, c);
    if x != c {
      CtrFrame(a, DropWeak(a, w, c), x);
    }
  }

  lemma DropWeakSlot(a: Store, w: SlotId, c: CtrId, x: SlotId)
    requires w in a.slots && c in a.ctrs && a.slots[w].target == Weak(Some(c)) && CtrOk(a, c)
    requires c in a.flight ==> a.ctrs[c].numWeak == 0
    requires x in a.slots && SlotOk(a, x)
    ensures SlotOk(DropWeak(a, w, c), x)
  {
    if a.slots[x].target == Weak(Some(c)) && x != w && c !in a.flight {
      var h := Holding(a.slots, Weak(Some(c)));
      assert {w, x} <= h;
      SubsetSize({w, x}, h);
    }
  }

  lemma DropWeakKeepsInv(a: Store, w: SlotId, c: CtrId)
    requires Inv(a) && w in a.slots && a.slots[w].target == Weak(Some(c))
    ensures c in a.ctrs && Inv(DropWeak(a, w, c))
    ensures LastWeakKillsObject(a.ctrs[c]) ==>
      a.ctrs[c].obj in a.objs && a.objs[a.ctrs[c].obj] == Some(c) && c !in a.flight
  {
    assert SlotOk(a, w);
    assert CtrOk(a, c);
    assert w in Holding(a.slots, Weak(Some(c)));
    if c in a.flight { FlightHasOneSlot(a, c); }
    var b := DropWeak(a, w, c);
    DropWeakCounts(a, w, c);
    forall x | x in b.objs ensures ObjOk(b, x) { assert ObjOk(a, x); DropWeakObj(a, w, c, x); }
    forall x | x in b.ctrs ensures CtrOk(b, x) { assert CtrOk(a, x); DropWeakCtr(a, w, c, x); }
    forall x | x in b.slots ensures SlotOk(b, x) { assert SlotOk(a, x); DropWeakSlot(a, w, c, x); }
  }

  lemma FinishFlightCounts(a: Store, w: SlotId, c: CtrId)
    requires Inv(a) && c in a.flight && a.flight[c] == w && c in a.ctrs
    ensures var b := FinishFlight(a, w, c);
      && b.slots.Keys == a.slots.Keys && |b.slots| == |a.slots|
      && (forall x ::
            StrongOn(b, x) == StrongOn(a, x) - (if w in a.slots && a.slots[w].target == Strong(Some(x)) then 1 else 0))
      && (forall x :: x != c ==>
            WeakOn(b, x) == WeakOn(a, x) - (if w in a.slots && a.slots[w].target == Weak(Some(x)) then 1 else 0))
  {
    if w in a.slots {
      assert FinishFlight(a, w, c).slots == PutSlot(a, w, Weak(None)).slots;
      PutSlotCounts(a, w, Weak(None));
    }
  }

  /** The slot still holds the counter in flight, unless it was destroyed or emptied by the cascade. */
  lemma FinishFlightKeepsInv(a: Store, w: SlotId, c: CtrId)
    requires Inv(a) && c in a.flight && a.flight[c] == w
    requires w in a.slots ==> a.slots[w].target in {Weak(None), Weak(Some(c))}
    requires c in a.ctrs ==> a.ctrs[c].obj !in a.objs
    ensures Inv(FinishFlight(a, w, c))
  {
    assert CtrOk(a, c);
    var b := FinishFlight(a, w, c);
    FinishFlightCounts(a, w, c);
    forall x | x in b.objs ensures ObjOk(b, x) { assert ObjOk(a, x); ObjFrame(a, b, x); }
    forall x | x in b.ctrs ensures CtrOk(b, x) { assert CtrOk(a, x); CtrFrame(a, b, x); }
    forall x | x in b.slots ensures SlotOk(b, x) { assert SlotOk(a, x); }
  }

  // Deallocation.

  /** Freeing the memory of a slot that holds NULL. */
  lemma FreeSlotKeepsInv(a: Store, f: SlotId)
    requires Inv(a) && f in a.slots && a.slots[f].target.IsNull()
    ensures Inv(a.(slots := a.slots - {f}))
  {
    var b := a.(slots := a.slots - {f});
    forall u: Target | !u.IsNull() ensures Holding(b.slots, u) == Holding(a.slots, u) { }
    assert b.slots.Keys == a.slots.Keys - {f};
    assert |b.slots| == |b.slots.Keys| && |a.slots| == |a.slots.Keys|;
    SubsetSize(b.slots.Keys, a.slots.Keys);
    forall x | x in b.objs ensures ObjOk(b, x) { assert ObjOk(a, x); ObjFrame(a, b, x); }
    forall x | x in b.ctrs ensures CtrOk(b, x) { assert CtrOk(a, x); CtrFrame(a, b, x); }
    forall x | x in b.slots ensures SlotOk(b, x) { assert SlotOk(a, x); }
  }

  /** Freeing the memory of an object whose destructor has freed all its fields. */
  lemma FreeObjectKeepsInv(a: Store, o: ObjId)
    requires Inv(a) && o in a.objs && a.objs[o] == None
    requires forall s :: s in a.slots ==> a.slots[s].owner != Some(o)
    ensures Inv(a.(objs := a.objs - {o}))
  {
    var b := a.(objs := a.objs - {o});
    forall x | x in b.objs ensures ObjOk(b, x) { assert ObjOk(a, x); ObjFrame(a, b, x); }
    forall x | x in b.ctrs ensures CtrOk(b, x) { assert CtrOk(a, x); CtrFrame(a, b, x); }
    forall x | x in b.slots ensures SlotOk(b, x) { assert SlotOk(a, x); }
  }

  // Assignment and allocation.

  lemma AttachStrongCounts(a: Store, s: SlotId, t: Option<ObjId>)
    requires s in a.slots && a.slots[s].target == Strong(None)
    ensures var b := AttachStrong(a, s, t);
      && b.slots.Keys == a.slots.Keys && |b.slots| == |a.slots|
      && (forall x: ObjId :: StrongOn(b, x) == StrongOn(a, x) + (if t == Some(x) then 1 else 0))
      && (forall x :: WeakOn(b, x) == WeakOn(a, x))
  {
    assert AttachStrong(a, s, t).slots == PutSlot(a, s, Strong(t)).slots;
    PutSlotCounts(a, s, Strong(t));
  }

  /** An empty slot is not among those on an object, so there is room for one more reference. */
  lemma RoomForOne(a: Store, s: SlotId, u: Target)
    requires s in a.slots && a.slots[s].target != u
    ensures |Holding(a.slots, u)| < |a.slots|
  {
    assert |a.slots| == |a.slots.Keys|;
    SubsetSize(Holding(a.slots, u) + {s}, a.slots.Keys);
  }

  lemma AttachStrongObj(a: Store, s: SlotId, t: ObjId, x: ObjId)
    requires s in a.slots && a.slots[s].target == Strong(None)
    requires t in a.objs ==> a.objs[t].Some? && ObjOk(a, t)
    requires x in a.objs && ObjOk(a, x)
    ensures ObjOk(AttachStrong(a, s, Some(t)), x)
  {
    AttachStrongCounts(a, s, Some(t));
    if x != t { ObjFrame(a, AttachStrong(a, s, Some(t)), x); }
  }

  lemma AttachStrongCtr(a: Store, s: SlotId, t: ObjId, x: CtrId)
    requires s in a.slots && a.slots[s].target == Strong(None) && StrongOn(a, t) + 1 < U32
    requires t in a.objs ==> a.objs[t].Some? && ObjOk(a, t)
    requires x in a.ctrs && CtrOk(a, x)
    ensures CtrOk(AttachStrong(a, s, Some(t)), x)
  {
    AttachStrongCounts(a, s, Some(t));
    if !(t in a.objs && a.objs[t] == Some(x)) { CtrFrame(a, AttachStrong(a, s, Some(t)), x); }
  }

  lemma AttachStrongSlot(a: Store, s: SlotId, t: ObjId, x: SlotId)
    requires s in a.slots && x in a.slots && SlotOk(a, x) && t < a.next
    ensures SlotOk(AttachStrong(a, s, Some(t)), x)
  {
  }

  lemma AttachStrongKeepsInv(a: Store, s: SlotId, t: Option<ObjId>)
    requires Inv(a) && Quiet(a) && s in a.slots && a.slots[s].target == Strong(None)
    requires t.Some? ==> t.value < a.next
    ensures Inv(AttachStrong(a, s, t))
  {
    if t.None? {
      assert AttachStrong(a, s, t) == a;
    } else {
      AttachStrongSomeKeepsInv(a, s, t.value);
    }
  }

  lemma AttachStrongSomeKeepsInv(a: Store, s: SlotId, t: ObjId)
    requires Inv(a) && Quiet(a) && s in a.slots && a.slots[s].target == Strong(None) && t < a.next
    ensures Inv(AttachStrong(a, s, Some(t)))
  {
    var b := AttachStrong(a, s, Some(t));
    AttachStrongCounts(a, s, Some(t));
    RoomForOne(a, s, Strong(Some(t)));
    if t in a.objs { assert ObjOk(a, t); }
    assert b.objs == a.objs && b.ctrs.Keys == a.ctrs.Keys && b.flight == a.flight && b.next == a.next;
    assert forall x :: x in b.held ==> x < b.next;
    forall x | x in b.objs ensures ObjOk(b, x) { assert ObjOk(a, x); AttachStrongObj(a, s, t, x); }
    forall x | x in b.ctrs ensures CtrOk(b, x) { assert CtrOk(a, x); AttachStrongCtr(a, s, t, x); }
    forall x | x in b.slots ensures SlotOk(b, x) { assert SlotOk(a, x); AttachStrongSlot(a, s, t, x); }
  }

  /**
   * Ref.operator= leaves exact counts exactly when its own slot survived the Unset or there is no live target,
   * and no dangling Ref exactly when the target survived (or the slot did not).
   */
  lemma AttachStrongExact(a: Store, s: SlotId, t: Option<ObjId>)
    requires Inv(a) && Quiet(a) && NoDangling(a)
    requires s in a.slots ==> a.slots[s].target == Strong(None)
    requires t.Some? ==> t.value < a.next
    ensures Inv(AttachStrong(a, s, t)) <==> (t.Some? && t.value in a.objs ==> s in a.slots)
    ensures NoDangling(AttachStrong(a, s, t)) <==> (t.Some? && s in a.slots ==> t.value in a.objs)
  {
    var b := AttachStrong(a, s, t);
    if s in a.slots {
      AttachStrongKeepsInv(a, s, t);
      if t.Some? && t.value !in a.objs {
        assert b.slots[s].target == Strong(Some(t.value)) && t.value !in b.objs;
      }
    } else if t.Some? && t.value in a.objs {
      assert ObjOk(a, t.value);
      var c := a.objs[t.value].value;
      assert CtrOk(a, c);
      assert b.slots == a.slots;
      assert !CtrOk(b, c);
    }
  }

  lemma AttachWeakCtr(a: Store, w: SlotId, t: ObjId, c: CtrId, x: CtrId)
    requires w in a.slots && a.slots[w].target == Weak(None) && WeakOn(a, c) + 1 < U32
    requires t in a.objs && a.objs[t] == Some(c) && c in a.ctrs && ObjOk(a, t)
    requires x in a.ctrs && CtrOk(a, x)
    ensures CtrOk(AttachWeak(a, w, c), x)
  {
    var b := AttachWeak(a, w, c);
    PutSlotCounts(a, w, Weak(Some(c)));
    assert b.slots == PutSlot(a, w, Weak(Some(c))).slots;
    if x != c { CtrFrame(a, b, x); }
  }

  lemma AttachWeakKeepsInv(a: Store, w: SlotId, t: ObjId, c: CtrId)
    requires Inv(a) && Quiet(a) && w in a.slots && a.slots[w].target == Weak(None)
    requires t in a.objs && a.objs[t] == Some(c)
    ensures c in a.ctrs && Inv(AttachWeak(a, w, c))
  {
    assert ObjOk(a, t);
    RoomForOne(a, w, Weak(Some(c)));
    var b := AttachWeak(a, w, c);
    PutSlotCounts(a, w, Weak(Some(c)));
    assert b.slots == PutSlot(a, w, Weak(Some(c))).slots;
    forall x | x in b.objs ensures ObjOk(b, x) { assert ObjOk(a, x); ObjFrame(a, b, x); }
    forall x | x in b.ctrs ensures CtrOk(b, x) { assert CtrOk(a, x); AttachWeakCtr(a, w, t, c, x); }
    forall x | x in b.slots ensures SlotOk(b, x) { assert SlotOk(a, x); }
  }

  /** WeakRef.operator= leaves exact counts exactly when its own slot survived the Unset. */
  lemma AttachWeakExact(a: Store, w: SlotId, t: ObjId, c: CtrId)
    requires Inv(a) && Quiet(a) && NoDangling(a)
    requires w in a.slots ==> a.slots[w].target == Weak(None)
    requires t in a.objs && a.objs[t] == Some(c)
    ensures c in a.ctrs && (Inv(AttachWeak(a, w, c)) <==> w in a.slots)
    ensures Quiet(AttachWeak(a, w, c)) && NoDangling(AttachWeak(a, w, c))
  {
    assert ObjOk(a, t);
    if w in a.slots {
      AttachWeakKeepsInv(a, w, t, c);
    } else {
      var b := AttachWeak(a, w, c);
      assert CtrOk(a, c);
      assert b.slots == a.slots;
      assert !CtrOk(b, c);
    }
  }

  /** `new X`: the object and its counter (0, 0, false). */
  function AllocObject(a: Store): Store {
    a.(objs := a.objs[a.next := Some(a.next + 1)],
       ctrs := a.ctrs[a.next + 1 := Counter(0, 0, a.next, false)],
       next := a.next + 2)
  }

  /** A NULL Ref or WeakRef, local or a field of `owner`. */
  function AllocSlot(a: Store, strong: bool, owner: Option<ObjId>): Store {
    a.(slots := a.slots[a.next := Slot(owner, if strong then Strong(None) else Weak(None))], next := a.next + 1)
  }

  lemma AllocObjectKeepsInv(a: Store)
    requires Inv(a)
    ensures Inv(AllocObject(a))
  {
    var b := AllocObject(a);
    var o, c := a.next, a.next + 1;
    forall x | x in a.objs || x in a.held ensures x < a.next { if x in a.objs { assert ObjOk(a, x); } }
    forall x | x in a.ctrs ensures x < a.next && a.ctrs[x].obj < a.next { assert CtrOk(a, x); }
    forall s | s in a.slots ensures a.slots[s].target != Strong(Some(o)) && a.slots[s].target != Weak(Some(c)) {
      assert SlotOk(a, s);
    }
    assert Holding(b.slots, Strong(Some(o))) == {} && Holding(b.slots, Weak(Some(c))) == {};
    forall x | x in b.objs ensures ObjOk(b, x) { if x != o { assert ObjOk(a, x); ObjFrame(a, b, x); } }
    forall x | x in b.ctrs ensures CtrOk(b, x) { if x != c { assert CtrOk(a, x); CtrFrame(a, b, x); } }
    forall x | x in b.slots ensures SlotOk(b, x) { assert SlotOk(a, x); }
  }

  /** The new address was not in use, so no Ref dangles that did not dangle before. */
  lemma AllocObjectFresh(a: Store)
    requires Inv(a)
    ensures a.next !in a.objs && Inv(AllocObject(a))
    ensures NoDangling(a) ==> NoDangling(AllocObject(a))
    ensures Quiet(a) ==> Quiet(AllocObject(a))
  {
    AllocObjectKeepsInv(a);
    forall x | x in a.objs ensures x < a.next { assert ObjOk(a, x); }
  }

  lemma NullSlotHoldsNothing(m: map<SlotId, Slot>, s: SlotId, x: Slot, u: Target)
    requires s !in m && x.target.IsNull() && !u.IsNull()
    ensures Holding(m[s := x], u) == Holding(m, u)
  {
  }

  lemma OneMore(m: map<SlotId, Slot>, s: SlotId, x: Slot)
    requires s !in m
    ensures |m[s := x]| == |m| + 1
  {
    assert m[s := x].Keys == m.Keys + {s};
    assert |m[s := x]| == |m[s := x].Keys| && |m| == |m.Keys|;
  }

  lemma AllocSlotCounts(a: Store, strong: bool, owner: Option<ObjId>)
    requires a.next !in a.slots
    ensures var b := AllocSlot(a, strong, owner);
      && |b.slots| == |a.slots| + 1
      && (forall x :: StrongOn(b, x) == StrongOn(a, x))
      && (forall x :: WeakOn(b, x) == WeakOn(a, x))
  {
    var b := AllocSlot(a, strong, owner);
    OneMore(a.slots, a.next, b.slots[a.next]);
    forall x ensures StrongOn(b, x) == StrongOn(a, x) {
      NullSlotHoldsNothing(a.slots, a.next, b.slots[a.next], Strong(Some(x)));
    }
    forall x ensures WeakOn(b, x) == WeakOn(a, x) {
      NullSlotHoldsNothing(a.slots, a.next, b.slots[a.next], Weak(Some(x)));
    }
  }

  lemma AllocSlotKeepsInv(a: Store, strong: bool, owner: Option<ObjId>)
    requires Inv(a) && |a.slots| + 1 < U32
    requires owner.Some? ==> owner.value in a.objs
    ensures Inv(AllocSlot(a, strong, owner))
  {
    var b := AllocSlot(a, strong, owner);
    forall x | x in a.slots ensures x < a.next { assert SlotOk(a, x); }
    AllocSlotCounts(a, strong, owner);
    forall x | x in b.objs ensures ObjOk(b, x) { assert ObjOk(a, x); ObjFrame(a, b, x); }
    forall x | x in b.ctrs ensures CtrOk(b, x) { assert CtrOk(a, x); CtrFrame(a, b, x); }
    forall x | x in b.slots ensures SlotOk(b, x) { if x != a.next { assert SlotOk(a, x); } }
  }

  lemma EmptyStoreInv(n: nat)
    ensures Inv(Store(map[], map[], map[], n, {}, map[]))
  {
  }
}
