/** 32-bit pattern words: the PatternCandle struct of Pattern.struct.h. */
module PatternWords {

  /** The flag 1 << i. */
  function Mask(i: nat): bv32
    requires i < 32
  {
    1 << i
  }

  predicate On(w: bv32, i: nat)
    requires i < 32
  {
    w & Mask(i) != 0
  }

  lemma MasksAreApart(i: nat, k: nat)
    requires i < 32 && k < 32
    ensures Mask(i) != 0
    ensures i != k ==> Mask(i) & Mask(k) == 0
  {
  }

  lemma NothingAdded(x: bv32)
    ensures x | 0 == x && x & 0xFFFF_FFFF == x && !(0 as bv32) == 0xFFFF_FFFF
  {
  }

  lemma AddOther(w: bv32, m: bv32, n: bv32)
    requires m & n == 0
    ensures (w | m) & n == w & n
  {
    assert (w | m) & n == (w & n) | (m & n);
    NothingAdded(w & n);
  }

  lemma RemoveOther(w: bv32, m: bv32, n: bv32)
    requires m & n == 0
    ensures (w & !m) & n == w & n
  {
    assert (w & !m) & n == (w & n) & !(m & n);
    NothingAdded(w & n);
  }

  lemma AddSame(w: bv32, m: bv32)
    ensures (w | m) & m == m && (w & !m) & m == 0
  {
  }

  function WithFlag(w: bv32, flag: bv32, value: bool): bv32 {
    if value then w | flag else w & !flag
  }

  lemma SetFlag(w: bv32, m: bv32, n: bv32, value: bool)
    requires m != 0 && (m == n || m & n == 0)
    ensures WithFlag(w, m, value) & n != 0 <==> if m == n then value else w & n != 0
  {
    if m == n {
      FlagItself(w, m, value);
    } else {
      OtherFlag(w, m, n, value);
    }
  }

  lemma FlagItself(w: bv32, m: bv32, value: bool)
    requires m != 0
    ensures WithFlag(w, m, value) & m != 0 <==> value
  {
    AddSame(w, m);
  }

  lemma OtherFlag(w: bv32, m: bv32, n: bv32, value: bool)
    requires m & n == 0
    ensures WithFlag(w, m, value) & n == w & n
  {
    if value {
      AddOther(w, m, n);
    } else {
      RemoveOther(w, m, n);
    }
  }

  /** Setting one flag says what it is told, and leaves the other bits. */
  lemma SetBit(w: bv32, i: nat, value: bool, k: nat)
    requires i < 32 && k < 32
    ensures On(WithFlag(w, Mask(i), value), k) <==> if k == i then value else On(w, k)
  {
    MasksAreApart(i, k);
    MasksAreApart(k, i);
    if k != i {
      SameMask(Mask(i), Mask(k));
    }
    SetFlag(w, Mask(i), Mask(k), value);
  }

  lemma SameMask(m: bv32, n: bv32)
    requires m != 0 && m & n == 0
    ensures m != n
  {
  }

  class PatternCandle {
    var pattern: bv32

    constructor (p: bv32)
      ensures pattern == p
    {
      pattern := p;
    }

    predicate CheckPattern(flags: bv32)
      reads this
    {
      pattern & flags != 0
    }

    method AddPattern(flags: bv32)
      modifies this
      ensures pattern == old(pattern) | flags
    {
      pattern := pattern | flags;
    }

    method RemovePattern(flags: bv32)
      modifies this
      ensures pattern == old(pattern) & !flags
    {
      pattern := pattern & !flags;
    }

    method SetPattern(flag: bv32, value: bool)
      modifies this
      ensures pattern == WithFlag(old(pattern), flag, value)
    {
      if value {
        AddPattern(flag);
      } else {
        RemovePattern(flag);
      }
    }

    /** One turn of a constructor's loop. */
    method SetNext(i: nat, value: bool, ghost check: nat -> bool)
      requires i < 32 && check(i) == value
      requires forall k :: 0 <= k < 32 ==> (On(pattern, k) <==> k < i && check(k))
      modifies this
      ensures forall k :: 0 <= k < 32 ==> (On(pattern, k) <==> k < i + 1 && check(k))
    {
      SetPattern(Mask(i), value);
      forall k | 0 <= k < 32 ensures On(pattern, k) <==> k < i + 1 && check(k) {
        SetBit(old(pattern), i, value, k);
      }
    }
  }

  lemma NothingOn(k: nat)
    requires k < 32
    ensures !On(0, k)
  {
  }
}
