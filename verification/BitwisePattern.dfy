/** A history of pattern words, latest first: PatternBitwise of Pattern.struct.h. */
module BitwisePattern {
  import opened PatternWords

  /** What is left of an integer stored in a short. */
  function Short(x: int): (s: int)
    ensures -32768 <= s < 32768 && (s - x) % 65536 == 0
  {
    (x + 32768) % 65536 - 32768
  }

  lemma ShortAdd(a: int, b: int)
    ensures Short(Short(a) + b) == Short(a + b)
  {
  }

  // ---------------------------------------------------------------------------------------------
  // What the counts and depths stand for.

  /** For how many words, from the first on, the bit is on without a break. */
  function LeadingRun(v: seq<bv32>, bit: nat): (n: nat)
    requires bit < 32
    ensures n <= |v|
  {
    if v == [] || !On(v[0], bit) then 0 else 1 + LeadingRun(v[1..], bit)
  }

  /** The first index where the bit is on, or the length. */
  function FirstOn(v: seq<bv32>, bit: nat): (n: nat)
    requires bit < 32
    ensures n <= |v|
  {
    if v == [] || On(v[0], bit) then 0 else 1 + FirstOn(v[1..], bit)
  }

  function CountOn(v: seq<bv32>, bit: nat): (n: nat)
    requires bit < 32
    ensures n <= |v|
  {
    if v == [] then 0 else CountOn(v[..|v| - 1], bit) + (if On(v[|v| - 1], bit) then 1 else 0)
  }

  lemma {:induction false} CountStep(v: seq<bv32>, i: nat, bit: nat)
    requires bit < 32 && 1 <= i < |v|
    ensures CountOn(v[1..i + 1], bit) == CountOn(v[1..i], bit) + if On(v[i], bit) then 1 else 0
  {
    assert v[1..i + 1][..i - 1] == v[1..i];
  }

  lemma {:induction false} LeadingRunIs(v: seq<bv32>, bit: nat, n: nat)
    requires bit < 32 && n <= |v|
    ensures LeadingRun(v, bit) == n <==> (forall i :: 0 <= i < n ==> On(v[i], bit)) && (n == |v| || !On(v[n], bit))
  {
    if v != [] && On(v[0], bit) {
      if n > 0 {
        LeadingRunIs(v[1..], bit, n - 1);
        assert forall i :: 0 <= i < n - 1 ==> v[1..][i] == v[i + 1];
        assert (forall i :: 0 <= i < n ==> On(v[i], bit)) <==> forall i :: 0 <= i < n - 1 ==> On(v[1..][i], bit) by {
          assert forall i :: 1 <= i < n ==> v[i] == v[1..][i - 1];
        }
      }
    }
  }

  lemma {:induction false} FirstOnIs(v: seq<bv32>, bit: nat, n: nat)
    requires bit < 32 && n <= |v|
    ensures FirstOn(v, bit) == n <==> (forall i :: 0 <= i < n ==> !On(v[i], bit)) && (n == |v| || On(v[n], bit))
  {
    if v != [] && !On(v[0], bit) {
      if n > 0 {
        FirstOnIs(v[1..], bit, n - 1);
        assert forall i :: 0 <= i < n - 1 ==> v[1..][i] == v[i + 1];
        assert (forall i :: 0 <= i < n ==> !On(v[i], bit)) <==> forall i :: 0 <= i < n - 1 ==> !On(v[1..][i], bit) by {
          assert forall i :: 1 <= i < n ==> v[i] == v[1..][i - 1];
        }
      }
    }
  }

  /** The depth of a bit: its leading run, or how far back it was last on, negated. */
  function Depth(v: seq<bv32>, bit: nat): int
    requires bit < 32 && v != []
  {
    if On(v[0], bit) then LeadingRun(v, bit)
    else if FirstOn(v, bit) < |v| then 0 - FirstOn(v, bit)
    else 0
  }

  /**
   * What a short holds of it. A leading run of more than 32767 words overflows: from then on the search is for the next
   * word with the bit on, as if it had been off before.
   */
  function StoredDepth(v: seq<bv32>, bit: nat): int
    requires bit < 32 && v != []
  {
    if LeadingRun(v, bit) <= 32767 then Short(Depth(v, bit))
    else
      var next := 32768 + FirstOn(v[32768..], bit);
      if next < |v| then Short(-next) else -32768
  }

  /** The number of words after the first with the bit on. */
  function CountAfterFirst(v: seq<bv32>, bit: nat): nat
    requires bit < 32 && v != []
  {
    CountOn(v[1..], bit)
  }

  class PatternBitwise {
    var v: seq<bv32>

    constructor ()
      ensures v == []
    {
      v := [];
    }

    method Add(value: bv32) returns (added: bool)
      modifies this
      ensures added && v == old(v) + [value]
    {
      v := v + [value];
      added := true;
    }

    method Reset()
      modifies this
      ensures v == []
    {
      v := [];
    }

    /** The count starts at index 1. */
    method GetBitCount(bit: nat) returns (count: int)
      requires bit < 32 && v != []
      ensures count == Short(CountAfterFirst(v, bit))
      ensures |v| <= 32768 ==> count == CountAfterFirst(v, bit)
    {
      count := 0;
      for i := 1 to |v|
        invariant count == Short(CountOn(v[1..i], bit))
      {
        CountStep(v, i, bit);
        ShortAdd(CountOn(v[1..i], bit), if On(v[i], bit) then 1 else 0);
        count := Short(count + if On(v[i], bit) then 1 else 0);
      }
      assert v[1..|v|] == v[1..];
    }

    method GetBitDepth(bit: nat) returns (depth: int)
      requires bit < 32 && v != []
      ensures depth == StoredDepth(v, bit)
      ensures |v| <= 32767 ==> depth == Depth(v, bit)
    {
      depth := if On(v[0], bit) then 1 else 0;
      for i := 1 to |v|
        invariant On(v[0], bit) && i <= 32767 ==> depth == i && forall k :: 0 <= k < i ==> On(v[k], bit)
        invariant On(v[0], bit) && i >= 32768 ==>
          && depth == -32768 && LeadingRun(v, bit) > 32767 && forall k :: 32768 <= k < i ==> !On(v[k], bit)
        invariant !On(v[0], bit) ==> depth == 0 && forall k :: 0 <= k < i ==> !On(v[k], bit)
      {
        if i == depth {
          if !On(v[i], bit) {
            LeadingRunIs(v, bit, i);
            return;
          }
          depth := Short(depth + 1);
          RunIsLong(v, bit, i + 1);
        } else if On(v[i], bit) {
          depth := Short(-i);
          if i >= 32768 && On(v[0], bit) {
            FoundAgain(v, bit, i);
          } else {
            FoundFirst(v, bit, i);
          }
          return;
        }
      }
      EndOfSearch(v, bit);
    }

    /** The depth relative to the size. */
    method GetBitDepthFloat(bit: nat) returns (depth: real)
      requires bit < 32 && v != []
      ensures IsFraction(depth, StoredDepth(v, bit), |v|) && -1.0 <= depth <= 1.0
      ensures |v| <= 32767 ==> IsFraction(depth, Depth(v, bit), |v|)
    {
      var d := GetBitDepth(bit);
      DepthBounds(v, bit);
      depth := d as real / |v| as real;
      Fraction(depth, d, |v|);
    }
  }

  /** The search of a bit that was off ends at the first word that has it on. */
  lemma FoundFirst(v: seq<bv32>, bit: nat, i: nat)
    requires bit < 32 && 0 < i < |v| && On(v[i], bit) && forall k :: 0 <= k < i ==> !On(v[k], bit)
    ensures StoredDepth(v, bit) == Short(0 - i) && Depth(v, bit) == 0 - i
  {
    FirstOnIs(v, bit, i);
  }

  /** And that of an overflowed run at the next such word. */
  lemma FoundAgain(v: seq<bv32>, bit: nat, i: nat)
    requires bit < 32 && 32768 <= i < |v| && On(v[i], bit) && LeadingRun(v, bit) > 32767
    requires forall k :: 32768 <= k < i ==> !On(v[k], bit)
    ensures StoredDepth(v, bit) == Short(0 - i)
  {
    FirstOnIs(v[32768..], bit, i - 32768);
  }

  /** No word stopped the search. */
  lemma EndOfSearch(v: seq<bv32>, bit: nat)
    requires bit < 32 && v != []
    ensures |v| <= 32767 && (forall k :: 0 <= k < |v| ==> On(v[k], bit)) ==> StoredDepth(v, bit) == |v|
    ensures LeadingRun(v, bit) > 32767 && (forall k :: 32768 <= k < |v| ==> !On(v[k], bit)) ==>
      StoredDepth(v, bit) == -32768
    ensures (forall k :: 0 <= k < |v| ==> !On(v[k], bit)) ==> StoredDepth(v, bit) == 0
  {
    LeadingRunIs(v, bit, |v|);
    FirstOnIs(v, bit, |v|);
    if LeadingRun(v, bit) > 32767 {
      FirstOnIs(v[32768..], bit, |v| - 32768);
    }
  }

  predicate IsFraction(q: real, d: int, n: int) {
    q * n as real == d as real
  }

  lemma Fraction(q: real, d: int, n: int)
    requires n > 0 && -n <= d <= n && q == d as real / n as real
    ensures IsFraction(q, d, n) && -1.0 <= q <= 1.0
  {
  }

  lemma RunIsLong(v: seq<bv32>, bit: nat, n: nat)
    requires bit < 32 && n <= |v| && forall i :: 0 <= i < n ==> On(v[i], bit)
    ensures LeadingRun(v, bit) >= n
  {
    LeadingRunIs(v, bit, LeadingRun(v, bit));
  }

  /** A depth of n says that the bit is on in just the first n words, one of -n that it was last on n words ago. */
  lemma DepthIs(v: seq<bv32>, bit: nat, n: nat)
    requires bit < 32 && 0 < n <= |v|
    ensures Depth(v, bit) == n <==> (forall i :: 0 <= i < n ==> On(v[i], bit)) && (n == |v| || !On(v[n], bit))
    ensures Depth(v, bit) == 0 - n <==> (forall i :: 0 <= i < n ==> !On(v[i], bit)) && n < |v| && On(v[n], bit)
    ensures Depth(v, bit) == 0 <==> forall i :: 0 <= i < |v| ==> !On(v[i], bit)
  {
    LeadingRunIs(v, bit, n);
    FirstOnIs(v, bit, n);
    FirstOnIs(v, bit, |v|);
  }

  /** A bit that is always on counts up to 32767 words, and stays at the smallest short from the next one on. */
  lemma {:induction false} AlwaysOn(v: seq<bv32>, bit: nat)
    requires bit < 32 && v != [] && forall i :: 0 <= i < |v| ==> On(v[i], bit)
    ensures StoredDepth(v, bit) == if |v| < 32768 then |v| else -32768
  {
    LeadingRunIs(v, bit, |v|);
    if |v| > 32768 {
      FirstOnIs(v[32768..], bit, 0);
    }
  }

  /** The latest word is not counted, and each older one with the bit on is. */
  lemma CountGrows(v: seq<bv32>, bit: nat, w: bv32)
    requires bit < 32
    ensures CountAfterFirst([w], bit) == 0
    ensures v != [] ==> CountAfterFirst(v + [w], bit) == CountAfterFirst(v, bit) + if On(w, bit) then 1 else 0
  {
    if v != [] {
      assert (v + [w])[1..] == v[1..] + [w];
      assert (v[1..] + [w])[..|v| - 1] == v[1..];
    }
  }

  lemma DepthBounds(v: seq<bv32>, bit: nat)
    requires bit < 32 && v != []
    ensures -|v| < Depth(v, bit) <= |v|
    ensures -|v| <= StoredDepth(v, bit) <= |v|
  {
  }

  lemma {:induction false} CountAtLeast(v: seq<bv32>, bit: nat, n: nat)
    requires bit < 32 && n <= |v| && forall i :: 0 <= i < n ==> On(v[i], bit)
    ensures CountOn(v, bit) >= n
  {
    if n == |v| && n > 0 {
      CountAtLeast(v[..n - 1], bit, n - 1);
    } else if n < |v| {
      CountAtLeast(v[..|v| - 1], bit, n);
    }
  }

  lemma {:induction false} CountIsZero(v: seq<bv32>, bit: nat)
    requires bit < 32
    ensures CountOn(v, bit) == 0 <==> forall i :: 0 <= i < |v| ==> !On(v[i], bit)
  {
    if v != [] {
      CountIsZero(v[..|v| - 1], bit);
      assert forall i :: 0 <= i < |v| - 1 ==> v[..|v| - 1][i] == v[i];
    }
  }

  /** Depth zero means that the bit was never on; a positive depth counts no more words than are on. */
  lemma DepthAgainstCount(v: seq<bv32>, bit: nat)
    requires bit < 32 && v != []
    ensures Depth(v, bit) == 0 <==> !On(v[0], bit) && CountAfterFirst(v, bit) == 0
    ensures Depth(v, bit) > 0 <==> On(v[0], bit)
    ensures Depth(v, bit) > 0 ==> CountAfterFirst(v, bit) >= Depth(v, bit) - 1
    ensures Depth(v, bit) < 0 ==> 1 <= CountAfterFirst(v, bit) <= |v| + Depth(v, bit)
  {
    CountIsZero(v[1..], bit);
    assert forall i :: 0 <= i < |v| - 1 ==> v[1..][i] == v[i + 1];
    if On(v[0], bit) {
      var d := LeadingRun(v, bit);
      LeadingRunIs(v, bit, d);
      CountAtLeast(v[1..], bit, d - 1);
    } else {
      var d := FirstOn(v, bit);
      FirstOnIs(v, bit, d);
      if d < |v| {
        assert On(v[1..][d - 1], bit);
        CountAtMost(v[1..], bit, d - 1);
      } else {
        assert forall i :: 0 <= i < |v| - 1 ==> !On(v[1..][i], bit);
      }
    }
  }

  lemma {:induction false} CountAtMost(v: seq<bv32>, bit: nat, n: nat)
    requires bit < 32 && n <= |v| && forall i :: 0 <= i < n ==> !On(v[i], bit)
    ensures CountOn(v, bit) <= |v| - n
  {
    if n < |v| {
      CountAtMost(v[..|v| - 1], bit, n);
    } else if n > 0 {
      CountAtMost(v[..n - 1], bit, n - 1);
    }
  }

  /** What one more, older, word does to the depth. */
  lemma DepthAfterAdd(v: seq<bv32>, bit: nat, w: bv32)
    requires bit < 32 && v != []
    ensures Depth(v + [w], bit) ==
      if !On(w, bit) then Depth(v, bit)
      else if Depth(v, bit) == |v| then |v| + 1
      else if Depth(v, bit) == 0 then -|v|
      else Depth(v, bit)
  {
    var u := v + [w];
    LeadingRunIs(v, bit, LeadingRun(v, bit));
    FirstOnIs(v, bit, FirstOn(v, bit));
    if On(v[0], bit) {
      LeadingRunIs(u, bit, if LeadingRun(v, bit) == |v| && On(w, bit) then |v| + 1 else LeadingRun(v, bit));
    } else {
      FirstOnIs(u, bit, if FirstOn(v, bit) == |v| && !On(w, bit) then |v| + 1 else FirstOn(v, bit));
    }
  }
}
