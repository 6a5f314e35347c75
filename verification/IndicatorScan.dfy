/** Validity scans of IndicatorBase.h, over the cached entries and the bar times of the chart. */
module IndicatorScan {
  import opened Common

  class IndicatorBase {
    /** GetBarTime: the opening time of the bar at a shift, not positive when there is none. */
    const barTime: nat -> int
    /** The cached entries by bar time: whether each is valid. */
    var idata: map<int, bool>
    var calcStartBar: nat
    var isFed: bool

    constructor (barTime: nat -> int)
      ensures this.barTime == barTime && idata == map[] && calcStartBar == 0 && !isFed
    {
      this.barTime := barTime;
      idata := map[];
      calcStartBar := 0;
      isFed := false;
    }

    predicate HasValidEntry(shift: nat)
      reads this
    {
      barTime(shift) > 0 && barTime(shift) in idata && idata[barTime(shift)]
    }

    /** A valid entry is cached under the time of its bar; the shifts of that bar become valid and no others change. */
    method AddEntry(valid: bool, shift: nat) returns (added: bool)
      modifies this`idata
      ensures added == valid
      ensures forall s: nat :: HasValidEntry(s) <==>
        old(HasValidEntry(s)) || (added && barTime(s) == barTime(shift) && barTime(shift) > 0)
    {
      if !valid {
        return false;
      }
      idata := idata[barTime(shift) := true];
      return true;
    }

    // -------------------------------------------------------------------------------------------
    // Runs of valid entries.

    /** How many of the `cap` shifts after `start` are valid before the first that is not. */
    function Run(start: nat, cap: nat): (n: nat)
      reads this
      decreases cap
      ensures n <= cap
    {
      if cap == 0 || !HasValidEntry(start + 1) then 0 else 1 + Run(start + 1, cap - 1)
    }

    lemma {:induction false} RunIs(start: nat, cap: nat, n: nat)
      requires n <= cap
      ensures Run(start, cap) == n <==>
        (forall s: nat :: start < s <= start + n ==> HasValidEntry(s)) && (n == cap || !HasValidEntry(start + n + 1))
      decreases cap
    {
      if cap > 0 && HasValidEntry(start + 1) && n > 0 {
        RunIs(start + 1, cap - 1, n - 1);
      }
    }

    /** The search stops: the period bounds it, or some shift has no valid entry. */
    ghost predicate Stops(period: int)
      reads this
    {
      period != 0 || exists s: nat :: s > 0 && !HasValidEntry(s)
    }

    /** A negative period ends the search at once. */
    method GetLastValidEntryShift(period: int) returns (outShift: nat, found: bool)
      requires Stops(period)
      ensures found == (outShift > 0)
      ensures period != 0 ==> outShift == Run(0, if period > 0 then period else 0)
      ensures period == 0 ==> !HasValidEntry(outShift + 1) && forall s: nat :: 0 < s <= outShift ==> HasValidEntry(s)
    {
      outShift := 0;
      ghost var bound: nat := if period > 0 then period else if period < 0 then 0 else FirstGap();
      while true
        invariant forall s: nat :: 0 < s <= outShift ==> HasValidEntry(s)
        invariant outShift <= bound
        decreases bound - outShift
      {
        if (period != 0 && outShift >= period) || !HasValidEntry(outShift + 1) {
          if period > 0 {
            RunIs(0, period, outShift);
          }
          return outShift, outShift > 0;
        }
        outShift := outShift + 1;
      }
    }

    ghost function FirstGap(): (s: nat)
      requires Stops(0)
      reads this
      ensures s > 0 && !HasValidEntry(s)
    {
      var s: nat :| s > 0 && !HasValidEntry(s);
      s
    }

    /** `period` may be zero or negative, and then nothing is searched. */
    method GetOldestValidEntryShift(shift: nat, period: int) returns (outShift: nat, numValid: nat, found: bool)
      ensures numValid == Run(shift, if period > 0 then period else 0)
      ensures outShift == shift + numValid
      ensures found == (numValid > 0)
    {
      ghost var cap := if period > 0 then period else 0;
      found := false;
      outShift := shift + 1;
      while outShift < shift + period + 1
        invariant shift < outShift <= shift + 1 + cap
        invariant forall s: nat :: shift < s < outShift ==> HasValidEntry(s)
        invariant found == (outShift > shift + 1)
      {
        if !HasValidEntry(outShift) {
          outShift := outShift - 1;
          numValid := outShift - shift;
          RunIs(shift, cap, numValid);
          return;
        }
        found := true;
        outShift := outShift + 1;
      }
      outShift := outShift - 1;
      numValid := outShift - shift;
      RunIs(shift, cap, numValid);
    }

    method HasAtLeastValidLastEntries(period: int, shift: nat) returns (r: bool)
      ensures r <==> forall s: nat :: shift <= s < shift + period ==> HasValidEntry(s)
    {
      for i := 0 to if period > 0 then period else 0
        invariant forall s: nat :: shift <= s < shift + i ==> HasValidEntry(s)
      {
        if !HasValidEntry(shift + i) {
          return false;
        }
      }
      r := true;
    }

    /** The three searches agree: both shifts are the run after the current bar, full when the check says so. */
    method SearchesAgree(period: nat) returns (last: nat, oldest: nat, numValid: nat, full: bool)
      requires period > 0
      ensures last == oldest == numValid == Run(0, period)
      ensures full <==> Run(0, period) == period
    {
      var f1, f2;
      last, f1 := GetLastValidEntryShift(period);
      oldest, numValid, f2 := GetOldestValidEntryShift(0, period);
      full := HasAtLeastValidLastEntries(period, 1);
      RunIs(0, period, period);
    }

    /** Bars at different shifts open at different times. */
    ghost predicate DistinctTimes()
      reads this
    {
      forall a: nat, b: nat :: barTime(a) > 0 && barTime(a) == barTime(b) ==> a == b
    }

    /** There are no more valid shifts than cached entries, so the search without a period ends. */
    lemma CacheIsFinite()
      requires DistinctTimes()
      ensures exists s: nat :: 0 < s <= |idata| + 1 && !HasValidEntry(s)
      ensures Stops(0)
    {
      var n := |idata| + 1;
      if forall s: nat :: 0 < s <= n ==> HasValidEntry(s) {
        TimesUpTo(n);
        SubsetSize(Times(n), idata.Keys);
        assert false;
      }
    }

    function Times(n: nat): set<int> {
      if n == 0 then {} else Times(n - 1) + {barTime(n)}
    }

    lemma {:induction false} TimesUpTo(n: nat)
      requires DistinctTimes() && forall s: nat :: 0 < s <= n ==> HasValidEntry(s)
      ensures |Times(n)| == n && Times(n) <= idata.Keys
    {
      if n > 0 {
        TimesUpTo(n - 1);
        assert HasValidEntry(n);
        if barTime(n) in Times(n - 1) {
          var s := TimeOf(n - 1, barTime(n));
          assert false;
        }
      }
    }

    lemma {:induction false} TimeOf(n: nat, t: int) returns (s: nat)
      requires t in Times(n)
      ensures 0 < s <= n && barTime(s) == t
    {
      if t in Times(n - 1) {
        s := TimeOf(n - 1, t);
      } else {
        s := n;
      }
    }

    // -------------------------------------------------------------------------------------------
    // The first valid bar, counted from the oldest.

    /** What is remembered between calls: no bar before `calcStartBar` is valid, and once fed that bar is. */
    ghost predicate Remembers(valid: nat -> bool)
      reads this
    {
      (forall k: nat :: k < calcStartBar ==> !valid(k)) && (isFed ==> valid(calcStartBar))
    }

    /**
     * Each call goes on from where the last one stopped, and answers as a scan of all bars would, up to the call that
     * finds the first valid bar; from the next call on it counts that bar's invalid predecessors too.
     */
    method GetBarsCalculated(bars: nat, valid: nat -> bool) returns (count: nat)
      requires Remembers(valid)
      modifies this`calcStartBar, this`isFed
      ensures Remembers(valid)
      ensures old(isFed) ==> count == bars && calcStartBar == old(calcStartBar) && isFed
      ensures !old(isFed) ==> (isFed <==> exists k: nat :: old(calcStartBar) <= k < bars && valid(k))
      ensures !old(isFed) && isFed ==> calcStartBar < bars && count == bars - calcStartBar
      ensures !isFed ==> count == 0 && forall k: nat :: k < bars ==> !valid(k)
      ensures !isFed ==> calcStartBar == if old(calcStartBar) < bars then bars else old(calcStartBar)
    {
      if !isFed {
        while calcStartBar < bars
          invariant Remembers(valid) && !isFed && old(calcStartBar) <= calcStartBar
          invariant calcStartBar <= if old(calcStartBar) < bars then bars else old(calcStartBar)
          decreases bars - calcStartBar
        {
          if valid(calcStartBar) {
            isFed := true;
            return bars - calcStartBar;
          }
          calcStartBar := calcStartBar + 1;
        }
      }
      if !isFed {
        return 0;
      }
      count := bars;
    }

    /**
     * Asked twice over the same bars, the count grows by the number of invalid bars at the start: it stays the same if
     * and only if the first valid bar was found earlier, or is the oldest, or there is none.
     */
    method CountTwice(bars: nat, valid: nat -> bool) returns (first: nat, second: nat)
      requires Remembers(valid)
      modifies this`calcStartBar, this`isFed
      ensures first == second <==> old(isFed) || valid(0) || forall k: nat :: k < bars ==> !valid(k)
      ensures !old(isFed) ==> forall k: nat :: IsFirst(valid, k) && k < bars ==> first == bars - k && second == bars
    {
      first := GetBarsCalculated(bars, valid);
      second := GetBarsCalculated(bars, valid);
    }
  }

  ghost predicate IsFirst(valid: nat -> bool, k: nat) {
    valid(k) && forall j: nat :: j < k ==> !valid(j)
  }
}
