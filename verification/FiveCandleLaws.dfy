/** What each bit of a five-candle word says of the prices, and what the bits say of each other. */
module FiveCandleLaws {
  import opened Bars
  import opened CandleQuantities
  import opened FiveCandles
  import opened PatternWords

  lemma {:induction false} BitIs(w: bv32, c: seq<BarOHLC>, p: Pattern)
    requires |c| >= 5 && Describes(w, c)
    ensures On(w, Bit(p)) <==> Check(p, c)
  {
  }

  lemma Ordered(xs: seq<real>)
    requires |xs| == 5
    ensures Increasing(xs) <==> xs[0] > xs[1] && xs[1] > xs[2] && xs[2] > xs[3] && xs[3] > xs[4]
    ensures Decreasing(xs) <==> xs[0] < xs[1] && xs[1] < xs[2] && xs[2] < xs[3] && xs[3] < xs[4]
  {
  }

  lemma FirstTop(xs: seq<real>)
    requires |xs| == 5
    ensures HighestAt(xs, 0) <==> Top(xs[0], xs[1], xs[2], xs[3], xs[4])
    ensures LowestAt(xs, 0) <==> Bottom(xs[0], xs[1], xs[2], xs[3], xs[4])
  {
  }

  lemma MiddleTop(xs: seq<real>)
    requires |xs| == 5
    ensures HighestAt(xs, 2) <==> Top(xs[2], xs[1], xs[0], xs[3], xs[4])
    ensures LowestAt(xs, 2) <==> Bottom(xs[2], xs[1], xs[0], xs[3], xs[4])
  {
  }

  lemma EarliestTop(xs: seq<real>)
    requires |xs| == 5
    ensures HighestAt(xs, 4) <==> Top(xs[4], xs[1], xs[0], xs[3], xs[2])
    ensures LowestAt(xs, 4) <==> Bottom(xs[4], xs[1], xs[0], xs[3], xs[2])
  {
  }

  /** The value at k is above all others, or below them. */
  predicate OutermostAt(xs: seq<real>, k: nat)
    requires k < |xs|
  {
    HighestAt(xs, k) || LowestAt(xs, k)
  }

  /** The latest step is longer than the one before it and than the earliest one. */
  predicate StepsOut(xs: seq<real>)
    requires |xs| == 5
  {
    Step(xs, 0) > Step(xs, 1) && Step(xs, 0) > Step(xs, 3)
  }

  lemma Steps(xs: seq<real>)
    requires |xs| == 5
    ensures StepsOut(xs) <==> DiffPeak(xs[0], xs[1], xs[2], xs[3], xs[4])
  {
  }

  // ---------------------------------------------------------------------------------------------
  // The reading of each bit.

  lemma BodyStepBit(w: bv32, c: seq<BarOHLC>)
    requires |c| >= 5 && Describes(w, c)
    ensures w & (1 << 0) != 0 <==> StepsOut(Bodies(c[..5]))
  {
    BitIs(w, c, Body0DiffPeak);
    Steps(Bodies(c[..5]));
  }

  lemma CloseStepBit(w: bv32, c: seq<BarOHLC>)
    requires |c| >= 5 && Describes(w, c)
    ensures w & (1 << 2) != 0 <==> StepsOut(Closes(c[..5]))
  {
    BitIs(w, c, Close0DiffPeak);
    Steps(Closes(c[..5]));
  }

  lemma HighStepBit(w: bv32, c: seq<BarOHLC>)
    requires |c| >= 5 && Describes(w, c)
    ensures w & (1 << 5) != 0 <==> StepsOut(Highs(c[..5]))
  {
    BitIs(w, c, High0DiffPeak);
    Steps(Highs(c[..5]));
  }

  lemma LowStepBit(w: bv32, c: seq<BarOHLC>)
    requires |c| >= 5 && Describes(w, c)
    ensures w & (1 << 11) != 0 <==> StepsOut(Lows(c[..5]))
  {
    BitIs(w, c, Low0DiffPeak);
    Steps(Lows(c[..5]));
  }

  lemma OpenStepBit(w: bv32, c: seq<BarOHLC>)
    requires |c| >= 5 && Describes(w, c)
    ensures w & (1 << 15) != 0 <==> StepsOut(Opens(c[..5]))
  {
    BitIs(w, c, Open0DiffPeak);
    Steps(Opens(c[..5]));
  }

  lemma RangeStepBit(w: bv32, c: seq<BarOHLC>)
    requires |c| >= 5 && Describes(w, c)
    ensures w & (1 << 26) != 0 <==> StepsOut(Ranges(c[..5]))
  {
    BitIs(w, c, Range0DiffPeak);
    Steps(Ranges(c[..5]));
  }

  lemma WickStepBit(w: bv32, c: seq<BarOHLC>)
    requires |c| >= 5 && Describes(w, c)
    ensures w & (1 << 29) != 0 <==> StepsOut(WickSizes(c[..5]))
  {
    Measures(c[0]); Measures(c[1]); Measures(c[2]); Measures(c[3]); Measures(c[4]);
    BitIs(w, c, Wicks0DiffPeak);
    Steps(WickSizes(c[..5]));
  }

  lemma TripledSteps(x0: real, x1: real, x2: real, x3: real, x4: real)
    ensures DiffPeak(3.0 * x0, 3.0 * x1, 3.0 * x2, 3.0 * x3, 3.0 * x4) <==> DiffPeak(x0, x1, x2, x3, x4)
  {
  }

  lemma PivotStepBit(w: bv32, c: seq<BarOHLC>)
    requires |c| >= 5 && Describes(w, c)
    ensures w & (1 << 19) != 0 <==> StepsOut(PriceSums(c[..5]))
  {
    Measures(c[0]); Measures(c[1]); Measures(c[2]); Measures(c[3]); Measures(c[4]);
    BitIs(w, c, Pp0DiffPeak);
    Steps(PriceSums(c[..5]));
    TripledSteps(c[0].GetPivot(), c[1].GetPivot(), c[2].GetPivot(), c[3].GetPivot(), c[4].GetPivot());
  }

  lemma SumBits(w: bv32, c: seq<BarOHLC>)
    requires |c| >= 5 && Describes(w, c)
    ensures w & (1 << 1) != 0 <==>
      c[0].close - c[0].open >
        (c[1].close + c[2].close + c[3].close + c[4].close) - (c[1].open + c[2].open + c[3].open + c[4].open)
    ensures w & (1 << 27) != 0 <==> Range(c[0]) > Range(c[1]) + Range(c[2]) + Range(c[3]) + Range(c[4])
  {
    BitIs(w, c, Body0GtSum); BitIs(w, c, Range0GtSum);
  }

  lemma ClosePeakBits(w: bv32, c: seq<BarOHLC>)
    requires |c| >= 5 && Describes(w, c)
    ensures w & (1 << 3) != 0 <==> OutermostAt(Closes(c[..5]), 0)
    ensures w & (1 << 4) != 0 <==> OutermostAt(Closes(c[..5]), 2)
  {
    BitIs(w, c, Close0Peak); BitIs(w, c, Close2Peak);
    FirstTop(Closes(c[..5])); MiddleTop(Closes(c[..5]));
  }

  lemma HighPeakBits(w: bv32, c: seq<BarOHLC>)
    requires |c| >= 5 && Describes(w, c)
    ensures w & (1 << 6) != 0 <==> HighestAt(Highs(c[..5]), 0)
    ensures w & (1 << 7) != 0 <==> HighestAt(Highs(c[..5]), 2)
  {
    BitIs(w, c, High0Peak); BitIs(w, c, High2Peak);
    FirstTop(Highs(c[..5])); MiddleTop(Highs(c[..5]));
  }

  lemma LowPeakBits(w: bv32, c: seq<BarOHLC>)
    requires |c| >= 5 && Describes(w, c)
    ensures w & (1 << 12) != 0 <==> LowestAt(Lows(c[..5]), 0)
    ensures w & (1 << 13) != 0 <==> LowestAt(Lows(c[..5]), 2)
  {
    BitIs(w, c, Low0Peak); BitIs(w, c, Low2Peak);
    FirstTop(Lows(c[..5])); MiddleTop(Lows(c[..5]));
  }

  lemma OpenLatestBit(w: bv32, c: seq<BarOHLC>)
    requires |c| >= 5 && Describes(w, c)
    ensures w & (1 << 16) != 0 <==> OutermostAt(Opens(c[..5]), 0)
  {
    FirstTop(Opens(c[..5]));
    BitIs(w, c, Open0Peak);
  }

  lemma OpenMiddleBit(w: bv32, c: seq<BarOHLC>)
    requires |c| >= 5 && Describes(w, c)
    ensures w & (1 << 17) != 0 <==> OutermostAt(Opens(c[..5]), 2)
  {
    MiddleTop(Opens(c[..5]));
    BitIs(w, c, Open2Peak);
  }

  lemma OpenEarliestBit(w: bv32, c: seq<BarOHLC>)
    requires |c| >= 5 && Describes(w, c)
    ensures w & (1 << 18) != 0 <==> OutermostAt(Opens(c[..5]), 4)
  {
    EarliestTop(Opens(c[..5]));
    BitIs(w, c, Open4Peak);
  }

  lemma OpenPeakBits(w: bv32, c: seq<BarOHLC>)
    requires |c| >= 5 && Describes(w, c)
    ensures w & (1 << 16) != 0 <==> OutermostAt(Opens(c[..5]), 0)
    ensures w & (1 << 17) != 0 <==> OutermostAt(Opens(c[..5]), 2)
    ensures w & (1 << 18) != 0 <==> OutermostAt(Opens(c[..5]), 4)
  {
    OpenLatestBit(w, c); OpenMiddleBit(w, c); OpenEarliestBit(w, c);
  }

  lemma PeakIs(x: real, a: real, b: real, d: real, e: real)
    ensures Peak(x, a, b, d, e) <==> Outside(x, a, b, d, e)
  {
  }

  /** x is above all others, or below them. */
  predicate Outside(x: real, a: real, b: real, d: real, e: real) {
    (x > a && x > b && x > d && x > e) || (x < a && x < b && x < d && x < e)
  }

  lemma OutsideFirst(xs: seq<real>, x: real, a: real, b: real, d: real, e: real)
    requires |xs| == 5 && xs[0] == 3.0 * x && xs[1] == 3.0 * a && xs[2] == 3.0 * b && xs[3] == 3.0 * d
    requires xs[4] == 3.0 * e
    ensures Outside(x, a, b, d, e) <==> OutermostAt(xs, 0)
  {
  }

  lemma OutsideMiddle(xs: seq<real>, x: real, a: real, b: real, d: real, e: real)
    requires |xs| == 5 && xs[2] == 3.0 * x && xs[1] == 3.0 * a && xs[0] == 3.0 * b && xs[3] == 3.0 * d
    requires xs[4] == 3.0 * e
    ensures Outside(x, a, b, d, e) <==> OutermostAt(xs, 2)
  {
  }

  lemma TripledTrend(xs: seq<real>, x0: real, x1: real, x2: real, x3: real, x4: real)
    requires |xs| == 5 && xs[0] == 3.0 * x0 && xs[1] == 3.0 * x1 && xs[2] == 3.0 * x2 && xs[3] == 3.0 * x3
    requires xs[4] == 3.0 * x4
    ensures Increasing(xs) <==> x0 > x1 && x1 > x2 && x2 > x3 && x3 > x4
    ensures Decreasing(xs) <==> x0 < x1 && x1 < x2 && x2 < x3 && x3 < x4
  {
    Ordered(xs);
  }

  lemma PivotValues(c: seq<BarOHLC>, xs: seq<real>)
    requires |c| >= 5 && xs == PriceSums(c[..5])
    ensures |xs| == 5 && xs[0] == 3.0 * c[0].GetPivot() && xs[1] == 3.0 * c[1].GetPivot()
    ensures xs[2] == 3.0 * c[2].GetPivot() && xs[3] == 3.0 * c[3].GetPivot() && xs[4] == 3.0 * c[4].GetPivot()
  {
    Measures(c[0]); Measures(c[1]); Measures(c[2]); Measures(c[3]); Measures(c[4]);
  }

  lemma {:induction false} PivotTrends(c: seq<BarOHLC>)
    requires |c| >= 5
    ensures Check(PpDec, c) <==> Decreasing(PriceSums(c[..5]))
    ensures Check(PpInc, c) <==> Increasing(PriceSums(c[..5]))
  {
    PivotValues(c, PriceSums(c[..5]));
    TripledTrend(PriceSums(c[..5]), c[0].GetPivot(), c[1].GetPivot(), c[2].GetPivot(), c[3].GetPivot(),
      c[4].GetPivot());
  }

  lemma {:induction false} PivotPeak0(c: seq<BarOHLC>)
    requires |c| >= 5
    ensures Check(Pp0Peak, c) <==> OutermostAt(PriceSums(c[..5]), 0)
  {
    PivotValues(c, PriceSums(c[..5]));
    PeakIs(c[0].GetPivot(), c[1].GetPivot(), c[2].GetPivot(), c[3].GetPivot(), c[4].GetPivot());
    OutsideFirst(PriceSums(c[..5]), c[0].GetPivot(), c[1].GetPivot(), c[2].GetPivot(), c[3].GetPivot(),
      c[4].GetPivot());
  }

  lemma {:induction false} PivotPeak2(c: seq<BarOHLC>)
    requires |c| >= 5
    ensures Check(Pp2Peak, c) <==> OutermostAt(PriceSums(c[..5]), 2)
  {
    PivotValues(c, PriceSums(c[..5]));
    PeakIs(c[2].GetPivot(), c[1].GetPivot(), c[0].GetPivot(), c[3].GetPivot(), c[4].GetPivot());
    OutsideMiddle(PriceSums(c[..5]), c[2].GetPivot(), c[1].GetPivot(), c[0].GetPivot(), c[3].GetPivot(),
      c[4].GetPivot());
  }

  lemma PivotLatestBit(w: bv32, c: seq<BarOHLC>)
    requires |c| >= 5 && Describes(w, c)
    ensures w & (1 << 20) != 0 <==> OutermostAt(PriceSums(c[..5]), 0)
  {
    PivotPeak0(c);
    BitIs(w, c, Pp0Peak);
  }

  lemma PivotMiddleBit(w: bv32, c: seq<BarOHLC>)
    requires |c| >= 5 && Describes(w, c)
    ensures w & (1 << 21) != 0 <==> OutermostAt(PriceSums(c[..5]), 2)
  {
    PivotPeak2(c);
    BitIs(w, c, Pp2Peak);
  }

  lemma PivotPeakBits(w: bv32, c: seq<BarOHLC>)
    requires |c| >= 5 && Describes(w, c)
    ensures w & (1 << 20) != 0 <==> OutermostAt(PriceSums(c[..5]), 0)
    ensures w & (1 << 21) != 0 <==> OutermostAt(PriceSums(c[..5]), 2)
  {
    PivotLatestBit(w, c); PivotMiddleBit(w, c);
  }

  lemma FirstOf(xs: seq<real>, x: real, a: real, b: real, d: real, e: real)
    requires |xs| == 5 && xs[0] == x && xs[1] == a && xs[2] == b && xs[3] == d && xs[4] == e
    ensures Outside(x, a, b, d, e) <==> OutermostAt(xs, 0)
  {
  }

  lemma MiddleOf(xs: seq<real>, x: real, a: real, b: real, d: real, e: real)
    requires |xs| == 5 && xs[2] == x && xs[1] == a && xs[0] == b && xs[3] == d && xs[4] == e
    ensures Outside(x, a, b, d, e) <==> OutermostAt(xs, 2)
  {
  }

  lemma WickValues(c: seq<BarOHLC>, xs: seq<real>)
    requires |c| >= 5 && xs == WickSizes(c[..5])
    ensures |xs| == 5 && xs[0] == c[0].GetWickSum() && xs[1] == c[1].GetWickSum()
    ensures xs[2] == c[2].GetWickSum() && xs[3] == c[3].GetWickSum() && xs[4] == c[4].GetWickSum()
  {
    Measures(c[0]); Measures(c[1]); Measures(c[2]); Measures(c[3]); Measures(c[4]);
  }

  lemma {:induction false} WickPeak0(c: seq<BarOHLC>)
    requires |c| >= 5
    ensures Check(Wicks0Peak, c) <==> OutermostAt(WickSizes(c[..5]), 0)
  {
    WickValues(c, WickSizes(c[..5]));
    PeakIs(c[0].GetWickSum(), c[1].GetWickSum(), c[2].GetWickSum(), c[3].GetWickSum(), c[4].GetWickSum());
    FirstOf(WickSizes(c[..5]), c[0].GetWickSum(), c[1].GetWickSum(), c[2].GetWickSum(), c[3].GetWickSum(),
      c[4].GetWickSum());
  }

  lemma {:induction false} WickPeak2(c: seq<BarOHLC>)
    requires |c| >= 5
    ensures Check(Wicks2Peak, c) <==> OutermostAt(WickSizes(c[..5]), 2)
  {
    WickValues(c, WickSizes(c[..5]));
    PeakIs(c[2].GetWickSum(), c[1].GetWickSum(), c[0].GetWickSum(), c[3].GetWickSum(), c[4].GetWickSum());
    MiddleOf(WickSizes(c[..5]), c[2].GetWickSum(), c[1].GetWickSum(), c[0].GetWickSum(), c[3].GetWickSum(),
      c[4].GetWickSum());
  }

  lemma WickLatestBit(w: bv32, c: seq<BarOHLC>)
    requires |c| >= 5 && Describes(w, c)
    ensures w & (1 << 30) != 0 <==> OutermostAt(WickSizes(c[..5]), 0)
  {
    WickPeak0(c);
    BitIs(w, c, Wicks0Peak);
  }

  lemma WickMiddleBit(w: bv32, c: seq<BarOHLC>)
    requires |c| >= 5 && Describes(w, c)
    ensures w & (1 << 31) != 0 <==> OutermostAt(WickSizes(c[..5]), 2)
  {
    WickPeak2(c);
    BitIs(w, c, Wicks2Peak);
  }

  lemma WickPeakBits(w: bv32, c: seq<BarOHLC>)
    requires |c| >= 5 && Describes(w, c)
    ensures w & (1 << 30) != 0 <==> OutermostAt(WickSizes(c[..5]), 0)
    ensures w & (1 << 31) != 0 <==> OutermostAt(WickSizes(c[..5]), 2)
  {
    WickLatestBit(w, c); WickMiddleBit(w, c);
  }

  lemma PivotBits(w: bv32, c: seq<BarOHLC>)
    requires |c| >= 5 && Describes(w, c)
    ensures w & (1 << 22) != 0 <==> Decreasing(PriceSums(c[..5]))
    ensures w & (1 << 24) != 0 <==> Increasing(PriceSums(c[..5]))
  {
    PivotTrends(c);
    BitIs(w, c, PpDec); BitIs(w, c, PpInc);
  }

  /** Down in the earliest step and up in the latest, and the other way round. */
  lemma PivotTurnBits(w: bv32, c: seq<BarOHLC>)
    requires |c| >= 5 && Describes(w, c)
    ensures w & (1 << 23) != 0 <==> PriceSum(c[3]) < PriceSum(c[4]) && PriceSum(c[0]) > PriceSum(c[1])
    ensures w & (1 << 25) != 0 <==> PriceSum(c[3]) > PriceSum(c[4]) && PriceSum(c[0]) < PriceSum(c[1])
  {
    Measures(c[0]); Measures(c[1]); Measures(c[3]); Measures(c[4]);
    BitIs(w, c, PpDecInc); BitIs(w, c, PpIncDec);
  }

  /** Candle k goes beyond the latest, the middle and the earliest one. */
  predicate HornUp(c: seq<BarOHLC>, k: nat)
    requires |c| >= 5 && k < 5
  {
    forall i :: 0 <= i < 5 && i % 2 == 0 ==> c[k].high > c[i].high
  }

  predicate HornDown(c: seq<BarOHLC>, k: nat)
    requires |c| >= 5 && k < 5
  {
    forall i :: 0 <= i < 5 && i % 2 == 0 ==> c[k].low < c[i].low
  }

  lemma HornBits(w: bv32, c: seq<BarOHLC>)
    requires |c| >= 5 && Describes(w, c)
    ensures w & (1 << 8) != 0 <==> HornDown(c, 1) || HornDown(c, 3)
    ensures w & (1 << 9) != 0 <==> HornUp(c, 1) || HornUp(c, 3)
  {
    BitIs(w, c, HornBottoms); BitIs(w, c, HornTops);
  }

  /** Two candles go the same way if and only if both are in the group or neither is. */
  ghost predicate Apart(c: seq<BarOHLC>, group: set<nat>) {
    forall i: nat, j: nat :: i < |c| && j < |c| ==> (SameSide(c[i], c[j]) <==> (i in group <==> j in group))
  }

  lemma SidesOf(c: seq<BarOHLC>)
    requires |c| == 5
    ensures forall i, j :: 0 <= i < 5 && 0 <= j < 5 ==> (c[i].GetType() == c[j].GetType() <==> SameSide(c[i], c[j]))
  {
    forall i, j | 0 <= i < 5 && 0 <= j < 5 ensures c[i].GetType() == c[j].GetType() <==> SameSide(c[i], c[j]) {
      Sides(c[i], c[j]);
    }
  }

  lemma StrikeBit(w: bv32, c: seq<BarOHLC>)
    requires |c| >= 5 && Describes(w, c)
    ensures w & (1 << 10) != 0 <==> Apart(c[..5], {0}) && OutermostAt(Closes(c[..5]), 0)
  {
    SidesOf(c[..5]);
    BitIs(w, c, LineStrike);
    FirstTop(Closes(c[..5]));
  }

  /** The sides of a hold. */
  lemma HoldSides(c: seq<BarOHLC>)
    requires |c| == 5
    ensures Apart(c, {0, 4}) <==>
      && c[1].GetType() == c[2].GetType() && c[2].GetType() == c[3].GetType() && c[0].GetType() == c[4].GetType()
      && c[0].GetType() != c[1].GetType()
  {
    SidesOf(c);
  }

  lemma {:induction false} HoldIs(c: seq<BarOHLC>)
    requires |c| >= 5
    ensures Check(MatHold, c) <==>
      Apart(c[..5], {0, 4}) && OutermostAt(Closes(c[..5]), 0) && OutermostAt(Opens(c[..5]), 4)
  {
    HoldSides(c[..5]);
    FirstTop(Closes(c[..5])); EarliestTop(Opens(c[..5]));
  }

  lemma HoldBit(w: bv32, c: seq<BarOHLC>)
    requires |c| >= 5 && Describes(w, c)
    ensures w & (1 << 14) != 0 <==>
      Apart(c[..5], {0, 4}) && OutermostAt(Closes(c[..5]), 0) && OutermostAt(Opens(c[..5]), 4)
  {
    HoldIs(c);
    BitIs(w, c, MatHold);
  }

  lemma ReversalBit(w: bv32, c: seq<BarOHLC>)
    requires |c| >= 5 && Describes(w, c)
    ensures w & (1 << 28) != 0 <==> Apart(c[..5], {0, 1}) || Apart(c[..5], {0, 1, 2})
  {
    SidesOf(c[..5]);
    BitIs(w, c, Reversal);
  }

  /** The word in prices: each of its 32 bits. */
  lemma EveryBit(w: bv32, c: seq<BarOHLC>)
    requires |c| >= 5 && Describes(w, c)
    ensures w & (1 << 0) != 0 <==> StepsOut(Bodies(c[..5]))
    ensures w & (1 << 1) != 0 <==>
      c[0].close - c[0].open >
        (c[1].close + c[2].close + c[3].close + c[4].close) - (c[1].open + c[2].open + c[3].open + c[4].open)
    ensures w & (1 << 2) != 0 <==> StepsOut(Closes(c[..5]))
    ensures w & (1 << 3) != 0 <==> OutermostAt(Closes(c[..5]), 0)
    ensures w & (1 << 4) != 0 <==> OutermostAt(Closes(c[..5]), 2)
    ensures w & (1 << 5) != 0 <==> StepsOut(Highs(c[..5]))
    ensures w & (1 << 6) != 0 <==> HighestAt(Highs(c[..5]), 0)
    ensures w & (1 << 7) != 0 <==> HighestAt(Highs(c[..5]), 2)
    ensures w & (1 << 8) != 0 <==> HornDown(c, 1) || HornDown(c, 3)
    ensures w & (1 << 9) != 0 <==> HornUp(c, 1) || HornUp(c, 3)
    ensures w & (1 << 10) != 0 <==> Apart(c[..5], {0}) && OutermostAt(Closes(c[..5]), 0)
    ensures w & (1 << 11) != 0 <==> StepsOut(Lows(c[..5]))
    ensures w & (1 << 12) != 0 <==> LowestAt(Lows(c[..5]), 0)
    ensures w & (1 << 13) != 0 <==> LowestAt(Lows(c[..5]), 2)
    ensures w & (1 << 14) != 0 <==>
      Apart(c[..5], {0, 4}) && OutermostAt(Closes(c[..5]), 0) && OutermostAt(Opens(c[..5]), 4)
    ensures w & (1 << 15) != 0 <==> StepsOut(Opens(c[..5]))
    ensures w & (1 << 16) != 0 <==> OutermostAt(Opens(c[..5]), 0)
    ensures w & (1 << 17) != 0 <==> OutermostAt(Opens(c[..5]), 2)
    ensures w & (1 << 18) != 0 <==> OutermostAt(Opens(c[..5]), 4)
    ensures w & (1 << 19) != 0 <==> StepsOut(PriceSums(c[..5]))
    ensures w & (1 << 20) != 0 <==> OutermostAt(PriceSums(c[..5]), 0)
    ensures w & (1 << 21) != 0 <==> OutermostAt(PriceSums(c[..5]), 2)
    ensures w & (1 << 22) != 0 <==> Decreasing(PriceSums(c[..5]))
    ensures w & (1 << 23) != 0 <==> PriceSum(c[3]) < PriceSum(c[4]) && PriceSum(c[0]) > PriceSum(c[1])
    ensures w & (1 << 24) != 0 <==> Increasing(PriceSums(c[..5]))
    ensures w & (1 << 25) != 0 <==> PriceSum(c[3]) > PriceSum(c[4]) && PriceSum(c[0]) < PriceSum(c[1])
    ensures w & (1 << 26) != 0 <==> StepsOut(Ranges(c[..5]))
    ensures w & (1 << 27) != 0 <==> Range(c[0]) > Range(c[1]) + Range(c[2]) + Range(c[3]) + Range(c[4])
    ensures w & (1 << 28) != 0 <==> Apart(c[..5], {0, 1}) || Apart(c[..5], {0, 1, 2})
    ensures w & (1 << 29) != 0 <==> StepsOut(WickSizes(c[..5]))
    ensures w & (1 << 30) != 0 <==> OutermostAt(WickSizes(c[..5]), 0)
    ensures w & (1 << 31) != 0 <==> OutermostAt(WickSizes(c[..5]), 2)
  {
    BodyStepBit(w, c); SumBits(w, c); CloseStepBit(w, c); ClosePeakBits(w, c); HighStepBit(w, c);
    HighPeakBits(w, c); HornBits(w, c); StrikeBit(w, c); LowStepBit(w, c); LowPeakBits(w, c); HoldBit(w, c);
    OpenStepBit(w, c); OpenPeakBits(w, c); PivotStepBit(w, c); PivotPeakBits(w, c); PivotBits(w, c);
    PivotTurnBits(w, c); RangeStepBit(w, c); ReversalBit(w, c); WickStepBit(w, c); WickPeakBits(w, c);
  }

  // ---------------------------------------------------------------------------------------------

  lemma Rising(xs: seq<real>)
    requires |xs| == 5 && Increasing(xs)
    ensures OutermostAt(xs, 0) && !OutermostAt(xs, 2) && HighestAt(xs, 0) && !HighestAt(xs, 2)
    ensures !LowestAt(xs, 0) && !LowestAt(xs, 2) && !Decreasing(xs)
    ensures xs[0] > xs[1] && xs[3] > xs[4] && xs[0] > xs[3] && xs[4] < xs[1]
  {
    assert xs[1] > xs[2] > xs[3];
  }

  lemma Falling(xs: seq<real>)
    requires |xs| == 5 && Decreasing(xs)
    ensures OutermostAt(xs, 0) && !OutermostAt(xs, 2) && !Increasing(xs) && xs[0] < xs[1] && xs[3] < xs[4]
  {
    assert xs[1] < xs[2] < xs[3];
  }

  /** A steady rise: the latest candle is at the top in every respect, and the middle one is not. */
  lemma SteadyRise(w: bv32, c: seq<BarOHLC>, d: real)
    requires |c| >= 5 && Describes(w, c) && Raised(c[..5], d) && d > 0.0
    ensures w & (1 << 24) != 0 && w & (1 << 22) == 0 && w & (1 << 23) == 0 && w & (1 << 25) == 0
    ensures w & (1 << 3) != 0 && w & (1 << 6) != 0 && w & (1 << 16) != 0 && w & (1 << 20) != 0 && w & (1 << 12) == 0
    ensures w & (1 << 4) == 0 && w & (1 << 7) == 0 && w & (1 << 13) == 0 && w & (1 << 17) == 0 && w & (1 << 21) == 0
  {
    var r := c[..5];
    RaisedIncrease(r, d);
    Rising(Closes(r)); Rising(Highs(r)); Rising(Lows(r)); Rising(Opens(r)); Rising(PriceSums(r));
    PivotBits(w, c); PivotTurnBits(w, c); ClosePeakBits(w, c); HighPeakBits(w, c); LowPeakBits(w, c);
    OpenPeakBits(w, c); PivotPeakBits(w, c);
  }

  lemma NoHorn(c: seq<BarOHLC>, hs: seq<real>, ls: seq<real>)
    requires |c| >= 5 && hs == Highs(c[..5]) && ls == Lows(c[..5]) && Increasing(hs) && Increasing(ls)
    ensures !HornUp(c, 1) && !HornUp(c, 3) && !HornDown(c, 1) && !HornDown(c, 3)
  {
    assert hs[0] > hs[1] && hs[0] > hs[3];
    assert ls[1] > ls[4] && ls[3] > ls[4];
  }

  lemma SteadyRiseHasNoHorn(w: bv32, c: seq<BarOHLC>, d: real)
    requires |c| >= 5 && Describes(w, c) && Raised(c[..5], d) && d > 0.0
    ensures w & (1 << 8) == 0 && w & (1 << 9) == 0
  {
    var r := c[..5];
    RaisedIncrease(r, d);
    NoHorn(c, Highs(r), Lows(r));
    HornBits(w, c);
  }

  lemma NotApart(c: seq<BarOHLC>, group: set<nat>, i: nat, j: nat)
    requires i < |c| && j < |c| && (SameSide(c[i], c[j]) <==> (i in group <==> j !in group))
    ensures !Apart(c, group)
  {
  }

  lemma OneSide(c: seq<BarOHLC>)
    requires |c| == 5 && SameSide(c[0], c[1]) && SameSide(c[2], c[3])
    ensures !Apart(c, {0}) && !Apart(c, {0, 4}) && !Apart(c, {0, 1, 2})
    ensures SameSide(c[1], c[2]) ==> !Apart(c, {0, 1})
  {
    NotApart(c, {0}, 0, 1);
    NotApart(c, {0, 4}, 0, 1);
    NotApart(c, {0, 1, 2}, 2, 3);
    if SameSide(c[1], c[2]) {
      NotApart(c, {0, 1}, 1, 2);
    }
  }

  lemma SteadyRiseHasNoTurn(w: bv32, c: seq<BarOHLC>, d: real)
    requires |c| >= 5 && Describes(w, c) && Raised(c[..5], d) && d > 0.0
    ensures w & (1 << 10) == 0 && w & (1 << 14) == 0 && w & (1 << 28) == 0
  {
    RaisedIncrease(c[..5], d);
    OneSide(c[..5]);
    StrikeBit(w, c); HoldBit(w, c); ReversalBit(w, c);
  }

  /** It shows no horn, and neither a strike, a hold nor a reversal. */
  lemma SteadyRiseIsPlain(w: bv32, c: seq<BarOHLC>, d: real)
    requires |c| >= 5 && Describes(w, c) && Raised(c[..5], d) && d > 0.0
    ensures w & (1 << 8) == 0 && w & (1 << 9) == 0 && w & (1 << 10) == 0 && w & (1 << 14) == 0 && w & (1 << 28) == 0
  {
    SteadyRiseHasNoHorn(w, c, d);
    SteadyRiseHasNoTurn(w, c, d);
  }

  /** A trend of the pivots brings a peak at its end, and neither goes with a turn. */
  lemma PivotBitsImply(w: bv32, c: seq<BarOHLC>)
    requires |c| >= 5 && Describes(w, c)
    ensures w & (1 << 22) != 0 || w & (1 << 24) != 0 ==> w & (1 << 20) != 0 && w & (1 << 21) == 0
    ensures w & (1 << 22) != 0 || w & (1 << 24) != 0 ==> w & (1 << 23) == 0 && w & (1 << 25) == 0
    ensures w & (1 << 23) == 0 || w & (1 << 25) == 0
    ensures w & (1 << 22) == 0 || w & (1 << 24) == 0
  {
    var xs := PriceSums(c[..5]);
    if Increasing(xs) {
      Rising(xs);
    }
    if Decreasing(xs) {
      Falling(xs);
    }
    PivotBits(w, c); PivotTurnBits(w, c); PivotPeakBits(w, c);
  }

  /** Where the latest candle is at a peak, the middle one is not, and there is no horn on that side. */
  lemma PeakBitsImply(w: bv32, c: seq<BarOHLC>)
    requires |c| >= 5 && Describes(w, c)
    ensures w & (1 << 6) != 0 ==> w & (1 << 7) == 0 && w & (1 << 9) == 0
    ensures w & (1 << 12) != 0 ==> w & (1 << 13) == 0 && w & (1 << 8) == 0
  {
    var hs, ls := Highs(c[..5]), Lows(c[..5]);
    HighPeakBits(w, c); LowPeakBits(w, c); HornBits(w, c);
    if HighestAt(hs, 0) {
      assert hs[1] < hs[0] && hs[2] < hs[0] && hs[3] < hs[0];
    }
    if LowestAt(ls, 0) {
      assert ls[1] > ls[0] && ls[2] > ls[0] && ls[3] > ls[0];
    }
  }

  lemma GroupsDiffer(c: seq<BarOHLC>)
    requires |c| == 5
    ensures Apart(c, {0}) ==> !Apart(c, {0, 4}) && !Apart(c, {0, 1}) && !Apart(c, {0, 1, 2})
    ensures Apart(c, {0, 4}) ==> !Apart(c, {0, 1}) && !Apart(c, {0, 1, 2})
  {
    var a, b, d, e := 0, 1, 2, 4;
    assert Apart(c, {0}) ==> !SameSide(c[a], c[e]) && !SameSide(c[a], c[b]);
    assert Apart(c, {0, 4}) ==> SameSide(c[a], c[e]) && !SameSide(c[a], c[b]);
    assert Apart(c, {0, 1}) ==> SameSide(c[a], c[b]);
    assert Apart(c, {0, 1, 2}) ==> SameSide(c[a], c[b]);
  }

  /** A strike and a hold end at an outermost close, a hold begins at an outermost open; only one shape is shown. */
  lemma ShapeBitsImply(w: bv32, c: seq<BarOHLC>)
    requires |c| >= 5 && Describes(w, c)
    ensures w & (1 << 10) != 0 ==> w & (1 << 3) != 0 && w & (1 << 14) == 0 && w & (1 << 28) == 0
    ensures w & (1 << 14) != 0 ==> w & (1 << 3) != 0 && w & (1 << 18) != 0 && w & (1 << 28) == 0
  {
    GroupsDiffer(c[..5]);
    ClosePeakBits(w, c); OpenPeakBits(w, c); StrikeBit(w, c); HoldBit(w, c); ReversalBit(w, c);
  }
}
