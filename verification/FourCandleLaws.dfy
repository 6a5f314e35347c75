/** What each bit of a four-candle word says of the prices, and what the bits say of each other. */
module FourCandleLaws {
  import opened Bars
  import opened CandleQuantities
  import opened Common
  import opened FourCandles
  import opened PatternWords

  lemma BitIs(w: bv32, c: seq<BarOHLC>, p: Pattern)
    requires |c| >= 4 && Describes(w, c)
    ensures On(w, Bit(p)) <==> Holds(p, c)
  {
  }

  lemma Ordered(xs: seq<real>)
    requires |xs| == 4
    ensures Increasing(xs) <==> xs[0] > xs[1] && xs[1] > xs[2] && xs[2] > xs[3]
    ensures Decreasing(xs) <==> xs[0] < xs[1] && xs[1] < xs[2] && xs[2] < xs[3]
  {
  }

  lemma Outermost(xs: seq<real>)
    requires |xs| == 4
    ensures HighestAt(xs, 0) <==> xs[1] < xs[0] && xs[2] < xs[0] && xs[3] < xs[0]
    ensures LowestAt(xs, 0) <==> xs[1] > xs[0] && xs[2] > xs[0] && xs[3] > xs[0]
  {
  }

  // ---------------------------------------------------------------------------------------------
  // The reading of each bit.

  lemma DirectionBits(w: bv32, c: seq<BarOHLC>)
    requires |c| >= 4 && Describes(w, c)
    ensures w & (1 << 0) != 0 <==> AllFall(c[..4])
    ensures w & (1 << 7) != 0 <==> AllRise(c[..4])
  {
    BitIs(w, c, Bears); BitIs(w, c, Bulls);
    assert c[..4] == [c[0], c[1], c[2], c[3]];
  }

  lemma MixedBit(w: bv32, c: seq<BarOHLC>)
    requires |c| >= 4 && Describes(w, c)
    ensures w & (1 << 3) != 0 <==> !SameSide(c[0], c[1]) && !SameSide(c[1], c[2]) && !SameSide(c[2], c[3])
  {
    Sides(c[0], c[1]); Sides(c[1], c[2]); Sides(c[2], c[3]);
    BitIs(w, c, BebuMixed);
  }

  lemma CloseBits(w: bv32, c: seq<BarOHLC>)
    requires |c| >= 4 && Describes(w, c)
    ensures w & (1 << 10) != 0 <==> Decreasing(Closes(c[..4]))
    ensures w & (1 << 11) != 0 <==> Increasing(Closes(c[..4]))
  {
    BitIs(w, c, CloseDec); BitIs(w, c, CloseInc);
    Ordered(Closes(c[..4]));
  }

  lemma HighBits(w: bv32, c: seq<BarOHLC>)
    requires |c| >= 4 && Describes(w, c)
    ensures w & (1 << 12) != 0 <==> Decreasing(Highs(c[..4]))
    ensures w & (1 << 13) != 0 <==> Increasing(Highs(c[..4]))
  {
    BitIs(w, c, HighDec); BitIs(w, c, HighInc);
    Ordered(Highs(c[..4]));
  }

  lemma LowBits(w: bv32, c: seq<BarOHLC>)
    requires |c| >= 4 && Describes(w, c)
    ensures w & (1 << 15) != 0 <==> Decreasing(Lows(c[..4]))
    ensures w & (1 << 16) != 0 <==> Increasing(Lows(c[..4]))
  {
    BitIs(w, c, LowDec); BitIs(w, c, LowInc);
    Ordered(Lows(c[..4]));
  }

  lemma OpenBits(w: bv32, c: seq<BarOHLC>)
    requires |c| >= 4 && Describes(w, c)
    ensures w & (1 << 17) != 0 <==> Decreasing(Opens(c[..4]))
    ensures w & (1 << 18) != 0 <==> Increasing(Opens(c[..4]))
  {
    BitIs(w, c, OpenDec); BitIs(w, c, OpenInc);
    Ordered(Opens(c[..4]));
  }

  lemma BodyBits(w: bv32, c: seq<BarOHLC>)
    requires |c| >= 4 && Describes(w, c)
    ensures w & (1 << 5) != 0 <==> Decreasing(BodySizes(c[..4]))
    ensures w & (1 << 6) != 0 <==> Increasing(BodySizes(c[..4]))
  {
    Measures(c[0]); Measures(c[1]); Measures(c[2]); Measures(c[3]);
    BitIs(w, c, BodyDec); BitIs(w, c, BodyInc);
    Ordered(BodySizes(c[..4]));
  }

  lemma PivotBits(w: bv32, c: seq<BarOHLC>)
    requires |c| >= 4 && Describes(w, c)
    ensures w & (1 << 20) != 0 <==> Decreasing(PriceSums(c[..4]))
    ensures w & (1 << 21) != 0 <==> Increasing(PriceSums(c[..4]))
  {
    Measures(c[0]); Measures(c[1]); Measures(c[2]); Measures(c[3]);
    BitIs(w, c, PpDec); BitIs(w, c, PpInc);
    Ordered(PriceSums(c[..4]));
  }

  lemma RangeBits(w: bv32, c: seq<BarOHLC>)
    requires |c| >= 4 && Describes(w, c)
    ensures w & (1 << 23) != 0 <==> Decreasing(Ranges(c[..4]))
    ensures w & (1 << 24) != 0 <==> Increasing(Ranges(c[..4]))
  {
    BitIs(w, c, RangeDec); BitIs(w, c, RangeInc);
    Ordered(Ranges(c[..4]));
  }

  lemma WickValues(c: seq<BarOHLC>, xs: seq<real>)
    requires |c| >= 4 && xs == WickSizes(c[..4])
    ensures |xs| == 4 && xs[0] == c[0].GetWickSum() && xs[1] == c[1].GetWickSum()
    ensures xs[2] == c[2].GetWickSum() && xs[3] == c[3].GetWickSum()
  {
    Measures(c[0]); Measures(c[1]); Measures(c[2]); Measures(c[3]);
  }

  lemma WickTrends(c: seq<BarOHLC>)
    requires |c| >= 4
    ensures Holds(WicksDec, c) <==> Decreasing(WickSizes(c[..4]))
    ensures Holds(WicksInc, c) <==> Increasing(WickSizes(c[..4]))
  {
    WickValues(c, WickSizes(c[..4]));
    Ordered(WickSizes(c[..4]));
  }

  lemma WickFallBit(w: bv32, c: seq<BarOHLC>)
    requires |c| >= 4 && Describes(w, c)
    ensures w & (1 << 28) != 0 <==> Decreasing(WickSizes(c[..4]))
  {
    BitIs(w, c, WicksDec);
    WickTrends(c);
  }

  lemma WickRiseBit(w: bv32, c: seq<BarOHLC>)
    requires |c| >= 4 && Describes(w, c)
    ensures w & (1 << 30) != 0 <==> Increasing(WickSizes(c[..4]))
  {
    BitIs(w, c, WicksInc);
    WickTrends(c);
  }

  lemma WickBits(w: bv32, c: seq<BarOHLC>)
    requires |c| >= 4 && Describes(w, c)
    ensures w & (1 << 28) != 0 <==> Decreasing(WickSizes(c[..4]))
    ensures w & (1 << 30) != 0 <==> Increasing(WickSizes(c[..4]))
  {
    WickFallBit(w, c); WickRiseBit(w, c);
  }

  lemma PeakBit(w: bv32, c: seq<BarOHLC>)
    requires |c| >= 4 && Describes(w, c)
    ensures w & (1 << 19) != 0 <==> HighestAt(Highs(c[..4]), 0) || LowestAt(Lows(c[..4]), 0)
  {
    BitIs(w, c, Peak);
    Outermost(Highs(c[..4])); Outermost(Lows(c[..4]));
  }

  lemma SumBits(w: bv32, c: seq<BarOHLC>)
    requires |c| >= 4 && Describes(w, c)
    ensures w & (1 << 4) != 0 <==> BodySize(c[0]) > BodySize(c[1]) + BodySize(c[2]) + BodySize(c[3])
    ensures w & (1 << 22) != 0 <==> Range(c[0]) > Range(c[1]) + Range(c[2]) + Range(c[3])
    ensures w & (1 << 27) != 0 <==> WickSize(c[0]) > WickSize(c[1]) + WickSize(c[2]) + WickSize(c[3])
  {
    Measures(c[0]); Measures(c[1]); Measures(c[2]); Measures(c[3]);
    BitIs(w, c, Body0GtSum); BitIs(w, c, Range0GtSum); BitIs(w, c, Wicks0GtSum);
  }

  /** Wicks make up more than half of the ranges, and upper ones more than half of the wicks. */
  lemma WickShareBits(w: bv32, c: seq<BarOHLC>)
    requires |c| >= 4 && Describes(w, c)
    ensures w & (1 << 29) != 0 <==>
      Range(c[0]) + Range(c[1]) + Range(c[2]) + Range(c[3]) >
        2.0 * (BodySize(c[0]) + BodySize(c[1]) + BodySize(c[2]) + BodySize(c[3]))
    ensures w & (1 << 31) != 0 <==>
      2.0 * (UpperWick(c[0]) + UpperWick(c[1]) + UpperWick(c[2]) + UpperWick(c[3])) >
        WickSize(c[0]) + WickSize(c[1]) + WickSize(c[2]) + WickSize(c[3])
  {
    Measures(c[0]); Measures(c[1]); Measures(c[2]); Measures(c[3]);
    BitIs(w, c, WicksGtBody); BitIs(w, c, WicksUpper);
  }

  /** Down, up, up, down, the latest one large, and lower at its end than the others. */
  lemma BearContinuationBit(w: bv32, c: seq<BarOHLC>)
    requires |c| >= 4 && Describes(w, c)
    ensures w & (1 << 1) != 0 <==>
      && c[0].close < c[0].open && AllRise(c[1..3]) && c[3].close < c[3].open
      && c[0].low < c[3].low && c[3].low < c[1].low && c[3].low < c[2].low
      && BodySize(c[0]) > BodySize(c[1]) + BodySize(c[2])
  {
    Measures(c[0]); Measures(c[1]); Measures(c[2]);
    BitIs(w, c, BearCont);
    assert c[1..3] == [c[1], c[2]];
  }

  lemma BullContinuationBit(w: bv32, c: seq<BarOHLC>)
    requires |c| >= 4 && Describes(w, c)
    ensures w & (1 << 8) != 0 <==>
      && c[0].close > c[0].open && AllFall(c[1..3]) && c[3].close > c[3].open
      && c[0].high > c[3].high && c[3].high > c[1].high && c[3].high > c[2].high
      && BodySize(c[0]) > BodySize(c[1]) + BodySize(c[2])
  {
    Measures(c[0]); Measures(c[1]); Measures(c[2]);
    BitIs(w, c, BullCont);
    assert c[1..3] == [c[1], c[2]];
  }

  /** Two up, then two down, and the end lies below all that was before. */
  lemma BearReversalBit(w: bv32, c: seq<BarOHLC>)
    requires |c| >= 4 && Describes(w, c)
    ensures w & (1 << 2) != 0 <==>
      && AllFall(c[..2]) && AllRise(c[2..4])
      && c[0].close < c[1].low && c[0].close < c[2].low && c[0].close < c[3].low
  {
    BitIs(w, c, BearRev);
    assert c[..2] == [c[0], c[1]] && c[2..4] == [c[2], c[3]];
  }

  lemma BullReversalBit(w: bv32, c: seq<BarOHLC>)
    requires |c| >= 4 && Describes(w, c)
    ensures w & (1 << 9) != 0 <==>
      && AllRise(c[..2]) && AllFall(c[2..4])
      && c[0].close > c[1].high && c[0].close > c[2].high && c[0].close > c[3].high
  {
    BitIs(w, c, BullRev);
    assert c[..2] == [c[0], c[1]] && c[2..4] == [c[2], c[3]];
  }

  /** Two down, then two up, with an upper wick in the middle that is longer than the outer wicks together. */
  lemma HammerBit(w: bv32, c: seq<BarOHLC>)
    requires |c| >= 4 && Describes(w, c)
    ensures w & (1 << 14) != 0 <==>
      && AllRise(c[..2]) && AllFall(c[2..4])
      && (UpperWick(c[1]) > WickSize(c[0]) + WickSize(c[3]) || UpperWick(c[2]) > WickSize(c[0]) + WickSize(c[3]))
  {
    Measures(c[0]); Measures(c[1]); Measures(c[2]); Measures(c[3]);
    BitIs(w, c, InvHammer);
    assert c[..2] == [c[0], c[1]] && c[2..4] == [c[2], c[3]];
  }

  lemma StarBit(w: bv32, c: seq<BarOHLC>)
    requires |c| >= 4 && Describes(w, c)
    ensures w & (1 << 25) != 0 <==>
      && AllFall(c[..2]) && AllRise(c[2..4])
      && (LowerWick(c[1]) > WickSize(c[0]) + WickSize(c[3]) || LowerWick(c[2]) > WickSize(c[0]) + WickSize(c[3]))
  {
    Measures(c[0]); Measures(c[1]); Measures(c[2]); Measures(c[3]);
    BitIs(w, c, ShootStar);
    assert c[..2] == [c[0], c[1]] && c[2..4] == [c[2], c[3]];
  }

  /** A distance in time that falls into the m-th stretch of two minutes; the one around zero is twice as long. */
  predicate InStretch(seconds: int, m: int) {
    if m > 0 then 120 * m <= seconds < 120 * (m + 1)
    else if m < 0 then 120 * (m - 1) < seconds <= 120 * m
    else -120 < seconds < 120
  }

  lemma StretchOf(seconds: int, m: int)
    ensures InStretch(seconds, m) <==> Quotient(seconds, 120) == m
  {
  }

  predicate OneStretch(a: int, b: int, c: int, m: int) { InStretch(a, m) && InStretch(b, m) && InStretch(c, m) }

  /** The three distances are alike. */
  ghost predicate Alike(a: int, b: int, c: int) { exists m: int :: OneStretch(a, b, c, m) }

  lemma GapBit(w: bv32, c: seq<BarOHLC>)
    requires |c| >= 4 && Describes(w, c)
    ensures w & (1 << 26) != 0 <==>
      !Alike(c[0].time - c[1].time, c[1].time - c[2].time, c[2].time - c[3].time)
  {
    var x, y, z := c[0].time - c[1].time, c[1].time - c[2].time, c[2].time - c[3].time;
    StretchOf(x, Quotient(x, 120)); StretchOf(y, Quotient(x, 120)); StretchOf(z, Quotient(x, 120));
    BitIs(w, c, TimeGaps);
    assert OneStretch(x, y, z, Quotient(x, 120)) <==> !Holds(TimeGaps, c);
    if Alike(x, y, z) {
      var m: int :| OneStretch(x, y, z, m);
      StretchOf(x, m);
    }
  }

  /** The word in prices and times: each of its 32 bits. */
  lemma EveryBit(w: bv32, c: seq<BarOHLC>)
    requires |c| >= 4 && Describes(w, c)
    ensures w & (1 << 0) != 0 <==> AllFall(c[..4])
    ensures w & (1 << 1) != 0 <==>
      && c[0].close < c[0].open && AllRise(c[1..3]) && c[3].close < c[3].open
      && c[0].low < c[3].low && c[3].low < c[1].low && c[3].low < c[2].low
      && BodySize(c[0]) > BodySize(c[1]) + BodySize(c[2])
    ensures w & (1 << 2) != 0 <==>
      && AllFall(c[..2]) && AllRise(c[2..4])
      && c[0].close < c[1].low && c[0].close < c[2].low && c[0].close < c[3].low
    ensures w & (1 << 3) != 0 <==> !SameSide(c[0], c[1]) && !SameSide(c[1], c[2]) && !SameSide(c[2], c[3])
    ensures w & (1 << 4) != 0 <==> BodySize(c[0]) > BodySize(c[1]) + BodySize(c[2]) + BodySize(c[3])
    ensures w & (1 << 5) != 0 <==> Decreasing(BodySizes(c[..4]))
    ensures w & (1 << 6) != 0 <==> Increasing(BodySizes(c[..4]))
    ensures w & (1 << 7) != 0 <==> AllRise(c[..4])
    ensures w & (1 << 8) != 0 <==>
      && c[0].close > c[0].open && AllFall(c[1..3]) && c[3].close > c[3].open
      && c[0].high > c[3].high && c[3].high > c[1].high && c[3].high > c[2].high
      && BodySize(c[0]) > BodySize(c[1]) + BodySize(c[2])
    ensures w & (1 << 9) != 0 <==>
      && AllRise(c[..2]) && AllFall(c[2..4])
      && c[0].close > c[1].high && c[0].close > c[2].high && c[0].close > c[3].high
    ensures w & (1 << 10) != 0 <==> Decreasing(Closes(c[..4]))
    ensures w & (1 << 11) != 0 <==> Increasing(Closes(c[..4]))
    ensures w & (1 << 12) != 0 <==> Decreasing(Highs(c[..4]))
    ensures w & (1 << 13) != 0 <==> Increasing(Highs(c[..4]))
    ensures w & (1 << 14) != 0 <==>
      && AllRise(c[..2]) && AllFall(c[2..4])
      && (UpperWick(c[1]) > WickSize(c[0]) + WickSize(c[3]) || UpperWick(c[2]) > WickSize(c[0]) + WickSize(c[3]))
    ensures w & (1 << 15) != 0 <==> Decreasing(Lows(c[..4]))
    ensures w & (1 << 16) != 0 <==> Increasing(Lows(c[..4]))
    ensures w & (1 << 17) != 0 <==> Decreasing(Opens(c[..4]))
    ensures w & (1 << 18) != 0 <==> Increasing(Opens(c[..4]))
    ensures w & (1 << 19) != 0 <==> HighestAt(Highs(c[..4]), 0) || LowestAt(Lows(c[..4]), 0)
    ensures w & (1 << 20) != 0 <==> Decreasing(PriceSums(c[..4]))
    ensures w & (1 << 21) != 0 <==> Increasing(PriceSums(c[..4]))
    ensures w & (1 << 22) != 0 <==> Range(c[0]) > Range(c[1]) + Range(c[2]) + Range(c[3])
    ensures w & (1 << 23) != 0 <==> Decreasing(Ranges(c[..4]))
    ensures w & (1 << 24) != 0 <==> Increasing(Ranges(c[..4]))
    ensures w & (1 << 25) != 0 <==>
      && AllFall(c[..2]) && AllRise(c[2..4])
      && (LowerWick(c[1]) > WickSize(c[0]) + WickSize(c[3]) || LowerWick(c[2]) > WickSize(c[0]) + WickSize(c[3]))
    ensures w & (1 << 26) != 0 <==>
      !Alike(c[0].time - c[1].time, c[1].time - c[2].time, c[2].time - c[3].time)
    ensures w & (1 << 27) != 0 <==> WickSize(c[0]) > WickSize(c[1]) + WickSize(c[2]) + WickSize(c[3])
    ensures w & (1 << 28) != 0 <==> Decreasing(WickSizes(c[..4]))
    ensures w & (1 << 29) != 0 <==>
      Range(c[0]) + Range(c[1]) + Range(c[2]) + Range(c[3]) >
        2.0 * (BodySize(c[0]) + BodySize(c[1]) + BodySize(c[2]) + BodySize(c[3]))
    ensures w & (1 << 30) != 0 <==> Increasing(WickSizes(c[..4]))
    ensures w & (1 << 31) != 0 <==>
      2.0 * (UpperWick(c[0]) + UpperWick(c[1]) + UpperWick(c[2]) + UpperWick(c[3])) >
        WickSize(c[0]) + WickSize(c[1]) + WickSize(c[2]) + WickSize(c[3])
  {
    DirectionBits(w, c); GapBit(w, c); BearContinuationBit(w, c); BearReversalBit(w, c); MixedBit(w, c); SumBits(w, c);
    BodyBits(w, c); BullContinuationBit(w, c); BullReversalBit(w, c); CloseBits(w, c); HighBits(w, c);
    HammerBit(w, c); LowBits(w, c); OpenBits(w, c); PeakBit(w, c); PivotBits(w, c); RangeBits(w, c);
    StarBit(w, c); WickBits(w, c); WickShareBits(w, c);
  }

  // ---------------------------------------------------------------------------------------------

  /** A steady rise: every price increases and none decreases, sizes neither, and the latest candle is at a peak. */
  lemma SteadyRise(w: bv32, c: seq<BarOHLC>, d: real)
    requires |c| >= 4 && Describes(w, c) && Raised(c[..4], d) && d > 0.0
    ensures w & (1 << 11) != 0 && w & (1 << 13) != 0 && w & (1 << 16) != 0 && w & (1 << 18) != 0 && w & (1 << 21) != 0
    ensures w & (1 << 10) == 0 && w & (1 << 12) == 0 && w & (1 << 15) == 0 && w & (1 << 17) == 0 && w & (1 << 20) == 0
    ensures w & (1 << 5) == 0 && w & (1 << 6) == 0 && w & (1 << 23) == 0 && w & (1 << 24) == 0
    ensures w & (1 << 28) == 0 && w & (1 << 30) == 0 && w & (1 << 3) == 0 && w & (1 << 19) != 0
  {
    var r := c[..4];
    RaisedIncrease(r, d);
    NotBoth(Closes(r)); NotBoth(Highs(r)); NotBoth(Lows(r)); NotBoth(Opens(r)); NotBoth(PriceSums(r));
    AllEqual(BodySizes(r)); AllEqual(Ranges(r)); AllEqual(WickSizes(r));
    CloseBits(w, c); HighBits(w, c); LowBits(w, c); OpenBits(w, c);
    BodyBits(w, c); PivotBits(w, c); RangeBits(w, c); WickBits(w, c); PeakBit(w, c); MixedBit(w, c);
    assert SameSide(r[0], r[1]);
  }

  /** At most one of the two runs, the two continuations and the two reversals is shown. */
  lemma ShapesExclude(w: bv32, c: seq<BarOHLC>)
    requires |c| >= 4 && Describes(w, c)
    ensures w & (1 << 0) != 0 ==> w & (1 << 1) == 0 && w & (1 << 2) == 0 && w & (1 << 8) == 0 && w & (1 << 9) == 0
    ensures w & (1 << 7) != 0 ==> w & (1 << 1) == 0 && w & (1 << 2) == 0 && w & (1 << 8) == 0 && w & (1 << 9) == 0
    ensures w & (1 << 1) != 0 ==> w & (1 << 2) == 0 && w & (1 << 8) == 0 && w & (1 << 9) == 0
    ensures w & (1 << 2) != 0 ==> w & (1 << 8) == 0 && w & (1 << 9) == 0
    ensures w & (1 << 8) != 0 ==> w & (1 << 9) == 0
    ensures w & (1 << 0) != 0 ==> w & (1 << 7) == 0
    ensures w & (1 << 14) != 0 ==> w & (1 << 25) == 0
  {
    DirectionBits(w, c);
    BearContinuationBit(w, c); BullContinuationBit(w, c); BearReversalBit(w, c); BullReversalBit(w, c);
    HammerBit(w, c); StarBit(w, c);
    assert c[..4] == [c[0], c[1], c[2], c[3]] && c[1..3] == [c[1], c[2]];
    assert c[..2] == [c[0], c[1]] && c[2..4] == [c[2], c[3]];
  }

  /** Where no two neighbours go the same way, none of them is shown. */
  lemma MixedExcludes(w: bv32, c: seq<BarOHLC>)
    requires |c| >= 4 && Describes(w, c) && w & (1 << 3) != 0
    ensures w & (1 << 0) == 0 && w & (1 << 7) == 0 && w & (1 << 1) == 0 && w & (1 << 8) == 0
    ensures w & (1 << 2) == 0 && w & (1 << 9) == 0 && w & (1 << 14) == 0 && w & (1 << 25) == 0
  {
    MixedBit(w, c); DirectionBits(w, c);
    BearContinuationBit(w, c); BullContinuationBit(w, c); BearReversalBit(w, c); BullReversalBit(w, c);
    HammerBit(w, c); StarBit(w, c);
    assert c[..4][..2] == c[..2] && c[..4] == [c[0], c[1], c[2], c[3]];
    assert c[1..3] == [c[1], c[2]] && c[..2] == [c[0], c[1]];
  }

  /** A reversal ends at a peak, and so does a bullish or bearish continuation. */
  lemma ShapesPeak(w: bv32, c: seq<BarOHLC>)
    requires |c| >= 4 && Describes(w, c) && AllWellFormed(c)
    ensures w & (1 << 1) != 0 || w & (1 << 2) != 0 || w & (1 << 8) != 0 || w & (1 << 9) != 0 ==> w & (1 << 19) != 0
  {
    BearContinuationBit(w, c); BullContinuationBit(w, c); BearReversalBit(w, c); BullReversalBit(w, c);
    PeakBit(w, c);
    Outermost(Highs(c[..4])); Outermost(Lows(c[..4]));
  }
}
