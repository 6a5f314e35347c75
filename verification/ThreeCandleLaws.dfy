/** What each bit of a three-candle word says of the prices, and what the bits say of each other. */
module ThreeCandleLaws {
  import opened Bars
  import opened CandleQuantities
  import opened PatternWords
  import opened ThreeCandles

  lemma BitIs(w: bv32, c: seq<BarOHLC>, p: Pattern)
    requires |c| >= 3 && Describes(w, c)
    ensures On(w, Bit(p)) <==> Check(p, c)
  {
  }

  lemma Triple(c: seq<BarOHLC>)
    requires |c| >= 3
    ensures c[..3] == [c[0], c[1], c[2]]
  {
  }

  lemma Ordered(xs: seq<real>)
    requires |xs| == 3
    ensures Increasing(xs) <==> xs[0] > xs[1] && xs[1] > xs[2]
    ensures Decreasing(xs) <==> xs[0] < xs[1] && xs[1] < xs[2]
  {
  }

  lemma Outermost(xs: seq<real>)
    requires |xs| == 3
    ensures HighestAt(xs, 0) <==> xs[1] < xs[0] && xs[2] < xs[0]
    ensures LowestAt(xs, 0) <==> xs[1] > xs[0] && xs[2] > xs[0]
  {
  }

  // ---------------------------------------------------------------------------------------------
  // The reading of each bit.

  lemma DirectionBits(w: bv32, c: seq<BarOHLC>)
    requires |c| >= 3 && Describes(w, c)
    ensures w & (1 << 0) != 0 <==> AllFall(c[..3])
    ensures w & (1 << 5) != 0 <==> AllRise(c[..3])
  {
    Triple(c);
    BitIs(w, c, Bears); BitIs(w, c, Bulls);
  }

  lemma CloseBits(w: bv32, c: seq<BarOHLC>)
    requires |c| >= 3 && Describes(w, c)
    ensures w & (1 << 6) != 0 <==> Decreasing(Closes(c[..3]))
    ensures w & (1 << 7) != 0 <==> Increasing(Closes(c[..3]))
  {
    BitIs(w, c, CloseDec); BitIs(w, c, CloseInc);
    Ordered(Closes(c[..3]));
  }

  lemma HighBits(w: bv32, c: seq<BarOHLC>)
    requires |c| >= 3 && Describes(w, c)
    ensures w & (1 << 10) != 0 <==> Decreasing(Highs(c[..3]))
    ensures w & (1 << 11) != 0 <==> Increasing(Highs(c[..3]))
  {
    BitIs(w, c, HighDec); BitIs(w, c, HighInc);
    Ordered(Highs(c[..3]));
  }

  lemma LowBits(w: bv32, c: seq<BarOHLC>)
    requires |c| >= 3 && Describes(w, c)
    ensures w & (1 << 14) != 0 <==> Decreasing(Lows(c[..3]))
    ensures w & (1 << 15) != 0 <==> Increasing(Lows(c[..3]))
  {
    BitIs(w, c, LowDec); BitIs(w, c, LowInc);
    Ordered(Lows(c[..3]));
  }

  lemma OpenBits(w: bv32, c: seq<BarOHLC>)
    requires |c| >= 3 && Describes(w, c)
    ensures w & (1 << 18) != 0 <==> Decreasing(Opens(c[..3]))
    ensures w & (1 << 19) != 0 <==> Increasing(Opens(c[..3]))
  {
    BitIs(w, c, OpenDec); BitIs(w, c, OpenInc);
    Ordered(Opens(c[..3]));
  }

  lemma BodyBits(w: bv32, c: seq<BarOHLC>)
    requires |c| >= 3 && Describes(w, c)
    ensures w & (1 << 3) != 0 <==> Decreasing(BodySizes(c[..3]))
    ensures w & (1 << 4) != 0 <==> Increasing(BodySizes(c[..3]))
  {
    Measures(c[0]); Measures(c[1]); Measures(c[2]);
    BitIs(w, c, BodyDec); BitIs(w, c, BodyInc);
    Ordered(BodySizes(c[..3]));
  }

  lemma PivotBits(w: bv32, c: seq<BarOHLC>)
    requires |c| >= 3 && Describes(w, c)
    ensures w & (1 << 21) != 0 <==> Decreasing(PriceSums(c[..3]))
    ensures w & (1 << 22) != 0 <==> Increasing(PriceSums(c[..3]))
  {
    Measures(c[0]); Measures(c[1]); Measures(c[2]);
    BitIs(w, c, PpDec); BitIs(w, c, PpInc);
    Ordered(PriceSums(c[..3]));
  }

  lemma RangeBits(w: bv32, c: seq<BarOHLC>)
    requires |c| >= 3 && Describes(w, c)
    ensures w & (1 << 25) != 0 <==> Decreasing(Ranges(c[..3]))
    ensures w & (1 << 26) != 0 <==> Increasing(Ranges(c[..3]))
  {
    BitIs(w, c, RangeDec); BitIs(w, c, RangeInc);
    Ordered(Ranges(c[..3]));
  }

  lemma PlaceBits(w: bv32, c: seq<BarOHLC>)
    requires |c| >= 3 && Describes(w, c)
    ensures w & (1 << 8) != 0 <==> c[0].high < c[2].low
    ensures w & (1 << 12) != 0 <==> c[0].low > c[2].high
    ensures w & (1 << 16) != 0 <==> c[0].open > c[2].high
    ensures w & (1 << 17) != 0 <==> c[0].open < c[2].low
  {
    BitIs(w, c, High0LtLow2); BitIs(w, c, Low0GtHigh2); BitIs(w, c, Open0GtHigh2); BitIs(w, c, Open0LtLow2);
  }

  lemma MiddleBits(w: bv32, c: seq<BarOHLC>)
    requires |c| >= 3 && Describes(w, c)
    ensures w & (1 << 9) != 0 <==> 3.0 * c[1].high < PriceSum(c[0]) && 3.0 * c[1].high < PriceSum(c[2])
    ensures w & (1 << 13) != 0 <==> 3.0 * c[1].low > PriceSum(c[0]) && 3.0 * c[1].low > PriceSum(c[2])
  {
    AgainstPivot(c[1].high, c[0]); AgainstPivot(c[1].high, c[2]);
    AgainstPivot(c[1].low, c[0]); AgainstPivot(c[1].low, c[2]);
    BitIs(w, c, High1LtPp); BitIs(w, c, Low1GtPp);
  }

  lemma PeakBit(w: bv32, c: seq<BarOHLC>)
    requires |c| >= 3 && Describes(w, c)
    ensures w & (1 << 20) != 0 <==> HighestAt(Highs(c[..3]), 0) || LowestAt(Lows(c[..3]), 0)
  {
    BitIs(w, c, Peak);
    Outermost(Highs(c[..3])); Outermost(Lows(c[..3]));
  }

  lemma SumBits(w: bv32, c: seq<BarOHLC>)
    requires |c| >= 3 && Describes(w, c)
    ensures w & (1 << 1) != 0 <==> BodySize(c[0]) > 2.0 * (BodySize(c[1]) + BodySize(c[2]))
    ensures w & (1 << 2) != 0 <==> BodySize(c[0]) > BodySize(c[1]) + BodySize(c[2])
    ensures w & (1 << 23) != 0 <==> Range(c[0]) > Range(c[1]) + Range(c[2])
    ensures w & (1 << 24) != 0 <==> Range(c[1]) > Range(c[0]) + Range(c[2])
  {
    Measures(c[0]); Measures(c[1]); Measures(c[2]);
    BitIs(w, c, Body0DblSum); BitIs(w, c, Body0GtSum); BitIs(w, c, Range0GtSum); BitIs(w, c, Range1GtSum);
  }

  lemma LatestWickBits(w: bv32, c: seq<BarOHLC>)
    requires |c| >= 3 && Describes(w, c)
    ensures w & (1 << 27) != 0 <==> WickSize(c[0]) > 2.0 * (WickSize(c[1]) + WickSize(c[2]))
    ensures w & (1 << 28) != 0 <==> WickSize(c[0]) > BodySize(c[1]) + BodySize(c[2])
    ensures w & (1 << 29) != 0 <==> WickSize(c[0]) > WickSize(c[1]) + WickSize(c[2])
  {
    Measures(c[0]); Measures(c[1]); Measures(c[2]);
    BitIs(w, c, Wicks0DblSum); BitIs(w, c, Wicks0GtBody); BitIs(w, c, Wicks0GtSum);
  }

  lemma MiddleWickBits(w: bv32, c: seq<BarOHLC>)
    requires |c| >= 3 && Describes(w, c)
    ensures w & (1 << 30) != 0 <==> WickSize(c[1]) > 2.0 * (BodySize(c[0]) + BodySize(c[2]))
    ensures w & (1 << 31) != 0 <==> WickSize(c[1]) > BodySize(c[0]) + BodySize(c[2])
  {
    Measures(c[0]); Measures(c[1]); Measures(c[2]);
    BitIs(w, c, Wicks1DblBody); BitIs(w, c, Wicks1GtBody);
  }

  /** The word in prices: each of its 32 bits. */
  lemma EveryBit(w: bv32, c: seq<BarOHLC>)
    requires |c| >= 3 && Describes(w, c)
    ensures w & (1 << 0) != 0 <==> AllFall(c[..3])
    ensures w & (1 << 1) != 0 <==> BodySize(c[0]) > 2.0 * (BodySize(c[1]) + BodySize(c[2]))
    ensures w & (1 << 2) != 0 <==> BodySize(c[0]) > BodySize(c[1]) + BodySize(c[2])
    ensures w & (1 << 3) != 0 <==> Decreasing(BodySizes(c[..3]))
    ensures w & (1 << 4) != 0 <==> Increasing(BodySizes(c[..3]))
    ensures w & (1 << 5) != 0 <==> AllRise(c[..3])
    ensures w & (1 << 6) != 0 <==> Decreasing(Closes(c[..3]))
    ensures w & (1 << 7) != 0 <==> Increasing(Closes(c[..3]))
    ensures w & (1 << 8) != 0 <==> c[0].high < c[2].low
    ensures w & (1 << 9) != 0 <==> 3.0 * c[1].high < PriceSum(c[0]) && 3.0 * c[1].high < PriceSum(c[2])
    ensures w & (1 << 10) != 0 <==> Decreasing(Highs(c[..3]))
    ensures w & (1 << 11) != 0 <==> Increasing(Highs(c[..3]))
    ensures w & (1 << 12) != 0 <==> c[0].low > c[2].high
    ensures w & (1 << 13) != 0 <==> 3.0 * c[1].low > PriceSum(c[0]) && 3.0 * c[1].low > PriceSum(c[2])
    ensures w & (1 << 14) != 0 <==> Decreasing(Lows(c[..3]))
    ensures w & (1 << 15) != 0 <==> Increasing(Lows(c[..3]))
    ensures w & (1 << 16) != 0 <==> c[0].open > c[2].high
    ensures w & (1 << 17) != 0 <==> c[0].open < c[2].low
    ensures w & (1 << 18) != 0 <==> Decreasing(Opens(c[..3]))
    ensures w & (1 << 19) != 0 <==> Increasing(Opens(c[..3]))
    ensures w & (1 << 20) != 0 <==> HighestAt(Highs(c[..3]), 0) || LowestAt(Lows(c[..3]), 0)
    ensures w & (1 << 21) != 0 <==> Decreasing(PriceSums(c[..3]))
    ensures w & (1 << 22) != 0 <==> Increasing(PriceSums(c[..3]))
    ensures w & (1 << 23) != 0 <==> Range(c[0]) > Range(c[1]) + Range(c[2])
    ensures w & (1 << 24) != 0 <==> Range(c[1]) > Range(c[0]) + Range(c[2])
    ensures w & (1 << 25) != 0 <==> Decreasing(Ranges(c[..3]))
    ensures w & (1 << 26) != 0 <==> Increasing(Ranges(c[..3]))
    ensures w & (1 << 27) != 0 <==> WickSize(c[0]) > 2.0 * (WickSize(c[1]) + WickSize(c[2]))
    ensures w & (1 << 28) != 0 <==> WickSize(c[0]) > BodySize(c[1]) + BodySize(c[2])
    ensures w & (1 << 29) != 0 <==> WickSize(c[0]) > WickSize(c[1]) + WickSize(c[2])
    ensures w & (1 << 30) != 0 <==> WickSize(c[1]) > 2.0 * (BodySize(c[0]) + BodySize(c[2]))
    ensures w & (1 << 31) != 0 <==> WickSize(c[1]) > BodySize(c[0]) + BodySize(c[2])
  {
    DirectionBits(w, c); SumBits(w, c); BodyBits(w, c); CloseBits(w, c); PlaceBits(w, c); MiddleBits(w, c);
    HighBits(w, c); LowBits(w, c); OpenBits(w, c); PeakBit(w, c); PivotBits(w, c); RangeBits(w, c);
    LatestWickBits(w, c); MiddleWickBits(w, c);
  }

  // ---------------------------------------------------------------------------------------------

  /** A steady rise: every price increases and none decreases, sizes neither, and the latest candle is at a peak. */
  lemma SteadyRise(w: bv32, c: seq<BarOHLC>, d: real)
    requires |c| >= 3 && Describes(w, c) && Raised(c[..3], d) && d > 0.0
    ensures w & (1 << 7) != 0 && w & (1 << 11) != 0 && w & (1 << 15) != 0 && w & (1 << 19) != 0 && w & (1 << 22) != 0
    ensures w & (1 << 6) == 0 && w & (1 << 10) == 0 && w & (1 << 14) == 0 && w & (1 << 18) == 0 && w & (1 << 21) == 0
    ensures w & (1 << 3) == 0 && w & (1 << 4) == 0 && w & (1 << 25) == 0 && w & (1 << 26) == 0
    ensures w & (1 << 20) != 0
  {
    var r := c[..3];
    RaisedIncrease(r, d);
    NotBoth(Closes(r)); NotBoth(Highs(r)); NotBoth(Lows(r)); NotBoth(Opens(r)); NotBoth(PriceSums(r));
    AllEqual(BodySizes(r)); AllEqual(Ranges(r));
    CloseBits(w, c); HighBits(w, c); LowBits(w, c); OpenBits(w, c);
    BodyBits(w, c); PivotBits(w, c); RangeBits(w, c); PeakBit(w, c);
  }

  /** Bits that bring others with them, and bits that shut others out, whatever the prices. */
  lemma BitsImply(w: bv32, c: seq<BarOHLC>)
    requires |c| >= 3 && Describes(w, c)
    ensures w & (1 << 1) != 0 ==> w & (1 << 2) != 0
    ensures w & (1 << 30) != 0 ==> w & (1 << 31) != 0
    ensures w & (1 << 2) != 0 ==> w & (1 << 3) == 0
    ensures w & (1 << 11) != 0 || w & (1 << 14) != 0 ==> w & (1 << 20) != 0
    ensures !(w & (1 << 0) != 0 && w & (1 << 5) != 0) && !(w & (1 << 6) != 0 && w & (1 << 7) != 0)
  {
    SizesAreNotNegative(c[0]); SizesAreNotNegative(c[1]); SizesAreNotNegative(c[2]);
    Triple(c);
    DirectionBits(w, c); CloseBits(w, c); HighBits(w, c); LowBits(w, c); BodyBits(w, c);
    PeakBit(w, c); SumBits(w, c); LatestWickBits(w, c); MiddleWickBits(w, c);
    Ordered(BodySizes(c[..3])); Ordered(Closes(c[..3]));
  }

  /** A range inside that of one of the others is at no peak. */
  lemma InsideIsNoPeak(w: bv32, c: seq<BarOHLC>, i: nat)
    requires |c| >= 3 && Describes(w, c) && 1 <= i < 3
    requires c[i].low <= c[0].low && c[0].high <= c[i].high
    ensures w & (1 << 20) == 0
  {
    PeakBit(w, c);
    assert Highs(c[..3])[i] == c[i].high && Lows(c[..3])[i] == c[i].low;
  }

  /** More of them where the body of every bar lies within its range. */
  lemma BitsOfWellFormed(w: bv32, c: seq<BarOHLC>)
    requires |c| >= 3 && Describes(w, c) && AllWellFormed(c)
    ensures w & (1 << 27) != 0 ==> w & (1 << 29) != 0
    ensures w & (1 << 8) != 0 ==> w & (1 << 17) != 0 && w & (1 << 16) == 0
    ensures w & (1 << 12) != 0 ==> w & (1 << 16) != 0 && w & (1 << 17) == 0
    ensures w & (1 << 23) != 0 ==> w & (1 << 24) == 0 && w & (1 << 25) == 0
  {
    SizesAreNotNegative(c[0]); SizesAreNotNegative(c[1]); SizesAreNotNegative(c[2]);
    PlaceBits(w, c); SumBits(w, c); LatestWickBits(w, c); RangeBits(w, c);
    Ordered(Ranges(c[..3]));
  }
}
