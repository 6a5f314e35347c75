/** The word of patterns over three candles: PatternCandle3 of Pattern.struct.h. */
module ThreeCandles {
  import opened Common
  import opened Bars
  import opened PatternWords

  /** The bits of a word for three candles, the latest first. */
  datatype Pattern =
    | Bears | Body0DblSum | Body0GtSum | BodyDec | BodyInc | Bulls | CloseDec | CloseInc | High0LtLow2 | High1LtPp
    | HighDec | HighInc | Low0GtHigh2 | Low1GtPp | LowDec | LowInc | Open0GtHigh2 | Open0LtLow2 | OpenDec | OpenInc
    | Peak | PpDec | PpInc | Range0GtSum | Range1GtSum | RangeDec | RangeInc | Wicks0DblSum | Wicks0GtBody
    | Wicks0GtSum | Wicks1DblBody | Wicks1GtBody

  /** The pattern whose enum value is 1 << i. */
  function Enum(i: nat): Pattern
    requires i < 32
  {
    match i
    case 0 => Bears
    case 1 => Body0DblSum
    case 2 => Body0GtSum
    case 3 => BodyDec
    case 4 => BodyInc
    case 5 => Bulls
    case 6 => CloseDec
    case 7 => CloseInc
    case 8 => High0LtLow2
    case 9 => High1LtPp
    case 10 => HighDec
    case 11 => HighInc
    case 12 => Low0GtHigh2
    case 13 => Low1GtPp
    case 14 => LowDec
    case 15 => LowInc
    case 16 => Open0GtHigh2
    case 17 => Open0LtLow2
    case 18 => OpenDec
    case 19 => OpenInc
    case 20 => Peak
    case 21 => PpDec
    case 22 => PpInc
    case 23 => Range0GtSum
    case 24 => Range1GtSum
    case 25 => RangeDec
    case 26 => RangeInc
    case 27 => Wicks0DblSum
    case 28 => Wicks0GtBody
    case 29 => Wicks0GtSum
    case 30 => Wicks1DblBody
    case _ => Wicks1GtBody
  }

  /** The position of a pattern in the word. */
  function Bit(p: Pattern): (i: nat)
    ensures i < 32 && Enum(i) == p
  {
    match p
    case Bears => 0
    case Body0DblSum => 1
    case Body0GtSum => 2
    case BodyDec => 3
    case BodyInc => 4
    case Bulls => 5
    case CloseDec => 6
    case CloseInc => 7
    case High0LtLow2 => 8
    case High1LtPp => 9
    case HighDec => 10
    case HighInc => 11
    case Low0GtHigh2 => 12
    case Low1GtPp => 13
    case LowDec => 14
    case LowInc => 15
    case Open0GtHigh2 => 16
    case Open0LtLow2 => 17
    case OpenDec => 18
    case OpenInc => 19
    case Peak => 20
    case PpDec => 21
    case PpInc => 22
    case Range0GtSum => 23
    case Range1GtSum => 24
    case RangeDec => 25
    case RangeInc => 26
    case Wicks0DblSum => 27
    case Wicks0GtBody => 28
    case Wicks0GtSum => 29
    case Wicks1DblBody => 30
    case Wicks1GtBody => 31
  }

  predicate Check(p: Pattern, c: seq<BarOHLC>)
    requires |c| >= 3
  {
    match p
    case Bears =>
      c[0].IsBear() && c[1].IsBear() && c[2].IsBear()
    case Body0DblSum =>
      c[0].GetBodyAbs() > (c[1].GetBodyAbs() + c[2].GetBodyAbs()) * 2.0
    case Body0GtSum =>
      c[0].GetBodyAbs() > c[1].GetBodyAbs() + c[2].GetBodyAbs()
    case BodyDec =>
      c[0].GetBodyAbs() < c[1].GetBodyAbs() && c[1].GetBodyAbs() < c[2].GetBodyAbs()
    case BodyInc =>
      c[0].GetBodyAbs() > c[1].GetBodyAbs() && c[1].GetBodyAbs() > c[2].GetBodyAbs()
    case Bulls =>
      c[0].IsBull() && c[1].IsBull() && c[2].IsBull()
    case CloseDec =>
      c[0].close < c[1].close && c[1].close < c[2].close
    case CloseInc =>
      c[0].close > c[1].close && c[1].close > c[2].close
    case High0LtLow2 =>
      c[0].high < c[2].low
    case High1LtPp =>
      c[1].high < Min(c[0].GetPivot(), c[2].GetPivot())
    case HighDec =>
      c[0].high < c[1].high && c[1].high < c[2].high
    case HighInc =>
      c[0].high > c[1].high && c[1].high > c[2].high
    case Low0GtHigh2 =>
      c[0].low > c[2].high
    case Low1GtPp =>
      c[1].low > Max(c[0].GetPivot(), c[2].GetPivot())
    case LowDec =>
      c[0].low < c[1].low && c[1].low < c[2].low
    case LowInc =>
      c[0].low > c[1].low && c[1].low > c[2].low
    case Open0GtHigh2 =>
      c[0].open > c[2].high
    case Open0LtLow2 =>
      c[0].open < c[2].low
    case OpenDec =>
      c[0].open < c[1].open && c[1].open < c[2].open
    case OpenInc =>
      c[0].open > c[1].open && c[1].open > c[2].open
    case Peak =>
      c[0].high > Max(c[1].high, c[2].high) || c[0].low < Min(c[1].low, c[2].low)
    case PpDec =>
      c[0].GetPivot() < c[1].GetPivot() && c[1].GetPivot() < c[2].GetPivot()
    case PpInc =>
      c[0].GetPivot() > c[1].GetPivot() && c[1].GetPivot() > c[2].GetPivot()
    case Range0GtSum =>
      c[0].GetRange() > (c[1].GetRange() + c[2].GetRange())
    case Range1GtSum =>
      c[1].GetRange() > (c[0].GetRange() + c[2].GetRange())
    case RangeDec =>
      c[0].GetRange() < c[1].GetRange() && c[1].GetRange() < c[2].GetRange()
    case RangeInc =>
      c[0].GetRange() > c[1].GetRange() && c[1].GetRange() > c[2].GetRange()
    case Wicks0DblSum =>
      c[0].GetWickSum() > (c[1].GetWickSum() + c[2].GetWickSum()) * 2.0
    case Wicks0GtBody =>
      c[0].GetWickSum() > c[1].GetBodyAbs() + c[2].GetBodyAbs()
    case Wicks0GtSum =>
      c[0].GetWickSum() > c[1].GetWickSum() + c[2].GetWickSum()
    case Wicks1DblBody =>
      c[1].GetWickSum() > (c[0].GetBodyAbs() + c[2].GetBodyAbs()) * 2.0
    case Wicks1GtBody =>
      c[1].GetWickSum() > c[0].GetBodyAbs() + c[2].GetBodyAbs()
  }

  /** The bit that stands for p in the word of the mirrored candles. */
  function Swap(p: Pattern): Pattern {
    match p
    case Bears => Bulls
    case Bulls => Bears
    case CloseDec => CloseInc
    case CloseInc => CloseDec
    case High0LtLow2 => Low0GtHigh2
    case Low0GtHigh2 => High0LtLow2
    case High1LtPp => Low1GtPp
    case Low1GtPp => High1LtPp
    case HighDec => LowInc
    case LowInc => HighDec
    case HighInc => LowDec
    case LowDec => HighInc
    case Open0GtHigh2 => Open0LtLow2
    case Open0LtLow2 => Open0GtHigh2
    case OpenDec => OpenInc
    case OpenInc => OpenDec
    case PpDec => PpInc
    case PpInc => PpDec
    case _ => p
  }

  /** The word that says of each pattern whether the candles show it. */
  ghost predicate Describes(w: bv32, c: seq<BarOHLC>)
    requires |c| >= 3
  {
    forall p: Pattern :: On(w, Bit(p)) <==> Check(p, c)
  }

  method NewPatternCandle3(c: seq<BarOHLC>) returns (word: PatternCandle)
    requires |c| >= 3
    ensures fresh(word) && Describes(word.pattern, c)
  {
    word := new PatternCandle(0);
    ghost var check := (i: nat) => i < 32 && Check(Enum(i), c);
    forall k: nat | k < 32 ensures !On(0, k) { NothingOn(k); }
    for i := 0 to 32
      invariant fresh(word)
      invariant forall k :: 0 <= k < 32 ==> (On(word.pattern, k) <==> k < i && check(k))
    {
      word.SetNext(i, Check(Enum(i), c), check);
    }
  }

  // ---------------------------------------------------------------------------------------------
  // Mirrored candles.

  lemma MirrorBodies(p: Pattern, c: seq<BarOHLC>, m: seq<BarOHLC>, k: real)
    requires p == Body0DblSum || p == Body0GtSum || p == BodyDec || p == BodyInc
    requires |c| >= 3 && m == MirrorAll(c, k)
    ensures Check(p, m) <==> Check(Swap(p), c)
  {
    MirrorBody(c[0], k); MirrorBody(c[1], k); MirrorBody(c[2], k);
  }

  lemma MirrorRanges(p: Pattern, c: seq<BarOHLC>, m: seq<BarOHLC>, k: real)
    requires p == Range0GtSum || p == Range1GtSum || p == RangeDec || p == RangeInc
    requires |c| >= 3 && m == MirrorAll(c, k)
    ensures Check(p, m) <==> Check(Swap(p), c)
  {
    MirrorRange(c[0], k); MirrorRange(c[1], k); MirrorRange(c[2], k);
  }

  lemma MirrorAllWicks(p: Pattern, c: seq<BarOHLC>, m: seq<BarOHLC>, k: real)
    requires p == Wicks0DblSum || p == Wicks0GtBody || p == Wicks0GtSum || p == Wicks1DblBody || p == Wicks1GtBody
    requires |c| >= 3 && m == MirrorAll(c, k)
    ensures Check(p, m) <==> Check(Swap(p), c)
  {
    MirrorWicks(c[0], k); MirrorWicks(c[1], k); MirrorWicks(c[2], k);
    MirrorBody(c[0], k); MirrorBody(c[1], k); MirrorBody(c[2], k);
  }

  lemma MirrorPivots(p: Pattern, c: seq<BarOHLC>, m: seq<BarOHLC>, k: real)
    requires p == High1LtPp || p == Low1GtPp || p == PpDec || p == PpInc
    requires |c| >= 3 && m == MirrorAll(c, k)
    ensures Check(p, m) <==> Check(Swap(p), c)
  {
    MirrorAverages(c[0], k); MirrorAverages(c[1], k); MirrorAverages(c[2], k);
  }

  lemma MirrorHighs(p: Pattern, c: seq<BarOHLC>, m: seq<BarOHLC>, k: real)
    requires p == High0LtLow2 || p == HighDec || p == HighInc || p == Low0GtHigh2 || p == LowDec || p == LowInc ||
      p == Peak
    requires |c| >= 3 && m == MirrorAll(c, k)
    ensures Check(p, m) <==> Check(Swap(p), c)
  {
  }

  lemma MirrorOpens(p: Pattern, c: seq<BarOHLC>, m: seq<BarOHLC>, k: real)
    requires p == Bears || p == Bulls || p == CloseDec || p == CloseInc || p == Open0GtHigh2 || p == Open0LtLow2 ||
      p == OpenDec || p == OpenInc
    requires |c| >= 3 && m == MirrorAll(c, k)
    ensures Check(p, m) <==> Check(Swap(p), c)
  {
    MirrorBody(c[0], k); MirrorBody(c[1], k); MirrorBody(c[2], k);
  }

  /** A pattern shows in the mirrored candles exactly when its counterpart shows in the candles. */
  lemma MirrorCheck(p: Pattern, c: seq<BarOHLC>, m: seq<BarOHLC>, k: real)
    requires |c| >= 3 && m == MirrorAll(c, k)
    ensures Check(p, m) <==> Check(Swap(p), c)
  {
    match p
    case Body0DblSum | Body0GtSum | BodyDec | BodyInc => MirrorBodies(p, c, m, k);
    case Range0GtSum | Range1GtSum | RangeDec | RangeInc => MirrorRanges(p, c, m, k);
    case Wicks0DblSum | Wicks0GtBody | Wicks0GtSum | Wicks1DblBody | Wicks1GtBody => MirrorAllWicks(p, c, m, k);
    case High1LtPp | Low1GtPp | PpDec | PpInc => MirrorPivots(p, c, m, k);
    case High0LtLow2 | HighDec | HighInc | Low0GtHigh2 | LowDec | LowInc | Peak => MirrorHighs(p, c, m, k);
    case Bears | Bulls | CloseDec | CloseInc | Open0GtHigh2 | Open0LtLow2 | OpenDec |
       OpenInc => MirrorOpens(p, c, m, k);
  }

  lemma SwapTwice(p: Pattern)
    ensures Swap(Swap(p)) == p
  {
  }

  /** The word of the mirrored candles is the word of the candles with its bits permuted. */
  lemma MirrorWord(v: bv32, w: bv32, c: seq<BarOHLC>, k: real)
    requires |c| >= 3 && Describes(v, c) && Describes(w, MirrorAll(c, k))
    ensures forall p: Pattern :: Swap(Swap(p)) == p
    ensures forall p: Pattern :: On(w, Bit(p)) <==> On(v, Bit(Swap(p)))
  {
    var m := MirrorAll(c, k);
    forall p: Pattern ensures Swap(Swap(p)) == p {
      SwapTwice(p);
    }
    forall p: Pattern ensures On(w, Bit(p)) <==> On(v, Bit(Swap(p))) {
      MirrorCheck(p, c, m, k);
    }
  }
}
