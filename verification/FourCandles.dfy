/** The word of patterns over four candles: PatternCandle4 of Pattern.struct.h. */
module FourCandles {
  import opened Common
  import opened Bars
  import opened PatternWords
  import ThreeCandles

  /** The bits of a word for four candles, the latest first. */
  datatype Pattern =
    | Bears | BearCont | BearRev | BebuMixed | Body0GtSum | BodyDec | BodyInc | Bulls | BullCont | BullRev
    | CloseDec | CloseInc | HighDec | HighInc | InvHammer | LowDec | LowInc | OpenDec | OpenInc | Peak | PpDec
    | PpInc | Range0GtSum | RangeDec | RangeInc | ShootStar | TimeGaps | Wicks0GtSum | WicksDec | WicksGtBody
    | WicksInc | WicksUpper

  /** The pattern whose enum value is 1 << i. */
  function Enum(i: nat): Pattern
    requires i < 32
  {
    match i
    case 0 => Bears
    case 1 => BearCont
    case 2 => BearRev
    case 3 => BebuMixed
    case 4 => Body0GtSum
    case 5 => BodyDec
    case 6 => BodyInc
    case 7 => Bulls
    case 8 => BullCont
    case 9 => BullRev
    case 10 => CloseDec
    case 11 => CloseInc
    case 12 => HighDec
    case 13 => HighInc
    case 14 => InvHammer
    case 15 => LowDec
    case 16 => LowInc
    case 17 => OpenDec
    case 18 => OpenInc
    case 19 => Peak
    case 20 => PpDec
    case 21 => PpInc
    case 22 => Range0GtSum
    case 23 => RangeDec
    case 24 => RangeInc
    case 25 => ShootStar
    case 26 => TimeGaps
    case 27 => Wicks0GtSum
    case 28 => WicksDec
    case 29 => WicksGtBody
    case 30 => WicksInc
    case _ => WicksUpper
  }

  /** The position of a pattern in the word. */
  function Bit(p: Pattern): (i: nat)
    ensures i < 32 && Enum(i) == p
  {
    match p
    case Bears => 0
    case BearCont => 1
    case BearRev => 2
    case BebuMixed => 3
    case Body0GtSum => 4
    case BodyDec => 5
    case BodyInc => 6
    case Bulls => 7
    case BullCont => 8
    case BullRev => 9
    case CloseDec => 10
    case CloseInc => 11
    case HighDec => 12
    case HighInc => 13
    case InvHammer => 14
    case LowDec => 15
    case LowInc => 16
    case OpenDec => 17
    case OpenInc => 18
    case Peak => 19
    case PpDec => 20
    case PpInc => 21
    case Range0GtSum => 22
    case RangeDec => 23
    case RangeInc => 24
    case ShootStar => 25
    case TimeGaps => 26
    case Wicks0GtSum => 27
    case WicksDec => 28
    case WicksGtBody => 29
    case WicksInc => 30
    case WicksUpper => 31
  }

  predicate Check(p: Pattern, c: seq<BarOHLC>, body0GtSum: bool)
    requires |c| >= 4
  {
    match p
    case Bears =>
      c[0].IsBear() && c[1].IsBear() && c[2].IsBear() && c[3].IsBear()
    case BearCont =>
      c[0].open > c[0].close && c[0].low < c[3].low && body0GtSum && c[1].open < c[1].close && c[2].open < c[2].close
      && c[3].open > c[3].close && c[3].low < Min(c[2].low, c[1].low)
    case BearRev =>
      c[0].open > c[0].close && c[0].GetMinOC() < Min(Min(c[1].low, c[2].low), c[3].low) && c[1].open > c[1].close
      && c[2].open < c[2].close && c[3].open < c[3].close
    case BebuMixed =>
      c[0].GetType() != c[1].GetType() && c[1].GetType() != c[2].GetType() && c[2].GetType() != c[3].GetType()
    case Body0GtSum =>
      c[0].GetBodyAbs() > c[1].GetBodyAbs() + c[2].GetBodyAbs() + c[3].GetBodyAbs()
    case BodyDec =>
      c[0].GetBodyAbs() < c[1].GetBodyAbs() && c[1].GetBodyAbs() < c[2].GetBodyAbs()
      && c[2].GetBodyAbs() < c[3].GetBodyAbs()
    case BodyInc =>
      c[0].GetBodyAbs() > c[1].GetBodyAbs() && c[1].GetBodyAbs() > c[2].GetBodyAbs()
      && c[2].GetBodyAbs() > c[3].GetBodyAbs()
    case Bulls =>
      c[0].IsBull() && c[1].IsBull() && c[2].IsBull() && c[3].IsBull()
    case BullCont =>
      c[0].open < c[0].close && c[0].high > c[3].high && body0GtSum && c[1].open > c[1].close
      && c[2].open > c[2].close && c[3].open < c[3].close && c[3].high > Max(c[2].high, c[1].high)
    case BullRev =>
      c[0].open < c[0].close && c[0].GetMaxOC() > Max(Max(c[1].high, c[2].high), c[3].high) && c[1].open < c[1].close
      && c[2].open > c[2].close && c[3].open > c[3].close
    case CloseDec =>
      c[0].close < c[1].close && c[1].close < c[2].close && c[2].close < c[3].close
    case CloseInc =>
      c[0].close > c[1].close && c[1].close > c[2].close && c[2].close > c[3].close
    case HighDec =>
      c[0].high < c[1].high && c[1].high < c[2].high && c[2].high < c[3].high
    case HighInc =>
      c[0].high > c[1].high && c[1].high > c[2].high && c[2].high > c[3].high
    case InvHammer =>
      c[0].open < c[0].close && c[1].open < c[1].close && c[2].open > c[2].close && c[3].open > c[3].close
      && Max(c[1].GetWickUpper(), c[2].GetWickUpper()) > c[0].GetWickSum() + c[3].GetWickSum()
    case LowDec =>
      c[0].low < c[1].low && c[1].low < c[2].low && c[2].low < c[3].low
    case LowInc =>
      c[0].low > c[1].low && c[1].low > c[2].low && c[2].low > c[3].low
    case OpenDec =>
      c[0].open < c[1].open && c[1].open < c[2].open && c[2].open < c[3].open
    case OpenInc =>
      c[0].open > c[1].open && c[1].open > c[2].open && c[2].open > c[3].open
    case Peak =>
      c[0].high > Max(Max(c[1].high, c[2].high), c[3].high) || c[0].low < Min(Min(c[1].low, c[2].low), c[3].low)
    case PpDec =>
      c[0].GetPivot() < c[1].GetPivot() && c[1].GetPivot() < c[2].GetPivot() && c[2].GetPivot() < c[3].GetPivot()
    case PpInc =>
      c[0].GetPivot() > c[1].GetPivot() && c[1].GetPivot() > c[2].GetPivot() && c[2].GetPivot() > c[3].GetPivot()
    case Range0GtSum =>
      c[0].GetRange() > c[1].GetRange() + c[2].GetRange() + c[3].GetRange()
    case RangeDec =>
      c[0].GetRange() < c[1].GetRange() && c[1].GetRange() < c[2].GetRange() && c[2].GetRange() < c[3].GetRange()
    case RangeInc =>
      c[0].GetRange() > c[1].GetRange() && c[1].GetRange() > c[2].GetRange() && c[2].GetRange() > c[3].GetRange()
    case ShootStar =>
      c[0].open > c[0].close && c[1].open > c[1].close && c[2].open < c[2].close && c[3].open < c[3].close
      && Max(c[1].GetWickLower(), c[2].GetWickLower()) > c[0].GetWickSum() + c[3].GetWickSum()
    case TimeGaps =>
      Quotient(c[0].time - c[1].time, 120) != Quotient(c[1].time - c[2].time, 120)
      || Quotient(c[1].time - c[2].time, 120) != Quotient(c[2].time - c[3].time, 120)
    case Wicks0GtSum =>
      c[0].GetWickSum() > c[1].GetWickSum() + c[2].GetWickSum() + c[3].GetWickSum()
    case WicksDec =>
      c[0].GetWickSum() < c[1].GetWickSum() && c[1].GetWickSum() < c[2].GetWickSum()
      && c[2].GetWickSum() < c[3].GetWickSum()
    case WicksGtBody =>
      c[0].GetWickSum() + c[1].GetWickSum() + c[2].GetWickSum() + c[3].GetWickSum()
        > c[0].GetBodyAbs() + c[1].GetBodyAbs() + c[2].GetBodyAbs() + c[3].GetBodyAbs()
    case WicksInc =>
      c[0].GetWickSum() > c[1].GetWickSum() && c[1].GetWickSum() > c[2].GetWickSum()
      && c[2].GetWickSum() > c[3].GetWickSum()
    case WicksUpper =>
      c[0].GetWickUpper() + c[1].GetWickUpper() + c[2].GetWickUpper() + c[3].GetWickUpper()
        > c[0].GetWickLower() + c[1].GetWickLower() + c[2].GetWickLower() + c[3].GetWickLower()
  }

  /** The bit that stands for p in the word of the mirrored candles. */
  function Swap(p: Pattern): Pattern {
    match p
    case Bears => Bulls
    case Bulls => Bears
    case BearCont => BullCont
    case BullCont => BearCont
    case BearRev => BullRev
    case BullRev => BearRev
    case CloseDec => CloseInc
    case CloseInc => CloseDec
    case HighDec => LowInc
    case LowInc => HighDec
    case HighInc => LowDec
    case LowDec => HighInc
    case InvHammer => ShootStar
    case ShootStar => InvHammer
    case OpenDec => OpenInc
    case OpenInc => OpenDec
    case PpDec => PpInc
    case PpInc => PpDec
    case _ => p
  }

  /** The check as the constructor makes it, the three-candle bit read off a word. */
  predicate Holds(p: Pattern, c: seq<BarOHLC>)
    requires |c| >= 4
  {
    Check(p, c, ThreeCandles.Check(ThreeCandles.Body0GtSum, c))
  }

  /** The word that says of each pattern whether the candles show it. */
  ghost predicate Describes(w: bv32, c: seq<BarOHLC>)
    requires |c| >= 4
  {
    forall p: Pattern :: On(w, Bit(p)) <==> Holds(p, c)
  }

  /** CheckPattern: it builds the word of the three latest candles to read one bit of it. */
  method CheckPattern(p: Pattern, c: seq<BarOHLC>) returns (shown: bool)
    requires |c| >= 4
    ensures shown <==> Holds(p, c)
  {
    var c3 := ThreeCandles.NewPatternCandle3(c);
    var flag := 1 << 2;
    assert flag == Mask(ThreeCandles.Bit(ThreeCandles.Body0GtSum));
    shown := Check(p, c, c3.CheckPattern(flag));
  }

  method NewPatternCandle4(c: seq<BarOHLC>) returns (word: PatternCandle)
    requires |c| >= 4
    ensures fresh(word) && Describes(word.pattern, c)
  {
    word := new PatternCandle(0);
    ghost var check := (i: nat) => i < 32 && Holds(Enum(i), c);
    forall k: nat | k < 32 ensures !On(0, k) { NothingOn(k); }
    for i := 0 to 32
      invariant fresh(word)
      invariant forall k :: 0 <= k < 32 ==> (On(word.pattern, k) <==> k < i && check(k))
    {
      var shown := CheckPattern(Enum(i), c);
      word.SetNext(i, shown, check);
    }
  }

  // ---------------------------------------------------------------------------------------------
  // Mirrored candles.

  lemma MirrorBodies(p: Pattern, c: seq<BarOHLC>, m: seq<BarOHLC>, k: real)
    requires p == Body0GtSum || p == BodyDec || p == BodyInc
    requires |c| >= 4 && m == MirrorAll(c, k)
    ensures Holds(p, m) <==> Holds(Swap(p), c)
  {
    MirrorBody(c[0], k); MirrorBody(c[1], k); MirrorBody(c[2], k); MirrorBody(c[3], k);
  }

  lemma MirrorRanges(p: Pattern, c: seq<BarOHLC>, m: seq<BarOHLC>, k: real)
    requires p == Range0GtSum || p == RangeDec || p == RangeInc
    requires |c| >= 4 && m == MirrorAll(c, k)
    ensures Holds(p, m) <==> Holds(Swap(p), c)
  {
    MirrorRange(c[0], k); MirrorRange(c[1], k); MirrorRange(c[2], k); MirrorRange(c[3], k);
  }

  lemma MirrorAllWicks(p: Pattern, c: seq<BarOHLC>, m: seq<BarOHLC>, k: real)
    requires p == Wicks0GtSum || p == WicksDec || p == WicksInc
    requires |c| >= 4 && m == MirrorAll(c, k)
    ensures Holds(p, m) <==> Holds(Swap(p), c)
  {
    MirrorWicks(c[0], k); MirrorWicks(c[1], k); MirrorWicks(c[2], k); MirrorWicks(c[3], k);
  }

  lemma MirrorWicksGtBody(c: seq<BarOHLC>, m: seq<BarOHLC>, k: real)
    requires |c| >= 4 && m == MirrorAll(c, k)
    ensures Holds(WicksGtBody, m) <==> Holds(Swap(WicksGtBody), c)
  {
    MirrorWicks(c[0], k); MirrorWicks(c[1], k); MirrorWicks(c[2], k); MirrorWicks(c[3], k);
    MirrorBody(c[0], k); MirrorBody(c[1], k); MirrorBody(c[2], k); MirrorBody(c[3], k);
  }

  lemma MirrorPivots(p: Pattern, c: seq<BarOHLC>, m: seq<BarOHLC>, k: real)
    requires p == PpDec || p == PpInc
    requires |c| >= 4 && m == MirrorAll(c, k)
    ensures Holds(p, m) <==> Holds(Swap(p), c)
  {
    MirrorAverages(c[0], k); MirrorAverages(c[1], k); MirrorAverages(c[2], k); MirrorAverages(c[3], k);
  }

  lemma MirrorContinuations(p: Pattern, c: seq<BarOHLC>, m: seq<BarOHLC>, k: real)
    requires p == BearCont || p == BullCont
    requires |c| >= 4 && m == MirrorAll(c, k)
    ensures Holds(p, m) <==> Holds(Swap(p), c)
  {
    MirrorBody(c[0], k); MirrorBody(c[1], k); MirrorBody(c[2], k); MirrorBody(c[3], k);
  }

  lemma MirrorReversals(p: Pattern, c: seq<BarOHLC>, m: seq<BarOHLC>, k: real)
    requires p == BearRev || p == BullRev
    requires |c| >= 4 && m == MirrorAll(c, k)
    ensures Holds(p, m) <==> Holds(Swap(p), c)
  {
    MirrorOC(c[0], k); MirrorOC(c[1], k); MirrorOC(c[2], k); MirrorOC(c[3], k);
  }

  lemma MirrorSpikes(p: Pattern, c: seq<BarOHLC>, m: seq<BarOHLC>, k: real)
    requires p == InvHammer || p == ShootStar
    requires |c| >= 4 && m == MirrorAll(c, k)
    ensures Holds(p, m) <==> Holds(Swap(p), c)
  {
    MirrorWicks(c[0], k); MirrorWicks(c[1], k); MirrorWicks(c[2], k); MirrorWicks(c[3], k);
  }

  lemma MirrorDirections(p: Pattern, c: seq<BarOHLC>, m: seq<BarOHLC>, k: real)
    requires p == Bears || p == BebuMixed || p == Bulls || p == TimeGaps
    requires |c| >= 4 && m == MirrorAll(c, k)
    ensures Holds(p, m) <==> Holds(Swap(p), c)
  {
    MirrorType(c[0], k); MirrorType(c[1], k); MirrorType(c[2], k); MirrorType(c[3], k);
  }

  lemma MirrorHighs(p: Pattern, c: seq<BarOHLC>, m: seq<BarOHLC>, k: real)
    requires p == HighDec || p == HighInc || p == LowDec || p == LowInc || p == Peak
    requires |c| >= 4 && m == MirrorAll(c, k)
    ensures Holds(p, m) <==> Holds(Swap(p), c)
  {
  }

  lemma MirrorOpens(p: Pattern, c: seq<BarOHLC>, m: seq<BarOHLC>, k: real)
    requires p == CloseDec || p == CloseInc || p == OpenDec || p == OpenInc
    requires |c| >= 4 && m == MirrorAll(c, k)
    ensures Holds(p, m) <==> Holds(Swap(p), c)
  {
  }

  /** A pattern shows in the mirrored candles exactly when its counterpart shows in the candles. */
  lemma MirrorCheck(p: Pattern, c: seq<BarOHLC>, m: seq<BarOHLC>, k: real)
    requires |c| >= 4 && m == MirrorAll(c, k)
    requires p != WicksUpper
    ensures Holds(p, m) <==> Holds(Swap(p), c)
  {
    match p
    case Body0GtSum | BodyDec | BodyInc => MirrorBodies(p, c, m, k);
    case Range0GtSum | RangeDec | RangeInc => MirrorRanges(p, c, m, k);
    case Wicks0GtSum | WicksDec | WicksInc => MirrorAllWicks(p, c, m, k);
    case WicksGtBody => MirrorWicksGtBody(c, m, k);
    case PpDec | PpInc => MirrorPivots(p, c, m, k);
    case BearCont | BullCont => MirrorContinuations(p, c, m, k);
    case BearRev | BullRev => MirrorReversals(p, c, m, k);
    case InvHammer | ShootStar => MirrorSpikes(p, c, m, k);
    case Bears | BebuMixed | Bulls | TimeGaps => MirrorDirections(p, c, m, k);
    case HighDec | HighInc | LowDec | LowInc | Peak => MirrorHighs(p, c, m, k);
    case CloseDec | CloseInc | OpenDec | OpenInc => MirrorOpens(p, c, m, k);
  }

  function UpperWicks(c: seq<BarOHLC>): real
    requires |c| >= 4
  {
    c[0].GetWickUpper() + c[1].GetWickUpper() + c[2].GetWickUpper() + c[3].GetWickUpper()
  }

  function LowerWicks(c: seq<BarOHLC>): real
    requires |c| >= 4
  {
    c[0].GetWickLower() + c[1].GetWickLower() + c[2].GetWickLower() + c[3].GetWickLower()
  }

  /** The exception: this bit becomes the opposite comparison, and stays off when the two sums are equal. */
  lemma MirrorUpperWicks(c: seq<BarOHLC>, m: seq<BarOHLC>, k: real)
    requires |c| >= 4 && m == MirrorAll(c, k)
    ensures Holds(WicksUpper, m) <==> LowerWicks(c) > UpperWicks(c)
    ensures Holds(WicksUpper, m) <==> !Holds(WicksUpper, c) && LowerWicks(c) != UpperWicks(c)
  {
    MirrorWicks(c[0], k); MirrorWicks(c[1], k); MirrorWicks(c[2], k); MirrorWicks(c[3], k);
  }

  lemma SwapTwice(p: Pattern)
    ensures Swap(Swap(p)) == p && (Swap(p) == WicksUpper <==> p == WicksUpper)
  {
  }

  /** The word of the mirrored candles is the word of the candles with its bits permuted, one bit apart. */
  lemma MirrorWord(v: bv32, w: bv32, c: seq<BarOHLC>, k: real)
    requires |c| >= 4 && Describes(v, c) && Describes(w, MirrorAll(c, k))
    ensures forall p: Pattern :: Swap(Swap(p)) == p && (Swap(p) == WicksUpper <==> p == WicksUpper)
    ensures forall p: Pattern :: p != WicksUpper ==> (On(w, Bit(p)) <==> On(v, Bit(Swap(p))))
    ensures On(w, Bit(WicksUpper)) <==> !On(v, Bit(WicksUpper)) && LowerWicks(c) != UpperWicks(c)
  {
    var m := MirrorAll(c, k);
    forall p: Pattern ensures Swap(Swap(p)) == p && (Swap(p) == WicksUpper <==> p == WicksUpper) {
      SwapTwice(p);
    }
    forall p: Pattern | p != WicksUpper ensures On(w, Bit(p)) <==> On(v, Bit(Swap(p))) {
      MirrorCheck(p, c, m, k);
    }
    MirrorUpperWicks(c, m, k);
  }
}
