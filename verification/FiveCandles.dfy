/** The word of patterns over five candles: PatternCandle5 of Pattern.struct.h. */
module FiveCandles {
  import opened Common
  import opened Bars
  import opened PatternWords

  /** The bits of a word for five candles, the latest first. */
  datatype Pattern =
    | Body0DiffPeak | Body0GtSum | Close0DiffPeak | Close0Peak | Close2Peak | High0DiffPeak | High0Peak | High2Peak
    | HornBottoms | HornTops | LineStrike | Low0DiffPeak | Low0Peak | Low2Peak | MatHold | Open0DiffPeak
    | Open0Peak | Open2Peak | Open4Peak | Pp0DiffPeak | Pp0Peak | Pp2Peak | PpDec | PpDecInc | PpInc | PpIncDec
    | Range0DiffPeak | Range0GtSum | Reversal | Wicks0DiffPeak | Wicks0Peak | Wicks2Peak

  /** The pattern whose enum value is 1 << i. */
  function Enum(i: nat): Pattern
    requires i < 32
  {
    match i
    case 0 => Body0DiffPeak
    case 1 => Body0GtSum
    case 2 => Close0DiffPeak
    case 3 => Close0Peak
    case 4 => Close2Peak
    case 5 => High0DiffPeak
    case 6 => High0Peak
    case 7 => High2Peak
    case 8 => HornBottoms
    case 9 => HornTops
    case 10 => LineStrike
    case 11 => Low0DiffPeak
    case 12 => Low0Peak
    case 13 => Low2Peak
    case 14 => MatHold
    case 15 => Open0DiffPeak
    case 16 => Open0Peak
    case 17 => Open2Peak
    case 18 => Open4Peak
    case 19 => Pp0DiffPeak
    case 20 => Pp0Peak
    case 21 => Pp2Peak
    case 22 => PpDec
    case 23 => PpDecInc
    case 24 => PpInc
    case 25 => PpIncDec
    case 26 => Range0DiffPeak
    case 27 => Range0GtSum
    case 28 => Reversal
    case 29 => Wicks0DiffPeak
    case 30 => Wicks0Peak
    case _ => Wicks2Peak
  }

  /** The position of a pattern in the word. */
  function Bit(p: Pattern): (i: nat)
    ensures i < 32 && Enum(i) == p
  {
    match p
    case Body0DiffPeak => 0
    case Body0GtSum => 1
    case Close0DiffPeak => 2
    case Close0Peak => 3
    case Close2Peak => 4
    case High0DiffPeak => 5
    case High0Peak => 6
    case High2Peak => 7
    case HornBottoms => 8
    case HornTops => 9
    case LineStrike => 10
    case Low0DiffPeak => 11
    case Low0Peak => 12
    case Low2Peak => 13
    case MatHold => 14
    case Open0DiffPeak => 15
    case Open0Peak => 16
    case Open2Peak => 17
    case Open4Peak => 18
    case Pp0DiffPeak => 19
    case Pp0Peak => 20
    case Pp2Peak => 21
    case PpDec => 22
    case PpDecInc => 23
    case PpInc => 24
    case PpIncDec => 25
    case Range0DiffPeak => 26
    case Range0GtSum => 27
    case Reversal => 28
    case Wicks0DiffPeak => 29
    case Wicks0Peak => 30
    case Wicks2Peak => 31
  }

  /** x is above all the others. */
  predicate Top(x: real, a: real, b: real, d: real, e: real) { x > Max(Max(Max(a, b), d), e) }

  /** x is below all the others. */
  predicate Bottom(x: real, a: real, b: real, d: real, e: real) { x < Min(Min(Min(a, b), d), e) }

  predicate Peak(x: real, a: real, b: real, d: real, e: real) { Top(x, a, b, d, e) || Bottom(x, a, b, d, e) }

  /** The latest step is longer than the one before it and the earliest one. */
  predicate DiffPeak(x0: real, x1: real, x2: real, x3: real, x4: real) {
    Abs(x1 - x0) > Max(Abs(x4 - x3), Abs(x2 - x1))
  }

  predicate Check(p: Pattern, c: seq<BarOHLC>)
    requires |c| >= 5
    decreases p == LineStrike || p == MatHold
  {
    match p
    case Body0DiffPeak =>
      DiffPeak(c[0].GetBody(), c[1].GetBody(), c[2].GetBody(), c[3].GetBody(), c[4].GetBody())
    case Body0GtSum =>
      c[0].GetBody() > c[1].GetBody() + c[2].GetBody() + c[3].GetBody() + c[4].GetBody()
    case Close0DiffPeak =>
      DiffPeak(c[0].close, c[1].close, c[2].close, c[3].close, c[4].close)
    case Close0Peak =>
      Peak(c[0].close, c[1].close, c[2].close, c[3].close, c[4].close)
    case Close2Peak =>
      Peak(c[2].close, c[1].close, c[0].close, c[3].close, c[4].close)
    case High0DiffPeak =>
      DiffPeak(c[0].high, c[1].high, c[2].high, c[3].high, c[4].high)
    case High0Peak =>
      Top(c[0].high, c[1].high, c[2].high, c[3].high, c[4].high)
    case High2Peak =>
      Top(c[2].high, c[1].high, c[0].high, c[3].high, c[4].high)
    case HornBottoms =>
      c[1].low < Min(Min(c[0].low, c[2].low), c[4].low) || c[3].low < Min(Min(c[0].low, c[2].low), c[4].low)
    case HornTops =>
      c[1].high > Max(Max(c[0].high, c[2].high), c[4].high) || c[3].high > Max(Max(c[0].high, c[2].high), c[4].high)
    case LineStrike =>
      (c[0].GetType() != c[1].GetType() && c[1].GetType() == c[2].GetType() && c[2].GetType() == c[3].GetType()
        && c[3].GetType() == c[4].GetType())
      && Check(Close0Peak, c)
    case Low0DiffPeak =>
      DiffPeak(c[0].low, c[1].low, c[2].low, c[3].low, c[4].low)
    case Low0Peak =>
      Bottom(c[0].low, c[1].low, c[2].low, c[3].low, c[4].low)
    case Low2Peak =>
      Bottom(c[2].low, c[1].low, c[0].low, c[3].low, c[4].low)
    case MatHold =>
      (c[1].GetType() == c[2].GetType() && c[2].GetType() == c[3].GetType() && c[0].GetType() == c[4].GetType()
        && c[0].GetType() != c[1].GetType())
      && Check(Close0Peak, c) && Check(Open4Peak, c)
    case Open0DiffPeak =>
      DiffPeak(c[0].open, c[1].open, c[2].open, c[3].open, c[4].open)
    case Open0Peak =>
      Peak(c[0].open, c[1].open, c[2].open, c[3].open, c[4].open)
    case Open2Peak =>
      Peak(c[2].open, c[1].open, c[0].open, c[3].open, c[4].open)
    case Open4Peak =>
      Peak(c[4].open, c[1].open, c[0].open, c[3].open, c[2].open)
    case Pp0DiffPeak =>
      DiffPeak(c[0].GetPivot(), c[1].GetPivot(), c[2].GetPivot(), c[3].GetPivot(), c[4].GetPivot())
    case Pp0Peak =>
      Peak(c[0].GetPivot(), c[1].GetPivot(), c[2].GetPivot(), c[3].GetPivot(), c[4].GetPivot())
    case Pp2Peak =>
      Peak(c[2].GetPivot(), c[1].GetPivot(), c[0].GetPivot(), c[3].GetPivot(), c[4].GetPivot())
    case PpDec =>
      c[0].GetPivot() < c[1].GetPivot() && c[1].GetPivot() < c[2].GetPivot() && c[2].GetPivot() < c[3].GetPivot()
      && c[3].GetPivot() < c[4].GetPivot()
    case PpDecInc =>
      c[3].GetPivot() < c[4].GetPivot() && c[0].GetPivot() > c[1].GetPivot()
    case PpInc =>
      c[0].GetPivot() > c[1].GetPivot() && c[1].GetPivot() > c[2].GetPivot() && c[2].GetPivot() > c[3].GetPivot()
      && c[3].GetPivot() > c[4].GetPivot()
    case PpIncDec =>
      c[3].GetPivot() > c[4].GetPivot() && c[0].GetPivot() < c[1].GetPivot()
    case Range0DiffPeak =>
      DiffPeak(c[0].GetRange(), c[1].GetRange(), c[2].GetRange(), c[3].GetRange(), c[4].GetRange())
    case Range0GtSum =>
      c[0].GetRange() > c[1].GetRange() + c[2].GetRange() + c[3].GetRange() + c[4].GetRange()
    case Reversal =>
      (c[0].GetType() == c[1].GetType() && c[2].GetType() == c[3].GetType() && c[3].GetType() == c[4].GetType()
        && c[1].GetType() != c[2].GetType())
      || (c[0].GetType() == c[1].GetType() && c[1].GetType() == c[2].GetType() && c[3].GetType() == c[4].GetType()
        && c[2].GetType() != c[3].GetType())
    case Wicks0DiffPeak =>
      DiffPeak(c[0].GetWickSum(), c[1].GetWickSum(), c[2].GetWickSum(), c[3].GetWickSum(), c[4].GetWickSum())
    case Wicks0Peak =>
      Peak(c[0].GetWickSum(), c[1].GetWickSum(), c[2].GetWickSum(), c[3].GetWickSum(), c[4].GetWickSum())
    case Wicks2Peak =>
      Peak(c[2].GetWickSum(), c[1].GetWickSum(), c[0].GetWickSum(), c[3].GetWickSum(), c[4].GetWickSum())
  }

  /** The bit that stands for p in the word of the mirrored candles. */
  function Swap(p: Pattern): Pattern {
    match p
    case High0DiffPeak => Low0DiffPeak
    case Low0DiffPeak => High0DiffPeak
    case High0Peak => Low0Peak
    case Low0Peak => High0Peak
    case High2Peak => Low2Peak
    case Low2Peak => High2Peak
    case HornBottoms => HornTops
    case HornTops => HornBottoms
    case PpDec => PpInc
    case PpInc => PpDec
    case PpDecInc => PpIncDec
    case PpIncDec => PpDecInc
    case _ => p
  }

  /** The word that says of each pattern whether the candles show it. */
  ghost predicate Describes(w: bv32, c: seq<BarOHLC>)
    requires |c| >= 5
  {
    forall p: Pattern :: On(w, Bit(p)) <==> Check(p, c)
  }

  method NewPatternCandle5(c: seq<BarOHLC>) returns (word: PatternCandle)
    requires |c| >= 5
    ensures fresh(word) && Describes(word.pattern, c)
  {
    word := new PatternCandle(0);
    ghost var check := (i: nat) => i < 32 && Check(Enum(i), c);
    forall k: nat | k < 32 ensures !On(0, k) { NothingOn(k); }
    for i := 0 to 32
      invariant fresh(word)
      invariant forall k :: 0 <= k < 32 ==> (On(word.pattern, k) <==> k < i && check(k))
    {
      word.SetNext(i, Check(Enum(i), c), check);
    }
  }

  // ---------------------------------------------------------------------------------------------
  // Mirrored candles.

  lemma MirroredTop(k: real, x: real, a: real, b: real, d: real, e: real,
                    y: real, p: real, q: real, r: real, s: real)
    requires y == k - x && p == k - a && q == k - b && r == k - d && s == k - e
    ensures Top(y, p, q, r, s) <==> Bottom(x, a, b, d, e)
  {
  }

  lemma MirroredBottom(k: real, x: real, a: real, b: real, d: real, e: real,
                       y: real, p: real, q: real, r: real, s: real)
    requires y == k - x && p == k - a && q == k - b && r == k - d && s == k - e
    ensures Bottom(y, p, q, r, s) <==> Top(x, a, b, d, e)
  {
  }

  lemma MirroredPeak(k: real, x: real, a: real, b: real, d: real, e: real,
                     y: real, p: real, q: real, r: real, s: real)
    requires y == k - x && p == k - a && q == k - b && r == k - d && s == k - e
    ensures Peak(y, p, q, r, s) <==> Peak(x, a, b, d, e)
  {
    MirroredTop(k, x, a, b, d, e, y, p, q, r, s);
    MirroredBottom(k, x, a, b, d, e, y, p, q, r, s);
  }

  lemma MirroredDiffPeak(k: real, x0: real, x1: real, x2: real, x3: real, x4: real,
                         y0: real, y1: real, y2: real, y3: real, y4: real)
    requires y0 == k - x0 && y1 == k - x1 && y2 == k - x2 && y3 == k - x3 && y4 == k - x4
    ensures DiffPeak(y0, y1, y2, y3, y4) <==> DiffPeak(x0, x1, x2, x3, x4)
  {
  }

  lemma NegatedDiffPeak(x0: real, x1: real, x2: real, x3: real, x4: real,
                        y0: real, y1: real, y2: real, y3: real, y4: real)
    requires y0 == -x0 && y1 == -x1 && y2 == -x2 && y3 == -x3 && y4 == -x4
    ensures DiffPeak(y0, y1, y2, y3, y4) <==> DiffPeak(x0, x1, x2, x3, x4)
  {
  }

  lemma MirrorDifferences(p: Pattern, c: seq<BarOHLC>, m: seq<BarOHLC>, k: real)
    requires p == Body0DiffPeak || p == Close0DiffPeak || p == High0DiffPeak || p == Low0DiffPeak ||
      p == Open0DiffPeak || p == Pp0DiffPeak || p == Range0DiffPeak || p == Wicks0DiffPeak
    requires |c| >= 5 && m == MirrorAll(c, k)
    ensures Check(p, m) <==> Check(Swap(p), c)
  {
    MirrorBody(c[0], k); MirrorBody(c[1], k); MirrorBody(c[2], k); MirrorBody(c[3], k);
    MirrorBody(c[4], k);
    MirrorRange(c[0], k); MirrorRange(c[1], k); MirrorRange(c[2], k); MirrorRange(c[3], k);
    MirrorRange(c[4], k);
    MirrorWicks(c[0], k); MirrorWicks(c[1], k); MirrorWicks(c[2], k); MirrorWicks(c[3], k);
    MirrorWicks(c[4], k);
    MirrorAverages(c[0], k); MirrorAverages(c[1], k); MirrorAverages(c[2], k); MirrorAverages(c[3], k);
    MirrorAverages(c[4], k);
    match p
    case Body0DiffPeak =>
      NegatedDiffPeak(c[0].GetBody(), c[1].GetBody(), c[2].GetBody(), c[3].GetBody(), c[4].GetBody(),
        m[0].GetBody(), m[1].GetBody(), m[2].GetBody(), m[3].GetBody(), m[4].GetBody());
    case Close0DiffPeak =>
      MirroredDiffPeak(k, c[0].close, c[1].close, c[2].close, c[3].close, c[4].close,
        m[0].close, m[1].close, m[2].close, m[3].close, m[4].close);
    case High0DiffPeak =>
      MirroredDiffPeak(k, c[0].low, c[1].low, c[2].low, c[3].low, c[4].low,
        m[0].high, m[1].high, m[2].high, m[3].high, m[4].high);
    case Low0DiffPeak =>
      MirroredDiffPeak(k, c[0].high, c[1].high, c[2].high, c[3].high, c[4].high,
        m[0].low, m[1].low, m[2].low, m[3].low, m[4].low);
    case Open0DiffPeak =>
      MirroredDiffPeak(k, c[0].open, c[1].open, c[2].open, c[3].open, c[4].open,
        m[0].open, m[1].open, m[2].open, m[3].open, m[4].open);
    case Pp0DiffPeak =>
      MirroredDiffPeak(k, c[0].GetPivot(), c[1].GetPivot(), c[2].GetPivot(), c[3].GetPivot(), c[4].GetPivot(),
        m[0].GetPivot(), m[1].GetPivot(), m[2].GetPivot(), m[3].GetPivot(), m[4].GetPivot());
    case _ =>
  }

  lemma MirrorSums(p: Pattern, c: seq<BarOHLC>, m: seq<BarOHLC>, k: real)
    requires p == Range0GtSum || p == Reversal
    requires |c| >= 5 && m == MirrorAll(c, k)
    ensures Check(p, m) <==> Check(Swap(p), c)
  {
    MirrorRange(c[0], k); MirrorRange(c[1], k); MirrorRange(c[2], k); MirrorRange(c[3], k);
    MirrorRange(c[4], k);
    MirrorType(c[0], k); MirrorType(c[1], k); MirrorType(c[2], k); MirrorType(c[3], k);
    MirrorType(c[4], k);
  }

  lemma MirrorAllWicks(p: Pattern, c: seq<BarOHLC>, m: seq<BarOHLC>, k: real)
    requires p == Wicks0Peak || p == Wicks2Peak
    requires |c| >= 5 && m == MirrorAll(c, k)
    ensures Check(p, m) <==> Check(Swap(p), c)
  {
    MirrorWicks(c[0], k); MirrorWicks(c[1], k); MirrorWicks(c[2], k); MirrorWicks(c[3], k);
    MirrorWicks(c[4], k);
    MirrorBody(c[0], k); MirrorBody(c[1], k); MirrorBody(c[2], k); MirrorBody(c[3], k);
    MirrorBody(c[4], k);
  }

  lemma MirrorPivotPeaks(p: Pattern, c: seq<BarOHLC>, m: seq<BarOHLC>, k: real)
    requires p == Pp0Peak || p == Pp2Peak
    requires |c| >= 5 && m == MirrorAll(c, k)
    ensures Check(p, m) <==> Check(Swap(p), c)
  {
    MirrorAverages(c[0], k); MirrorAverages(c[1], k); MirrorAverages(c[2], k); MirrorAverages(c[3], k);
    MirrorAverages(c[4], k);
    match p
    case Pp0Peak =>
      MirroredPeak(k, c[0].GetPivot(), c[1].GetPivot(), c[2].GetPivot(), c[3].GetPivot(), c[4].GetPivot(),
        m[0].GetPivot(), m[1].GetPivot(), m[2].GetPivot(), m[3].GetPivot(), m[4].GetPivot());
    case Pp2Peak =>
      MirroredPeak(k, c[2].GetPivot(), c[1].GetPivot(), c[0].GetPivot(), c[3].GetPivot(), c[4].GetPivot(),
        m[2].GetPivot(), m[1].GetPivot(), m[0].GetPivot(), m[3].GetPivot(), m[4].GetPivot());
  }

  lemma MirrorPivotRuns(p: Pattern, c: seq<BarOHLC>, m: seq<BarOHLC>, k: real)
    requires p == PpDec || p == PpDecInc || p == PpInc || p == PpIncDec
    requires |c| >= 5 && m == MirrorAll(c, k)
    ensures Check(p, m) <==> Check(Swap(p), c)
  {
    MirrorAverages(c[0], k); MirrorAverages(c[1], k); MirrorAverages(c[2], k); MirrorAverages(c[3], k);
    MirrorAverages(c[4], k);
  }

  lemma MirrorCloses(p: Pattern, c: seq<BarOHLC>, m: seq<BarOHLC>, k: real)
    requires p == Close0Peak || p == Close2Peak || p == Open0Peak || p == Open2Peak || p == Open4Peak
    requires |c| >= 5 && m == MirrorAll(c, k)
    ensures Check(p, m) <==> Check(Swap(p), c)
  {
    match p
    case Close0Peak =>
      MirroredPeak(k, c[0].close, c[1].close, c[2].close, c[3].close, c[4].close,
        m[0].close, m[1].close, m[2].close, m[3].close, m[4].close);
    case Close2Peak =>
      MirroredPeak(k, c[2].close, c[1].close, c[0].close, c[3].close, c[4].close,
        m[2].close, m[1].close, m[0].close, m[3].close, m[4].close);
    case Open0Peak =>
      MirroredPeak(k, c[0].open, c[1].open, c[2].open, c[3].open, c[4].open,
        m[0].open, m[1].open, m[2].open, m[3].open, m[4].open);
    case Open2Peak =>
      MirroredPeak(k, c[2].open, c[1].open, c[0].open, c[3].open, c[4].open,
        m[2].open, m[1].open, m[0].open, m[3].open, m[4].open);
    case Open4Peak =>
      MirroredPeak(k, c[4].open, c[1].open, c[0].open, c[3].open, c[2].open,
        m[4].open, m[1].open, m[0].open, m[3].open, m[2].open);
  }

  lemma MirrorShapes(p: Pattern, c: seq<BarOHLC>, m: seq<BarOHLC>, k: real)
    requires p == LineStrike || p == MatHold
    requires |c| >= 5 && m == MirrorAll(c, k)
    ensures Check(p, m) <==> Check(Swap(p), c)
  {
    MirrorType(c[0], k); MirrorType(c[1], k); MirrorType(c[2], k); MirrorType(c[3], k);
    MirrorType(c[4], k);
    MirroredPeak(k, c[0].close, c[1].close, c[2].close, c[3].close, c[4].close,
      m[0].close, m[1].close, m[2].close, m[3].close, m[4].close);
    MirroredPeak(k, c[4].open, c[1].open, c[0].open, c[3].open, c[2].open,
      m[4].open, m[1].open, m[0].open, m[3].open, m[2].open);
  }

  lemma MirrorHighs(p: Pattern, c: seq<BarOHLC>, m: seq<BarOHLC>, k: real)
    requires p == High0Peak || p == High2Peak || p == HornBottoms || p == HornTops || p == Low0Peak || p == Low2Peak
    requires |c| >= 5 && m == MirrorAll(c, k)
    ensures Check(p, m) <==> Check(Swap(p), c)
  {
    match p
    case High0Peak =>
      MirroredTop(k, c[0].low, c[1].low, c[2].low, c[3].low, c[4].low,
        m[0].high, m[1].high, m[2].high, m[3].high, m[4].high);
    case High2Peak =>
      MirroredTop(k, c[2].low, c[1].low, c[0].low, c[3].low, c[4].low,
        m[2].high, m[1].high, m[0].high, m[3].high, m[4].high);
    case Low0Peak =>
      MirroredBottom(k, c[0].high, c[1].high, c[2].high, c[3].high, c[4].high,
        m[0].low, m[1].low, m[2].low, m[3].low, m[4].low);
    case Low2Peak =>
      MirroredBottom(k, c[2].high, c[1].high, c[0].high, c[3].high, c[4].high,
        m[2].low, m[1].low, m[0].low, m[3].low, m[4].low);
    case _ =>
  }

  /** A pattern shows in the mirrored candles exactly when its counterpart shows in the candles. */
  lemma MirrorCheck(p: Pattern, c: seq<BarOHLC>, m: seq<BarOHLC>, k: real)
    requires |c| >= 5 && m == MirrorAll(c, k)
    requires p != Body0GtSum
    ensures Check(p, m) <==> Check(Swap(p), c)
  {
    match p
    case Body0DiffPeak | Close0DiffPeak | High0DiffPeak | Low0DiffPeak | Open0DiffPeak |
       Pp0DiffPeak | Range0DiffPeak | Wicks0DiffPeak => MirrorDifferences(p, c, m, k);
    case Range0GtSum | Reversal => MirrorSums(p, c, m, k);
    case Wicks0Peak | Wicks2Peak => MirrorAllWicks(p, c, m, k);
    case Pp0Peak | Pp2Peak => MirrorPivotPeaks(p, c, m, k);
    case PpDec | PpDecInc | PpInc | PpIncDec => MirrorPivotRuns(p, c, m, k);
    case Close0Peak | Close2Peak | Open0Peak | Open2Peak | Open4Peak => MirrorCloses(p, c, m, k);
    case LineStrike | MatHold => MirrorShapes(p, c, m, k);
    case High0Peak | High2Peak | HornBottoms | HornTops | Low0Peak | Low2Peak => MirrorHighs(p, c, m, k);
  }

  function OtherBodies(c: seq<BarOHLC>): real
    requires |c| >= 5
  {
    c[1].GetBody() + c[2].GetBody() + c[3].GetBody() + c[4].GetBody()
  }

  /** The exception: bodies are compared with their signs, so this bit becomes the opposite comparison. */
  lemma MirrorSignedBodies(c: seq<BarOHLC>, m: seq<BarOHLC>, k: real)
    requires |c| >= 5 && m == MirrorAll(c, k)
    ensures Check(Body0GtSum, m) <==> c[0].GetBody() < OtherBodies(c)
    ensures Check(Body0GtSum, m) <==> !Check(Body0GtSum, c) && c[0].GetBody() != OtherBodies(c)
  {
    MirrorBody(c[0], k); MirrorBody(c[1], k); MirrorBody(c[2], k); MirrorBody(c[3], k); MirrorBody(c[4], k);
  }

  lemma SwapTwice(p: Pattern)
    ensures Swap(Swap(p)) == p && (Swap(p) == Body0GtSum <==> p == Body0GtSum)
  {
  }

  /** The word of the mirrored candles is the word of the candles with its bits permuted, one bit apart. */
  lemma MirrorWord(v: bv32, w: bv32, c: seq<BarOHLC>, k: real)
    requires |c| >= 5 && Describes(v, c) && Describes(w, MirrorAll(c, k))
    ensures forall p: Pattern :: Swap(Swap(p)) == p && (Swap(p) == Body0GtSum <==> p == Body0GtSum)
    ensures forall p: Pattern :: p != Body0GtSum ==> (On(w, Bit(p)) <==> On(v, Bit(Swap(p))))
    ensures On(w, Bit(Body0GtSum)) <==> !On(v, Bit(Body0GtSum)) && c[0].GetBody() != OtherBodies(c)
  {
    var m := MirrorAll(c, k);
    forall p: Pattern ensures Swap(Swap(p)) == p && (Swap(p) == Body0GtSum <==> p == Body0GtSum) {
      SwapTwice(p);
    }
    forall p: Pattern | p != Body0GtSum ensures On(w, Bit(p)) <==> On(v, Bit(Swap(p))) {
      MirrorCheck(p, c, m, k);
    }
    MirrorSignedBodies(c, m, k);
  }
}
