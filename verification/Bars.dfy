/** Price bars: Bar.struct.h, prices idealised as reals. */
module Bars {
  import opened Common

  datatype BarOHLC = BarOHLC(time: int, open: real, high: real, low: real, close: real) {
    function GetBody(): real { close - open }
    function GetBodyAbs(): real { Abs(close - open) }
    function GetMaxOC(): real { Max(open, close) }
    function GetMinOC(): real { Min(open, close) }
    function GetPivot(): real { (high + low + close) / 3.0 }
    function GetPivotDeMark(): real {
      var pp := if open > close then (high + 2.0 * low + close) / 4.0 else (2.0 * high + low + close) / 4.0;
      if open == close then (high + low + 2.0 * close) / 4.0 else pp
    }
    function GetRange(): real { high - low }
    function GetType(): int { if IsBull() then 1 else if IsBear() then -1 else 0 }
    function GetWeighted(): real { (high + low + close + close) / 4.0 }
    function GetWickLower(): real { GetMinOC() - low }
    function GetWickUpper(): real { high - GetMaxOC() }
    function GetWickSum(): real { GetWickLower() + GetWickUpper() }
    predicate IsBear() { open > close }
    predicate IsBull() { open < close }

    /** The body lies within the range. */
    predicate WellFormed() { low <= open <= high && low <= close <= high }
  }

  // ---------------------------------------------------------------------------------------------
  // A bar from a list of prices, the latest first.

  predicate Summarises(bar: BarOHLC, prices: seq<real>) {
    && |prices| > 0
    && bar.close == prices[0] && bar.open == prices[|prices| - 1]
    && bar.high in prices && bar.low in prices
    && forall i :: 0 <= i < |prices| ==> bar.low <= prices[i] <= bar.high
  }

  method FromPrices(prices: seq<real>, time: int) returns (bar: BarOHLC)
    requires |prices| > 0
    ensures Summarises(bar, prices) && bar.time == time && bar.WellFormed()
  {
    var close := prices[0];
    var open := prices[|prices| - 1];
    var high := Max(close, open);
    var low := Min(close, open);
    for i := 0 to |prices|
      invariant high in prices && low in prices && low <= open <= high && low <= close <= high
      invariant forall j :: 0 <= j < i ==> low <= prices[j] <= high
    {
      high := Max(high, prices[i]);
      low := Min(low, prices[i]);
    }
    bar := BarOHLC(time, open, high, low, close);
  }

  /** The prices determine the bar. */
  lemma SummaryIsUnique(a: BarOHLC, b: BarOHLC, prices: seq<real>)
    requires Summarises(a, prices) && Summarises(b, prices) && a.time == b.time
    ensures a == b
  {
  }

  // ---------------------------------------------------------------------------------------------
  // The mirror image of a bar: every price p becomes k - p.

  function Mirror(bar: BarOHLC, k: real): BarOHLC {
    BarOHLC(bar.time, k - bar.open, k - bar.low, k - bar.high, k - bar.close)
  }

  // What mirroring does to the derived quantities.

  lemma MirrorBody(bar: BarOHLC, k: real)
    ensures var m := Mirror(bar, k);
      && m.GetBody() == -bar.GetBody() && m.GetBodyAbs() == bar.GetBodyAbs() && m.GetType() == -bar.GetType()
      && (m.IsBull() <==> bar.IsBear()) && (m.IsBear() <==> bar.IsBull())
  {
  }

  lemma MirrorType(bar: BarOHLC, k: real)
    ensures Mirror(bar, k).GetType() == -bar.GetType()
  {
  }

  lemma MirrorRange(bar: BarOHLC, k: real)
    ensures Mirror(bar, k).GetRange() == bar.GetRange()
  {
  }

  lemma MirrorWicks(bar: BarOHLC, k: real)
    ensures var m := Mirror(bar, k);
      && m.GetWickUpper() == bar.GetWickLower() && m.GetWickLower() == bar.GetWickUpper()
      && m.GetWickSum() == bar.GetWickSum()
  {
  }

  lemma MirrorOC(bar: BarOHLC, k: real)
    ensures var m := Mirror(bar, k); m.GetMaxOC() == k - bar.GetMinOC() && m.GetMinOC() == k - bar.GetMaxOC()
  {
  }

  lemma MirrorAverages(bar: BarOHLC, k: real)
    ensures var m := Mirror(bar, k);
      && m.GetPivot() == k - bar.GetPivot() && m.GetWeighted() == k - bar.GetWeighted()
      && m.GetPivotDeMark() == k - bar.GetPivotDeMark()
  {
  }

  function MirrorAll(c: seq<BarOHLC>, k: real): (m: seq<BarOHLC>)
    ensures |m| == |c| && forall i :: 0 <= i < |c| ==> m[i] == Mirror(c[i], k)
  {
    seq(|c|, i requires 0 <= i < |c| => Mirror(c[i], k))
  }

  function MirrorPrices(prices: seq<real>, k: real): seq<real> {
    seq(|prices|, i requires 0 <= i < |prices| => k - prices[i])
  }

  /** Mirroring the prices mirrors the bar made of them. */
  lemma MirrorSummary(bar: BarOHLC, prices: seq<real>, k: real)
    requires Summarises(bar, prices)
    ensures Summarises(Mirror(bar, k), MirrorPrices(prices, k))
  {
    var m := MirrorPrices(prices, k);
    var i :| 0 <= i < |prices| && prices[i] == bar.high;
    var j :| 0 <= j < |prices| && prices[j] == bar.low;
    assert m[i] == k - bar.high && m[j] == k - bar.low;
  }

  // ---------------------------------------------------------------------------------------------
  // Pivot levels.

  datatype PivotType = Camarilla | Classic | Fibonacci | Floor | TomDemark | Woodie

  datatype Levels = Levels(pp: real, r1: real, r2: real, r3: real, r4: real, s1: real, s2: real, s3: real, s4: real)

  /** The levels written by GetPivots; a value outside the listed types writes nothing. */
  function LevelsOf(bar: BarOHLC, kind: PivotType): Levels {
    var range := bar.GetRange();
    match kind
    case Camarilla =>
      var pp := bar.GetPivot();
      Levels(pp, bar.close + range * 1.1 / 12.0, bar.close + range * 1.1 / 6.0, bar.close + range * 1.1 / 4.0,
        bar.close + range * 1.1 / 2.0, bar.close - range * 1.1 / 12.0, bar.close - range * 1.1 / 6.0,
        bar.close - range * 1.1 / 4.0, bar.close - range * 1.1 / 2.0)
    case Classic =>
      var pp := bar.GetPivot();
      Levels(pp, 2.0 * pp - bar.low, pp + range, pp + range * 2.0, pp + range * 3.0,
        2.0 * pp - bar.high, pp - range, pp - range * 2.0, pp - range * 3.0)
    case Fibonacci =>
      var pp := bar.GetPivot();
      var r1, s1 := pp + 0.382 * range, pp - 0.382 * range;
      Levels(pp, r1, pp + 0.618 * range, pp + range, r1 + range, s1, pp - 0.618 * range, pp - range, s1 - range)
    case Floor =>
      var pp := bar.GetPivot();
      var r3, s3 := bar.high + 2.0 * (pp - bar.low), bar.low - 2.0 * (bar.high - pp);
      Levels(pp, 2.0 * pp - bar.low, pp + range, r3, r3, 2.0 * pp - bar.high, pp - range, s3, s3)
    case TomDemark => Stepped(bar, bar.GetPivotDeMark())
    case Woodie => Stepped(bar, bar.GetWeighted())
  }

  function Stepped(bar: BarOHLC, pp: real): Levels {
    var range := bar.GetRange();
    var r1, r2, s1, s2 := 2.0 * pp - bar.low, pp + range, 2.0 * pp - bar.high, pp - range;
    Levels(pp, r1, r2, r1 + range, r2 + range, s1, s2, s1 - range, s2 - range)
  }

  predicate Descending(l: Levels) {
    l.r4 > l.r3 > l.r2 > l.r1 > l.pp > l.s1 > l.s2 > l.s3 > l.s4
  }

  /** When the levels come out in strict order: never for Floor, whose outer two are equal. */
  predicate InOrder(bar: BarOHLC, kind: PivotType) {
    match kind
    case Camarilla => Abs(bar.high + bar.low - 2.0 * bar.close) < 0.275 * (bar.high - bar.low)
    case Fibonacci => bar.low < bar.high
    case Floor => false
    case _ => bar.low < PivotPoint(bar, kind) < bar.high
  }

  /** The pivot point the type is built on. */
  function PivotPoint(bar: BarOHLC, kind: PivotType): real {
    match kind
    case TomDemark => bar.GetPivotDeMark()
    case Woodie => bar.GetWeighted()
    case _ => bar.GetPivot()
  }

  lemma DescendingIff(bar: BarOHLC, kind: PivotType)
    ensures Descending(LevelsOf(bar, kind)) <==> InOrder(bar, kind)
  {
  }

  method GetPivots(bar: BarOHLC, kind: PivotType) returns (ok: bool, levels: Levels)
    ensures levels == LevelsOf(bar, kind)
    ensures ok <==> InOrder(bar, kind)
  {
    DescendingIff(bar, kind);
    levels := LevelsOf(bar, kind);
    ok := levels.r4 > levels.r3 && levels.r3 > levels.r2 && levels.r2 > levels.r1 && levels.r1 > levels.pp
      && levels.pp > levels.s1 && levels.s1 > levels.s2 && levels.s2 > levels.s3 && levels.s3 > levels.s4;
  }

  function MirrorLevels(l: Levels, k: real): Levels {
    Levels(k - l.pp, k - l.s1, k - l.s2, k - l.s3, k - l.s4, k - l.r1, k - l.r2, k - l.r3, k - l.r4)
  }

  lemma MirrorDescending(l: Levels, k: real)
    ensures Descending(MirrorLevels(l, k)) <==> Descending(l)
  {
  }

  lemma MirrorStepped(bar: BarOHLC, pp: real, k: real)
    ensures Stepped(Mirror(bar, k), k - pp) == MirrorLevels(Stepped(bar, pp), k)
  {
  }

  lemma MirrorAroundPivot(bar: BarOHLC, kind: PivotType, k: real)
    requires kind != TomDemark && kind != Woodie
    ensures LevelsOf(Mirror(bar, k), kind) == MirrorLevels(LevelsOf(bar, kind), k)
  {
  }

  /** The mirrored bar has the mirrored levels, supports and resistances exchanged, and the same order verdict. */
  lemma MirrorPivots(bar: BarOHLC, kind: PivotType, k: real)
    ensures LevelsOf(Mirror(bar, k), kind) == MirrorLevels(LevelsOf(bar, kind), k)
    ensures Descending(LevelsOf(Mirror(bar, k), kind)) <==> Descending(LevelsOf(bar, kind))
  {
    MirrorDescending(LevelsOf(bar, kind), k);
    match kind
    case TomDemark =>
      MirrorAverages(bar, k);
      MirrorStepped(bar, bar.GetPivotDeMark(), k);
    case Woodie =>
      MirrorAverages(bar, k);
      MirrorStepped(bar, bar.GetWeighted(), k);
    case _ =>
      MirrorAroundPivot(bar, kind, k);
  }

  /** For bars whose body lies in a range of positive length, only Floor and Camarilla can be out of order. */
  lemma WellFormedDescends(bar: BarOHLC, kind: PivotType)
    requires bar.WellFormed() && kind != Floor && kind != Camarilla
    ensures Descending(LevelsOf(bar, kind)) <==> bar.low < bar.high
  {
    DescendingIff(bar, kind);
  }
}
