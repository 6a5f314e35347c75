/** Where the pivot levels and the price stop lie, by distances between prices (Bar.struct.h, the price stop). */
module PivotLaws {
  import opened Bars
  import opened Common
  import opened PriceStop

  // ---------------------------------------------------------------------------------------------
  // Averages and levels.

  /** The averages by sums: the weighted price counts the close twice, DeMark's the price the bar moved to. */
  lemma AveragesAre(bar: BarOHLC)
    ensures 3.0 * bar.GetPivot() == bar.high + bar.low + bar.close
    ensures 4.0 * bar.GetWeighted() == 3.0 * bar.GetPivot() + bar.close
    ensures bar.close > bar.open ==> 4.0 * bar.GetPivotDeMark() == 3.0 * bar.GetPivot() + bar.high
    ensures bar.close < bar.open ==> 4.0 * bar.GetPivotDeMark() == 3.0 * bar.GetPivot() + bar.low
    ensures bar.close == bar.open ==> 4.0 * bar.GetPivotDeMark() == 3.0 * bar.GetPivot() + bar.close
  {
  }

  /** The n-th resistance and support lie at the distances d above and below the centre. */
  predicate Around(l: Levels, centre: real, d1: real, d2: real, d3: real, d4: real) {
    && l.r1 - centre == d1 && l.r2 - centre == d2 && l.r3 - centre == d3 && l.r4 - centre == d4
    && centre - l.s1 == d1 && centre - l.s2 == d2 && centre - l.s3 == d3 && centre - l.s4 == d4
  }

  /** The first levels mirror the low and the high in the pivot point, the second ones lie a range away from it. */
  predicate InnerLevels(bar: BarOHLC, l: Levels) {
    && l.r1 - l.pp == l.pp - bar.low && l.pp - l.s1 == bar.high - l.pp
    && l.r2 - l.pp == bar.high - bar.low && l.pp - l.s2 == bar.high - bar.low
  }

  /** The rule of each type. */
  predicate Rule(bar: BarOHLC, kind: PivotType, l: Levels) {
    var range := bar.high - bar.low;
    match kind
    case Camarilla =>
      var unit := 11.0 * range / 120.0;
      3.0 * l.pp == bar.high + bar.low + bar.close && Around(l, bar.close, unit, 2.0 * unit, 3.0 * unit, 6.0 * unit)
    case Fibonacci =>
      && 3.0 * l.pp == bar.high + bar.low + bar.close
      && Around(l, l.pp, 0.382 * range, 0.618 * range, range, 1.382 * range)
    case Classic =>
      && 3.0 * l.pp == bar.high + bar.low + bar.close && InnerLevels(bar, l)
      && l.r3 - l.r2 == range == l.r4 - l.r3 && l.s2 - l.s3 == range == l.s3 - l.s4
    case Floor =>
      && 3.0 * l.pp == bar.high + bar.low + bar.close && InnerLevels(bar, l)
      && l.r3 - l.r1 == range == l.s1 - l.s3 && l.r4 == l.r3 && l.s4 == l.s3
    case TomDemark =>
      && 4.0 * l.pp == bar.high + bar.low + bar.close
           + (if bar.close > bar.open then bar.high else if bar.close < bar.open then bar.low else bar.close)
      && InnerLevels(bar, l)
      && l.r3 - l.r1 == range == l.s1 - l.s3 && l.r4 - l.r2 == range == l.s2 - l.s4
    case Woodie =>
      && 4.0 * l.pp == bar.high + bar.low + 2.0 * bar.close && InnerLevels(bar, l)
      && l.r3 - l.r1 == range == l.s1 - l.s3 && l.r4 - l.r2 == range == l.s2 - l.s4
  }

  lemma RuleFixes(bar: BarOHLC, kind: PivotType, l: Levels, m: Levels)
    requires Rule(bar, kind, l) && Rule(bar, kind, m)
    ensures l == m
  {
  }

  lemma Follows(bar: BarOHLC, kind: PivotType)
    ensures Rule(bar, kind, LevelsOf(bar, kind))
  {
  }

  /** The levels are the only ones that follow the rule. */
  lemma LevelsFollowRule(bar: BarOHLC, kind: PivotType, l: Levels)
    ensures Rule(bar, kind, l) <==> l == LevelsOf(bar, kind)
  {
    var m := LevelsOf(bar, kind);
    Follows(bar, kind);
    if Rule(bar, kind, l) {
      RuleFixes(bar, kind, l, m);
    }
  }

  // ---------------------------------------------------------------------------------------------
  // The price stop.

  function FourPrices(bar0: BarOHLC, bar1: BarOHLC, direction: int): seq<real> {
    [bar0.close, if direction > 0 then bar0.high else bar0.low,
      if direction > 0 then bar1.high else bar1.low, bar1.open]
  }

  /** The highest and the lowest of the four prices that the pivot level is made of. */
  predicate Extremes(bar0: BarOHLC, bar1: BarOHLC, direction: int, high: real, low: real) {
    var prices := FourPrices(bar0, bar1, direction);
    high in prices && low in prices && forall x :: x in prices ==> low <= x <= high
  }

  /** The first level on the stop's side of the bar with the extremes h and l and the last close. */
  predicate LevelFrom(bar0: BarOHLC, bar1: BarOHLC, direction: int, x: real, h: real, l: real) {
    && Extremes(bar0, bar1, direction, h, l)
    && 3.0 * x == 2.0 * (h + l + bar0.close) - 3.0 * (if direction > 0 then l else h)
  }

  /** A price that the methods name: the initial value, the earlier bar's price or peak, the first pivot level. */
  ghost predicate Named(methods: bv32, ivalue: real, bar0: BarOHLC, bar1: BarOHLC, direction: int, x: real) {
    || x == ivalue
    || (methods & 4 != 0 && methods & 8 == 0 && 4.0 * x == bar1.high + bar1.low + 2.0 * bar1.close)
    || (methods & 4 != 0 && methods & 8 != 0 && x == if direction > 0 then bar1.high else bar1.low)
    || (methods & 16 != 0 && exists h, l :: LevelFrom(bar0, bar1, direction, x, h, l))
  }

  lemma ExtremesAre(bar0: BarOHLC, bar1: BarOHLC, direction: int, h: real, l: real)
    ensures Extremes(bar0, bar1, direction, h, l) <==>
      h == PivotBar(bar0, bar1, direction).high && l == PivotBar(bar0, bar1, direction).low
  {
    var prices := FourPrices(bar0, bar1, direction);
    PivotBarSummarises(bar0, bar1, direction, prices);
  }

  lemma LevelIs(bar0: BarOHLC, bar1: BarOHLC, direction: int, x: real)
    ensures x == PivotLevel(bar0, bar1, direction) <==> exists h, l :: LevelFrom(bar0, bar1, direction, x, h, l)
  {
    var b := PivotBar(bar0, bar1, direction);
    ExtremesAre(bar0, bar1, direction, b.high, b.low);
    assert x == PivotLevel(bar0, bar1, direction) <==> LevelFrom(bar0, bar1, direction, x, b.high, b.low);
    forall h, l | LevelFrom(bar0, bar1, direction, x, h, l) ensures h == b.high && l == b.low {
      ExtremesAre(bar0, bar1, direction, h, l);
    }
  }

  /** The stop starts from the named price that is furthest to its side. */
  lemma BaseIsFurthest(methods: bv32, ivalue: real, bar0: BarOHLC, bar1: BarOHLC, direction: int)
    ensures var base := Base(methods, ivalue, bar0, bar1, direction);
      && Named(methods, ivalue, bar0, bar1, direction, base)
      && forall x :: Named(methods, ivalue, bar0, bar1, direction, x) ==> if direction > 0 then x <= base else x >= base
  {
    var base := Base(methods, ivalue, bar0, bar1, direction);
    LevelIs(bar0, bar1, direction, base);
    forall x | Named(methods, ivalue, bar0, bar1, direction, x)
      ensures if direction > 0 then x <= base else x >= base
    {
      LevelIs(bar0, bar1, direction, x);
    }
  }

  /**
   * From a positive price it lies the distance away, and the step of the pivots and the earlier range where they are
   * added; there is no stop otherwise.
   */
  lemma StopLiesBeyond(methods: bv32, base: real, bar0: BarOHLC, bar1: BarOHLC, direction: int, distance: real,
      step: real, range: real)
    requires range == (if methods & 64 != 0 then bar1.high - bar1.low else 0.0)
    requires 3.0 * step == if methods & 32 == 0 then 0.0
      else Abs((bar0.high + bar0.low + bar0.close) - (bar1.high + bar1.low + bar1.close))
    ensures Stop(base, Trail(methods, bar0, bar1, distance), direction) ==
      if base <= 0.0 then 0.0
      else if direction > 0 then base + (distance + step + range)
      else base - (distance + step + range)
  {
  }
}
