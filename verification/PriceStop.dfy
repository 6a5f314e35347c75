/** Price stops: StrategyPriceStop of Strategy.struct.pricestop.h. The two bars it asks for are parameters. */
module PriceStop {
  import opened Common
  import opened Bars

  const PRICE_STOP_PRICE: bv32 := 4
  const PRICE_STOP_PRICE_PEAK: bv32 := 8
  const PRICE_STOP_PRICE_PP: bv32 := 16
  const PRICE_STOP_ADD_PRICE_DIFF: bv32 := 32
  const PRICE_STOP_ADD_RANGE: bv32 := 64

  predicate Has(methods: bv32, flag: bv32) { methods & flag != 0 }

  // ---------------------------------------------------------------------------------------------
  // What the stop is made of.

  function Further(direction: int, x: real, y: real): real {
    if direction > 0 then Max(x, y) else Min(x, y)
  }

  /** The bar of the last close, the first open, and the outer prices on the side of the stop. */
  function PivotBar(bar0: BarOHLC, bar1: BarOHLC, direction: int): BarOHLC {
    var a, b, c, d := bar0.close, Side(bar0, direction), Side(bar1, direction), bar1.open;
    BarOHLC(bar0.time, d, Max(Max(a, b), Max(c, d)), Min(Min(a, b), Min(c, d)), a)
  }

  function Side(bar: BarOHLC, direction: int): real { if direction > 0 then bar.high else bar.low }

  function PivotLevel(bar0: BarOHLC, bar1: BarOHLC, direction: int): real {
    var levels := LevelsOf(PivotBar(bar0, bar1, direction), Classic);
    if direction > 0 then levels.r1 else levels.s1
  }

  /** The price the stop starts from: the furthest of those the methods name. */
  function Base(methods: bv32, ivalue: real, bar0: BarOHLC, bar1: BarOHLC, direction: int): real {
    var price := if Has(methods, PRICE_STOP_PRICE_PEAK) then Side(bar1, direction) else bar1.GetWeighted();
    var base := if Has(methods, PRICE_STOP_PRICE) then Further(direction, price, ivalue) else ivalue;
    if Has(methods, PRICE_STOP_PRICE_PP) then Further(direction, PivotLevel(bar0, bar1, direction), base) else base
  }

  function Trail(methods: bv32, bar0: BarOHLC, bar1: BarOHLC, distance: real): real {
    distance
    + (if Has(methods, PRICE_STOP_ADD_PRICE_DIFF) then Abs(bar0.GetPivot() - bar1.GetPivot()) else 0.0)
    + (if Has(methods, PRICE_STOP_ADD_RANGE) then bar1.GetRange() else 0.0)
  }

  function Stop(base: real, trail: real, direction: int): real {
    if base > 0.0 then (if direction > 0 then base + trail else base - trail) else 0.0
  }

  class StrategyPriceStop {
    var ivalue: real
    var methods: bv32

    constructor (methods: bv32, ivalue: real)
      ensures this.methods == methods && this.ivalue == ivalue
    {
      this.methods := methods;
      this.ivalue := ivalue;
    }

    method AddMethod(flags: bv32)
      modifies this
      ensures methods == old(methods) | flags && ivalue == old(ivalue)
    {
      methods := methods | flags;
    }

    method GetValue(bar0: BarOHLC, bar1: BarOHLC, direction: int, distance: real) returns (result: real)
      ensures result == Stop(Base(methods, ivalue, bar0, bar1, direction), Trail(methods, bar0, bar1, distance),
        direction)
    {
      result := GetBase(bar0, bar1, direction);
      var trail := distance;
      if Has(methods, PRICE_STOP_ADD_PRICE_DIFF) {
        trail := trail + Abs(bar0.GetPivot() - bar1.GetPivot());
      }
      if Has(methods, PRICE_STOP_ADD_RANGE) {
        trail := trail + bar1.GetRange();
      }
      assert trail == Trail(methods, bar0, bar1, distance);
      result := if result > 0.0 then (if direction > 0 then result + trail else result - trail) else 0.0;
    }

    /** The first half of GetValue. */
    method GetBase(bar0: BarOHLC, bar1: BarOHLC, direction: int) returns (result: real)
      ensures result == Base(methods, ivalue, bar0, bar1, direction)
    {
      result := ivalue;
      if Has(methods, PRICE_STOP_PRICE) {
        var price := bar1.GetWeighted();
        if Has(methods, PRICE_STOP_PRICE_PEAK) {
          price := if direction > 0 then bar1.high else bar1.low;
        }
        result := if direction > 0 then Max(price, result) else Min(price, result);
      }
      if Has(methods, PRICE_STOP_PRICE_PP) {
        var level := ReadPivotLevel(bar0, bar1, direction);
        result := if direction > 0 then Max(level, result) else Min(level, result);
      }
    }
  }

  method ReadPivotLevel(bar0: BarOHLC, bar1: BarOHLC, direction: int) returns (level: real)
    ensures level == PivotLevel(bar0, bar1, direction)
  {
    var prices := [
      bar0.close, if direction > 0 then bar0.high else bar0.low,
      if direction > 0 then bar1.high else bar1.low, bar1.open
    ];
    var bar := FromPrices(prices, bar0.time);
    PivotBarSummarises(bar0, bar1, direction, prices);
    SummaryIsUnique(bar, PivotBar(bar0, bar1, direction), prices);
    var _, levels := GetPivots(bar, Classic);
    level := if direction > 0 then levels.r1 else levels.s1;
  }

  lemma PivotBarSummarises(bar0: BarOHLC, bar1: BarOHLC, direction: int, prices: seq<real>)
    requires prices == [bar0.close, Side(bar0, direction), Side(bar1, direction), bar1.open]
    ensures Summarises(PivotBar(bar0, bar1, direction), prices)
  {
    assert prices[0] in prices && prices[1] in prices && prices[2] in prices && prices[3] in prices;
  }

  // ---------------------------------------------------------------------------------------------
  // More methods.

  /** Adding methods moves the base away from zero on the stop's side, and lengthens the trail. */
  lemma AddedMethods(methods: bv32, added: bv32, ivalue: real, bar0: BarOHLC, bar1: BarOHLC, direction: int,
      distance: real)
    requires bar1.WellFormed()
    ensures var more := methods | added;
      var base, base2 := Base(methods, ivalue, bar0, bar1, direction), Base(more, ivalue, bar0, bar1, direction);
      && (if direction > 0 then base <= base2 else base2 <= base)
      && Trail(methods, bar0, bar1, distance) <= Trail(more, bar0, bar1, distance)
      && (distance >= 0.0 ==> Trail(methods, bar0, bar1, distance) >= 0.0)
  {
  }

  /** Above the price, adding methods never lowers the stop. */
  lemma NeverLowered(methods: bv32, added: bv32, ivalue: real, bar0: BarOHLC, bar1: BarOHLC, direction: int,
      distance: real)
    requires bar1.WellFormed() && distance >= 0.0 && direction > 0
    ensures Stop(Base(methods, ivalue, bar0, bar1, direction), Trail(methods, bar0, bar1, distance), direction)
      <= Stop(Base(methods | added, ivalue, bar0, bar1, direction), Trail(methods | added, bar0, bar1, distance),
        direction)
  {
  }

  /**
   * Below the price, adding methods raises the stop exactly when it takes the base from a positive price, within the
   * trail, to one that is not positive: the stop goes from a negative value to the value for "none".
   */
  lemma RaisedIff(methods: bv32, added: bv32, ivalue: real, bar0: BarOHLC, bar1: BarOHLC, direction: int,
      distance: real)
    requires bar1.WellFormed() && distance >= 0.0 && direction <= 0
    ensures var base := Base(methods, ivalue, bar0, bar1, direction);
      var base2 := Base(methods | added, ivalue, bar0, bar1, direction);
      var trail, trail2 := Trail(methods, bar0, bar1, distance), Trail(methods | added, bar0, bar1, distance);
      Stop(base, trail, direction) < Stop(base2, trail2, direction) <==> base2 <= 0.0 < base < trail
  {
  }

  // ---------------------------------------------------------------------------------------------
  // Mirrored prices.

  lemma MirrorPivotLevel(bar0: BarOHLC, bar1: BarOHLC, k: real)
    ensures PivotLevel(Mirror(bar0, k), Mirror(bar1, k), 1) == k - PivotLevel(bar0, bar1, -1)
  {
    assert PivotBar(Mirror(bar0, k), Mirror(bar1, k), 1) == Mirror(PivotBar(bar0, bar1, -1), k);
    MirrorPivots(PivotBar(bar0, bar1, -1), Classic, k);
  }

  /** A stop above mirrored prices is built on the mirror image of the base of the stop below, with the same trail. */
  lemma MirrorStop(methods: bv32, ivalue: real, bar0: BarOHLC, bar1: BarOHLC, distance: real, k: real)
    ensures Base(methods, k - ivalue, Mirror(bar0, k), Mirror(bar1, k), 1) == k - Base(methods, ivalue, bar0, bar1, -1)
    ensures Trail(methods, Mirror(bar0, k), Mirror(bar1, k), distance) == Trail(methods, bar0, bar1, distance)
  {
    MirrorPivotLevel(bar0, bar1, k);
    MirrorAverages(bar0, k);
    MirrorAverages(bar1, k);
    MirrorRange(bar1, k);
  }
}
