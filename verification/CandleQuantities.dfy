/** What candle patterns compare, by the four prices of a bar alone. Lists of candles have the latest first. */
module CandleQuantities {
  import opened Bars

  function BodySize(b: BarOHLC): real { if b.close > b.open then b.close - b.open else b.open - b.close }

  function Range(b: BarOHLC): real { b.high - b.low }

  /** Both wicks: what of the range is not body. */
  function WickSize(b: BarOHLC): real { Range(b) - BodySize(b) }

  function UpperWick(b: BarOHLC): real { if b.close > b.open then b.high - b.close else b.high - b.open }

  function LowerWick(b: BarOHLC): real { if b.close > b.open then b.open - b.low else b.close - b.low }

  /** Three times the pivot. */
  function PriceSum(b: BarOHLC): real { b.high + b.low + b.close }

  /** Both bars rise, both fall, or both end where they began. */
  predicate SameSide(a: BarOHLC, b: BarOHLC) {
    (a.close > a.open <==> b.close > b.open) && (a.close < a.open <==> b.close < b.open)
  }

  lemma Measures(b: BarOHLC)
    ensures b.GetBodyAbs() == BodySize(b) && b.GetRange() == Range(b) && b.GetWickSum() == WickSize(b)
    ensures b.GetWickUpper() == UpperWick(b) && b.GetWickLower() == LowerWick(b) && b.GetPivot() * 3.0 == PriceSum(b)
  {
  }

  lemma AgainstPivot(x: real, b: BarOHLC)
    ensures x < b.GetPivot() <==> 3.0 * x < PriceSum(b)
    ensures x > b.GetPivot() <==> 3.0 * x > PriceSum(b)
  {
  }

  lemma Sides(a: BarOHLC, b: BarOHLC)
    ensures a.GetType() == b.GetType() <==> SameSide(a, b)
  {
  }

  lemma SizesAreNotNegative(b: BarOHLC)
    ensures BodySize(b) >= 0.0
    ensures b.WellFormed() ==> Range(b) >= BodySize(b) && UpperWick(b) >= 0.0 && LowerWick(b) >= 0.0
  {
  }

  function Opens(c: seq<BarOHLC>): seq<real> { seq(|c|, i requires 0 <= i < |c| => c[i].open) }

  function Highs(c: seq<BarOHLC>): seq<real> { seq(|c|, i requires 0 <= i < |c| => c[i].high) }

  function Lows(c: seq<BarOHLC>): seq<real> { seq(|c|, i requires 0 <= i < |c| => c[i].low) }

  function Closes(c: seq<BarOHLC>): seq<real> { seq(|c|, i requires 0 <= i < |c| => c[i].close) }

  function PriceSums(c: seq<BarOHLC>): seq<real> { seq(|c|, i requires 0 <= i < |c| => PriceSum(c[i])) }

  function BodySizes(c: seq<BarOHLC>): seq<real> { seq(|c|, i requires 0 <= i < |c| => BodySize(c[i])) }

  function Bodies(c: seq<BarOHLC>): seq<real> { seq(|c|, i requires 0 <= i < |c| => c[i].close - c[i].open) }

  function Ranges(c: seq<BarOHLC>): seq<real> { seq(|c|, i requires 0 <= i < |c| => Range(c[i])) }

  function WickSizes(c: seq<BarOHLC>): seq<real> { seq(|c|, i requires 0 <= i < |c| => WickSize(c[i])) }

  predicate AllRise(c: seq<BarOHLC>) { forall i :: 0 <= i < |c| ==> c[i].close > c[i].open }

  predicate AllFall(c: seq<BarOHLC>) { forall i :: 0 <= i < |c| ==> c[i].close < c[i].open }

  /** From the earliest value to the latest. */
  predicate Increasing(xs: seq<real>) { forall i, j :: 0 <= i < j < |xs| ==> xs[i] > xs[j] }

  predicate Decreasing(xs: seq<real>) { forall i, j :: 0 <= i < j < |xs| ==> xs[i] < xs[j] }

  predicate HighestAt(xs: seq<real>, k: nat)
    requires k < |xs|
  {
    forall i :: 0 <= i < |xs| && i != k ==> xs[i] < xs[k]
  }

  predicate LowestAt(xs: seq<real>, k: nat)
    requires k < |xs|
  {
    forall i :: 0 <= i < |xs| && i != k ==> xs[i] > xs[k]
  }

  /** How far it is between two neighbours. */
  function Step(xs: seq<real>, i: nat): real
    requires i + 1 < |xs|
  {
    if xs[i] < xs[i + 1] then xs[i + 1] - xs[i] else xs[i] - xs[i + 1]
  }

  /** Every candle has the prices of the one before it, raised by d. */
  predicate Raised(c: seq<BarOHLC>, d: real) {
    forall i :: 0 <= i && i + 1 < |c| ==>
      && c[i].open == c[i + 1].open + d && c[i].high == c[i + 1].high + d
      && c[i].low == c[i + 1].low + d && c[i].close == c[i + 1].close + d
  }

  predicate AllWellFormed(c: seq<BarOHLC>) { forall i :: 0 <= i < |c| ==> c[i].WellFormed() }

  /** The bar a has the sizes of the bar b and lies higher. */
  predicate Above(a: BarOHLC, b: BarOHLC) {
    && a.open > b.open && a.high > b.high && a.low > b.low && a.close > b.close
    && a.close - a.open == b.close - b.open && Range(a) == Range(b)
  }

  lemma {:induction false} RaisedAbove(c: seq<BarOHLC>, d: real, i: nat, j: nat)
    requires Raised(c, d) && d > 0.0 && i < j < |c|
    ensures Above(c[i], c[j])
    decreases j - i
  {
    if i + 1 < j {
      RaisedAbove(c, d, i + 1, j);
    }
  }

  lemma AboveIs(a: BarOHLC, b: BarOHLC)
    requires Above(a, b)
    ensures PriceSum(a) > PriceSum(b) && BodySize(a) == BodySize(b) && WickSize(a) == WickSize(b) && SameSide(a, b)
  {
  }

  /** Raised candles: every price and pivot increases, and no size does. */
  lemma RaisedIncrease(c: seq<BarOHLC>, d: real)
    requires Raised(c, d) && d > 0.0 && |c| >= 2
    ensures Increasing(Opens(c)) && Increasing(Highs(c)) && Increasing(Lows(c)) && Increasing(Closes(c))
    ensures Increasing(PriceSums(c))
    ensures forall i, j :: 0 <= i < j < |c| ==>
      Range(c[i]) == Range(c[j]) && BodySize(c[i]) == BodySize(c[j]) && WickSize(c[i]) == WickSize(c[j])
    ensures forall i, j :: 0 <= i < j < |c| ==> SameSide(c[i], c[j])
  {
    forall i: nat, j: nat | i < j < |c| ensures Above(c[i], c[j]) {
      RaisedAbove(c, d, i, j);
    }
    forall i: nat, j: nat | i < j < |c|
      ensures PriceSum(c[i]) > PriceSum(c[j]) && Range(c[i]) == Range(c[j]) && BodySize(c[i]) == BodySize(c[j])
      ensures WickSize(c[i]) == WickSize(c[j]) && SameSide(c[i], c[j])
    {
      AboveIs(c[i], c[j]);
    }
  }

  lemma NotBoth(xs: seq<real>)
    requires |xs| >= 2 && Increasing(xs)
    ensures !Decreasing(xs) && HighestAt(xs, 0) && !LowestAt(xs, 0)
  {
    assert xs[0] > xs[1];
  }

  lemma AllEqual(xs: seq<real>)
    requires |xs| >= 2 && xs[0] == xs[1]
    ensures !Increasing(xs) && !Decreasing(xs)
  {
  }
}
