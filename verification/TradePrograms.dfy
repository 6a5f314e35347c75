/** Programs that count orders against a limit (TradeStats and TradeParams of Trade.struct.h). */
module TradePrograms {
  import opened TradeLimits

  /** The two moments lie in the same period; in the same week, for the clock, when on the same day of the week. */
  predicate SameUnit(p: nat, a: Moment, b: Moment) {
    if p == PER_YEAR then a.year == b.year
    else if p == PER_MONTH then a.year == b.year && a.month == b.month
    else if p == PER_DAY then a.year == b.year && a.month == b.month && a.day == b.day
    else if p == PER_HOUR then a.year == b.year && a.month == b.month && a.day == b.day && a.hour == b.hour
    else if p == PER_WEEK then a.weekday == b.weekday
    else true
  }

  /** Everything happens within one period. */
  ghost predicate Lasts(clock: nat -> Moment, p: nat) {
    forall j: nat, k: nat :: SameUnit(p, clock(j), clock(k))
  }

  /** How many of the orders are of type t. */
  function OrdersOf(orders: seq<nat>, t: nat): nat {
    if orders == [] then 0
    else OrdersOf(orders[..|orders| - 1], t) + if orders[|orders| - 1] == t then 1 else 0
  }

  lemma {:induction false} OneMoreOrder(orders: seq<nat>, i: nat, t: nat)
    requires i < |orders|
    ensures OrdersOf(orders[..i + 1], t) == OrdersOf(orders[..i], t) + if orders[i] == t then 1 else 0
  {
    assert orders[..i + 1][..i] == orders[..i];
  }

  lemma {:induction false} NoMoreThanAll(orders: seq<nat>, t: nat)
    ensures OrdersOf(orders, t) <= |orders|
  {
    if orders != [] {
      NoMoreThanAll(orders[..|orders| - 1], t);
    }
  }

  ghost predicate IsReading(clock: nat -> Moment, m: Moment) {
    exists k: nat :: m == clock(k)
  }

  /** What the cells last saw was this clock. */
  ghost predicate LastRead(clock: nat -> Moment, v: View)
    requires v.Shaped()
  {
    forall t, p :: 0 <= t < TYPES && 0 <= p < PERIODS ==> IsReading(clock, v.last[t][p])
  }

  lemma NotCleared(p: nat, a: Moment, b: Moment)
    requires p < PERIODS && SameUnit(p, a, b)
    ensures p !in ClearedColumns(StartedPeriods(a, b))
  {
    ClearedColumnsAre(a, b);
  }

  lemma SeenIsRead(clock: nat -> Moment, a: View, k: nat, m: Moment)
    requires a.Shaped() && LastRead(clock, a) && Seen(clock, a, k, m)
    ensures IsReading(clock, m)
  {
  }

  /** While the period lasts its column is not cleared. */
  lemma ColumnIsKept(clock: nat -> Moment, a: View, b: View, cols: set<nat>, p: nat)
    requires Swept(clock, a, b, cols) && AllDue(clock, a, b.tick, cols)
    requires p < PERIODS && LastRead(clock, a) && Lasts(clock, p)
    ensures p !in cols && LastRead(clock, b)
  {
    if p in cols {
      assert Due(clock, a, b.tick, p);
      var k: nat, m :| k < b.tick && DueAt(clock, a, k, m, p);
      SeenIsRead(clock, a, k, m);
      var j: nat :| m == clock(j);
      NotCleared(p, clock(k), clock(j));
      assert false;
    }
    forall t, q | 0 <= t < TYPES && 0 <= q < PERIODS ensures IsReading(clock, b.last[t][q]) {
      assert CellSwept(clock, a, b, cols, t, q);
    }
  }

  /** One limit, of n orders of type t in the period p. */
  ghost predicate OneLimit(params: TradeParams, t: nat, p: nat, n: nat)
    reads params.limits
  {
    && t < TYPES && p < PERIODS && params.Valid()
    && forall a, b :: 0 <= a < TYPES && 0 <= b < PERIODS ==> params.limits[a, b] == if a == t && b == p then n else 0
  }

  /** Counters whose cell (t, p) is at `count`, and which only ever saw their own clock. */
  ghost predicate CountedTo(stats: TradeStats, t: nat, p: nat, count: nat)
    reads stats, stats.orderStats, stats.last
  {
    t < TYPES && p < PERIODS && stats.Valid() && LastRead(stats.clock, stats.Now()) && stats.orderStats[t, p] == count
  }

  method AddOne(stats: TradeStats, order: nat, t: nat, p: nat, ghost before: nat, ghost after: nat)
    requires CountedTo(stats, t, p, before) && order < TYPES
    requires after == (before + if order == t then 1 else 0) && after < SIZE_32
    modifies stats.orderStats
    ensures CountedTo(stats, t, p, after)
  {
    ghost var start := stats.Now();
    stats.Add(order, 1);
    NoWrap(after);
    forall u, q | 0 <= u < TYPES && 0 <= q < PERIODS ensures IsReading(stats.clock, stats.Now().last[u][q]) {
      assert IsReading(stats.clock, start.last[u][q]);
    }
  }

  /** The answer of a scan, by the limits and the counters as it leaves them. */
  ghost predicate AtLimit(params: TradeParams, stats: TradeStats)
    requires params.Valid() && stats.Valid()
    reads params.limits, stats, stats.orderStats
  {
    exists t, p :: 0 <= t < TYPES && 0 <= p < PERIODS && 0 < params.limits[t, p] <= stats.orderStats[t, p]
  }

  lemma OnlyThisLimit(params: TradeParams, stats: TradeStats, t: nat, p: nat, n: nat)
    requires OneLimit(params, t, p, n) && stats.Valid()
    ensures AtLimit(params, stats) <==> n > 0 && stats.orderStats[t, p] >= n
  {
    if n > 0 && stats.orderStats[t, p] >= n {
      assert params.limits[t, p] > 0 && stats.orderStats[t, p] >= params.limits[t, p];
    }
  }

  /** A scan leaves the counter of a period that lasts as it is. */
  method ScanKeeps(params: TradeParams, stats: TradeStats, t: nat, p: nat, ghost count: nat) returns (found: bool)
    requires params.Valid() && params.limits != stats.orderStats
    requires CountedTo(stats, t, p, count) && Lasts(stats.clock, p)
    modifies stats, stats.orderStats, stats.last
    ensures CountedTo(stats, t, p, count)
    ensures found <==> AtLimit(params, stats)
  {
    ghost var start := stats.Now();
    ghost var cols;
    found, cols := params.IsLimitGe(stats);
    ColumnIsKept(stats.clock, start, stats.Now(), cols, p);
    assert CellSwept(stats.clock, start, stats.Now(), cols, t, p);
  }

  method ScanOne(params: TradeParams, stats: TradeStats, t: nat, p: nat, n: nat, ghost count: nat)
    returns (found: bool)
    requires OneLimit(params, t, p, n) && params.limits != stats.orderStats
    requires CountedTo(stats, t, p, count) && Lasts(stats.clock, p)
    modifies stats, stats.orderStats, stats.last
    ensures CountedTo(stats, t, p, count)
    ensures found <==> n > 0 && count >= n
  {
    found := ScanKeeps(params, stats, t, p, count);
    OnlyThisLimit(params, stats, t, p, n);
  }

  /** The scans of a program after its orders so far. */
  ghost predicate AnsweredFor(answers: seq<bool>, orders: seq<nat>, t: nat, n: nat, i: nat) {
    && |answers| == i <= |orders|
    && forall j :: 0 <= j < i ==> (answers[j] <==> n > 0 && OrdersOf(orders[..j + 1], t) >= n)
  }

  method NewCounters(clock: nat -> Moment, initial: Moment, t: nat, p: nat) returns (stats: TradeStats)
    requires t < TYPES && p < PERIODS
    ensures fresh(stats) && fresh(stats.orderStats) && fresh(stats.last) && stats.clock == clock
    ensures CountedTo(stats, t, p, 0)
  {
    stats := new TradeStats(clock, initial);
  }

  method NewLimit(t: nat, p: nat, n: nat) returns (params: TradeParams)
    requires t < TYPES && p < PERIODS && n < SIZE_32
    ensures fresh(params) && fresh(params.limits) && OneLimit(params, t, p, n)
  {
    params := new TradeParams();
    params.SetLimits(t, p, n);
  }

  /** One order, and the scan after it. */
  method AddAndScan(params: TradeParams, stats: TradeStats, t: nat, p: nat, n: nat, orders: seq<nat>, i: nat)
    returns (found: bool)
    requires OneLimit(params, t, p, n) && params.limits != stats.orderStats && Lasts(stats.clock, p)
    requires i < |orders| < SIZE_32 && orders[i] < TYPES && CountedTo(stats, t, p, OrdersOf(orders[..i], t))
    modifies stats, stats.orderStats, stats.last
    ensures CountedTo(stats, t, p, OrdersOf(orders[..i + 1], t))
    ensures found <==> n > 0 && OrdersOf(orders[..i + 1], t) >= n
  {
    OneMoreOrder(orders, i, t);
    NoMoreThanAll(orders[..i + 1], t);
    AddOne(stats, orders[i], t, p, OrdersOf(orders[..i], t), OrdersOf(orders[..i + 1], t));
    found := ScanOne(params, stats, t, p, n, OrdersOf(orders[..i + 1], t));
  }

  method AddAll(params: TradeParams, stats: TradeStats, t: nat, p: nat, n: nat, orders: seq<nat>)
    returns (answers: seq<bool>)
    requires OneLimit(params, t, p, n) && params.limits != stats.orderStats && Lasts(stats.clock, p)
    requires |orders| < SIZE_32 && (forall i :: 0 <= i < |orders| ==> orders[i] < TYPES) && CountedTo(stats, t, p, 0)
    modifies stats, stats.orderStats, stats.last
    ensures AnsweredFor(answers, orders, t, n, |orders|)
  {
    answers := [];
    for i := 0 to |orders|
      invariant CountedTo(stats, t, p, OrdersOf(orders[..i], t))
      invariant AnsweredFor(answers, orders, t, n, i)
    {
      var found := AddAndScan(params, stats, t, p, n, orders, i);
      answers := answers + [found];
    }
  }

  /**
   * A limit of n orders of one type in a period, and no other limit: as long as the period lasts the scan after each
   * order answers whether n orders of the type have been added by then. For the total the clock does not matter, and
   * n = 0 is no limit.
   */
  method CountToLimit(clock: nat -> Moment, initial: Moment, t: nat, p: nat, n: nat, orders: seq<nat>)
    returns (answers: seq<bool>)
    requires t < TYPES && p < PERIODS && n < SIZE_32 && |orders| < SIZE_32 && Lasts(clock, p)
    requires forall i :: 0 <= i < |orders| ==> orders[i] < TYPES
    ensures |answers| == |orders|
    ensures forall i :: 0 <= i < |orders| ==> (answers[i] <==> n > 0 && OrdersOf(orders[..i + 1], t) >= n)
  {
    var stats := NewCounters(clock, initial, t, p);
    var params := NewLimit(t, p, n);
    answers := AddAll(params, stats, t, p, n, orders);
  }
}
