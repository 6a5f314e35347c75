/** Trade statistics and limits: TradeStats and TradeParams of Trade.struct.h, with the clock of DateTime.mqh. */
module TradeLimits {

  // ---------------------------------------------------------------------------------------------
  // Started periods.

  datatype Moment = Moment(year: int, month: int, day: int, weekday: int, hour: int, minute: int, second: int)

  /** The flags DATETIME_SECOND (1) to DATETIME_YEAR (64). */
  datatype Started = Started(second: bool, minute: bool, hour: bool, day: bool, week: bool, month: bool, year: bool) {
    function Code(): nat {
      Flag(second, 1) + Flag(minute, 2) + Flag(hour, 4) + Flag(day, 8) + Flag(week, 16) + Flag(month, 32)
        + Flag(year, 64)
    }
  }

  function Flag(on: bool, value: nat): nat { if on then value else 0 }

  /** GetStartedPeriods: a new unit brings all smaller ones but the week, which has its own test. */
  function StartedPeriods(curr: Moment, last: Moment): Started {
    var week := curr.weekday != last.weekday;
    if curr.year != last.year then Started(true, true, true, true, week, true, true)
    else if curr.month != last.month then Started(true, true, true, true, week, true, false)
    else if curr.day != last.day then Started(true, true, true, true, week, false, false)
    else if curr.hour != last.hour then Started(true, true, true, false, week, false, false)
    else if curr.minute != last.minute then Started(true, true, false, false, week, false, false)
    else if curr.second != last.second then Started(true, false, false, false, week, false, false)
    else Started(false, false, false, false, week, false, false)
  }

  function FlaggedColumns(s: Started): set<nat> {
    (if s.hour then {PER_HOUR} else {}) + (if s.day then {PER_DAY} else {}) + (if s.week then {PER_WEEK} else {})
    + (if s.month then {PER_MONTH} else {}) + (if s.year then {PER_YEAR} else {})
  }

  /** The columns of counters reset for the started periods: those flagged, when the code says an hour or more. */
  function ClearedColumns(s: Started): set<nat> {
    if s.Code() < 4 then {} else FlaggedColumns(s)
  }

  const ALL: nat := 0
  const PER_HOUR: nat := 1
  const PER_DAY: nat := 2
  const PER_WEEK: nat := 3
  const PER_MONTH: nat := 4
  const PER_YEAR: nat := 5
  const PERIODS: nat := 6
  const TYPES: nat := 7
  const SIZE_32: nat := 0x1_0000_0000

  /** What is left of an integer in 32 bits. */
  function Wrapped(x: int): (r: nat)
    ensures r < SIZE_32 && (x - r) % SIZE_32 == 0
  {
    x % SIZE_32
  }

  /** Sets of columns that a clock can clear: never the total, and with a period all the shorter ones. */
  predicate Closed(cols: set<nat>) {
    && ALL !in cols
    && (PER_YEAR in cols ==> PER_MONTH in cols)
    && (PER_MONTH in cols ==> PER_DAY in cols)
    && (PER_DAY in cols ==> PER_HOUR in cols)
  }

  /**
   * The threshold on the code leaves no flagged column out, and a column is cleared exactly when the two moments differ
   * in its unit or a longer one; the week's column, when they fall on different days of the week.
   */
  lemma ClearedColumnsAre(curr: Moment, last: Moment)
    ensures var s := StartedPeriods(curr, last); ClearedColumns(s) == FlaggedColumns(s)
    ensures var cols := ClearedColumns(StartedPeriods(curr, last));
      && Closed(cols) && (forall p :: p in cols ==> 1 <= p < PERIODS)
      && (PER_YEAR in cols <==> curr.year != last.year)
      && (PER_MONTH in cols <==> curr.year != last.year || curr.month != last.month)
      && (PER_DAY in cols <==> curr.year != last.year || curr.month != last.month || curr.day != last.day)
      && (PER_HOUR in cols
          <==> curr.year != last.year || curr.month != last.month || curr.day != last.day || curr.hour != last.hour)
      && (PER_WEEK in cols <==> curr.weekday != last.weekday)
  {
  }

  /** The periods but the week, from shorter to longer. */
  predicate Within(q: nat, p: nat) {
    q in {PER_HOUR, PER_DAY, PER_MONTH, PER_YEAR} && p in {PER_HOUR, PER_DAY, PER_MONTH, PER_YEAR} && q <= p
  }

  lemma ClosedDown(cols: set<nat>, q: nat, p: nat)
    requires Closed(cols) && p in cols && Within(q, p)
    ensures q in cols
  {
  }

  // ---------------------------------------------------------------------------------------------
  // Rows of counters.

  function ClearedRow(row: seq<nat>, cols: set<nat>): (r: seq<nat>)
    ensures |r| == |row|
  {
    seq(|row|, p requires 0 <= p < |row| => if p in cols then 0 else row[p])
  }

  /** Shorter periods count no more than longer ones, and none more than the total. */
  predicate Nested(row: seq<nat>)
    requires |row| == PERIODS
  {
    row[PER_HOUR] <= row[PER_DAY] <= row[PER_MONTH] <= row[PER_YEAR] <= row[ALL] && row[PER_WEEK] <= row[ALL]
  }

  lemma ClearedRowNested(row: seq<nat>, cols: set<nat>)
    requires |row| == PERIODS && Nested(row) && Closed(cols)
    ensures Nested(ClearedRow(row, cols))
  {
  }

  /** A reading of the clock from the given stretch of time. */
  ghost predicate ReadIn(clock: nat -> Moment, from: nat, to: nat, m: Moment) {
    exists k: nat :: from <= k < to && m == clock(k)
  }

  /** A limit that is set and reached. */
  predicate ReachedCell(limit: nat, value: nat) { limit > 0 && value >= limit }

  // ---------------------------------------------------------------------------------------------
  // What reading the counters does to them.

  /** The counters, what their clocks last saw, and the number of clock readings so far. */
  datatype View = View(counts: seq<seq<nat>>, last: seq<seq<Moment>>, tick: nat) {
    ghost predicate Shaped() {
      && |counts| == TYPES && |last| == TYPES
      && forall t :: 0 <= t < TYPES ==> |counts[t]| == PERIODS && |last[t]| == PERIODS
    }
  }

  /** From `a` to `b` the columns `cols` became zero, their clocks saw the time in between, and nothing else changed. */
  ghost predicate Swept(clock: nat -> Moment, a: View, b: View, cols: set<nat>) {
    && a.Shaped() && b.Shaped() && Closed(cols) && a.tick <= b.tick
    && forall t, p :: 0 <= t < TYPES && 0 <= p < PERIODS ==> CellSwept(clock, a, b, cols, t, p)
  }

  ghost predicate CellSwept(clock: nat -> Moment, a: View, b: View, cols: set<nat>, t: nat, p: nat)
    requires a.Shaped() && b.Shaped() && t < TYPES && p < PERIODS
  {
    if p in cols then b.counts[t][p] == 0 && ReadIn(clock, a.tick, b.tick, b.last[t][p])
    else b.counts[t][p] == a.counts[t][p] && b.last[t][p] == a.last[t][p]
  }

  lemma SweptNothing(clock: nat -> Moment, a: View)
    requires a.Shaped()
    ensures Swept(clock, a, a, {})
  {
  }

  lemma SweptTwice(clock: nat -> Moment, a: View, b: View, c: View, first: set<nat>, second: set<nat>)
    requires Swept(clock, a, b, first) && Swept(clock, b, c, second)
    ensures Swept(clock, a, c, first + second)
  {
    forall t, p | 0 <= t < TYPES && 0 <= p < PERIODS ensures CellSwept(clock, a, c, first + second, t, p) {
      assert CellSwept(clock, a, b, first, t, p) && CellSwept(clock, b, c, second, t, p);
    }
  }

  ghost predicate AllNested(v: View)
    requires v.Shaped()
  {
    forall t :: 0 <= t < TYPES ==> Nested(v.counts[t])
  }

  /** What is swept stays nested. */
  lemma SweptNested(clock: nat -> Moment, a: View, b: View, cols: set<nat>)
    requires Swept(clock, a, b, cols) && AllNested(a)
    ensures AllNested(b)
  {
    forall t | 0 <= t < TYPES ensures Nested(b.counts[t]) {
      ClearedRowNested(a.counts[t], cols);
      forall p | 0 <= p < PERIODS ensures b.counts[t][p] == ClearedRow(a.counts[t], cols)[p] {
        assert CellSwept(clock, a, b, cols, t, p);
      }
    }
  }

  /** What a reading of the clock clears because of the cell `(t, p)`. */
  ghost function ClearedBy(clock: nat -> Moment, v: View, t: nat, p: nat, k: nat): set<nat>
    requires v.Shaped() && t < TYPES && p < PERIODS
  {
    ClearedColumns(StartedPeriods(clock(k), v.last[t][p]))
  }

  /** By the readings up to `to`, no period that matters has started since any of the last resets. */
  ghost predicate Quiet(clock: nat -> Moment, v: View, to: nat)
    requires v.Shaped()
  {
    forall k: nat, t, p :: v.tick <= k < to && 0 <= t < TYPES && 0 <= p < PERIODS ==> ClearedBy(clock, v, t, p, k) == {}
  }

  lemma StaysQuiet(clock: nat -> Moment, a: View, b: View, to: nat)
    requires Swept(clock, a, b, {}) && Quiet(clock, a, to)
    ensures Quiet(clock, b, to)
  {
    forall k: nat, t, p | b.tick <= k < to && 0 <= t < TYPES && 0 <= p < PERIODS
      ensures ClearedBy(clock, b, t, p, k) == {}
    {
      assert CellSwept(clock, a, b, {}, t, p);
      assert ClearedBy(clock, a, t, p, k) == {};
    }
  }

  /** By all readings up to `to`, the clock is past the period `q` in which the cell `(t, p)` was last reset. */
  ghost predicate Moved(clock: nat -> Moment, v: View, t: nat, p: nat, q: nat, to: nat)
    requires v.Shaped() && t < TYPES && p < PERIODS
  {
    forall k: nat :: v.tick <= k < to ==> q in ClearedBy(clock, v, t, p, k)
  }

  lemma StaysMoved(clock: nat -> Moment, a: View, b: View, cols: set<nat>, t: nat, p: nat, q: nat, to: nat)
    requires Swept(clock, a, b, cols) && t < TYPES && Within(q, p) && Moved(clock, a, t, p, q, to)
    ensures q in cols || Moved(clock, b, t, p, q, to)
  {
    if p in cols {
      ClosedDown(cols, q, p);
    } else {
      assert CellSwept(clock, a, b, cols, t, p);
      forall k: nat | b.tick <= k < to ensures q in ClearedBy(clock, b, t, p, k) {
        assert q in ClearedBy(clock, a, t, p, k);
      }
    }
  }

  predicate SameDay(a: Moment, b: Moment) {
    a.year == b.year && a.month == b.month && a.day == b.day
  }

  predicate SameHour(a: Moment, b: Moment) {
    SameDay(a, b) && a.hour == b.hour
  }

  /** So it is for the hourly counters once the hour in which the daily counter of the type was reset is over. */
  lemma HourMoved(clock: nat -> Moment, v: View, t: nat, to: nat)
    requires v.Shaped() && t < TYPES
    requires forall k: nat :: k >= v.tick ==> !SameHour(clock(k), v.last[t][PER_DAY])
    ensures Within(PER_HOUR, PER_DAY) && Moved(clock, v, t, PER_DAY, PER_HOUR, to)
  {
    forall k: nat | v.tick <= k < to ensures PER_HOUR in ClearedBy(clock, v, t, PER_DAY, k) {
      ClearedColumnsAre(clock(k), v.last[t][PER_DAY]);
    }
  }

  /** A moment that some cell of a period saw before `start`, or that was read between `start` and the reading `k`. */
  ghost predicate Seen(clock: nat -> Moment, start: View, k: nat, m: Moment)
    requires start.Shaped()
  {
    || ReadIn(clock, start.tick, k, m)
    || exists t, p :: 0 <= t < TYPES && 0 < p < PERIODS && m == start.last[t][p]
  }

  ghost predicate DueAt(clock: nat -> Moment, start: View, k: nat, m: Moment, c: nat)
    requires start.Shaped()
  {
    start.tick <= k && Seen(clock, start, k, m) && c in ClearedColumns(StartedPeriods(clock(k), m))
  }

  /** By some reading before `to`, the period `c` in which some moment seen until then lies is over. */
  ghost predicate Due(clock: nat -> Moment, start: View, to: nat, c: nat)
    requires start.Shaped()
  {
    exists k: nat, m :: k < to && DueAt(clock, start, k, m, c)
  }

  /** Only columns that are due are cleared. */
  ghost predicate AllDue(clock: nat -> Moment, start: View, to: nat, cols: set<nat>)
    requires start.Shaped()
  {
    forall c :: c in cols ==> Due(clock, start, to, c)
  }

  /** In particular none when no period has started. */
  ghost predicate OnlyDue(clock: nat -> Moment, start: View, to: nat, cols: set<nat>)
    requires start.Shaped()
  {
    AllDue(clock, start, to, cols) && (Quiet(clock, start, to) ==> cols == {})
  }

  lemma StillDue(clock: nat -> Moment, start: View, from: nat, to: nat, cols: set<nat>)
    requires start.Shaped() && AllDue(clock, start, from, cols) && from <= to
    ensures AllDue(clock, start, to, cols)
  {
    forall c | c in cols ensures Due(clock, start, to, c) {
      assert Due(clock, start, from, c);
      var k: nat, m :| k < from && DueAt(clock, start, k, m, c);
      assert k < to && DueAt(clock, start, k, m, c);
    }
  }

  /** What a cell clears after a sweep is due by the reading made for it. */
  lemma ClearedIsDue(clock: nat -> Moment, a: View, b: View, cols: set<nat>, t: nat, p: nat, to: nat)
    requires Swept(clock, a, b, cols) && t < TYPES && 0 < p < PERIODS && b.tick < to
    ensures AllDue(clock, a, to, ClearedBy(clock, b, t, p, b.tick))
  {
    var m := b.last[t][p];
    assert CellSwept(clock, a, b, cols, t, p);
    assert Seen(clock, a, b.tick, m);
    forall c | c in ClearedBy(clock, b, t, p, b.tick) ensures Due(clock, a, to, c) {
      assert DueAt(clock, a, b.tick, m, c);
    }
  }

  /** All cells of periods were last reset on the day of `d`. */
  ghost predicate ResetOn(v: View, d: Moment)
    requires v.Shaped()
  {
    forall t, p :: 0 <= t < TYPES && 0 < p < PERIODS ==> SameDay(v.last[t][p], d)
  }

  ghost predicate DayLasts(clock: nat -> Moment, from: nat, to: nat, d: Moment) {
    forall k: nat :: from <= k < to ==> SameDay(clock(k), d)
  }

  lemma DayNotDue(clock: nat -> Moment, a: View, to: nat, d: Moment, k: nat, m: Moment)
    requires a.Shaped() && ResetOn(a, d) && DayLasts(clock, a.tick, to, d)
    requires a.tick <= k < to && Seen(clock, a, k, m)
    ensures !DueAt(clock, a, k, m, PER_DAY)
  {
    ClearedColumnsAre(clock(k), m);
  }

  /** While the day lasts only hourly and weekly counters are cleared, and all cells stay reset on that day. */
  lemma DayIsKept(clock: nat -> Moment, a: View, b: View, cols: set<nat>, d: Moment)
    requires Swept(clock, a, b, cols) && OnlyDue(clock, a, b.tick, cols)
    requires ResetOn(a, d) && DayLasts(clock, a.tick, b.tick, d)
    ensures PER_DAY !in cols && PER_MONTH !in cols && PER_YEAR !in cols && ResetOn(b, d)
    ensures b.last[0][PER_DAY] == a.last[0][PER_DAY]
  {
    if PER_DAY in cols {
      assert Due(clock, a, b.tick, PER_DAY);
      var k: nat, m :| k < b.tick && DueAt(clock, a, k, m, PER_DAY);
      DayNotDue(clock, a, b.tick, d, k, m);
      assert false;
    }
    assert CellSwept(clock, a, b, cols, 0, PER_DAY);
    forall t, p | 0 <= t < TYPES && 0 < p < PERIODS ensures SameDay(b.last[t][p], d) {
      assert CellSwept(clock, a, b, cols, t, p);
    }
  }

  // ---------------------------------------------------------------------------------------------
  // A scan under a clock that stands still.

  /** The clock gave the same answer from the reading `from` up to the reading `to`. */
  ghost predicate Stood(clock: nat -> Moment, from: nat, to: nat, now: Moment) {
    forall k: nat :: from <= k < to ==> clock(k) == now
  }

  /** A cell, or the end of a row, or the end of all rows. */
  predicate Place(t: nat, p: nat) {
    (t < TYPES && p <= PERIODS) || (t == TYPES && p == 0)
  }

  predicate Before(a: nat, b: nat, t: nat, p: nat) {
    a < t || (a == t && b < p)
  }

  /** The columns cleared at the time `now` before the place `(t, p)`, reading row by row from the state `v`. */
  ghost function Expired(now: Moment, v: View, t: nat, p: nat): set<nat>
    requires v.Shaped() && Place(t, p)
    decreases t, p + 1, 0
  {
    if p > 0 then ExpiredAfter(now, v, t, p - 1) else if t > 0 then Expired(now, v, t - 1, PERIODS) else {}
  }

  /** The same after it is read: a cell whose column was cleared already has just been reset and clears nothing. */
  ghost function ExpiredAfter(now: Moment, v: View, t: nat, p: nat): set<nat>
    requires v.Shaped() && t < TYPES && p < PERIODS
    decreases t, p + 1, 1
  {
    var cols := Expired(now, v, t, p);
    if p == ALL || p in cols then cols else cols + ClearedColumns(StartedPeriods(now, v.last[t][p]))
  }

  /** The reading made for a cell when all are gone through row by row from the reading `from` on. */
  function ReadingOf(from: nat, t: nat, p: nat): nat { from + t * PERIODS + p }

  lemma ZerosNested(v: View)
    requires v.Shaped() && forall t, p :: 0 <= t < TYPES && 0 <= p < PERIODS ==> v.counts[t][p] == 0
    ensures AllNested(v)
  {
  }

  class TradeStats {
    const orderStats: array2<nat>
    const last: array2<Moment>
    const clock: nat -> Moment
    var tick: nat

    /** All counters zero; what the clocks last saw is the reading made for them here. */
    constructor (clock: nat -> Moment, initial: Moment)
      ensures Valid() && fresh(orderStats) && fresh(last) && this.clock == clock && AllNested(Now())
      ensures tick == TYPES * PERIODS
      ensures forall t, p :: 0 <= t < TYPES && 0 <= p < PERIODS ==>
        orderStats[t, p] == 0 && last[t, p] == clock(ReadingOf(0, t, p))
    {
      orderStats := new nat[TYPES, PERIODS]((_, _) => 0);
      last := new Moment[TYPES, PERIODS]((_, _) => initial);
      this.clock := clock;
      tick := 0;
      new;
      ResetAll();
      ZerosNested(Now());
    }

    method ResetAll()
      requires Valid()
      modifies this, orderStats, last
      ensures Valid() && tick == old(tick) + TYPES * PERIODS
      ensures forall t, p :: 0 <= t < TYPES && 0 <= p < PERIODS ==>
        orderStats[t, p] == 0 && last[t, p] == clock(ReadingOf(old(tick), t, p))
    {
      for t := 0 to TYPES
        invariant Valid() && tick == old(tick) + t * PERIODS
        invariant forall a, b :: 0 <= a < t && 0 <= b < PERIODS ==>
          orderStats[a, b] == 0 && last[a, b] == clock(ReadingOf(old(tick), a, b))
      {
        for p := 0 to PERIODS
          invariant Valid() && tick == old(tick) + t * PERIODS + p
          invariant forall a, b :: 0 <= a < t && 0 <= b < PERIODS ==>
            orderStats[a, b] == 0 && last[a, b] == clock(ReadingOf(old(tick), a, b))
          invariant forall b :: 0 <= b < p ==>
            orderStats[t, b] == 0 && last[t, b] == clock(ReadingOf(old(tick), t, b))
        {
          orderStats[t, p] := 0;
          var _ := GetStartedPeriods(t, p, true);
        }
      }
    }

    ghost predicate Valid()
      reads this, orderStats
    {
      && orderStats.Length0 == TYPES && orderStats.Length1 == PERIODS
      && last.Length0 == TYPES && last.Length1 == PERIODS
      && forall t, p :: 0 <= t < TYPES && 0 <= p < PERIODS ==> orderStats[t, p] < SIZE_32
    }

    ghost function Now(): (v: View)
      requires Valid()
      reads this, orderStats, last
      ensures v.Shaped() && v.tick == tick
      ensures forall t, p :: 0 <= t < TYPES && 0 <= p < PERIODS ==>
        v.counts[t][p] == orderStats[t, p] && v.last[t][p] == last[t, p]
    {
      View(seq(TYPES, t requires 0 <= t < TYPES && Valid() reads this, orderStats => Row(t)),
           seq(TYPES, t requires 0 <= t < TYPES && Valid() reads this, orderStats, last => LastRow(t)), tick)
    }

    ghost function Row(t: nat): (r: seq<nat>)
      requires t < TYPES && Valid()
      reads this, orderStats
      ensures |r| == PERIODS && forall p :: 0 <= p < PERIODS ==> r[p] == orderStats[t, p]
    {
      [orderStats[t, 0], orderStats[t, 1], orderStats[t, 2], orderStats[t, 3], orderStats[t, 4], orderStats[t, 5]]
    }

    ghost function LastRow(t: nat): (r: seq<Moment>)
      requires t < TYPES && Valid()
      reads this, orderStats, last
      ensures |r| == PERIODS && forall p :: 0 <= p < PERIODS ==> r[p] == last[t, p]
    {
      [last[t, 0], last[t, 1], last[t, 2], last[t, 3], last[t, 4], last[t, 5]]
    }

    method GetStartedPeriods(t: nat, p: nat, updateLast: bool) returns (started: Started)
      requires Valid() && t < TYPES && p < PERIODS
      modifies this, last
      ensures Valid() && tick == old(tick) + 1
      ensures started == StartedPeriods(clock(old(tick)), old(last[t, p]))
      ensures forall a, b :: 0 <= a < TYPES && 0 <= b < PERIODS ==>
        last[a, b] == if updateLast && a == t && b == p then clock(old(tick)) else old(last[a, b])
    {
      var curr := clock(tick);
      tick := tick + 1;
      started := StartedPeriods(curr, last[t, p]);
      if updateLast {
        last[t, p] := curr;
      }
    }

    /** ResetStats for a period: the column becomes zero. */
    method ResetPeriod(p: nat)
      requires Valid() && p < PERIODS
      modifies this, orderStats, last
      ensures Valid() && tick == old(tick) + TYPES
      ensures forall a, b :: 0 <= a < TYPES && 0 <= b < PERIODS ==>
        orderStats[a, b] == if b == p then 0 else old(orderStats[a, b])
      ensures forall a, b :: 0 <= a < TYPES && 0 <= b < PERIODS ==>
        last[a, b] == if b == p then clock(old(tick) + a) else old(last[a, b])
    {
      for t := 0 to TYPES
        invariant Valid() && tick == old(tick) + t
        invariant forall a, b :: 0 <= a < TYPES && 0 <= b < PERIODS ==>
          orderStats[a, b] == if b == p && a < t then 0 else old(orderStats[a, b])
        invariant forall a, b :: 0 <= a < TYPES && 0 <= b < PERIODS ==>
          last[a, b] == if b == p && a < t then clock(old(tick) + a) else old(last[a, b])
      {
        orderStats[t, p] := 0;
        var _ := GetStartedPeriods(t, p, true);
      }
    }

    /** ResetStats for a set of started periods: the flagged columns become zero. */
    method ResetFlagged(started: Started)
      requires Valid()
      modifies this, orderStats, last
      ensures Valid() && tick >= old(tick)
      ensures forall a, b :: 0 <= a < TYPES && 0 <= b < PERIODS ==>
        orderStats[a, b] == if b in FlaggedColumns(started) then 0 else old(orderStats[a, b])
      ensures forall a, b :: 0 <= a < TYPES && 0 <= b < PERIODS ==>
        if b in FlaggedColumns(started) then ReadIn(clock, old(tick), tick, last[a, b])
        else last[a, b] == old(last[a, b])
    {
      if started.hour {
        ResetPeriod(PER_HOUR);
      }
      if started.day {
        ResetPeriod(PER_DAY);
      }
      if started.week {
        ResetPeriod(PER_WEEK);
      }
      if started.month {
        ResetPeriod(PER_MONTH);
      }
      if started.year {
        ResetPeriod(PER_YEAR);
      }
    }

    /** Reading a counter may clear whole columns first, `cols`, by what the clock says of the counter's own cell. */
    method GetOrderStats(t: nat, p: nat, reset: bool) returns (value: nat, ghost cols: set<nat>)
      requires Valid() && t < TYPES && p < PERIODS
      modifies this, orderStats, last
      ensures Valid() && tick >= old(tick) + (if reset && p > ALL then 1 else 0) && value == orderStats[t, p]
      ensures cols == if reset && p > ALL then ClearedColumns(StartedPeriods(clock(old(tick)), old(last[t, p]))) else {}
      ensures Closed(cols)
      ensures forall a, b :: 0 <= a < TYPES && 0 <= b < PERIODS ==>
        orderStats[a, b] == if b in cols then 0 else old(orderStats[a, b])
      ensures forall a, b :: 0 <= a < TYPES && 0 <= b < PERIODS ==>
        if b in cols then ReadIn(clock, old(tick), tick, last[a, b]) else last[a, b] == old(last[a, b])
    {
      cols := {};
      if reset && p > ALL {
        var started := GetStartedPeriods(t, p, false);
        ClearedColumnsAre(clock(old(tick)), old(last[t, p]));
        cols := ClearedColumns(started);
        if started.Code() >= 4 {
          ResetFlagged(started);
        }
      }
      value := orderStats[t, p];
    }

    /** GetOrderStats as the scans use it. */
    method Read(t: nat, p: nat) returns (value: nat, ghost cols: set<nat>)
      requires Valid() && t < TYPES && p < PERIODS
      modifies this, orderStats, last
      ensures Valid() && value == Now().counts[t][p]
      ensures cols == if p > ALL then ClearedBy(clock, old(Now()), t, p, old(tick)) else {}
      ensures Swept(clock, old(Now()), Now(), cols) && (p > ALL ==> tick > old(tick))
    {
      value, cols := GetOrderStats(t, p, true);
    }

    /** Add: every counter of a type, modulo 2^32. */
    method Add(t: nat, value: int)
      requires Valid() && t < TYPES
      modifies orderStats
      ensures Valid()
      ensures forall a, b :: 0 <= a < TYPES && 0 <= b < PERIODS ==>
        orderStats[a, b] == if a == t then Wrapped(old(orderStats[a, b]) + value) else old(orderStats[a, b])
      ensures old(AllNested(Now())) && value >= 0 && old(orderStats[t, ALL]) + value < SIZE_32 ==> AllNested(Now())
    {
      ghost var start := Now();
      AddToRow(t, value);
      if AllNested(start) && value >= 0 && start.counts[t][ALL] + value < SIZE_32 {
        AddedNested(start, Now(), t, value);
      }
    }

    method AddToRow(t: nat, value: int)
      requires Valid() && t < TYPES
      modifies orderStats
      ensures Valid()
      ensures forall a, b :: 0 <= a < TYPES && 0 <= b < PERIODS ==>
        orderStats[a, b] == if a == t then Wrapped(old(orderStats[a, b]) + value) else old(orderStats[a, b])
    {
      for p := 0 to PERIODS
        invariant Valid()
        invariant forall a, b :: 0 <= a < TYPES && 0 <= b < PERIODS ==>
          orderStats[a, b] == if a == t && b < p then Wrapped(old(orderStats[a, b]) + value) else old(orderStats[a, b])
      {
        orderStats[t, p] := Wrapped(orderStats[t, p] + value);
      }
    }
  }

  lemma AddedRowNested(row: seq<nat>, added: seq<nat>, value: nat)
    requires |row| == PERIODS == |added| && Nested(row) && row[ALL] + value < SIZE_32
    requires forall p :: 0 <= p < PERIODS ==> added[p] == Wrapped(row[p] + value)
    ensures Nested(added)
  {
    forall p | 0 <= p < PERIODS ensures added[p] == row[p] + value {
      assert row[p] <= row[ALL];
      NoWrap(row[p] + value);
    }
  }

  lemma AddedNested(a: View, b: View, t: nat, value: nat)
    requires a.Shaped() && b.Shaped() && AllNested(a) && t < TYPES && a.counts[t][ALL] + value < SIZE_32
    requires forall x, p :: 0 <= x < TYPES && 0 <= p < PERIODS ==>
      b.counts[x][p] == if x == t then Wrapped(a.counts[x][p] + value) else a.counts[x][p]
    ensures AllNested(b)
  {
    AddedRowNested(a.counts[t], b.counts[t], value);
    forall x | 0 <= x < TYPES && x != t ensures Nested(b.counts[x]) {
      assert Nested(a.counts[x]);
      assert forall p :: 0 <= p < PERIODS ==> b.counts[x][p] == a.counts[x][p];
    }
  }

  lemma NoWrap(x: nat)
    requires x < SIZE_32
    ensures Wrapped(x) == x
  {
  }

  class TradeParams {
    const limits: array2<nat>

    /** No limits. */
    constructor ()
      ensures Valid() && fresh(limits)
      ensures forall t, p :: 0 <= t < TYPES && 0 <= p < PERIODS ==> limits[t, p] == 0
    {
      limits := new nat[TYPES, PERIODS]((_, _) => 0);
    }

    method SetLimits(t: nat, p: nat, value: nat)
      requires Valid() && t < TYPES && p < PERIODS && value < SIZE_32
      modifies limits
      ensures forall a, b :: 0 <= a < TYPES && 0 <= b < PERIODS ==>
        limits[a, b] == if a == t && b == p then value else old(limits[a, b])
    {
      limits[t, p] := value;
    }

    ghost predicate Valid() {
      limits.Length0 == TYPES && limits.Length1 == PERIODS
    }

    ghost predicate Reached(v: View, t: nat, p: nat)
      requires Valid() && v.Shaped() && t < TYPES && p < PERIODS
      reads limits
    {
      ReachedCell(limits[t, p], v.counts[t][p])
    }

    /** Some counter is at its limit. */
    ghost predicate AnyReached(v: View)
      requires Valid() && v.Shaped()
      reads limits
    {
      exists t, p :: 0 <= t < TYPES && 0 <= p < PERIODS && Reached(v, t, p)
    }

    /** Some counter is at its limit, other than those of the period `q` of the types after `u`. */
    ghost predicate ReachedBesides(v: View, u: nat, q: nat)
      requires Valid() && v.Shaped()
      reads limits
    {
      exists t, p :: 0 <= t < TYPES && 0 <= p < PERIODS && (t <= u || p != q) && Reached(v, t, p)
    }

    method IsLimitGeCell(t: nat, p: nat, value: nat) returns (r: bool)
      requires Valid() && t < TYPES && p < PERIODS
      ensures r <==> limits[t, p] > 0 && value >= limits[t, p]
    {
      r := limits[t, p] > 0 && value >= limits[t, p];
    }

    /** The cell was at its limit at the start, and its column is not cleared up to its own reading. */
    ghost predicate Found(now: Moment, start: View, t: nat, p: nat)
      requires Valid() && start.Shaped() && t < TYPES && p < PERIODS
      reads limits
    {
      Reached(start, t, p) && p !in ExpiredAfter(now, start, t, p)
    }

    /** What a scan that began at `start` and has read all cells before `(t, p)` without an answer has come to. */
    ghost predicate Scanned(clock: nat -> Moment, now: Moment, start: View, v: View, cols: set<nat>, t: nat, p: nat)
      requires Valid() && Place(t, p)
      reads limits
    {
      && Swept(clock, start, v, cols)
      && OnlyDue(clock, start, v.tick, cols)
      && NoneReached(v, t, p)
      && PastBefore(clock, start, cols, t, p, v.tick)
      && (Stood(clock, start.tick, v.tick, now) ==> cols == Expired(now, start, t, p) && NoneFound(now, start, t, p))
    }

    ghost predicate PastBefore(clock: nat -> Moment, start: View, cols: set<nat>, t: nat, p: nat, to: nat)
      requires start.Shaped()
    {
      forall a: nat, b: nat, q: nat ::
        a < TYPES && Before(a, b, t, p) && Within(q, b) && Moved(clock, start, a, b, q, to) ==> q in cols
    }

    ghost predicate NoneReached(v: View, t: nat, p: nat)
      requires Valid() && v.Shaped()
      reads limits
    {
      forall a, b :: 0 <= a < TYPES && 0 <= b < PERIODS && Before(a, b, t, p) ==> !Reached(v, a, b)
    }

    ghost predicate NoneFound(now: Moment, start: View, t: nat, p: nat)
      requires Valid() && start.Shaped()
      reads limits
    {
      forall a, b :: 0 <= a < TYPES && 0 <= b < PERIODS && Before(a, b, t, p) ==> !Found(now, start, a, b)
    }

    /** What it comes to while the clock stands: at the first cell found it stops, and so does the clearing. */
    ghost predicate AnsweredAtOnce(now: Moment, start: View, cols: set<nat>, found: bool)
      requires Valid() && start.Shaped()
      reads limits
    {
      if found then exists t, p :: 0 <= t < TYPES && 0 <= p < PERIODS && FirstFound(now, start, cols, t, p)
      else NoneFound(now, start, TYPES, 0) && cols == Expired(now, start, TYPES, 0)
    }

    ghost predicate FirstFound(now: Moment, start: View, cols: set<nat>, t: nat, p: nat)
      requires Valid() && start.Shaped() && t < TYPES && p < PERIODS
      reads limits
    {
      Found(now, start, t, p) && NoneFound(now, start, t, p) && cols == ExpiredAfter(now, start, t, p)
    }

    /** What the whole scan comes to. */
    ghost predicate Answered(clock: nat -> Moment, now: Moment, start: View, v: View, cols: set<nat>, found: bool)
      requires Valid()
      reads limits
    {
      && Swept(clock, start, v, cols)
      && (found <==> AnyReached(v))
      && OnlyDue(clock, start, v.tick, cols)
      && (Stood(clock, start.tick, v.tick, now) ==> AnsweredAtOnce(now, start, cols, found))
      && (forall u: nat, p: nat, q: nat :: u < TYPES && Within(q, p) && Moved(clock, start, u, p, q, v.tick)
            ==> if found then ReachedBesides(v, u, q) else q in cols)
    }

    /** A sweep brings no counter to its limit. */
    lemma ReachedBefore(clock: nat -> Moment, a: View, b: View, cols: set<nat>, t: nat, p: nat)
      requires Valid() && Swept(clock, a, b, cols) && t < TYPES && p < PERIODS
      ensures Reached(b, t, p) <==> Reached(a, t, p) && p !in cols
    {
      assert CellSwept(clock, a, b, cols, t, p);
    }

    lemma AnyReachedBefore(clock: nat -> Moment, a: View, b: View, cols: set<nat>)
      requires Valid() && Swept(clock, a, b, cols)
      ensures AnyReached(b) ==> AnyReached(a)
      ensures cols == {} ==> (AnyReached(b) <==> AnyReached(a))
    {
      forall t, p | 0 <= t < TYPES && 0 <= p < PERIODS ensures Reached(b, t, p) <==> Reached(a, t, p) && p !in cols {
        ReachedBefore(clock, a, b, cols, t, p);
      }
    }

    lemma ReadAtOnce(clock: nat -> Moment, a: View, b: View, c: View, t: nat, p: nat, now: Moment,
                     before: set<nat>, more: set<nat>)
      requires Valid() && t < TYPES && p < PERIODS
      requires Swept(clock, a, b, before) && before == Expired(now, a, t, p)
      requires Swept(clock, b, c, more) && more == if p > ALL then ClearedBy(clock, b, t, p, b.tick) else {}
      requires Stood(clock, a.tick, b.tick, now) && (p > ALL ==> clock(b.tick) == now)
      ensures before + more == ExpiredAfter(now, a, t, p)
      ensures Reached(c, t, p) <==> Found(now, a, t, p)
    {
      assert CellSwept(clock, a, b, before, t, p) && CellSwept(clock, b, c, more, t, p);
      ClearedColumnsAre(now, now);
    }

    /** One reading of the cell `(t, p)`, from `b` to `c`, in a scan that began at `a`. */
    ghost predicate ReadStep(clock: nat -> Moment, b: View, c: View, more: set<nat>, t: nat, p: nat)
      requires t < TYPES && p < PERIODS
    {
      && Swept(clock, b, c, more) && (p > ALL ==> c.tick > b.tick)
      && more == if p > ALL then ClearedBy(clock, b, t, p, b.tick) else {}
    }

    /** After one more reading. */
    lemma ScannedOn(clock: nat -> Moment, now: Moment, a: View, b: View, c: View, before: set<nat>, more: set<nat>,
                    t: nat, p: nat)
      requires Valid() && t < TYPES && p < PERIODS
      requires Scanned(clock, now, a, b, before, t, p) && ReadStep(clock, b, c, more, t, p)
      ensures Swept(clock, a, c, before + more) && OnlyDue(clock, a, c.tick, before + more)
      ensures PastBefore(clock, a, before + more, t, p + 1, c.tick)
      ensures NoneReached(c, t, p)
      ensures Stood(clock, a.tick, c.tick, now) ==>
        && before + more == Expired(now, a, t, p + 1) && NoneFound(now, a, t, p)
        && (Reached(c, t, p) <==> Found(now, a, t, p))
    {
      SweptTwice(clock, a, b, c, before, more);
      StillDue(clock, a, b.tick, c.tick, before);
      if p > ALL {
        ClearedIsDue(clock, a, b, before, t, p, c.tick);
      }
      if Quiet(clock, a, c.tick) {
        StaysQuiet(clock, a, b, c.tick);
      }
      forall a', b' | 0 <= a' < TYPES && 0 <= b' < PERIODS && Before(a', b', t, p) ensures !Reached(c, a', b') {
        ReachedBefore(clock, b, c, more, a', b');
      }
      forall a': nat, b': nat, q: nat | a' < TYPES && Before(a', b', t, p) && Within(q, b')
        && Moved(clock, a, a', b', q, c.tick)
        ensures q in before
      {
        assert Moved(clock, a, a', b', q, b.tick);
      }
      forall q: nat | Within(q, p) && Moved(clock, a, t, p, q, c.tick) ensures q in before + more {
        StaysMoved(clock, a, b, before, t, p, q, c.tick);
      }
      if Stood(clock, a.tick, c.tick, now) {
        ReadAtOnce(clock, a, b, c, t, p, now, before, more);
      }
    }

    lemma ScanStops(clock: nat -> Moment, now: Moment, a: View, b: View, c: View, before: set<nat>, more: set<nat>,
                    t: nat, p: nat)
      requires Valid() && t < TYPES && p < PERIODS
      requires Scanned(clock, now, a, b, before, t, p) && ReadStep(clock, b, c, more, t, p) && Reached(c, t, p)
      ensures Answered(clock, now, a, c, before + more, true)
    {
      ScannedOn(clock, now, a, b, c, before, more, t, p);
      ReachedBefore(clock, a, c, before + more, t, p);
      assert Stood(clock, a.tick, c.tick, now) ==> FirstFound(now, a, before + more, t, p);
      forall u: nat, p': nat, q: nat | u < TYPES && Within(q, p') && Moved(clock, a, u, p', q, c.tick)
        ensures ReachedBesides(c, u, q)
      {
        if t > u {
          assert Before(u, p', t, p + 1);
        }
        assert t <= u || p != q;
      }
    }

    lemma ScanGoesOn(clock: nat -> Moment, now: Moment, a: View, b: View, c: View, before: set<nat>, more: set<nat>,
                     t: nat, p: nat)
      requires Valid() && t < TYPES && p < PERIODS
      requires Scanned(clock, now, a, b, before, t, p) && ReadStep(clock, b, c, more, t, p) && !Reached(c, t, p)
      ensures Scanned(clock, now, a, c, before + more, t, p + 1)
    {
      ScannedOn(clock, now, a, b, c, before, more, t, p);
      OneMoreReached(c, t, p);
      if Stood(clock, a.tick, c.tick, now) {
        OneMoreFound(now, a, t, p);
      }
    }

    lemma OneMoreReached(v: View, t: nat, p: nat)
      requires Valid() && v.Shaped() && t < TYPES && p < PERIODS && NoneReached(v, t, p) && !Reached(v, t, p)
      ensures NoneReached(v, t, p + 1)
    {
    }

    lemma OneMoreFound(now: Moment, start: View, t: nat, p: nat)
      requires Valid() && start.Shaped() && t < TYPES && p < PERIODS
      requires NoneFound(now, start, t, p) && !Found(now, start, t, p)
      ensures NoneFound(now, start, t, p + 1)
    {
    }

    lemma NextRow(clock: nat -> Moment, now: Moment, a: View, v: View, cols: set<nat>, t: nat)
      requires Valid() && t < TYPES && Scanned(clock, now, a, v, cols, t, PERIODS)
      ensures Scanned(clock, now, a, v, cols, t + 1, 0)
    {
    }

    lemma ScanFails(clock: nat -> Moment, now: Moment, a: View, v: View, cols: set<nat>)
      requires Valid() && Scanned(clock, now, a, v, cols, TYPES, 0)
      ensures Answered(clock, now, a, v, cols, false)
    {
    }

    /**
     * The scan clears columns while it reads, and still answers for the counters as it leaves them. The columns it
     * cleared, `cols`, never include the totals. When the clock is past the period `q` in which the cell of a longer
     * period `p` of some type `u` was last reset, reading that cell clears all the counters of the period `q`, so that
     * no limit of that period can be found for any later type. On the other hand only periods that are over by some
     * reading are cleared. While the clock stands the answer is whether some limit was reached at the start whose
     * column no reading up to its own has cleared, and the columns are those cleared up to there.
     */
    method IsLimitGe(stats: TradeStats) returns (found: bool, ghost cols: set<nat>)
      requires Valid() && stats.Valid() && limits != stats.orderStats
      modifies stats, stats.orderStats, stats.last
      ensures stats.Valid()
      ensures Answered(stats.clock, stats.clock(old(stats.tick)), old(stats.Now()), stats.Now(), cols, found)
      ensures found <==>
        exists t, p :: 0 <= t < TYPES && 0 <= p < PERIODS && 0 < limits[t, p] <= stats.orderStats[t, p]
      ensures found ==> AnyReached(old(stats.Now()))
      ensures cols == {} ==> (found <==> AnyReached(old(stats.Now())))
      ensures AllNested(old(stats.Now())) ==> AllNested(stats.Now())
    {
      ghost var start := stats.Now();
      found, cols := ScanAll(stats, stats.clock(stats.tick));
      forall t, p | 0 <= t < TYPES && 0 <= p < PERIODS
        ensures Reached(stats.Now(), t, p) <==> limits[t, p] > 0 && stats.orderStats[t, p] >= limits[t, p]
      {
      }
      AnyReachedBefore(stats.clock, start, stats.Now(), cols);
      if AllNested(start) {
        SweptNested(stats.clock, start, stats.Now(), cols);
      }
    }

    /** Limits are set for the hour alone, and not for the first type. */
    ghost predicate OnlyHourly()
      requires Valid()
      reads limits
    {
      forall t, p :: 0 <= t < TYPES && 0 <= p < PERIODS && (t == 0 || p != PER_HOUR) ==> limits[t, p] == 0
    }

    lemma HourlyUnfound(clock: nat -> Moment, now: Moment, a: View, v: View, cols: set<nat>, found: bool)
      requires Valid() && OnlyHourly() && Answered(clock, now, a, v, cols, found)
      requires forall k: nat :: k >= a.tick ==> !SameHour(clock(k), a.last[0][PER_DAY])
      ensures !found && PER_HOUR in cols
    {
      HourMoved(clock, a, 0, v.tick);
      assert !ReachedBesides(v, 0, PER_HOUR);
    }

    /**
     * Such limits are useless once the hour in which the daily counter of the first type was reset is over: whatever
     * the counters say, a scan answers false. While the day lasts it also leaves the daily counters as they are.
     */
    method HourlyLimitsVanish(stats: TradeStats) returns (found: bool)
      requires Valid() && stats.Valid() && limits != stats.orderStats && OnlyHourly()
      modifies stats, stats.orderStats, stats.last
      ensures stats.Valid() && stats.tick >= old(stats.tick)
      ensures var d := old(stats.last[0, PER_DAY]);
        (forall k: nat :: k >= old(stats.tick) ==> !SameHour(stats.clock(k), d)) ==> !found
      ensures var d := old(stats.last[0, PER_DAY]);
        ResetOn(old(stats.Now()), d) && DayLasts(stats.clock, old(stats.tick), stats.tick, d) ==>
        ResetOn(stats.Now(), d) && stats.last[0, PER_DAY] == d
    {
      ghost var start := stats.Now();
      ghost var d := stats.last[0, PER_DAY];
      ghost var cols;
      found, cols := IsLimitGe(stats);
      if forall k: nat :: k >= start.tick ==> !SameHour(stats.clock(k), d) {
        HourlyUnfound(stats.clock, stats.clock(start.tick), start, stats.Now(), cols, found);
      }
      if ResetOn(start, d) && DayLasts(stats.clock, start.tick, stats.tick, d) {
        DayIsKept(stats.clock, start, stats.Now(), cols, d);
      }
    }

    /** So for the rest of the day: whatever orders are added, no scan after any of them finds a limit reached. */
    method HourlyLimitsVanishAllDay(stats: TradeStats, orders: seq<(nat, nat)>) returns (found: bool)
      requires Valid() && stats.Valid() && limits != stats.orderStats && OnlyHourly()
      requires forall i :: 0 <= i < |orders| ==> orders[i].0 < TYPES
      requires forall k: nat :: k >= stats.tick ==> !SameHour(stats.clock(k), stats.last[0, PER_DAY])
      requires ResetOn(stats.Now(), stats.last[0, PER_DAY])
      modifies stats, stats.orderStats, stats.last
      ensures stats.Valid()
      ensures DayLasts(stats.clock, old(stats.tick), stats.tick, old(stats.last[0, PER_DAY])) ==> !found
    {
      ghost var d, from := stats.last[0, PER_DAY], stats.tick;
      found := false;
      for i := 0 to |orders|
        invariant stats.Valid() && from <= stats.tick
        invariant DayLasts(stats.clock, from, stats.tick, d) ==>
          !found && ResetOn(stats.Now(), d) && stats.last[0, PER_DAY] == d
      {
        stats.Add(orders[i].0, orders[i].1);
        var hit := HourlyLimitsVanish(stats);
        found := found || hit;
      }
    }

    method ScanAll(stats: TradeStats, ghost now: Moment) returns (found: bool, ghost cols: set<nat>)
      requires Valid() && stats.Valid() && limits != stats.orderStats
      modifies stats, stats.orderStats, stats.last
      ensures stats.Valid() && Answered(stats.clock, now, old(stats.Now()), stats.Now(), cols, found)
    {
      ghost var start := stats.Now();
      cols := {};
      found := false;
      SweptNothing(stats.clock, start);
      for t := 0 to TYPES
        invariant stats.Valid() && Scanned(stats.clock, now, start, stats.Now(), cols, t, 0)
      {
        found, cols := ScanType(stats, t, now, start, cols);
        if found {
          return;
        }
      }
      ScanFails(stats.clock, now, start, stats.Now(), cols);
    }

    /** The inner loop of the scan, in a scan that began at `start` and has cleared `before` so far. */
    method ScanType(stats: TradeStats, t: nat, ghost now: Moment, ghost start: View, ghost before: set<nat>)
      returns (found: bool, ghost cols: set<nat>)
      requires Valid() && stats.Valid() && limits != stats.orderStats && t < TYPES
      requires Scanned(stats.clock, now, start, stats.Now(), before, t, 0)
      modifies stats, stats.orderStats, stats.last
      ensures stats.Valid()
      ensures if found then Answered(stats.clock, now, start, stats.Now(), cols, true)
        else Scanned(stats.clock, now, start, stats.Now(), cols, t + 1, 0)
    {
      cols := before;
      for p := 0 to PERIODS
        invariant stats.Valid() && Scanned(stats.clock, now, start, stats.Now(), cols, t, p)
      {
        found, cols := ReadCell(stats, t, p, now, start, cols);
        if found {
          return;
        }
      }
      found := false;
      NextRow(stats.clock, now, start, stats.Now(), cols, t);
    }

    /** The body of the inner loop. */
    method ReadCell(stats: TradeStats, t: nat, p: nat, ghost now: Moment, ghost start: View, ghost before: set<nat>)
      returns (found: bool, ghost cols: set<nat>)
      requires Valid() && stats.Valid() && limits != stats.orderStats && t < TYPES && p < PERIODS
      requires Scanned(stats.clock, now, start, stats.Now(), before, t, p)
      modifies stats, stats.orderStats, stats.last
      ensures stats.Valid()
      ensures if found then Answered(stats.clock, now, start, stats.Now(), cols, true)
        else Scanned(stats.clock, now, start, stats.Now(), cols, t, p + 1)
    {
      ghost var prev := stats.Now();
      ghost var more;
      var value;
      value, more := stats.Read(t, p);
      cols := before + more;
      var reached := IsLimitGeCell(t, p, value);
      if value > 0 && reached {
        ScanStops(stats.clock, now, start, prev, stats.Now(), before, more, t, p);
        return true, cols;
      }
      ScanGoesOn(stats.clock, now, start, prev, stats.Now(), before, more, t, p);
      found := false;
    }
  }

  // ---------------------------------------------------------------------------------------------
  // A limit that is reached and not found.

  /** Counters made at `nine`, by a clock that will show `ten` from now on. */
  ghost predicate MadeBefore(stats: TradeStats, nine: Moment, ten: Moment)
    reads stats, stats.orderStats, stats.last
  {
    && stats.Valid() && (forall k: nat :: k >= stats.tick ==> stats.clock(k) == ten)
    && forall t, p :: 0 <= t < TYPES && 0 <= p < PERIODS ==> stats.orderStats[t, p] == 0 && stats.last[t, p] == nine
  }

  /**
   * A limit of one order an hour that five orders in one hour do not reach: the counters were made in an earlier hour
   * of the day, and a first scan has reset all hourly counters in the hour of the orders.
   */
  method FiveOrdersUnnoticed(nine: Moment, ten: Moment) returns (params: TradeParams, ghost before: View, found: bool)
    requires SameDay(nine, ten) && !SameHour(nine, ten)
    ensures params.Valid() && params.limits[1, PER_HOUR] == 1
    ensures before.Shaped() && before.counts[1][PER_HOUR] == 5 && before.last[1][PER_HOUR] == ten
    ensures !found
  {
    var stats := NewCounters(nine, ten);
    params := OneOrderAnHour();
    FirstScan(params, stats, nine, ten);
    before, found := SecondScan(params, stats, nine, ten);
  }

  method NewCounters(nine: Moment, ten: Moment) returns (stats: TradeStats)
    ensures fresh(stats) && fresh(stats.orderStats) && fresh(stats.last) && MadeBefore(stats, nine, ten)
  {
    var clock := (k: nat) => if k < TYPES * PERIODS then nine else ten;
    stats := new TradeStats(clock, nine);
    forall t, p | 0 <= t < TYPES && 0 <= p < PERIODS ensures stats.last[t, p] == nine {
      ReadingBefore(t, p);
    }
  }

  lemma ReadingBefore(t: nat, p: nat)
    requires t < TYPES && p < PERIODS
    ensures ReadingOf(0, t, p) < TYPES * PERIODS
  {
  }

  method OneOrderAnHour() returns (params: TradeParams)
    ensures fresh(params) && fresh(params.limits) && params.Valid()
    ensures params.OnlyHourly() && params.limits[1, PER_HOUR] == 1
  {
    params := new TradeParams();
    params.SetLimits(1, PER_HOUR, 1);
  }

  /** The scan in the hour of the orders, before there are any. */
  method FirstScan(params: TradeParams, stats: TradeStats, ghost nine: Moment, ghost ten: Moment)
    requires params.Valid() && params.limits != stats.orderStats && params.OnlyHourly()
    requires MadeBefore(stats, nine, ten)
    requires SameDay(nine, ten) && !SameHour(nine, ten)
    modifies stats, stats.orderStats, stats.last
    ensures stats.Valid() && stats.tick >= old(stats.tick)
    ensures stats.orderStats[1, PER_HOUR] == 0 && stats.last[1, PER_HOUR] == ten && stats.last[0, PER_DAY] == nine
  {
    ghost var start := stats.Now();
    var found, cols := params.IsLimitGe(stats);
    params.HourlyUnfound(stats.clock, stats.clock(start.tick), start, stats.Now(), cols, found);
    DayIsKept(stats.clock, start, stats.Now(), cols, nine);
    assert CellSwept(stats.clock, start, stats.Now(), cols, 1, PER_HOUR);
  }

  /** Five orders, and the scan that should find them. */
  method SecondScan(params: TradeParams, stats: TradeStats, ghost nine: Moment, ghost ten: Moment)
    returns (ghost before: View, found: bool)
    requires params.Valid() && stats.Valid() && params.limits != stats.orderStats && params.OnlyHourly()
    requires stats.orderStats[1, PER_HOUR] == 0 && stats.last[0, PER_DAY] == nine && !SameHour(nine, ten)
    requires forall k: nat :: k >= stats.tick ==> stats.clock(k) == ten
    modifies stats, stats.orderStats, stats.last
    ensures before.Shaped() && before.counts[1][PER_HOUR] == 5
    ensures before.last[1][PER_HOUR] == old(stats.last[1, PER_HOUR])
    ensures !found
  {
    stats.Add(1, 5);
    NoWrap(5);
    before := stats.Now();
    found := params.HourlyLimitsVanish(stats);
  }
}
