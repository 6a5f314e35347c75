/** Queries over a list of orders: OrderQuery.h. An order is whatever its properties say. */
module OrderQueries {
  import opened Common

  datatype QueryOp = NA | EQ | GE | GT | LE | LT

  /** Compare: the operator applied to two values. */
  predicate Compare(v1: real, op: QueryOp, v2: real) {
    match op
    case NA => false
    case EQ => v1 == v2
    case GE => v1 >= v2
    case GT => v1 > v2
    case LE => v1 <= v2
    case LT => v1 < v2
  }

  // ---------------------------------------------------------------------------------------------
  // Sums.

  function Sum<Order(!new)>(orders: seq<Order>, prop: Order -> real): real {
    if orders == [] then 0.0 else Sum(orders[..|orders| - 1], prop) + prop(orders[|orders| - 1])
  }

  function SumWhere<Order(!new)>(orders: seq<Order>, prop: Order -> real, which: Order -> bool): real {
    if orders == [] then 0.0
    else
      var last := orders[|orders| - 1];
      SumWhere(orders[..|orders| - 1], prop, which) + if which(last) then prop(last) else 0.0
  }

  function Having<Order(!new), V(==,!new)>(cond: Order -> V, value: V): Order -> bool {
    order => cond(order) == value
  }

  function HavingOneOf<Order(!new), V(==,!new)>(cond: Order -> V, values: seq<V>): Order -> bool {
    order => cond(order) in values
  }

  /** The conditional sums for a list of property values, added up. */
  function SumOfSums<Order(!new), V(==,!new)>(orders: seq<Order>, prop: Order -> real, cond: Order -> V,
      values: seq<V>): real
  {
    if values == [] then 0.0
    else
      var rest, v := values[..|values| - 1], values[|values| - 1];
      SumOfSums(orders, prop, cond, rest) + SumWhere(orders, prop, Having(cond, v))
  }

  predicate Distinct<V(==)>(values: seq<V>) {
    forall i, j :: 0 <= i < j < |values| ==> values[i] != values[j]
  }

  lemma {:induction false} SumWhereSplits<Order(!new)>(orders: seq<Order>, prop: Order -> real, a: Order -> bool,
      b: Order -> bool, c: Order -> bool)
    requires forall o :: !(a(o) && b(o)) && (c(o) <==> a(o) || b(o))
    ensures SumWhere(orders, prop, c) == SumWhere(orders, prop, a) + SumWhere(orders, prop, b)
  {
    if orders != [] {
      SumWhereSplits(orders[..|orders| - 1], prop, a, b, c);
    }
  }

  lemma {:induction false} SumWhereNone<Order(!new)>(orders: seq<Order>, prop: Order -> real, which: Order -> bool)
    requires forall o :: o in orders ==> !which(o)
    ensures SumWhere(orders, prop, which) == 0.0
  {
    if orders != [] {
      SumWhereNone(orders[..|orders| - 1], prop, which);
    }
  }

  lemma {:induction false} SumWhereAll<Order(!new)>(orders: seq<Order>, prop: Order -> real, which: Order -> bool)
    requires forall o :: o in orders ==> which(o)
    ensures SumWhere(orders, prop, which) == Sum(orders, prop)
  {
    if orders != [] {
      SumWhereAll(orders[..|orders| - 1], prop, which);
    }
  }

  /** The sum of one order is its property, and sums of lists add up. */
  lemma {:induction false} SumAppends<Order(!new)>(a: seq<Order>, b: seq<Order>, o: Order, prop: Order -> real)
    ensures Sum([o], prop) == prop(o)
    ensures Sum(a + b, prop) == Sum(a, prop) + Sum(b, prop)
  {
    assert [o][..0] == [];
    if b == [] {
      assert a + b == a;
    } else {
      SumAppends(a, b[..|b| - 1], o, prop);
      assert (a + b)[..|a + b| - 1] == a + b[..|b| - 1];
    }
  }

  /** Over distinct values the conditional sums add up to the sum of the orders that have one of them. */
  lemma {:induction false} SumsAddUp<Order(!new), V(!new)>(orders: seq<Order>, prop: Order -> real,
      cond: Order -> V, values: seq<V>)
    requires Distinct(values)
    ensures SumOfSums(orders, prop, cond, values) == SumWhere(orders, prop, HavingOneOf(cond, values))
  {
    if values == [] {
      SumWhereNone(orders, prop, HavingOneOf(cond, values));
    } else {
      var rest, v := values[..|values| - 1], values[|values| - 1];
      SumsAddUp(orders, prop, cond, rest);
      assert values == rest + [v];
      SumWhereSplits(orders, prop, HavingOneOf(cond, rest), Having(cond, v), HavingOneOf(cond, values));
    }
  }

  /** Over distinct values that cover all orders they add up to the whole sum. */
  lemma SumsCover<Order(!new), V(!new)>(orders: seq<Order>, prop: Order -> real, cond: Order -> V, values: seq<V>)
    requires Distinct(values) && forall o :: o in orders ==> cond(o) in values
    ensures SumOfSums(orders, prop, cond, values) == Sum(orders, prop)
  {
    SumsAddUp(orders, prop, cond, values);
    SumWhereAll(orders, prop, HavingOneOf(cond, values));
  }

  // ---------------------------------------------------------------------------------------------
  // The value a scan ends on when it moves to each later value that compares with the one it is on.

  function Picked(values: seq<real>, op: QueryOp): (i: nat)
    requires values != []
    ensures i < |values|
  {
    if |values| == 1 then 0
    else
      var i := Picked(values[..|values| - 1], op);
      if Compare(values[|values| - 1], op, values[i]) then |values| - 1 else i
  }

  lemma PickedNext(values: seq<real>, op: QueryOp, i: nat)
    requires 0 < i < |values|
    ensures var p := Picked(values[..i], op);
      Picked(values[..i + 1], op) == if Compare(values[i], op, values[p]) then i else p
  {
    assert values[..i + 1][..i] == values[..i];
  }

  ghost predicate EarliestGreatest(values: seq<real>, i: nat)
    requires i < |values|
  {
    (forall j :: 0 <= j < |values| ==> values[j] <= values[i]) && forall j :: 0 <= j < i ==> values[j] < values[i]
  }

  ghost predicate LatestGreatest(values: seq<real>, i: nat)
    requires i < |values|
  {
    (forall j :: 0 <= j < |values| ==> values[j] <= values[i]) && forall j :: i < j < |values| ==> values[j] < values[i]
  }

  ghost predicate EarliestLeast(values: seq<real>, i: nat)
    requires i < |values|
  {
    (forall j :: 0 <= j < |values| ==> values[i] <= values[j]) && forall j :: 0 <= j < i ==> values[i] < values[j]
  }

  ghost predicate LatestLeast(values: seq<real>, i: nat)
    requires i < |values|
  {
    (forall j :: 0 <= j < |values| ==> values[i] <= values[j]) && forall j :: i < j < |values| ==> values[i] < values[j]
  }

  ghost predicate LatestEqualToFirst(values: seq<real>, i: nat)
    requires i < |values|
  {
    values[i] == values[0] && forall j :: i < j < |values| ==> values[j] != values[0]
  }

  /** Strict operators end on the earliest extreme value, the others on the latest; EQ stays with the first value. */
  lemma {:induction false} PickedIs(values: seq<real>, op: QueryOp)
    requires values != []
    ensures op == GT ==> EarliestGreatest(values, Picked(values, op))
    ensures op == GE ==> LatestGreatest(values, Picked(values, op))
    ensures op == LT ==> EarliestLeast(values, Picked(values, op))
    ensures op == LE ==> LatestLeast(values, Picked(values, op))
    ensures op == EQ ==> LatestEqualToFirst(values, Picked(values, op))
    ensures op == NA ==> Picked(values, op) == 0
  {
    if |values| > 1 {
      var before := values[..|values| - 1];
      PickedIs(before, op);
      assert forall j :: 0 <= j < |before| ==> values[j] == before[j];
    }
  }

  function Values<Order(!new)>(orders: seq<Order>, prop: Order -> real): (v: seq<real>)
    ensures |v| == |orders|
  {
    seq(|orders|, i requires 0 <= i < |orders| => prop(orders[i]))
  }

  class OrderQuery<Order(!new)> {
    var orders: seq<Order>

    constructor (orders: seq<Order>)
      ensures this.orders == orders
    {
      this.orders := orders;
    }

    method CalcSumByProp(prop: Order -> real) returns (sum: real)
      ensures sum == Sum(orders, prop)
    {
      sum := 0.0;
      for i := 0 to |orders|
        invariant sum == Sum(orders[..i], prop)
      {
        assert orders[..i + 1][..i] == orders[..i];
        sum := sum + prop(orders[i]);
      }
      assert orders[..|orders|] == orders;
    }

    method CalcSumByPropWithCond<V(==,!new)>(prop: Order -> real, cond: Order -> V, value: V) returns (sum: real)
      ensures sum == SumWhere(orders, prop, Having(cond, value))
    {
      sum := 0.0;
      for i := 0 to |orders|
        invariant sum == SumWhere(orders[..i], prop, Having(cond, value))
      {
        assert orders[..i + 1][..i] == orders[..i];
        if cond(orders[i]) == value {
          sum := sum + prop(orders[i]);
        }
      }
      assert orders[..|orders|] == orders;
    }

    method FindByPropViaOp(prop: Order -> real, op: QueryOp) returns (found: Option<Order>)
      ensures found == if orders == [] then None else Some(orders[Picked(Values(orders, prop), op)])
    {
      if |orders| == 0 {
        return None;
      }
      var best := orders[0];
      ghost var v := Values(orders, prop);
      for i := 0 to |orders|
        invariant best == orders[if i == 0 then 0 else Picked(v[..i], op)]
      {
        if i > 0 {
          PickedNext(v, op, i);
        }
        if Compare(prop(orders[i]), op, prop(best)) {
          best := orders[i];
        }
      }
      assert v[..|orders|] == v;
      found := Some(best);
    }

    /** The first order whose property compares with the value. */
    method FindByValueViaOp(prop: Order -> real, value: real, op: QueryOp) returns (found: Option<Order>)
      ensures found == None <==> forall i :: 0 <= i < |orders| ==> !Compare(prop(orders[i]), op, value)
      ensures found != None ==>
        exists i :: 0 <= i < |orders| && found == Some(orders[i]) && Compare(prop(orders[i]), op, value)
          && forall j :: 0 <= j < i ==> !Compare(prop(orders[j]), op, value)
    {
      for i := 0 to |orders|
        invariant forall j :: 0 <= j < i ==> !Compare(prop(orders[j]), op, value)
      {
        if Compare(prop(orders[i]), op, value) {
          return Some(orders[i]);
        }
      }
      found := None;
    }

    /** The sums for the listed values, in their order. */
    ghost function SumsFor<V(!new)>(props: seq<V>, prop: Order -> real, cond: Order -> V): (v: seq<real>)
      reads this
      ensures |v| == |props|
    {
      seq(|props|, i requires 0 <= i < |props| reads this => SumWhere(orders, prop, Having(cond, props[i])))
    }

    method FindPropBySum<V(==,!new)>(props: seq<V>, prop: Order -> real, cond: Order -> V, op: QueryOp)
      returns (peak: V)
      requires |props| > 0
      ensures peak == props[Picked(SumsFor(props, prop, cond), op)]
    {
      peak := props[0];
      var peakSum := CalcSumByPropWithCond(prop, cond, peak);
      ghost var v := SumsFor(props, prop, cond);
      for i := 1 to |props|
        invariant peak == props[Picked(v[..i], op)] && peakSum == v[Picked(v[..i], op)]
      {
        PickedNext(v, op, i);
        var sum := CalcSumByPropWithCond(prop, cond, props[i]);
        if Compare(sum, op, peakSum) {
          peakSum := sum;
          peak := props[i];
        }
      }
      assert v[..|props|] == v;
    }
  }
}
