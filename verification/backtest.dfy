/**
 * The strategy value simulator: `back_test` turns a price series, a position
 * series and a transaction-cost rate into an equity curve.
 *
 * Day 0 charges the cost of entering at once. Every later day compounds the
 * price return scaled by the position held overnight, i.e. YESTERDAY's
 * position, and charges the cost of any change of position made that day.
 */
module BackTest {

  /** Python's `abs` on a real. */
  function Abs(x: real): (r: real)
    ensures r >= 0.0 && (r == x || r == -x)
  {
    if x < 0.0 then -x else x
  }

  /** The prices the simulator divides by are nonzero. */
  predicate Divisible(p: seq<real>) {
    forall i :: 0 <= i < |p| - 1 ==> p[i] != 0.0
  }

  /** The price return of day `i` (i >= 1) earned by a position `w` held through it. */
  function DailyReturn(p: seq<real>, w: real, i: nat): real
    requires 1 <= i < |p| && Divisible(p)
  {
    (p[i] / p[i - 1] - 1.0) * w
  }

  /** The cost rate charged on day `i` (i >= 1) for changing from `pos[i-1]` to `pos[i]`. */
  function DailyCost(pos: seq<real>, cost: real, i: nat): real
    requires 1 <= i < |pos|
  {
    Abs(pos[i] - pos[i - 1]) * cost
  }

  /**
   * The equity of a day from the previous day's equity, the day's growth
   * factor `1 + daily return` and what the cost leaves, `1 - daily cost`.
   */
  function NextValue(prev: real, growth: real, kept: real): real {
    prev * growth * kept
  }

  /** Equity on day `i`. */
  function Value(p: seq<real>, pos: seq<real>, cost: real, i: nat): real
    requires i < |p| == |pos| && Divisible(p)
  {
    if i == 0 then p[0] * (1.0 - pos[0] * cost)
    else NextValue(Value(p, pos, cost, i - 1), 1.0 + DailyReturn(p, pos[i - 1], i), 1.0 - DailyCost(pos, cost, i))
  }

  /** The whole equity curve. */
  function Curve(p: seq<real>, pos: seq<real>, cost: real): (c: seq<real>)
    requires |p| == |pos| && Divisible(p)
    ensures |c| == |p|
  {
    seq(|p|, i requires 0 <= i < |p| => Value(p, pos, cost, i))
  }

  /**
   * `back_test` as it computes the curve: `w` is the position carried into the
   * day and is only overwritten with today's position after the day's value
   * is appended.
   */
  method BackTestRun(assetValue: seq<real>, position: seq<real>, cost: real)
    returns (strategyValue: seq<real>)
    requires 1 <= |assetValue| == |position| && Divisible(assetValue)
    ensures |strategyValue| == |assetValue|
    ensures forall i :: 0 <= i < |assetValue| ==> strategyValue[i] == Value(assetValue, position, cost, i)
    ensures strategyValue == Curve(assetValue, position, cost)
  {
    var w := 0.0;
    strategyValue := [assetValue[0]];
    for i := 0 to |assetValue|
      invariant i == 0 ==> strategyValue == [assetValue[0]] && w == 0.0
      invariant i > 0 ==> |strategyValue| == i && w == position[i - 1]
      invariant i > 0 ==> forall k :: 0 <= k < i ==> strategyValue[k] == Value(assetValue, position, cost, k)
    {
      if i == 0 {
        strategyValue := strategyValue[0 := strategyValue[0] * (1.0 - position[i] * cost)];
      } else {
        var dailyReturn := DailyReturn(assetValue, w, i);
        var dailyCost := DailyCost(position, cost, i);
        strategyValue := strategyValue + [NextValue(strategyValue[|strategyValue| - 1], 1.0 + dailyReturn, 1.0 - dailyCost)];
      }
      w := position[i];
    }
  }

  /** With no position ever taken the curve stays at the first price. */
  lemma {:induction false} FlatWhenNeverInvested(p: seq<real>, pos: seq<real>, cost: real, i: nat)
    requires i < |p| == |pos| && Divisible(p)
    requires forall k :: 0 <= k < |pos| ==> pos[k] == 0.0
    ensures Value(p, pos, cost, i) == p[0]
  {
    if i > 0 {
      FlatWhenNeverInvested(p, pos, cost, i - 1);
      assert DailyReturn(p, pos[i - 1], i) == 0.0;
      assert DailyCost(pos, cost, i) == 0.0;
    }
  }

  /**
   * Without costs, day `i` compounds the previous value by the day's price
   * return scaled by the position of day `i - 1`, and day 0 keeps the first price.
   */
  lemma FrictionlessStep(p: seq<real>, pos: seq<real>, i: nat)
    requires i < |p| == |pos| && Divisible(p)
    ensures i == 0 ==> Value(p, pos, 0.0, i) == p[0]
    ensures i > 0 ==>
      Value(p, pos, 0.0, i) == Value(p, pos, 0.0, i - 1) * (1.0 + (p[i] / p[i - 1] - 1.0) * pos[i - 1])
  {
    if i > 0 {
      assert DailyCost(pos, 0.0, i) == 0.0;
    }
  }

  /**
   * Without costs, the equity of day `i` does not depend on the position of
   * day `i` or later: only positions already held earn returns.
   */
  lemma {:induction false} EarnsOnlyYesterdaysPosition(p: seq<real>, pos1: seq<real>, pos2: seq<real>, i: nat)
    requires i < |p| == |pos1| == |pos2| && Divisible(p)
    requires forall k :: 0 <= k < i ==> pos1[k] == pos2[k]
    ensures Value(p, pos1, 0.0, i) == Value(p, pos2, 0.0, i)
  {
    if i > 0 {
      EarnsOnlyYesterdaysPosition(p, pos1, pos2, i - 1);
      FrictionlessStep(p, pos1, i);
      FrictionlessStep(p, pos2, i);
    }
  }

  lemma NextValuePositive(prev: real, growth: real, kept: real)
    requires prev > 0.0 && growth > 0.0 && kept > 0.0
    ensures NextValue(prev, growth, kept) > 0.0
  {
    assert prev * growth > 0.0;
  }

  lemma ScaledPositive(a: real, b: real)
    requires a > 0.0 && b > 0.0
    ensures a * b > 0.0
  {
  }

  lemma GrowthPositive(p: seq<real>, w: real, i: nat)
    requires 1 <= i < |p| && Divisible(p) && p[i] > 0.0 && p[i - 1] > 0.0
    requires w == 0.0 || w == 1.0
    ensures 1.0 + DailyReturn(p, w, i) > 0.0
  {
    if w == 1.0 {
      assert DailyReturn(p, w, i) == p[i] / p[i - 1] - 1.0;
    } else {
      assert DailyReturn(p, w, i) == 0.0;
    }
  }

  lemma CostBelowOne(pos: seq<real>, cost: real, i: nat)
    requires 1 <= i < |pos| && 0.0 <= cost < 1.0
    requires pos[i] == 0.0 || pos[i] == 1.0
    requires pos[i - 1] == 0.0 || pos[i - 1] == 1.0
    ensures 1.0 - DailyCost(pos, cost, i) > 0.0
  {
  }

  /** Positive prices, 0/1 positions and a cost rate below one keep every equity value positive. */
  lemma {:induction false} ValuePositive(p: seq<real>, pos: seq<real>, cost: real, i: nat)
    requires i < |p| == |pos|
    requires forall k :: 0 <= k < |p| ==> p[k] > 0.0
    requires forall k :: 0 <= k < |pos| ==> pos[k] == 0.0 || pos[k] == 1.0
    requires 0.0 <= cost < 1.0
    ensures Value(p, pos, cost, i) > 0.0
  {
    assert Divisible(p);
    if i == 0 {
      var k := 1.0 - pos[0] * cost;
      assert k > 0.0;
      ScaledPositive(p[0], k);
    } else {
      ValuePositive(p, pos, cost, i - 1);
      GrowthPositive(p, pos[i - 1], i);
      CostBelowOne(pos, cost, i);
      NextValuePositive(Value(p, pos, cost, i - 1), 1.0 + DailyReturn(p, pos[i - 1], i), 1.0 - DailyCost(pos, cost, i));
    }
  }

  /**
   * A five-day history: the rise of day 1 earns nothing because the position
   * taken that day was not yet held, and the drop of day 4 is avoided because
   * the position was closed on day 3.
   */
  lemma FiveDayScenario()
    ensures Curve([100.0, 102.0, 101.0, 105.0, 103.0], [0.0, 1.0, 1.0, 0.0, 0.0], 0.0)
         == [100.0, 100.0, 5050.0 / 51.0, 5250.0 / 51.0, 5250.0 / 51.0]
  {
    var p := [100.0, 102.0, 101.0, 105.0, 103.0];
    var pos := [0.0, 1.0, 1.0, 0.0, 0.0];
    assert Value(p, pos, 0.0, 0) == 100.0;
    assert Value(p, pos, 0.0, 1) == 100.0;
    assert Value(p, pos, 0.0, 2) == 5050.0 / 51.0;
    assert Value(p, pos, 0.0, 3) == 5250.0 / 51.0;
    assert Value(p, pos, 0.0, 4) == 5250.0 / 51.0;
  }
}
