/** `ExpenseRateCalculatorImpl`: each weekday's share of the week's spending,
    as a percentage of the costliest day. The weekday of a timestamp is a
    given function (the calendar is not modelled); amounts are in store
    units, which the ratio does not depend on. */
module RateCalculator {
  import opened Results
  import opened Entity
  import opened KotlinMath

  /** `Calendar.DAY_OF_WEEK`: 1 (Sunday) to 7. */
  type Weekday = d: int | 1 <= d <= 7 witness 1

  // ------------------------------------------------------- specification

  /** Some expense of the list falls on weekday `d`. */
  predicate HasDay(list: seq<ExpenseEnt>, dayOf: int -> Weekday, d: int) {
    exists i :: 0 <= i < |list| && dayOf(list[i].modifiedDate) == d
  }

  /** The summed amount of the expenses of the list on weekday `d`. */
  function DayTotal(list: seq<ExpenseEnt>, dayOf: int -> Weekday, d: int): int
    decreases |list|
  {
    if list == [] then 0
    else
      var last := list[|list| - 1];
      DayTotal(list[..|list| - 1], dayOf, d) + (if dayOf(last.modifiedDate) == d then GetStore(last.amount) else 0)
  }

  /** The largest cost over the days 1 to 7 from `d` on that have one. */
  function MaxFrom(costs: map<int, int>, d: int): (m: Option<int>)
    requires 1 <= d <= 8
    ensures m.None? <==> forall k :: d <= k <= 7 ==> k !in costs
    ensures m.Some? ==> exists k :: d <= k <= 7 && k in costs && costs[k] == m.value
    ensures m.Some? ==> forall k :: d <= k <= 7 && k in costs ==> costs[k] <= m.value
    decreases 8 - d
  {
    if d == 8 then None
    else
      var rest := MaxFrom(costs, d + 1);
      if d !in costs then rest
      else if rest.None? || rest.value < costs[d] then Some(costs[d])
      else rest
  }

  /** `maxOfOrNull { it.value } ?: 0` over a map keyed by weekdays. */
  function MaxCost(costs: map<int, int>): int {
    MaxFrom(costs, 1).GetOr(0)
  }

  /** `((cost / maxCost) * 100).toInt()`: with `maxCost` 0 the quotient is
      NaN (for a zero cost), which becomes 0, or an infinity, which
      saturates. */
  function RateOf(cost: int, maxCost: int): int {
    if maxCost == 0 then (if cost == 0 then 0 else if cost < 0 then INT_MIN else INT_MAX)
    else Saturate(TruncDiv(100 * cost, maxCost))
  }

  // --------------------------------------------------------------- class

  class ExpenseRateCalculatorImpl {
    var expenseList: seq<ExpenseEnt>
    var rates: map<int, int>
    const dayOf: int -> Weekday

    /** Starts with no expenses and no rates. */
    constructor(dayOf: int -> Weekday)
      ensures expenseList == [] && rates == map[] && this.dayOf == dayOf
    {
      expenseList := [];
      rates := map[];
      this.dayOf := dayOf;
    }

    /** `setWeekExpenses`: the list is replaced, and the rates recomputed
        for it. */
    method SetWeekExpenses(list: seq<ExpenseEnt>)
      modifies this
      ensures expenseList == list
      ensures forall d :: d in rates <==> HasDay(list, dayOf, d)
      ensures forall d :: d in rates ==>
                rates[d] == RateOf(DayTotal(list, dayOf, d), MaxCost(DailyCostsOf(list)))
      ensures list == [] ==> rates == map[]
    {
      expenseList := list;
      rates := RatesFor(list);
    }

    /** The table of day totals the rates are computed from. */
    ghost function DailyCostsOf(list: seq<ExpenseEnt>): (m: map<int, int>)
      ensures forall d :: d in m ==> 1 <= d <= 7
      ensures forall d :: d in m <==> HasDay(list, dayOf, d)
      ensures forall d :: d in m ==> m[d] == DayTotal(list, dayOf, d)
    {
      map d | 1 <= d <= 7 && HasDay(list, dayOf, d) :: DayTotal(list, dayOf, d)
    }

    /** `getDailyCosts`: the total of each weekday that has an expense. */
    method GetDailyCosts(list: seq<ExpenseEnt>) returns (amountOfWeek: map<int, int>)
      ensures amountOfWeek == DailyCostsOf(list)
    {
      amountOfWeek := map[];
      var i := 0;
      while i < |list|
        invariant 0 <= i <= |list|
        invariant forall d :: d in amountOfWeek <==> HasDay(list[..i], dayOf, d)
        invariant forall d :: d in amountOfWeek ==> amountOfWeek[d] == DayTotal(list[..i], dayOf, d)
      {
        var e := list[i];
        var dayOfWeek := dayOf(e.modifiedDate);
        var before := if dayOfWeek in amountOfWeek then amountOfWeek[dayOfWeek] else 0;
        DayTotalStep(list, i, dayOf);
        amountOfWeek := amountOfWeek[dayOfWeek := GetStore(e.amount) + before];
        i := i + 1;
      }
      assert list[..i] == list;
    }

    /** The body `observeExpenseList` runs for each new list: the rate of
        every weekday that has expenses. */
    method RatesFor(list: seq<ExpenseEnt>) returns (result: map<int, int>)
      ensures forall d :: d in result <==> HasDay(list, dayOf, d)
      ensures forall d :: d in result ==>
                result[d] == RateOf(DayTotal(list, dayOf, d), MaxCost(DailyCostsOf(list)))
      ensures list == [] ==> result == map[]
    {
      var dailyCosts := GetDailyCosts(list);
      var maxCost := MaxCost(dailyCosts);
      result := RatesOfDays(dailyCosts, maxCost);
      if list == [] {
        EmptyWeekNoRates(result, dayOf);
      }
    }
  }

  /** The loop over the weekdays 1 to 7 of `observeExpenseList`: a rate for
      each day with a cost, relative to `maxCost`. */
  method RatesOfDays(dailyCosts: map<int, int>, maxCost: int) returns (result: map<int, int>)
    requires forall d :: d in dailyCosts ==> 1 <= d <= 7
    ensures forall d :: d in result <==> d in dailyCosts
    ensures forall d :: d in result ==> result[d] == RateOf(dailyCosts[d], maxCost)
  {
    result := map[];
    var count := 1;
    while count <= 7
      invariant 1 <= count <= 8
      invariant forall d :: d in result <==> 1 <= d < count && d in dailyCosts
      invariant forall d :: d in result ==> result[d] == RateOf(dailyCosts[d], maxCost)
    {
      if count in dailyCosts {
        var costOfDay := dailyCosts[count];
        result := result[count := RateOf(costOfDay, maxCost)];
      }
      count := count + 1;
    }
  }

  /** One more expense adds its amount to its own day's total only. */
  lemma DayTotalStep(list: seq<ExpenseEnt>, i: int, dayOf: int -> Weekday)
    requires 0 <= i < |list|
    ensures forall d :: HasDay(list[..i + 1], dayOf, d) <==>
              HasDay(list[..i], dayOf, d) || dayOf(list[i].modifiedDate) == d
    ensures forall d :: DayTotal(list[..i + 1], dayOf, d) ==
              DayTotal(list[..i], dayOf, d) + (if dayOf(list[i].modifiedDate) == d then GetStore(list[i].amount) else 0)
    ensures forall d :: !HasDay(list[..i], dayOf, d) ==> DayTotal(list[..i], dayOf, d) == 0
  {
    assert list[..i + 1][..i] == list[..i];
    forall d | !HasDay(list[..i], dayOf, d) ensures DayTotal(list[..i], dayOf, d) == 0 {
      NoDayNoTotal(list[..i], dayOf, d);
    }
    forall d ensures HasDay(list[..i + 1], dayOf, d) <==> HasDay(list[..i], dayOf, d) || dayOf(list[i].modifiedDate) == d {
      if HasDay(list[..i + 1], dayOf, d) {
        var k :| 0 <= k < i + 1 && dayOf(list[..i + 1][k].modifiedDate) == d;
        if k < i { assert list[..i][k] == list[k]; }
      }
      if HasDay(list[..i], dayOf, d) {
        var k :| 0 <= k < i && dayOf(list[..i][k].modifiedDate) == d;
        assert list[..i + 1][k] == list[k];
      }
      if dayOf(list[i].modifiedDate) == d {
        assert list[..i + 1][i] == list[i];
      }
    }
  }

  lemma {:induction false} NoDayNoTotal(list: seq<ExpenseEnt>, dayOf: int -> Weekday, d: int)
    requires !HasDay(list, dayOf, d)
    ensures DayTotal(list, dayOf, d) == 0
    decreases |list|
  {
    if list != [] {
      var init := list[..|list| - 1];
      assert !HasDay(init, dayOf, d);
      assert dayOf(list[|list| - 1].modifiedDate) != d;
      NoDayNoTotal(init, dayOf, d);
    }
  }

  // --------------------------------------------------------------- lemmas

  /** No amount is negative. */
  predicate NonNegativeAmounts(list: seq<ExpenseEnt>) {
    forall i :: 0 <= i < |list| ==> GetStore(list[i].amount) >= 0
  }

  lemma {:induction false} DayTotalNonNegative(list: seq<ExpenseEnt>, dayOf: int -> Weekday, d: int)
    requires NonNegativeAmounts(list)
    ensures DayTotal(list, dayOf, d) >= 0
    decreases |list|
  {
    if list != [] {
      var init := list[..|list| - 1];
      assert NonNegativeAmounts(init) by {
        forall i | 0 <= i < |init| ensures GetStore(init[i].amount) >= 0 { assert init[i] == list[i]; }
      }
      DayTotalNonNegative(init, dayOf, d);
    }
  }

  /** With non-negative day costs, every rate lies in 0..100, and the
      costliest day gets exactly 100 when it cost anything; when no day
      cost anything, 0/0 is NaN and every rate is 0. */
  lemma RatesAreShares(costs: map<int, int>, d: int)
    requires forall k :: k in costs ==> costs[k] >= 0
    requires 1 <= d <= 7 && d in costs
    ensures 0 <= RateOf(costs[d], MaxCost(costs)) <= 100
    ensures costs[d] == MaxCost(costs) && MaxCost(costs) > 0 ==> RateOf(costs[d], MaxCost(costs)) == 100
    ensures MaxCost(costs) == 0 ==> RateOf(costs[d], MaxCost(costs)) == 0
  {
    var m := MaxCost(costs);
    var c := costs[d];
    assert 0 <= c <= m;
    if m > 0 {
      DivAtMost(100 * c, m, 100);
      if c == m {
        DivExact(m, 100);
      }
    }
  }

  lemma MulAtLeast(x: int, m: int)
    requires x >= 1 && m > 0
    ensures x * m >= m
  {
    assert x * m == (x - 1) * m + m;
  }

  /** `a / m <= bound` when `a <= bound * m`. */
  lemma DivAtMost(a: int, m: int, bound: int)
    requires 0 <= a <= bound * m && m > 0 && bound >= 0
    ensures 0 <= a / m <= bound
  {
    var q := a / m;
    assert a == q * m + a % m;
    if q > bound {
      MulAtLeast(q - bound, m);
    }
    if q < 0 {
      MulAtLeast(-q, m);
    }
  }

  /** `(k * m) / m == k`. */
  lemma DivExact(m: int, k: int)
    requires m > 0 && k >= 0
    ensures (k * m) / m == k
  {
    var a := k * m;
    var q := a / m;
    assert a == q * m + a % m;
    assert (q - k) * m == -(a % m);
    if q > k {
      MulAtLeast(q - k, m);
    }
    if q < k {
      MulAtLeast(k - q, m);
    }
  }

  /** With non-negative amounts, every day's rate lies in 0..100, and a
      day whose total is the week's largest, when that is positive, gets
      exactly 100. */
  lemma RatesOfNonNegativeWeek(c: ExpenseRateCalculatorImpl, list: seq<ExpenseEnt>, d: int)
    requires NonNegativeAmounts(list) && HasDay(list, c.dayOf, d)
    ensures var costs := c.DailyCostsOf(list);
            && 1 <= d <= 7
            && 0 <= RateOf(DayTotal(list, c.dayOf, d), MaxCost(costs)) <= 100
            && (DayTotal(list, c.dayOf, d) == MaxCost(costs) && MaxCost(costs) > 0 ==>
                  RateOf(DayTotal(list, c.dayOf, d), MaxCost(costs)) == 100)
  {
    var costs := c.DailyCostsOf(list);
    var i :| 0 <= i < |list| && c.dayOf(list[i].modifiedDate) == d;
    forall k | k in costs ensures costs[k] >= 0 {
      DayTotalNonNegative(list, c.dayOf, k);
    }
    RatesAreShares(costs, d);
  }

  /** An empty week has no rates. */
  lemma EmptyWeekNoRates(rates: map<int, int>, dayOf: int -> Weekday)
    requires forall d :: d in rates <==> HasDay([], dayOf, d)
    ensures rates == map[]
  {
    assert forall d :: d !in rates;
    assert rates.Keys == {};
  }

  /** The costliest day exists when any day has a cost, and bounds all. */
  lemma MaxCostIsMaximum(costs: map<int, int>)
    requires forall k :: k in costs ==> 1 <= k <= 7
    ensures forall k :: k in costs ==> costs[k] <= MaxCost(costs)
    ensures (exists k :: k in costs) ==> exists k :: k in costs && costs[k] == MaxCost(costs)
    ensures (forall k :: k !in costs) ==> MaxCost(costs) == 0
  {
  }
}
