/** `HomeViewModel`: the week's income and outcome totals, the week's
    outcomes handed to the rate calculator, and the two-step delete
    (prepare, then confirm). `income` is the value of the income category;
    totals are in the amount's store units, and their currency formatting
    is not modelled. */
module Home {
  import opened Results
  import opened Entity
  import Queries
  import Dao
  import Repository
  import RateCalculator

  /** `sumByDouble { amount.getActual() }`, in store units. */
  function Sum(list: seq<ExpenseEnt>): int {
    if list == [] then 0 else GetStore(list[0].amount) + Sum(list[1..])
  }

  function IsIncome(income: int): ExpenseEnt -> bool {
    (e: ExpenseEnt) => e.category == income
  }

  function IsOutcome(income: int): ExpenseEnt -> bool {
    (e: ExpenseEnt) => e.category != income
  }

  /** `getTotalOutcomeAsync`: the sum of every expense not in the income
      category. */
  function TotalOutcome(list: seq<ExpenseEnt>, income: int): int {
    Sum(Queries.Where(list, IsOutcome(income)))
  }

  /** `getTotalIncomeAsync`: the sum of every expense in the income
      category. */
  function TotalIncome(list: seq<ExpenseEnt>, income: int): int {
    Sum(Queries.Where(list, IsIncome(income)))
  }

  /** Every expense is counted exactly once: income and outcome add up to
      the week's total. */
  lemma {:induction false} IncomePlusOutcome(list: seq<ExpenseEnt>, income: int)
    ensures TotalIncome(list, income) + TotalOutcome(list, income) == Sum(list)
    decreases |list|
  {
    if list != [] {
      var rest := list[1..];
      IncomePlusOutcome(rest, income);
      Queries.WhereCons(list, IsIncome(income));
      Queries.WhereCons(list, IsOutcome(income));
      if list[0].category == income {
        SumCons(list[0], Queries.Where(rest, IsIncome(income)));
      } else {
        SumCons(list[0], Queries.Where(rest, IsOutcome(income)));
      }
    }
  }

  lemma SumCons(x: ExpenseEnt, rest: seq<ExpenseEnt>)
    ensures Sum([x] + rest) == GetStore(x.amount) + Sum(rest)
  {
    assert ([x] + rest)[1..] == rest;
  }

  /** A filter every row passes keeps the list; one no row passes keeps
      nothing. */
  lemma {:induction false} WhereAllOrNone(list: seq<ExpenseEnt>, p: ExpenseEnt -> bool)
    ensures (forall i :: 0 <= i < |list| ==> p(list[i])) ==> Queries.Where(list, p) == list
    ensures (forall i :: 0 <= i < |list| ==> !p(list[i])) ==> Queries.Where(list, p) == []
    decreases |list|
  {
    if list != [] {
      var rest := list[1..];
      WhereAllOrNone(rest, p);
      assert forall i :: 0 <= i < |rest| ==> rest[i] == list[i + 1];
      assert list == [list[0]] + rest;
    }
  }

  /** An income-only week has no outcome, an outcome-only week no income. */
  lemma OneSidedWeek(list: seq<ExpenseEnt>, income: int)
    ensures (forall i :: 0 <= i < |list| ==> list[i].category == income) ==>
              TotalOutcome(list, income) == 0 && TotalIncome(list, income) == Sum(list)
    ensures (forall i :: 0 <= i < |list| ==> list[i].category != income) ==>
              TotalIncome(list, income) == 0 && TotalOutcome(list, income) == Sum(list)
  {
    WhereAllOrNone(list, IsIncome(income));
    WhereAllOrNone(list, IsOutcome(income));
  }

  /** Every position moved one place on. */
  function Shift(idx: seq<int>): (r: seq<int>)
    ensures |r| == |idx| && forall k :: 0 <= k < |idx| ==> r[k] == idx[k] + 1
  {
    seq(|idx|, k requires 0 <= k < |idx| => idx[k] + 1)
  }

  lemma ShiftMember(idx: seq<int>, i: int)
    ensures i + 1 in Shift(idx) <==> i in idx
  {
    if i in idx {
      var k :| 0 <= k < |idx| && idx[k] == i;
      assert Shift(idx)[k] == i + 1;
    }
  }

  /** The positions of the rows a filter keeps, in increasing order. */
  function Positions(s: seq<ExpenseEnt>, p: ExpenseEnt -> bool): (idx: seq<int>)
    ensures forall k :: 0 <= k < |idx| ==> 0 <= idx[k] < |s|
    ensures forall k, l :: 0 <= k < l < |idx| ==> idx[k] < idx[l]
    decreases |s|
  {
    if s == [] then []
    else
      var shifted := Shift(Positions(s[1..], p));
      if p(s[0]) then [0] + shifted else shifted
  }

  /** The kept rows are the rows at those positions. */
  lemma {:induction false} PositionsPick(s: seq<ExpenseEnt>, p: ExpenseEnt -> bool)
    ensures |Positions(s, p)| == |Queries.Where(s, p)|
    ensures forall k :: 0 <= k < |Positions(s, p)| ==> Queries.Where(s, p)[k] == s[Positions(s, p)[k]]
    decreases |s|
  {
    if s != [] {
      var tail := s[1..];
      PositionsPick(tail, p);
      var rest := Positions(tail, p);
      var shifted := Shift(rest);
      var w1 := Queries.Where(tail, p);
      forall k | 0 <= k < |rest| ensures w1[k] == s[shifted[k]] {
        assert tail[rest[k]] == s[rest[k] + 1];
      }
      if p(s[0]) {
        assert Positions(s, p) == [0] + shifted;
        assert Queries.Where(s, p) == [s[0]] + w1;
      } else {
        assert Positions(s, p) == shifted;
        assert Queries.Where(s, p) == w1;
      }
    }
  }

  /** Every row that passes the filter is at one of the positions. */
  lemma {:induction false} PositionsComplete(s: seq<ExpenseEnt>, p: ExpenseEnt -> bool)
    ensures forall i :: 0 <= i < |s| ==> (p(s[i]) <==> i in Positions(s, p))
    decreases |s|
  {
    if s != [] {
      var tail := s[1..];
      PositionsComplete(tail, p);
      var rest := Positions(tail, p);
      var idx := Positions(s, p);
      assert idx == if p(s[0]) then [0] + Shift(rest) else Shift(rest);
      forall i | 1 <= i < |s| ensures p(s[i]) <==> i in idx {
        assert tail[i - 1] == s[i];
        ShiftMember(rest, i - 1);
      }
    }
  }

  /** The rate calculator's input: the expenses not in the income category,
      in their original order. */
  lemma CalculatorGetsOutcomesInOrder(list: seq<ExpenseEnt>, income: int) returns (idx: seq<int>)
    ensures var fed := Queries.Where(list, IsOutcome(income));
            && |idx| == |fed|
            && (forall k :: 0 <= k < |idx| ==> 0 <= idx[k] < |list| && fed[k] == list[idx[k]])
            && (forall k, l :: 0 <= k < l < |idx| ==> idx[k] < idx[l])
            && (forall i :: 0 <= i < |list| ==> (list[i].category != income <==> i in idx))
  {
    idx := Positions(list, IsOutcome(income));
    PositionsPick(list, IsOutcome(income));
    PositionsComplete(list, IsOutcome(income));
  }

  /** The delete dialog's content: how many rows, and an optional name. */
  datatype DeleteInfo = DeleteInfo(count: int, name: Option<string>)

  datatype IncomeOutcome = IncomeOutcome(income: int, outcome: int)

  class HomeViewModel {
    var prepareDeleteExpenseId: Option<int>
    /** Events posted, oldest first. */
    var onDeleteConfirm: seq<DeleteInfo>
    var onExpenseItemDeleted: nat
    var onError: nat
    /** The last posted totals, none before the first week result. */
    var incomeOutcomeData: Option<IncomeOutcome>
    const repo: Repository.ExpenseRepositoryImpl
    const calculator: RateCalculator.ExpenseRateCalculatorImpl
    const income: int

    constructor(repo: Repository.ExpenseRepositoryImpl, calculator: RateCalculator.ExpenseRateCalculatorImpl,
                income: int)
      ensures prepareDeleteExpenseId == None && onDeleteConfirm == [] && incomeOutcomeData == None
      ensures onExpenseItemDeleted == 0 && onError == 0
      ensures this.repo == repo && this.calculator == calculator && this.income == income
    {
      prepareDeleteExpenseId := None;
      onDeleteConfirm := [];
      onExpenseItemDeleted := 0;
      onError := 0;
      incomeOutcomeData := None;
      this.repo := repo;
      this.calculator := calculator;
      this.income := income;
    }

    /** `onDeletePrepared`: the id is remembered and a one-row delete dialog
        is asked for. */
    method OnDeletePrepared(id: int)
      modifies this
      ensures prepareDeleteExpenseId == Some(id)
      ensures onDeleteConfirm == old(onDeleteConfirm) + [DeleteInfo(1, None)]
      ensures onExpenseItemDeleted == old(onExpenseItemDeleted) && onError == old(onError)
      ensures incomeOutcomeData == old(incomeOutcomeData)
    {
      prepareDeleteExpenseId := Some(id);
      onDeleteConfirm := onDeleteConfirm + [DeleteInfo(1, None)];
    }

    /** `onDeleteConfirmed`: without a prepared id nothing happens;
        otherwise exactly that row is soft-deleted at `now`, and the
        deletion is announced. */
    method OnDeleteConfirmed(now: int)
      requires repo.expenseDao.Valid()
      modifies this, repo.expenseDao
      ensures repo.expenseDao.Valid()
      ensures prepareDeleteExpenseId == old(prepareDeleteExpenseId)
      ensures onDeleteConfirm == old(onDeleteConfirm) && onError == old(onError)
      ensures incomeOutcomeData == old(incomeOutcomeData)
      ensures old(prepareDeleteExpenseId).None? ==>
                repo.expenseDao.State() == old(repo.expenseDao.State()) &&
                onExpenseItemDeleted == old(onExpenseItemDeleted)
      ensures old(prepareDeleteExpenseId).Some? ==>
                repo.expenseDao.State() ==
                  Dao.MarkDeleted(old(repo.expenseDao.State()), {old(prepareDeleteExpenseId).value}, now, DELETED) &&
                onExpenseItemDeleted == old(onExpenseItemDeleted) + 1
    {
      if prepareDeleteExpenseId.None? {
        return;
      }
      var id := prepareDeleteExpenseId.value;
      repo.DeleteExpenseById(id, now);
      onExpenseItemDeleted := onExpenseItemDeleted + 1;
    }

    /** The calculator's rates are those of the week's outcomes: a rate for
        exactly the weekdays with an outcome, each that day's share of the
        costliest day. */
    ghost predicate OutcomeRates(weekExpenses: seq<ExpenseEnt>)
      reads calculator
    {
      var outcomes := Queries.Where(weekExpenses, IsOutcome(income));
      && (forall d :: d in calculator.rates <==> RateCalculator.HasDay(outcomes, calculator.dayOf, d))
      && (forall d :: d in calculator.rates ==>
            calculator.rates[d] ==
              RateCalculator.RateOf(RateCalculator.DayTotal(outcomes, calculator.dayOf, d),
                                    RateCalculator.MaxCost(calculator.DailyCostsOf(outcomes))))
      && (outcomes == [] ==> calculator.rates == map[])
    }

    /** One answer of `getWeekExpenses` as `observeWeekExpenses` handles it:
        an error is announced and the totals stay; a list updates them. */
    method OnWeekExpenses(result: Result<seq<ExpenseEnt>>)
      modifies this, calculator
      ensures prepareDeleteExpenseId == old(prepareDeleteExpenseId) && onDeleteConfirm == old(onDeleteConfirm)
      ensures onExpenseItemDeleted == old(onExpenseItemDeleted)
      ensures result.Loading? ==>
                onError == old(onError) && incomeOutcomeData == old(incomeOutcomeData) &&
                calculator.expenseList == old(calculator.expenseList) && calculator.rates == old(calculator.rates)
      ensures result.Error? ==>
                onError == old(onError) + 1 && incomeOutcomeData == old(incomeOutcomeData) &&
                calculator.expenseList == old(calculator.expenseList) && calculator.rates == old(calculator.rates)
      ensures result.Success? ==>
                onError == old(onError) &&
                incomeOutcomeData == Some(IncomeOutcome(TotalIncome(result.data, income), TotalOutcome(result.data, income))) &&
                calculator.expenseList == Queries.Where(result.data, IsOutcome(income))
      ensures result.Success? ==> OutcomeRates(result.data)
    {
      match result {
        case Loading =>
        case Error(_) =>
          onError := onError + 1;
        case Success(data) =>
          UpdateIncomeOutcome(data);
      }
    }

    /** `updateIncomeOutcome`: the calculator gets the week's outcomes, and
        the two totals are posted. */
    method UpdateIncomeOutcome(weekExpenses: seq<ExpenseEnt>)
      modifies this, calculator
      ensures prepareDeleteExpenseId == old(prepareDeleteExpenseId) && onDeleteConfirm == old(onDeleteConfirm)
      ensures onExpenseItemDeleted == old(onExpenseItemDeleted) && onError == old(onError)
      ensures calculator.expenseList == Queries.Where(weekExpenses, IsOutcome(income))
      ensures incomeOutcomeData ==
                Some(IncomeOutcome(TotalIncome(weekExpenses, income), TotalOutcome(weekExpenses, income)))
      ensures OutcomeRates(weekExpenses)
    {
      calculator.SetWeekExpenses(Queries.Where(weekExpenses, IsOutcome(income)));
      var totalOutcome := TotalOutcome(weekExpenses, income);
      var totalIncome := TotalIncome(weekExpenses, income);
      incomeOutcomeData := Some(IncomeOutcome(totalIncome, totalOutcome));
    }
  }
}
