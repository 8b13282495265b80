/**
 * The reports screen (`ReportsActivity.java`): the split of a user's records into
 * an expense list and an income list, the statistics shown over them, the
 * per-category totals behind the two pie charts, and the totals of the bar chart.
 * Each loop of the screen is a method proved to compute the matching function of
 * module Aggregates.
 */
module Reports {
  import opened Wrappers
  import opened Expenses
  import opened Aggregates
  import opened Database
  import opened Intents

  /** The loop of `loadReportsData` that splits the records by `isIncome`. */
  method Partition(expenses: seq<ExpenseRecord>) returns (expenseList: seq<ExpenseRecord>, incomeList: seq<ExpenseRecord>)
    ensures expenseList == ExpenseList(expenses) && incomeList == IncomeList(expenses)
    ensures multiset(expenseList) + multiset(incomeList) == multiset(expenses)
    ensures |expenseList| + |incomeList| == |expenses|
  {
    expenseList, incomeList := [], [];
    var i := 0;
    while i < |expenses|
      invariant 0 <= i <= |expenses|
      invariant expenseList == ExpenseList(expenses[..i]) && incomeList == IncomeList(expenses[..i])
    {
      assert expenses[..i + 1][..i] == expenses[..i];
      if expenses[i].IsIncome() {
        incomeList := incomeList + [expenses[i]];
      } else {
        expenseList := expenseList + [expenses[i]];
      }
      i := i + 1;
    }
    assert expenses[..i] == expenses;
    PartitionIsExact(expenses);
  }

  /** A "highest" loop: starts at 0 and takes any strictly larger contribution. */
  method HighestContribution(list: seq<ExpenseRecord>, m: Measure) returns (highest: real)
    ensures highest == Highest(list, m)
  {
    highest := 0.0;
    var i := 0;
    while i < |list|
      invariant 0 <= i <= |list|
      invariant highest == Highest(list[..i], m)
    {
      assert list[..i + 1] == list[..i] + [list[i]];
      HighestAppend(list[..i], list[i], m);
      var v := Contribution(m, list[i]);
      if v > highest {
        highest := v;
      }
      i := i + 1;
    }
    assert list[..i] == list;
  }

  /** A "total" loop: every record's contribution added up. */
  method TotalContribution(list: seq<ExpenseRecord>, m: Measure) returns (total: real)
    ensures total == Sum(list, m)
  {
    total := 0.0;
    var i := 0;
    while i < |list|
      invariant 0 <= i <= |list|
      invariant total == Sum(list[..i], m)
    {
      assert list[..i + 1][..i] == list[..i];
      total := total + Contribution(m, list[i]);
      i := i + 1;
    }
    assert list[..i] == list;
  }

  /** The five figures of the statistics card. */
  datatype Statistics = Statistics(
    totalTransactions: nat,
    highestExpense: real,
    highestIncome: real,
    avgExpense: real,
    avgIncome: real)

  /**
   * `calculateStatistics`: the count of all records, the largest |amount| among the
   * expenses and the largest amount among the incomes (0 for an empty list), and
   * each list's average, which is 0 for an empty list instead of a division by zero.
   */
  method CalculateStatistics(all: seq<ExpenseRecord>, expenses: seq<ExpenseRecord>, income: seq<ExpenseRecord>)
    returns (stats: Statistics)
    ensures stats.totalTransactions == |all|
    ensures stats.highestExpense == Highest(expenses, Magnitude)
    ensures stats.highestIncome == Highest(income, Amount)
    ensures stats.avgExpense == Average(expenses, Magnitude)
    ensures stats.avgIncome == Average(income, Amount)
  {
    var highestExpense := HighestContribution(expenses, Magnitude);
    var highestIncome := HighestContribution(income, Amount);
    var totalExpense := TotalContribution(expenses, Magnitude);
    var avgExpense := if |expenses| == 0 then 0.0 else totalExpense / (|expenses| as real);
    var totalIncome := TotalContribution(income, Amount);
    var avgIncome := if |income| == 0 then 0.0 else totalIncome / (|income| as real);
    stats := Statistics(|all|, highestExpense, highestIncome, avgExpense, avgIncome);
  }

  /**
   * Over the lists of a split, each average lies between 0 and the matching highest
   * value, and the highest value bounds every record of its list.
   */
  lemma StatisticsAreBounded(s: seq<ExpenseRecord>)
    ensures 0.0 <= Average(ExpenseList(s), Magnitude) <= Highest(ExpenseList(s), Magnitude)
    ensures 0.0 <= Average(IncomeList(s), Amount) <= Highest(IncomeList(s), Amount)
    ensures forall i :: 0 <= i < |ExpenseList(s)| ==> Abs(ExpenseList(s)[i].amount) <= Highest(ExpenseList(s), Magnitude)
    ensures forall i :: 0 <= i < |IncomeList(s)| ==> 0.0 < IncomeList(s)[i].amount <= Highest(IncomeList(s), Amount)
  {
    var ex, inc := ExpenseList(s), IncomeList(s);
    assert forall i :: 0 <= i < |ex| ==> Contribution(Magnitude, ex[i]) >= 0.0;
    AverageBetweenZeroAndHighest(ex, Magnitude);
    assert forall i :: 0 <= i < |inc| ==> Contribution(Amount, inc[i]) == inc[i].amount > 0.0;
    AverageBetweenZeroAndHighest(inc, Amount);
  }

  /** One `put(category, getOrDefault(category, 0.0) + amount)` on a category map. */
  lemma CategoryMapStep(totals: map<string, real>, s: seq<ExpenseRecord>, x: ExpenseRecord, m: Measure)
    requires IsCategoryMap(totals, s, m)
    ensures IsCategoryMap(totals[x.category := (if x.category in totals then totals[x.category] else 0.0) + Contribution(m, x)], s + [x], m)
  {
    var c := x.category;
    var t := s + [x];
    var next := totals[c := (if c in totals then totals[c] else 0.0) + Contribution(m, x)];
    assert t[..|t| - 1] == s;
    forall k ensures k in Categories(t) <==> k in Categories(s) || k == c {
      if k in Categories(s) {
        var i :| 0 <= i < |s| && s[i].category == k;
        assert t[i] == s[i];
      }
      if k in Categories(t) && k != c {
        var i :| 0 <= i < |t| && t[i].category == k;
        assert i < |s| && s[i] == t[i];
      }
      if k == c {
        assert t[|s|].category == c;
      }
    }
    if c !in totals {
      CategorySumAbsent(s, c, m);
    }
    assert next.Keys == Categories(t);
  }

  /** The grouping loop of either pie chart: per category, the total of `m`. */
  method GroupByCategory(list: seq<ExpenseRecord>, m: Measure) returns (categoryTotals: map<string, real>)
    ensures IsCategoryMap(categoryTotals, list, m)
  {
    categoryTotals := map[];
    var i := 0;
    while i < |list|
      invariant 0 <= i <= |list|
      invariant IsCategoryMap(categoryTotals, list[..i], m)
    {
      var category := list[i].category;
      var amount := Contribution(m, list[i]);
      CategoryMapStep(categoryTotals, list[..i], list[i], m);
      assert list[..i] + [list[i]] == list[..i + 1];
      categoryTotals := categoryTotals[category := (if category in categoryTotals then categoryTotals[category] else 0.0) + amount];
      i := i + 1;
    }
    assert list[..i] == list;
  }

  /**
   * `setupExpensePieChart` / `setupIncomePieChart`: an empty list hides the chart
   * (None); otherwise the chart shows the list's category map.
   */
  method PieChart(list: seq<ExpenseRecord>, m: Measure) returns (pie: Option<map<string, real>>)
    ensures list == [] <==> pie.None?
    ensures pie.Some? ==> IsCategoryMap(pie.value, list, m)
  {
    if list == [] {
      return None;
    }
    var categoryTotals := GroupByCategory(list, m);
    pie := Some(categoryTotals);
  }

  /** `setupComparisonBarChart`: |amount| over the expense list and amount over the income list. */
  method BarChartTotals(expenses: seq<ExpenseRecord>, income: seq<ExpenseRecord>) returns (totalExpense: real, totalIncome: real)
    ensures totalExpense == Sum(expenses, Magnitude) && totalIncome == Sum(income, Amount)
  {
    totalExpense := TotalContribution(expenses, Magnitude);
    totalIncome := TotalContribution(income, Amount);
  }

  /**
   * The slices of a pie chart, visited in any order, add up to the matching bar of
   * the bar chart; over a split list the bars are the dashboard's two totals.
   */
  lemma PieSlicesAddUpToBars(s: seq<ExpenseRecord>, expensePie: map<string, real>, incomePie: map<string, real>,
                             expenseKeys: seq<string>, incomeKeys: seq<string>)
    requires IsCategoryMap(expensePie, ExpenseList(s), Magnitude) && IsCategoryMap(incomePie, IncomeList(s), Amount)
    requires DistinctKeys(expenseKeys) && (forall i :: 0 <= i < |expenseKeys| ==> expenseKeys[i] in expensePie)
    requires forall c :: c in expensePie ==> c in expenseKeys
    requires DistinctKeys(incomeKeys) && (forall i :: 0 <= i < |incomeKeys| ==> incomeKeys[i] in incomePie)
    requires forall c :: c in incomePie ==> c in incomeKeys
    ensures ValuesSum(expensePie, expenseKeys) == Sum(ExpenseList(s), Magnitude) == Sum(s, Spent)
    ensures ValuesSum(incomePie, incomeKeys) == Sum(IncomeList(s), Amount) == Sum(s, Earned)
  {
    CategoryMapAddsUp(expensePie, ExpenseList(s), Magnitude, expenseKeys);
    CategoryMapAddsUp(incomePie, IncomeList(s), Amount, incomeKeys);
    BarTotalsAreDashboardTotals(s);
  }

  /** What the screen shows: the no-data card, or the statistics and charts. */
  datatype Report =
    | NoData
    | Data(
        expenseList: seq<ExpenseRecord>,
        incomeList: seq<ExpenseRecord>,
        stats: Statistics,
        expensePie: Option<map<string, real>>,
        incomePie: Option<map<string, real>>,
        barExpense: real,
        barIncome: real)

  /**
   * A `Data` report drawn from `expenses`: the split, the five statistics over it,
   * a pie per non-empty side holding that side's category map, and bars equal to
   * the dashboard's two totals.
   */
  ghost predicate ReportsOn(report: Report, expenses: seq<ExpenseRecord>)
    requires report.Data?
  {
    && report.expenseList == ExpenseList(expenses)
    && report.incomeList == IncomeList(expenses)
    && report.stats.totalTransactions == |expenses|
    && report.stats.highestExpense == Highest(ExpenseList(expenses), Magnitude)
    && report.stats.highestIncome == Highest(IncomeList(expenses), Amount)
    && report.stats.avgExpense == Average(ExpenseList(expenses), Magnitude)
    && report.stats.avgIncome == Average(IncomeList(expenses), Amount)
    && (report.expensePie.None? <==> ExpenseList(expenses) == [])
    && (report.expensePie.Some? ==> IsCategoryMap(report.expensePie.value, ExpenseList(expenses), Magnitude))
    && (report.incomePie.None? <==> IncomeList(expenses) == [])
    && (report.incomePie.Some? ==> IsCategoryMap(report.incomePie.value, IncomeList(expenses), Amount))
    && report.barExpense == Sum(expenses, Spent)
    && report.barIncome == Sum(expenses, Earned)
  }

  /**
   * `loadReportsData`: an empty fetch shows the no-data card and computes nothing;
   * otherwise the records are split and every figure is taken over the split.
   */
  method LoadReportsData(db: DatabaseHelper, userId: int) returns (expenses: seq<ExpenseRecord>, report: Report)
    ensures IsListing(db.rows, userId, expenses)
    ensures expenses == [] <==> report.NoData?
    ensures report.Data? ==> ReportsOn(report, expenses)
  {
    expenses := db.GetAllExpenses(userId);
    if expenses == [] {
      return expenses, NoData;
    }
    var expenseList, incomeList := Partition(expenses);
    var stats := CalculateStatistics(expenses, expenseList, incomeList);
    var expensePie := PieChart(expenseList, Magnitude);
    var incomePie := PieChart(incomeList, Amount);
    var barExpense, barIncome := BarChartTotals(expenseList, incomeList);
    BarTotalsAreDashboardTotals(expenses);
    report := Data(expenseList, incomeList, stats, expensePie, incomePie, barExpense, barIncome);
  }

  /**
   * `onCreate`: the screen shows the reports of the `USER_ID` extra, or of user 1
   * when the extra is missing, with every figure taken over that user's records.
   */
  method OnCreate(db: DatabaseHelper, extra: Option<int>) returns (userId: int, expenses: seq<ExpenseRecord>, report: Report)
    ensures userId == UserIdExtra(extra, 1)
    ensures IsListing(db.rows, userId, expenses)
    ensures expenses == [] <==> report.NoData?
    ensures report.Data? ==> ReportsOn(report, expenses)
  {
    userId := UserIdExtra(extra, 1);
    expenses, report := LoadReportsData(db, userId);
  }
}
