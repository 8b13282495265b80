/**
 * The dashboard screen (`DashboardActivity.java`): the two accumulator loops that
 * total a user's expenses and incomes, the balance shown beside them, and the
 * guard that sends a launch without a user id back to the login screen.
 */
module Dashboard {
  import opened Wrappers
  import opened Expenses
  import opened Aggregates
  import opened Database
  import opened Intents

  /** `calculateTotalExpense`: |amount| added up over the records with a negative amount. */
  method CalculateTotalExpense(expenses: seq<ExpenseRecord>) returns (total: real)
    ensures total == Sum(expenses, Spent)
    ensures total >= 0.0
  {
    total := 0.0;
    var i := 0;
    while i < |expenses|
      invariant 0 <= i <= |expenses|
      invariant total == Sum(expenses[..i], Spent)
    {
      assert expenses[..i + 1][..i] == expenses[..i];
      if expenses[i].amount < 0.0 {
        total := total + Abs(expenses[i].amount);
      }
      i := i + 1;
    }
    assert expenses[..i] == expenses;
    SumNonNegative(expenses, Spent);
  }

  /** `calculateTotalIncome`: the amounts added up over the records with a positive amount. */
  method CalculateTotalIncome(expenses: seq<ExpenseRecord>) returns (total: real)
    ensures total == Sum(expenses, Earned)
    ensures total >= 0.0
  {
    total := 0.0;
    var i := 0;
    while i < |expenses|
      invariant 0 <= i <= |expenses|
      invariant total == Sum(expenses[..i], Earned)
    {
      assert expenses[..i + 1][..i] == expenses[..i];
      if expenses[i].amount > 0.0 {
        total := total + expenses[i].amount;
      }
      i := i + 1;
    }
    assert expenses[..i] == expenses;
    SumNonNegative(expenses, Earned);
  }

  /** A record with a zero amount changes neither dashboard total. */
  lemma ZeroAmountCountsNowhere(s: seq<ExpenseRecord>, e: ExpenseRecord)
    requires e.amount == 0.0
    ensures Sum(s + [e], Spent) == Sum(s, Spent)
    ensures Sum(s + [e], Earned) == Sum(s, Earned)
  {
    assert (s + [e])[..|s + [e]| - 1] == s;
  }

  /** The three figures the dashboard shows. */
  datatype Totals = Totals(balance: real, income: real, expense: real)

  /**
   * `loadDashboardData`: fetch the user's records, total them, and take the balance
   * as income minus expense, which is the signed sum of every amount.
   */
  method LoadDashboardData(db: DatabaseHelper, userId: int) returns (expenses: seq<ExpenseRecord>, shown: Totals)
    ensures IsListing(db.rows, userId, expenses)
    ensures shown.expense == Sum(expenses, Spent) && shown.income == Sum(expenses, Earned)
    ensures shown.balance == shown.income - shown.expense
    ensures shown.balance == Sum(expenses, Amount)
  {
    expenses := db.GetAllExpenses(userId);
    var totalExpense := CalculateTotalExpense(expenses);
    var totalIncome := CalculateTotalIncome(expenses);
    shown := Totals(totalIncome - totalExpense, totalIncome, totalExpense);
    BalanceIsSignedSum(expenses);
  }

  /**
   * The figures depend only on the stored rows: two listings of the same user differ
   * at most in the order of equal dates, and the totals ignore order.
   */
  lemma TotalsDependOnlyOnStore(rows: map<int, Row>, u: int, a: seq<ExpenseRecord>, b: seq<ExpenseRecord>)
    requires IsListing(rows, u, a) && IsListing(rows, u, b)
    ensures Sum(a, Spent) == Sum(b, Spent)
    ensures Sum(a, Earned) == Sum(b, Earned)
    ensures Sum(a, Amount) == Sum(b, Amount)
  {
    ListingsArePermutations(rows, u, a, b);
    SumPermutation(a, b, Spent);
    SumPermutation(a, b, Earned);
    SumPermutation(a, b, Amount);
  }

  /** What `onCreate` ends in. */
  datatype Launch =
    | RedirectToLogin
    | Shown(userId: int, expenses: seq<ExpenseRecord>, totals: Totals)

  /**
   * `onCreate`: without a user id (or with -1) the screen goes to login and loads
   * nothing; otherwise it shows that user's totals.
   */
  method OnCreate(db: DatabaseHelper, extra: Option<int>) returns (launch: Launch)
    ensures UserIdExtra(extra, -1) == -1 <==> launch == RedirectToLogin
    ensures launch.Shown? ==>
      && launch.userId == UserIdExtra(extra, -1)
      && IsListing(db.rows, launch.userId, launch.expenses)
      && launch.totals.expense == Sum(launch.expenses, Spent)
      && launch.totals.income == Sum(launch.expenses, Earned)
      && launch.totals.balance == Sum(launch.expenses, Amount)
  {
    var currentUserId := UserIdExtra(extra, -1);
    if currentUserId == -1 {
      return RedirectToLogin;
    }
    var expenses, totals := LoadDashboardData(db, currentUserId);
    launch := Shown(currentUserId, expenses, totals);
  }
}
