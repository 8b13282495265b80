# Expense Tracker ledger — a Dafny model

This project models the ledger at the heart of the Expense Tracker Android app.
It covers four parts:

- **The `expenses` table** (`DatabaseHelper`). It is an in-memory class: a map from id to row, plus the AUTOINCREMENT counter.
- **The transaction record** (`Expense`). The sign of the amount is the only income/expense flag.
- **The folds the screens compute over a user's records.** These are the dashboard totals and balance, and the reports' split, statistics, category maps and bar totals.
- **The rules the screens apply around the store.** These are the add-transaction form, sign-up and login guards, the transaction list kept in step with the store, and the settings screen (preferences, currency code, clearing a user's data).

Amounts are `real`, so every arithmetic identity below holds in exact arithmetic.

Each screen loop is an imperative method, proved against a specification function:

- `Aggregates.Sum`, `Highest`, `Average` and `IncomeList`/`ExpenseList`;
- `Aggregates.IsCategoryMap`;
- `Database.IsListing`, which is the meaning of `SELECT * … WHERE user_id = u ORDER BY date DESC`.

The laws of those functions are proved as lemmas:

- totals do not depend on order;
- the balance is the signed sum;
- the category totals add up to the bar totals;
- each average lies between 0 and the highest value;
- deleting a listed row keeps the list a listing.

Modules, one file each: `Wrappers`, `Text`, `Expenses`, `Database`, `Aggregates`, `Intents`, `Dashboard`, `Reports`, `AddExpense`, `Users`, `Signup`, `Login`, `ExpenseList`, `Settings`.

Behaviour of the code worth noting:

- **Listing order.** `getAllExpenses` orders by the `date` text, descending. Records with equal dates come back in no fixed order.
- **User ids.** `addExpense` stores whatever user id the record carries; the table declares no reference to the user table.
- **`updateExpense`** rewrites `user_id` too.
- **`onUpgrade`** drops the table and recreates it empty, so every stored record is lost.
- **Zero amounts.** The add screen accepts a zero amount. Entered as income, it is stored as 0 and counted as an expense (`AddExpense.SavedClassification`).

Ordering of text is SQLite's BINARY collation on TEXT. That is lexicographic order on code points (`Text.StrLe`), proved to be a total order.

## Model

| member | source | states |
|---|---|---|
| Text.Trim | app/src/main/java/com/example/expensetracker/AddExpenseActivity.java:142-144 | `String.trim()`: the result is a slice of the input; what is cut off on each side is all characters ≤ U+0020; the result neither starts nor ends with one |
| Text.TrimEmptyIffBlank | app/src/main/java/com/example/expensetracker/AddExpenseActivity.java:149-165 | a trimmed field is empty exactly when every character of it is removable |
| Text.TrimIdempotent | app/src/main/java/com/example/expensetracker/SignupActivity.java:57-60 | trimming a trimmed string changes nothing |
| Text.Utf16Length | app/src/main/java/com/example/expensetracker/SignupActivity.java:81 | `String.length()` counts UTF-16 units: between one and two per character, and exactly one per character iff none lies above U+FFFF |
| Text.StrLeReflexive | app/src/main/java/com/example/expensetracker/DatabaseHelper.java:72 | the order `ORDER BY date` uses is reflexive |
| Text.StrLeTotal | app/src/main/java/com/example/expensetracker/DatabaseHelper.java:72 | any two dates are comparable |
| Text.StrLeTransitive | app/src/main/java/com/example/expensetracker/DatabaseHelper.java:72 | the date order is transitive |
| Text.StrLeAntisymmetric | app/src/main/java/com/example/expensetracker/DatabaseHelper.java:72 | dates ordered both ways are equal, so only equal dates can tie |
| Expenses.Abs | app/src/main/java/com/example/expensetracker/Expense.java:79-81 | `Math.abs`: never negative, equal to x or -x, zero exactly for zero |
| Expenses.ClassificationBySign | app/src/main/java/com/example/expensetracker/Expense.java:74-81 | a record is income iff its amount is > 0; a zero amount is not income and has magnitude 0; the magnitude ignores the sign |
| Expenses.Expense.constructor | app/src/main/java/com/example/expensetracker/Expense.java:12-13 | the no-argument constructor leaves every field at Java's default (null text as "") |
| Expenses.Expense.Create | app/src/main/java/com/example/expensetracker/Expense.java:15-22 | each constructor argument lands in its own field |
| Expenses.Expense.SetId | app/src/main/java/com/example/expensetracker/Expense.java:29-31 | only the id changes, to the value given |
| Expenses.Expense.SetUserId | app/src/main/java/com/example/expensetracker/Expense.java:37-39 | only the user id changes, to the value given |
| Expenses.Expense.SetAmount | app/src/main/java/com/example/expensetracker/Expense.java:45-47 | only the amount changes, to the value given |
| Expenses.Expense.SetCategory | app/src/main/java/com/example/expensetracker/Expense.java:53-55 | only the category changes, to the value given |
| Expenses.Expense.SetDescription | app/src/main/java/com/example/expensetracker/Expense.java:61-63 | only the description changes, to the value given |
| Expenses.Expense.SetDate | app/src/main/java/com/example/expensetracker/Expense.java:69-71 | only the date changes, to the value given |
| Expenses.Expense.IsIncome | app/src/main/java/com/example/expensetracker/Expense.java:74-76 | the object's `isIncome()` agrees with the classification of its current value |
| Expenses.Expense.AbsoluteAmount | app/src/main/java/com/example/expensetracker/Expense.java:79-81 | `getAbsoluteAmount()` is ≥ 0 and equals the amount or its negation |
| Database.RecordOf | app/src/main/java/com/example/expensetracker/DatabaseHelper.java:79-86 | a record read back from a row carries that row's id and exactly the stored columns |
| Database.DistinctIdsCount | app/src/main/java/com/example/expensetracker/DatabaseHelper.java:36 | a list with distinct ids has as many ids as entries |
| Database.ListingIdsAndLength | app/src/main/java/com/example/expensetracker/DatabaseHelper.java:68-93 | a listing carries exactly the user's ids, one entry per row of the user |
| Database.ListingsArePermutations | app/src/main/java/com/example/expensetracker/DatabaseHelper.java:70-72 | two answers to the same query differ only in order (ties of equal dates) |
| Database.ListingMultiset | app/src/main/java/com/example/expensetracker/DatabaseHelper.java:68-93 | a listing holds exactly the records of the user's rows, each once |
| Database.InsertByDate | app/src/main/java/com/example/expensetracker/DatabaseHelper.java:72 | inserting a record into a list sorted by date descending keeps it sorted and only adds that record at one position |
| Database.DatabaseHelper.constructor | app/src/main/java/com/example/expensetracker/DatabaseHelper.java:28-44 | a new database has an empty table and its AUTOINCREMENT counter at 1 |
| Database.DatabaseHelper.OnUpgrade | app/src/main/java/com/example/expensetracker/DatabaseHelper.java:47-50 | an upgrade drops every row and restarts the table empty |
| Database.DatabaseHelper.AddExpense | app/src/main/java/com/example/expensetracker/DatabaseHelper.java:53-65 | an insert adds exactly one row with the object's user id, amount, category, description and date, under an id never issued before (any user id accepted); a failed insert returns -1 and changes nothing |
| Database.DatabaseHelper.GetAllExpenses | app/src/main/java/com/example/expensetracker/DatabaseHelper.java:68-93 | the result lists every row of the user exactly once, as stored, no other row, dates non-increasing; the table is unchanged |
| Database.DatabaseHelper.GetExpense | app/src/main/java/com/example/expensetracker/DatabaseHelper.java:96-118 | the row with that id as a record, or None (null) when there is none; the table is unchanged |
| Database.DatabaseHelper.UpdateExpense | app/src/main/java/com/example/expensetracker/DatabaseHelper.java:121-135 | if the object's id is a row, that row gets the object's five columns and 1 is returned; otherwise 0 and nothing changes; ids and counter untouched |
| Database.DatabaseHelper.DeleteExpense | app/src/main/java/com/example/expensetracker/DatabaseHelper.java:138-143 | the row with that id is gone and every other row is as it was |
| Database.DatabaseHelper.GetExpenseCount | app/src/main/java/com/example/expensetracker/DatabaseHelper.java:146-155 | the count is the number of rows of that user |
| Database.DeleteIdempotent | app/src/main/java/com/example/expensetracker/DatabaseHelper.java:138-143 | deleting twice is deleting once; an absent id is a no-op |
| Database.CountIsListingLength | app/src/main/java/com/example/expensetracker/DatabaseHelper.java:146-155 | the count equals the length of the user's listing |
| Database.ListingAfterDelete | app/src/main/java/com/example/expensetracker/ExpenseListActivity.java:100-103 | deleting the row behind position p and removing position p from a listing yields a listing of the smaller table |
| Aggregates.Contribution | app/src/main/java/com/example/expensetracker/DashboardActivity.java:83-103 | what one record adds: |amount| of a negative amount to the expense total, a positive amount to the income total, zero otherwise; |amount| to the reports' expense figures |
| Aggregates.SumAppend | app/src/main/java/com/example/expensetracker/DashboardActivity.java:84-91 | a total over a concatenation is the sum of the totals |
| Aggregates.SumNonNegative | app/src/main/java/com/example/expensetracker/DashboardActivity.java:83-103 | the expense and income totals are never negative |
| Aggregates.SumRemoveAt | app/src/main/java/com/example/expensetracker/DashboardActivity.java:84-91 | removing one record from a list removes exactly its contribution from the total |
| Aggregates.SumPermutation | app/src/main/java/com/example/expensetracker/DashboardActivity.java:84-102 | totals do not depend on the order of the list |
| Aggregates.BalanceIsSignedSum | app/src/main/java/com/example/expensetracker/DashboardActivity.java:70-72 | income minus expense is the signed sum of all amounts |
| Aggregates.IncomeList | app/src/main/java/com/example/expensetracker/ReportsActivity.java:93-99 | the income list holds only records with a positive amount |
| Aggregates.ExpenseList | app/src/main/java/com/example/expensetracker/ReportsActivity.java:93-99 | the expense list holds only records with amount ≤ 0 (zero included) |
| Aggregates.PartitionIsExact | app/src/main/java/com/example/expensetracker/ReportsActivity.java:90-99 | every record lands in exactly one of the two lists; the sizes add up to the total |
| Aggregates.PartitionKeepsOrder | app/src/main/java/com/example/expensetracker/ReportsActivity.java:93-99 | splitting a concatenation is concatenating the splits: order is preserved |
| Aggregates.BarTotalsAreDashboardTotals | app/src/main/java/com/example/expensetracker/ReportsActivity.java:245-253 | the bar chart's |amount| over the expense list and amount over the income list equal the dashboard's expense and income totals |
| Aggregates.Highest | app/src/main/java/com/example/expensetracker/ReportsActivity.java:114-129 | the highest value is ≥ 0, at least every record's value, and either 0 or the value of some record |
| Aggregates.QuotientBetween | app/src/main/java/com/example/expensetracker/ReportsActivity.java:137 | a non-negative total bounded by n copies of h, divided by n > 0, lies between 0 and h |
| Aggregates.AverageBetweenZeroAndHighest | app/src/main/java/com/example/expensetracker/ReportsActivity.java:132-145 | an average of non-negative values lies between 0 and the highest value (0 for an empty list) |
| Aggregates.CategorySumsAddUp | app/src/main/java/com/example/expensetracker/ReportsActivity.java:158-163 | adding the per-category totals over all categories gives the list's total |
| Aggregates.CategoryMapAddsUp | app/src/main/java/com/example/expensetracker/ReportsActivity.java:158-169 | the values of a category map, visited in any key order, add up to the list's total |
| Intents.UserIdExtra | app/src/main/java/com/example/expensetracker/DashboardActivity.java:31 | `getIntExtra("USER_ID", default)`: the extra when present, else the default |
| Dashboard.CalculateTotalExpense | app/src/main/java/com/example/expensetracker/DashboardActivity.java:83-92 | the loop computes the sum of |amount| over negative amounts, which is ≥ 0 |
| Dashboard.CalculateTotalIncome | app/src/main/java/com/example/expensetracker/DashboardActivity.java:94-103 | the loop computes the sum of the positive amounts, which is ≥ 0 |
| Dashboard.ZeroAmountCountsNowhere | app/src/main/java/com/example/expensetracker/DashboardActivity.java:87-98 | a zero-amount record changes neither total |
| Dashboard.LoadDashboardData | app/src/main/java/com/example/expensetracker/DashboardActivity.java:65-81 | the shown totals are those of the user's listing, and the balance, income minus expense, is the signed sum |
| Dashboard.TotalsDependOnlyOnStore | app/src/main/java/com/example/expensetracker/DashboardActivity.java:67-72 | any two listings of the same table give the same three figures |
| Dashboard.OnCreate | app/src/main/java/com/example/expensetracker/DashboardActivity.java:31-50 | a missing (or -1) user id redirects to login with nothing loaded; otherwise that user's totals are shown |
| Reports.Partition | app/src/main/java/com/example/expensetracker/ReportsActivity.java:89-99 | the loop builds exactly the expense and income lists; the two together are the input as a multiset |
| Reports.HighestContribution | app/src/main/java/com/example/expensetracker/ReportsActivity.java:114-129 | the "highest" loop computes the highest value |
| Reports.TotalContribution | app/src/main/java/com/example/expensetracker/ReportsActivity.java:132-145 | the "total" loop computes the sum |
| Reports.CalculateStatistics | app/src/main/java/com/example/expensetracker/ReportsActivity.java:110-147 | the count is the size of the whole list; highest and average of |amount| over expenses and of amount over incomes, averages 0 for an empty list |
| Reports.StatisticsAreBounded | app/src/main/java/com/example/expensetracker/ReportsActivity.java:114-145 | each average lies between 0 and its highest value, and every record's value is at most the highest |
| Reports.CategoryMapStep | app/src/main/java/com/example/expensetracker/ReportsActivity.java:162 | one `put(c, getOrDefault(c, 0) + v)` turns the category map of a list into the category map of the list extended by one record |
| Reports.GroupByCategory | app/src/main/java/com/example/expensetracker/ReportsActivity.java:157-163 | the loop builds a map with one key per occurring category, each the category's total |
| Reports.PieChart | app/src/main/java/com/example/expensetracker/ReportsActivity.java:195-209 | an empty list hides the chart; otherwise the chart's map is the category map |
| Reports.BarChartTotals | app/src/main/java/com/example/expensetracker/ReportsActivity.java:244-253 | the bars are the |amount| total of the expenses and the amount total of the incomes |
| Reports.PieSlicesAddUpToBars | app/src/main/java/com/example/expensetracker/ReportsActivity.java:241-256 | each pie chart's slices add up to its bar, which is the dashboard's matching total |
| Reports.LoadReportsData | app/src/main/java/com/example/expensetracker/ReportsActivity.java:75-108 | an empty listing gives the no-data card and nothing else; otherwise every figure is taken over the split of the user's listing |
| Reports.OnCreate | app/src/main/java/com/example/expensetracker/ReportsActivity.java:46-56 | the reports are those of the `USER_ID` extra, or of user 1 when it is missing; a `Data` report carries the split, statistics, pies and bars of that user's listing |
| AddExpense.CategoriesFor | app/src/main/java/com/example/expensetracker/AddExpenseActivity.java:112-120 | the income categories for the income button, the expense categories otherwise |
| AddExpense.CategoryListsOverlapInOther | app/src/main/java/com/example/expensetracker/AddExpenseActivity.java:30-48 | neither list repeats an entry, and the two share only "Other" |
| AddExpense.CheckRequired | app/src/main/java/com/example/expensetracker/AddExpenseActivity.java:148-165 | on the trimmed texts, in order: empty amount, then empty description, then empty date; the first failure is the one reported |
| AddExpense.Normalize | app/src/main/java/com/example/expensetracker/AddExpenseActivity.java:170-175 | an income is stored ≥ 0 and an expense ≤ 0, with the entered magnitude |
| AddExpense.NormalizeIdempotent | app/src/main/java/com/example/expensetracker/AddExpenseActivity.java:170-175 | normalising twice is normalising once |
| AddExpense.SavedClassification | app/src/main/java/com/example/expensetracker/AddExpenseActivity.java:170-175 | a saved amount reads as income iff the income type was chosen and the amount is not zero |
| AddExpense.SaveExpense | app/src/main/java/com/example/expensetracker/AddExpenseActivity.java:140-199 | a form error or an unparseable amount inserts nothing; otherwise one row with the current user, normalised amount, selected category and trimmed description and date is inserted, and success is reported iff the insert returned > 0; the saved id is new and joins the issued ids, and a rejected or failed save keeps rows, issued ids and counter |
| Signup.PerformSignup | app/src/main/java/com/example/expensetracker/SignupActivity.java:56-108 | the five guards in order on trimmed inputs, each reported iff it is the first to fail, the length guard counting UTF-16 units as `length()` does; else `addUser` gets User(0, trimmed username, email, password) and success is reported iff it returns > 0 |
| Signup.SignupSubmitsExactlyValidForms | app/src/main/java/com/example/expensetracker/SignupActivity.java:63-94 | a form reaches `addUser` iff username and email are non-blank and the password has ≥ 6 UTF-16 units and equals its confirmation; the account carries no surrounding blanks |
| Login.GetUserByEmail | app/src/main/java/com/example/expensetracker/LoginActivity.java:71 | the lookup gives the account stored under that email, or None (null) when there is none |
| Login.PerformLogin | app/src/main/java/com/example/expensetracker/LoginActivity.java:53-85 | empty email, then empty password, give field errors with no lookup; otherwise success iff the lookup of the trimmed email finds a user with exactly the trimmed password, and the dashboard gets that user's id |
| Login.UnknownEmailLooksLikeWrongPassword | app/src/main/java/com/example/expensetracker/LoginActivity.java:71-84 | an unknown email and a wrong password give the same failure |
| Login.SignupCredentialsLogIn | app/src/main/java/com/example/expensetracker/LoginActivity.java:54-72 | an account stored as sign-up built it logs in with its sign-up password, blanks around it or not, and with no other |
| ExpenseList.ExpenseListScreen.constructor | app/src/main/java/com/example/expensetracker/ExpenseListActivity.java:27-45 | the screen belongs to the `USER_ID` extra (1 when missing) and starts in step with the store |
| ExpenseList.ExpenseListScreen.LoadExpenses | app/src/main/java/com/example/expensetracker/ExpenseListActivity.java:57-70 | the list is the user's listing and the empty state is shown iff it is empty |
| ExpenseList.ExpenseListScreen.OnExpenseClick | app/src/main/java/com/example/expensetracker/ExpenseListActivity.java:82-86 | a click reads the record at that position and changes neither the store nor the list |
| ExpenseList.ExpenseListScreen.OnExpenseDelete | app/src/main/java/com/example/expensetracker/ExpenseListActivity.java:89-118 | a confirmed delete removes the row with the id at p from the store and position p from the list (one shorter, order kept), showing the empty state if it became empty; the list stays a listing of the store; issued ids and counter are kept |
| Settings.CurrencyCode | app/src/main/java/com/example/expensetracker/SettingsActivity.java:168-176 | the stored code is the entry's first three characters: USD, EUR, GBP, JPY, INR or AUD |
| Settings.ValueOr | app/src/main/java/com/example/expensetracker/SettingsActivity.java:72-80 | a preference read gives the stored value, or the default when unset |
| Settings.Preferences.constructor | app/src/main/java/com/example/expensetracker/SettingsActivity.java:43 | a preferences file with nothing stored |
| Settings.Preferences.PutBoolean | app/src/main/java/com/example/expensetracker/SettingsActivity.java:98-100 | stores exactly the value under the key; nothing else changes |
| Settings.Preferences.PutString | app/src/main/java/com/example/expensetracker/SettingsActivity.java:179-181 | stores exactly the value under the key; nothing else changes |
| Settings.StoredValueIsReadBack | app/src/main/java/com/example/expensetracker/SettingsActivity.java:98-100 | a stored value is what a later read of its key returns; other keys read as before |
| Settings.ClearedUserHasNothingToList | app/src/main/java/com/example/expensetracker/SettingsActivity.java:208-215 | once the user has no rows, the user's listing is empty and the count is 0 |
| Settings.RemovingListedIdsLeavesOthers | app/src/main/java/com/example/expensetracker/SettingsActivity.java:210-215 | removing the ids of a user's listing leaves exactly the other users' rows |
| Settings.SettingsScreen.constructor | app/src/main/java/com/example/expensetracker/SettingsActivity.java:33-53 | the screen belongs to the `USER_ID` extra (1 when missing) and shows the stored settings |
| Settings.SettingsScreen.LoadSettings | app/src/main/java/com/example/expensetracker/SettingsActivity.java:70-82 | dark mode defaults to off, notifications to on and the currency to "USD" when unset |
| Settings.SettingsScreen.OnDarkModeChanged | app/src/main/java/com/example/expensetracker/SettingsActivity.java:94-111 | stores exactly the new state under "dark_mode" |
| Settings.SettingsScreen.OnNotificationsChanged | app/src/main/java/com/example/expensetracker/SettingsActivity.java:114-124 | stores exactly the new state under "notifications" |
| Settings.SettingsScreen.OnCurrencySelected | app/src/main/java/com/example/expensetracker/SettingsActivity.java:173-188 | stores and shows the chosen entry's three-letter code under "currency" |
| Settings.SettingsScreen.ClearUserData | app/src/main/java/com/example/expensetracker/SettingsActivity.java:208-218 | afterwards the user has no rows, and the table is exactly the other users' rows as they were; issued ids and counter are kept, so later ids stay new |

## Left out

- **Android UI.** View lookup, visibility of views other than the empty state and the no-data card, toasts, dialogs as UI, intents as navigation and adapter notifications are left out. So are the splash timer and the list adapter's colours and formatting. These are platform presentation.
- **Charts and currency formatting.** MPAndroidChart objects, `floatValue()` conversions and `NumberFormat` are presentation over foreign libraries. The model keeps only the numbers handed to them.
- **`Expense.toString`.** It is formatting only.
- **IEEE doubles.** Amounts are exact reals. The balance and category-sum identities hold only in exact arithmetic: the source adds doubles, and in `HashMap` order.
- **The SQLite engine.** Connections, cursors and SQL text are abstracted to a map of rows. A failed insert is the `fails` input of `AddExpense`. Other engine errors are not modelled.
- **AUTOINCREMENT exhaustion.** The counter is unbounded, so the 2^63 id limit is not modelled.
- **Database.DatabaseHelper.GetAllExpenses:** returns the records as values, not as fresh `Expense` objects. It does not model the `int` truncation of `getInt` or the `long` id `addExpense` returns: ids are unbounded integers.
- **Null text.** Null strings read from the table, or left by the no-argument constructor, are modelled as "".
- **The user table.** `addUser`, `getUserByEmail` and `User.java` are not part of this model. Sign-up's `addUser` is a function parameter. What `getUserByEmail` finds is a map from email to account. No uniqueness rule is assumed.
- **Clock and parsing.** The current date written into the form is part of the form's input. `Double.parseDouble` is the `parsed` input of `SaveExpense` (None where it throws). Its accepted syntax, including "NaN" and "Infinity", is not modelled.
- **Preference persistence and theme.** Durability of `SharedPreferences` and `AppCompatDelegate` night mode are platform I/O.
- **Settings.Preferences:** booleans and strings are kept in two maps. A key read with the wrong type, which throws on Android, is not modelled. The app never does this.
- **Screen lifecycle.** `onResume` reloads the dashboard and the list. In the model that is a second call of `LoadDashboardData` or `LoadExpenses`.
- **Shared list object.** The list shared by the list screen and its adapter is one sequence; aliasing is not modelled.
- **The confirmation dialog** of a delete is its `confirmed` input.
