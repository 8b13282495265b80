/**
 * The add-transaction screen (`AddExpenseActivity.java`): the category list offered
 * for the selected type, the validation order of the form, the sign the amount is
 * given from the selected type, and the record handed to the store.
 */
module AddExpense {
  import opened Wrappers
  import opened Text
  import opened Expenses
  import opened Database

  const ExpenseCategories: seq<string> := [
    "Food & Dining", "Transportation", "Shopping", "Entertainment",
    "Bills & Utilities", "Healthcare", "Education", "Travel", "Other"]

  const IncomeCategories: seq<string> := ["Salary", "Business", "Investment", "Gift", "Other"]

  /**
   * The spinner's entries: the income categories when the income button is checked,
   * the expense categories for any other button (and when the screen opens).
   */
  function CategoriesFor(incomeChecked: bool): (r: seq<string>)
    ensures incomeChecked ==> r == IncomeCategories
    ensures !incomeChecked ==> r == ExpenseCategories
  {
    if incomeChecked then IncomeCategories else ExpenseCategories
  }

  /** The two lists have no repeated entry and share only "Other". */
  lemma CategoryListsOverlapInOther()
    ensures forall i, j :: 0 <= i < j < |ExpenseCategories| ==> ExpenseCategories[i] != ExpenseCategories[j]
    ensures forall i, j :: 0 <= i < j < |IncomeCategories| ==> IncomeCategories[i] != IncomeCategories[j]
    ensures forall c :: c in ExpenseCategories && c in IncomeCategories <==> c == "Other"
  {
  }

  /** Why the form was refused; each error sits on the field it names. */
  datatype FormError = AmountRequired | DescriptionRequired | DateRequired | InvalidAmount

  /**
   * The three emptiness checks of `saveExpense`, on the trimmed texts and in the
   * source's order; the first failing one is the one reported.
   */
  function CheckRequired(amountText: string, description: string, date: string): (r: Option<FormError>)
    ensures r == None <==> Trim(amountText) != [] && Trim(description) != [] && Trim(date) != []
    ensures r == Some(AmountRequired) <==> Trim(amountText) == []
    ensures r == Some(DescriptionRequired) <==> Trim(amountText) != [] && Trim(description) == []
    ensures r == Some(DateRequired) <==> Trim(amountText) != [] && Trim(description) != [] && Trim(date) == []
  {
    if Trim(amountText) == [] then Some(AmountRequired)
    else if Trim(description) == [] then Some(DescriptionRequired)
    else if Trim(date) == [] then Some(DateRequired)
    else None
  }

  /** The sign rule: an expense is stored as -|x|, an income as |x|. */
  function Normalize(x: real, isIncome: bool): (r: real)
    ensures isIncome ==> r >= 0.0
    ensures !isIncome ==> r <= 0.0
    ensures Abs(r) == Abs(x)
  {
    if isIncome then Abs(x) else -Abs(x)
  }

  /** Normalising an already normalised amount leaves it as it is. */
  lemma NormalizeIdempotent(x: real, isIncome: bool)
    ensures Normalize(Normalize(x, isIncome), isIncome) == Normalize(x, isIncome)
  {
  }

  /**
   * What the rest of the app makes of a saved amount: it is income exactly when
   * the income type was chosen and the amount was not zero (a zero income is
   * stored as 0 and counted as an expense).
   */
  lemma SavedClassification(x: real, isIncome: bool)
    ensures IsIncomeAmount(Normalize(x, isIncome)) <==> isIncome && x != 0.0
    ensures Normalize(x, isIncome) == 0.0 <==> x == 0.0
  {
  }

  /** What pressing "save" ends in. */
  datatype SaveOutcome =
    | Rejected(error: FormError)  // a field error; nothing is inserted
    | Saved(id: int)              // "Transaction saved successfully!", the screen closes
    | SaveFailed                  // "Failed to save transaction"

  /**
   * `saveExpense`. `parsed` is what `Double.parseDouble` makes of the trimmed amount
   * text (None where it throws); `fails` says whether the insert fails in the engine.
   * The record saved has the current user, the normalised amount, the selected
   * category and the trimmed description and date.
   */
  method SaveExpense(db: DatabaseHelper, currentUserId: int, amountText: string, descriptionText: string,
                     dateText: string, category: string, isIncome: bool, parsed: Option<real>, fails: bool)
    returns (outcome: SaveOutcome)
    requires db.Valid()
    modifies db
    ensures db.Valid()
    ensures CheckRequired(amountText, descriptionText, dateText).Some? ==>
      outcome == Rejected(CheckRequired(amountText, descriptionText, dateText).value)
    ensures CheckRequired(amountText, descriptionText, dateText).None? && parsed.None? ==> outcome == Rejected(InvalidAmount)
    ensures outcome.Rejected? || outcome == SaveFailed ==>
      db.rows == old(db.rows) && db.issued == old(db.issued) && db.nextId == old(db.nextId)
    ensures CheckRequired(amountText, descriptionText, dateText).None? && parsed.Some? ==>
      (outcome.Saved? <==> !fails) && (outcome.Rejected? == false)
    ensures outcome.Saved? ==>
      && outcome.id > 0 && outcome.id !in old(db.issued) && db.issued == old(db.issued) + {outcome.id}
      && db.rows == old(db.rows)[outcome.id := Row(currentUserId, Normalize(parsed.value, isIncome), category,
                                                   Trim(descriptionText), Trim(dateText))]
  {
    var amountStr := Trim(amountText);
    var description := Trim(descriptionText);
    var date := Trim(dateText);
    if amountStr == [] {
      return Rejected(AmountRequired);
    }
    if description == [] {
      return Rejected(DescriptionRequired);
    }
    if date == [] {
      return Rejected(DateRequired);
    }
    if parsed.None? {
      return Rejected(InvalidAmount);
    }
    var amount := Normalize(parsed.value, isIncome);
    var expense := new Expense();
    expense.SetUserId(currentUserId);
    expense.SetAmount(amount);
    expense.SetCategory(category);
    expense.SetDescription(description);
    expense.SetDate(date);
    var result := db.AddExpense(expense, fails);
    if result > 0 {
      outcome := Saved(result);
    } else {
      outcome := SaveFailed;
    }
  }
}
