/**
 * The transaction record (`Expense.java`). One record type stands for both
 * incomes and expenses: the sign of `amount` is the only classification.
 *
 * `Expense` is the mutable object the screens build through setters;
 * `ExpenseRecord` is the value of its six fields at one moment, which is what the
 * table stores and what lists and aggregations work on.
 */
module Expenses {

  /** `Math.abs` on an amount. */
  function Abs(x: real): (r: real)
    ensures r >= 0.0
    ensures r == x || r == -x
    ensures r == 0.0 <==> x == 0.0
  {
    if x < 0.0 then -x else x
  }

  /** `isIncome()`: only a strictly positive amount is income. */
  predicate IsIncomeAmount(amount: real) {
    amount > 0.0
  }

  datatype ExpenseRecord = ExpenseRecord(
    id: int,
    userId: int,
    amount: real,
    category: string,
    description: string,
    date: string)
  {
    predicate IsIncome() {
      IsIncomeAmount(amount)
    }

    function AbsoluteAmount(): real {
      Abs(amount)
    }
  }

  /** Zero and negative amounts are not income; a positive and a negative amount of equal size differ. */
  lemma ClassificationBySign(e: ExpenseRecord)
    ensures e.IsIncome() <==> e.amount > 0.0
    ensures e.amount == 0.0 ==> !e.IsIncome() && e.AbsoluteAmount() == 0.0
    ensures e.AbsoluteAmount() == e.(amount := -e.amount).AbsoluteAmount()
  {
  }

  class Expense {
    var id: int
    var userId: int
    var amount: real
    var category: string
    var description: string
    var date: string

    /** `new Expense()`: Java's default field values (a null string is modelled as ""). */
    constructor ()
      ensures Value() == ExpenseRecord(0, 0, 0.0, "", "", "")
    {
      id, userId, amount := 0, 0, 0.0;
      category, description, date := "", "", "";
    }

    /** The six-argument constructor stores each argument in its own field. */
    constructor Create(id: int, userId: int, amount: real, category: string, description: string, date: string)
      ensures Value() == ExpenseRecord(id, userId, amount, category, description, date)
    {
      this.id, this.userId, this.amount := id, userId, amount;
      this.category, this.description, this.date := category, description, date;
    }

    /** The current field values, as read through the getters. */
    function Value(): ExpenseRecord
      reads this
    {
      ExpenseRecord(id, userId, amount, category, description, date)
    }

    method SetId(id: int)
      modifies this
      ensures Value() == old(Value()).(id := id)
    {
      this.id := id;
    }

    method SetUserId(userId: int)
      modifies this
      ensures Value() == old(Value()).(userId := userId)
    {
      this.userId := userId;
    }

    method SetAmount(amount: real)
      modifies this
      ensures Value() == old(Value()).(amount := amount)
    {
      this.amount := amount;
    }

    method SetCategory(category: string)
      modifies this
      ensures Value() == old(Value()).(category := category)
    {
      this.category := category;
    }

    method SetDescription(description: string)
      modifies this
      ensures Value() == old(Value()).(description := description)
    {
      this.description := description;
    }

    method SetDate(date: string)
      modifies this
      ensures Value() == old(Value()).(date := date)
    {
      this.date := date;
    }

    /** `isIncome()` on the object. */
    predicate IsIncome()
      reads this
      ensures IsIncome() <==> Value().IsIncome()
    {
      amount > 0.0
    }

    /** `getAbsoluteAmount()`: never negative, and the amount up to its sign. */
    function AbsoluteAmount(): (r: real)
      reads this
      ensures r >= 0.0 && (r == amount || r == -amount)
    {
      Abs(amount)
    }
  }
}
