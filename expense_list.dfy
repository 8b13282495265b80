/**
 * The transaction list screen (`ExpenseListActivity.java`): it holds the user's
 * fetched records, shows an empty-state message exactly when there are none, and
 * deletes a record from the store and from its own list together.
 */
module ExpenseList {
  import opened Wrappers
  import opened Expenses
  import opened Database
  import opened Intents

  class ExpenseListScreen {
    const db: DatabaseHelper
    var currentUserId: int
    var expenseList: seq<ExpenseRecord>
    var emptyStateVisible: bool

    /**
     * What the screen keeps true between events: the list is a listing of the
     * user's rows in the store, and the empty state is shown iff the list is empty.
     */
    ghost predicate Synced()
      reads this, db
    {
      && db.Valid()
      && IsListing(db.rows, currentUserId, expenseList)
      && (emptyStateVisible <==> expenseList == [])
    }

    /** `onCreate`: the user of the `USER_ID` extra (1 when missing), then `loadExpenses`. */
    constructor (db: DatabaseHelper, extra: Option<int>)
      requires db.Valid()
      ensures this.db == db && currentUserId == UserIdExtra(extra, 1)
      ensures Synced()
    {
      this.db := db;
      currentUserId := UserIdExtra(extra, 1);
      new;
      LoadExpenses();
    }

    /** `loadExpenses` (also run by `onResume`): refetch, and show the empty state iff nothing came back. */
    method LoadExpenses()
      requires db.Valid()
      modifies this
      ensures currentUserId == old(currentUserId)
      ensures IsListing(db.rows, currentUserId, expenseList)
      ensures emptyStateVisible <==> expenseList == []
      ensures Synced()
    {
      expenseList := db.GetAllExpenses(currentUserId);
      if expenseList == [] {
        emptyStateVisible := true;
      } else {
        emptyStateVisible := false;
      }
    }

    /** `onExpenseClick`: reads the record at the position and changes nothing. */
    method OnExpenseClick(position: int) returns (clicked: ExpenseRecord)
      requires 0 <= position < |expenseList|
      ensures clicked == expenseList[position]
    {
      clicked := expenseList[position];
    }

    /**
     * `onExpenseDelete`, once the dialog is answered: "Delete" (`confirmed`) removes
     * the row with the id at `position` from the store and that position from the
     * list, and shows the empty state if the list became empty; "Cancel" does nothing.
     */
    method OnExpenseDelete(position: int, confirmed: bool)
      requires Synced() && 0 <= position < |expenseList|
      modifies this, db
      ensures Synced()
      ensures currentUserId == old(currentUserId)
      ensures db.nextId == old(db.nextId) && db.issued == old(db.issued)
      ensures !confirmed ==> expenseList == old(expenseList) && db.rows == old(db.rows)
      ensures confirmed ==>
        && db.rows == old(db.rows) - {old(expenseList)[position].id}
        && expenseList == old(expenseList)[..position] + old(expenseList)[position + 1..]
        && |expenseList| == |old(expenseList)| - 1
    {
      var expense := expenseList[position];
      if confirmed {
        ListingAfterDelete(db.rows, currentUserId, expenseList, position);
        db.DeleteExpense(expense.id);
        expenseList := expenseList[..position] + expenseList[position + 1..];
        if expenseList == [] {
          emptyStateVisible := true;
        }
      }
    }
  }
}
