/**
 * The `expenses` table (`DatabaseHelper.java`), schema version 1:
 * `id INTEGER PRIMARY KEY AUTOINCREMENT, user_id INTEGER, amount REAL,
 *  category TEXT, description TEXT, date TEXT`.
 *
 * The table is a map from id to the other five columns. AUTOINCREMENT is the
 * counter `nextId` (SQLite's `sqlite_sequence` entry plus one) together with the
 * ghost set `issued` of every id the table has handed out: a new id is never one
 * that is present or that was ever deleted. There is no foreign key: any user id
 * is accepted.
 */
module Database {
  import opened Wrappers
  import opened Text
  import opened Expenses

  /** A row of the table without its key. */
  datatype Row = Row(userId: int, amount: real, category: string, description: string, date: string)

  function RecordOf(id: int, row: Row): (e: ExpenseRecord)
    ensures e.id == id && RowOf(e) == row
  {
    ExpenseRecord(id, row.userId, row.amount, row.category, row.description, row.date)
  }

  /** The columns `addExpense` and `updateExpense` write: everything but the id. */
  function RowOf(e: ExpenseRecord): Row {
    Row(e.userId, e.amount, e.category, e.description, e.date)
  }

  /** The ids of the rows whose `user_id` is `u`: `WHERE user_id = u`. */
  ghost function UserIds(rows: map<int, Row>, u: int): set<int> {
    set id | id in rows && rows[id].userId == u
  }

  /** The ids carried by a list of records. */
  ghost function IdsOf(list: seq<ExpenseRecord>): set<int> {
    set i | 0 <= i < |list| :: list[i].id
  }

  /** No id occurs twice. */
  ghost predicate DistinctIds(list: seq<ExpenseRecord>) {
    forall i, j :: 0 <= i < j < |list| ==> list[i].id != list[j].id
  }

  /** `ORDER BY date DESC`: dates never increase along the list (ties in any order). */
  ghost predicate SortedByDateDesc(list: seq<ExpenseRecord>) {
    forall i, j :: 0 <= i < j < |list| ==> StrLe(list[j].date, list[i].date)
  }

  /**
   * `list` is an answer to `SELECT * FROM expenses WHERE user_id = u ORDER BY date DESC`
   * on `rows`: every row of user `u` exactly once, as stored, no other row, newest date first.
   */
  ghost predicate IsListing(rows: map<int, Row>, u: int, list: seq<ExpenseRecord>) {
    && (forall i :: 0 <= i < |list| ==>
          list[i].id in rows && list[i] == RecordOf(list[i].id, rows[list[i].id]) && list[i].userId == u)
    && DistinctIds(list)
    && UserIds(rows, u) <= IdsOf(list)
    && SortedByDateDesc(list)
  }

  lemma {:induction false} DistinctIdsCount(list: seq<ExpenseRecord>)
    requires DistinctIds(list)
    ensures |IdsOf(list)| == |list|
  {
    if list != [] {
      var init := list[..|list| - 1];
      assert DistinctIds(init);
      DistinctIdsCount(init);
      assert IdsOf(list) == IdsOf(init) + {list[|list| - 1].id};
      assert list[|list| - 1].id !in IdsOf(init);
    }
  }

  /** A listing holds exactly the user's rows, so its length is the number of those rows. */
  lemma ListingIdsAndLength(rows: map<int, Row>, u: int, list: seq<ExpenseRecord>)
    requires IsListing(rows, u, list)
    ensures IdsOf(list) == UserIds(rows, u)
    ensures |list| == |UserIds(rows, u)|
  {
    DistinctIdsCount(list);
  }

  /** Two listings of the same table hold the same records, possibly with equal dates reordered. */
  lemma ListingsArePermutations(rows: map<int, Row>, u: int, a: seq<ExpenseRecord>, b: seq<ExpenseRecord>)
    requires IsListing(rows, u, a) && IsListing(rows, u, b)
    ensures multiset(a) == multiset(b)
  {
    ListingIdsAndLength(rows, u, a);
    ListingIdsAndLength(rows, u, b);
    ListingMultiset(rows, u, a);
    ListingMultiset(rows, u, b);
  }

  /** The records of a user's rows, one per row. */
  ghost function UserRecords(rows: map<int, Row>, u: int): multiset<ExpenseRecord> {
    multiset(set id | id in UserIds(rows, u) :: RecordOf(id, rows[id]))
  }

  lemma ListingMultiset(rows: map<int, Row>, u: int, list: seq<ExpenseRecord>)
    requires IsListing(rows, u, list)
    ensures multiset(list) == UserRecords(rows, u)
  {
    ListingIdsAndLength(rows, u, list);
    var recs := set id | id in UserIds(rows, u) :: RecordOf(id, rows[id]);
    forall id | id in UserIds(rows, u) ensures RecordOf(id, rows[id]) in list {
      assert id in IdsOf(list);
      var i :| 0 <= i < |list| && list[i].id == id;
      assert list[i] == RecordOf(id, rows[id]);
    }
    forall e ensures multiset(list)[e] == multiset(recs)[e] {
      if e in list {
        var i :| 0 <= i < |list| && list[i] == e;
        assert e in recs;
        DistinctMultiplicity(list, i);
      } else {
        assert e !in recs;
      }
    }
  }

  lemma DistinctMultiplicity(list: seq<ExpenseRecord>, i: int)
    requires DistinctIds(list) && 0 <= i < |list|
    ensures multiset(list)[list[i]] == 1
  {
    var e := list[i];
    assert list == list[..i] + [e] + list[i + 1..];
    forall j | 0 <= j < i ensures list[..i][j] != e {
      assert list[j].id != list[i].id;
    }
    forall j | i < j < |list| ensures list[j] != e {
      assert list[j].id != list[i].id;
    }
    assert e !in list[..i];
    assert e !in list[i + 1..];
    assert multiset(list) == multiset(list[..i]) + multiset{e} + multiset(list[i + 1..]);
  }

  /** A non-empty set of ids has a member to pick. */
  lemma NonEmptyHasMember(s: set<int>)
    requires s != {}
    ensures exists id :: id in s
  {
    if forall id :: id !in s {
      assert false;
    }
  }

  /**
   * Insert `e` into a list kept in non-increasing date order, after every entry whose
   * date is not older than `e`'s. Stands for the engine's ORDER BY.
   */
  method InsertByDate(list: seq<ExpenseRecord>, e: ExpenseRecord) returns (result: seq<ExpenseRecord>, k: nat)
    requires SortedByDateDesc(list)
    ensures k <= |list| && result == list[..k] + [e] + list[k..]
    ensures SortedByDateDesc(result)
  {
    k := 0;
    while k < |list| && StrLe(e.date, list[k].date)
      invariant k <= |list|
      invariant forall i :: 0 <= i < k ==> StrLe(e.date, list[i].date)
    {
      k := k + 1;
    }
    result := list[..k] + [e] + list[k..];
    forall j | k <= j < |list| ensures StrLe(list[j].date, e.date) {
      StrLeTotal(e.date, list[k].date);
      if j > k { StrLeTransitive(list[j].date, list[k].date, e.date); }
    }
    forall i, j | 0 <= i < j < |result| ensures StrLe(result[j].date, result[i].date) {
      if i < k && j > k {
        StrLeTransitive(list[j - 1].date, e.date, list[i].date);
      }
    }
  }

  /**
   * The state of the scan in `GetAllExpenses`: `list` is a listing of the user's rows
   * among those already visited (not in `pending`).
   */
  ghost predicate PartialListing(rows: map<int, Row>, u: int, pending: set<int>, list: seq<ExpenseRecord>) {
    && (forall i :: 0 <= i < |list| ==>
          list[i].id in rows && list[i].id !in pending && list[i] == RecordOf(list[i].id, rows[list[i].id]) && list[i].userId == u)
    && DistinctIds(list)
    && (forall id :: id in rows && id !in pending && rows[id].userId == u ==> id in IdsOf(list))
    && SortedByDateDesc(list)
  }

  lemma ListingStepSkip(rows: map<int, Row>, u: int, pending: set<int>, list: seq<ExpenseRecord>, id: int)
    requires PartialListing(rows, u, pending, list) && id in pending && id in rows && rows[id].userId != u
    ensures PartialListing(rows, u, pending - {id}, list)
  {
  }

  lemma ListingStepInsert(rows: map<int, Row>, u: int, pending: set<int>, before: seq<ExpenseRecord>,
                          id: int, k: int, after: seq<ExpenseRecord>)
    requires PartialListing(rows, u, pending, before) && id in pending && id in rows && rows[id].userId == u
    requires 0 <= k <= |before| && after == before[..k] + [RecordOf(id, rows[id])] + before[k..]
    requires SortedByDateDesc(after)
    ensures PartialListing(rows, u, pending - {id}, after)
  {
    forall i | 0 <= i < |after| && i != k ensures after[i] == before[if i < k then i else i - 1] {
    }
    forall x | x in IdsOf(before) ensures x in IdsOf(after) {
      var i :| 0 <= i < |before| && before[i].id == x;
      if i < k { assert after[i] == before[i]; } else { assert after[i + 1] == before[i]; }
    }
    assert after[k].id == id;
    assert id in IdsOf(after);
  }

  class DatabaseHelper {
    /** The only schema version there is. */
    static const DatabaseVersion := 1

    var rows: map<int, Row>
    /** The next AUTOINCREMENT id. */
    var nextId: int
    /** Every id handed out since the table was created. */
    ghost var issued: set<int>

    ghost predicate Valid()
      reads this
    {
      && nextId >= 1
      && rows.Keys <= issued
      && (forall id :: id in issued ==> 1 <= id < nextId)
    }

    /** `onCreate`: an empty table whose first id will be 1. */
    constructor ()
      ensures Valid() && rows == map[] && nextId == 1 && issued == {}
    {
      rows, nextId, issued := map[], 1, {};
    }

    /**
     * `onUpgrade`: `DROP TABLE IF EXISTS expenses` and create it again. Every row is
     * discarded; dropping the table also deletes its `sqlite_sequence` entry, so ids
     * start again from 1. The version numbers are not consulted.
     */
    method OnUpgrade(oldVersion: int, newVersion: int)
      modifies this
      ensures Valid() && rows == map[] && nextId == 1 && issued == {}
    {
      rows, nextId, issued := map[], 1, {};
    }

    /**
     * `addExpense`: insert the userId, amount, category, description and date the
     * object holds now (its id is ignored) under a fresh id, and return that id;
     * `-1` with nothing changed when the insert fails (`fails`, an engine error).
     */
    method AddExpense(expense: Expense, fails: bool) returns (id: int)
      requires Valid()
      modifies this
      ensures Valid()
      ensures fails ==> id == -1 && rows == old(rows) && nextId == old(nextId) && issued == old(issued)
      ensures !fails ==> id >= 1 && id !in old(issued) && id !in old(rows)
      ensures !fails ==> rows == old(rows)[id := RowOf(expense.Value())] && issued == old(issued) + {id}
    {
      if fails {
        id := -1;
      } else {
        id := nextId;
        rows := rows[id := RowOf(expense.Value())];
        issued := issued + {id};
        nextId := nextId + 1;
      }
    }

    /** `getAllExpenses`: the user's rows, newest date first; the table is left as it is. */
    method GetAllExpenses(userId: int) returns (list: seq<ExpenseRecord>)
      ensures IsListing(rows, userId, list)
    {
      list := [];
      var pending := rows.Keys;
      while pending != {}
        invariant pending <= rows.Keys
        invariant PartialListing(rows, userId, pending, list)
        decreases pending
      {
        NonEmptyHasMember(pending);
        var id :| id in pending;
        if rows[id].userId == userId {
          var before, k := list, 0;
          list, k := InsertByDate(before, RecordOf(id, rows[id]));
          ListingStepInsert(rows, userId, pending, before, id, k, list);
        } else {
          ListingStepSkip(rows, userId, pending, list, id);
        }
        pending := pending - {id};
      }
      forall id | id in UserIds(rows, userId) ensures id in IdsOf(list) {
      }
    }

    /** `getExpense`: the row with that id, or null; the table is left as it is. */
    method GetExpense(id: int) returns (e: Option<ExpenseRecord>)
      ensures id in rows ==> e == Some(RecordOf(id, rows[id]))
      ensures id !in rows ==> e == None
    {
      if id in rows {
        e := Some(RecordOf(id, rows[id]));
      } else {
        e := None;
      }
    }

    /**
     * `updateExpense`: overwrite the five columns of row `expense.id` and report 1 row
     * affected; report 0 and change nothing when there is no such row.
     */
    method UpdateExpense(expense: Expense) returns (rowsAffected: int)
      requires Valid()
      modifies this
      ensures Valid() && nextId == old(nextId) && issued == old(issued)
      ensures old(expense.id) in old(rows) ==> rowsAffected == 1 && rows == old(rows)[old(expense.id) := RowOf(old(expense.Value()))]
      ensures old(expense.id) !in old(rows) ==> rowsAffected == 0 && rows == old(rows)
    {
      if expense.id in rows {
        rows := rows[expense.id := RowOf(expense.Value())];
        rowsAffected := 1;
      } else {
        rowsAffected := 0;
      }
    }

    /** `deleteExpense`: remove that row if there is one; the other rows stay as they are. */
    method DeleteExpense(id: int)
      requires Valid()
      modifies this
      ensures Valid() && nextId == old(nextId) && issued == old(issued)
      ensures rows == old(rows) - {id}
    {
      rows := rows - {id};
    }

    /** `getExpenseCount`: the number of rows with that user id. */
    method GetExpenseCount(userId: int) returns (count: int)
      ensures count == |UserIds(rows, userId)|
    {
      count := 0;
      var pending := rows.Keys;
      ghost var counted: set<int> := {};
      while pending != {}
        invariant pending <= rows.Keys
        invariant counted == set id | id in rows && id !in pending && rows[id].userId == userId
        invariant count == |counted|
        decreases pending
      {
        NonEmptyHasMember(pending);
        var id :| id in pending;
        if rows[id].userId == userId {
          counted := counted + {id};
          count := count + 1;
        }
        pending := pending - {id};
      }
      assert counted == UserIds(rows, userId);
    }
  }

  /** Deleting twice is deleting once; a deleted id is gone whether or not it was there. */
  lemma DeleteIdempotent(rows: map<int, Row>, id: int)
    ensures (rows - {id}) - {id} == rows - {id}
    ensures id !in rows - {id}
  {
  }

  /** The count a store reports is the length of every listing it can return. */
  lemma CountIsListingLength(rows: map<int, Row>, u: int, list: seq<ExpenseRecord>)
    requires IsListing(rows, u, list)
    ensures |list| == |UserIds(rows, u)|
  {
    ListingIdsAndLength(rows, u, list);
  }

  /**
   * Deleting the row behind position `p` of a listing and removing position `p` from
   * the list gives a listing of the smaller table: the screen's list stays in step
   * with the store.
   */
  lemma ListingAfterDelete(rows: map<int, Row>, u: int, list: seq<ExpenseRecord>, p: int)
    requires IsListing(rows, u, list) && 0 <= p < |list|
    ensures IsListing(rows - {list[p].id}, u, list[..p] + list[p + 1..])
  {
    var gone := list[p].id;
    var rest := list[..p] + list[p + 1..];
    var smaller := rows - {gone};
    assert forall i :: 0 <= i < |rest| ==> rest[i] == list[if i < p then i else i + 1];
    forall i | 0 <= i < |rest| ensures rest[i].id in smaller && rest[i] == RecordOf(rest[i].id, smaller[rest[i].id]) {
      var j := if i < p then i else i + 1;
      assert rest[i] == list[j] && list[j].id != gone;
    }
    forall id | id in UserIds(smaller, u) ensures id in IdsOf(rest) {
      assert id in UserIds(rows, u);
      var j :| 0 <= j < |list| && list[j].id == id;
      assert j != p;
      if j < p { assert rest[j] == list[j]; } else { assert rest[j - 1] == list[j]; }
    }
  }
}
