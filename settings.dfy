/**
 * The settings screen (`SettingsActivity.java`): the stored preferences and their
 * defaults, the two switches, the currency choice, and "clear all data", which
 * deletes every record of the current user from the store.
 */
module Settings {
  import opened Wrappers
  import opened Expenses
  import opened Database
  import opened Intents

  const KeyDarkMode := "dark_mode"
  const KeyNotifications := "notifications"
  const KeyCurrency := "currency"

  /** The entries of the currency dialog, in the order shown. */
  const Currencies: seq<string> := [
    "USD - US Dollar", "EUR - Euro", "GBP - British Pound",
    "JPY - Japanese Yen", "INR - Indian Rupee", "AUD - Australian Dollar"]

  /** The code stored for the entry at `which`: its first three characters. */
  function CurrencyCode(which: int): (code: string)
    requires 0 <= which < |Currencies|
    ensures |code| == 3 && code == Currencies[which][..|code|]
    ensures code == ["USD", "EUR", "GBP", "JPY", "INR", "AUD"][which]
  {
    Currencies[which][..3]
  }

  /** `getBoolean` / `getString`: the stored value, or the caller's default when the key is unset. */
  function ValueOr<V>(stored: map<string, V>, key: string, default: V): (r: V)
    ensures key in stored ==> r == stored[key]
    ensures key !in stored ==> r == default
  {
    if key in stored then stored[key] else default
  }

  /** The screen's `SharedPreferences` file: the boolean and the string entries. */
  class Preferences {
    var booleans: map<string, bool>
    var strings: map<string, string>

    /** A file with nothing stored yet. */
    constructor ()
      ensures booleans == map[] && strings == map[]
    {
      booleans, strings := map[], map[];
    }

    /** `edit().putBoolean(key, value).apply()`. */
    method PutBoolean(key: string, value: bool)
      modifies this
      ensures booleans == old(booleans)[key := value] && strings == old(strings)
    {
      booleans := booleans[key := value];
    }

    /** `edit().putString(key, value).apply()`. */
    method PutString(key: string, value: string)
      modifies this
      ensures strings == old(strings)[key := value] && booleans == old(booleans)
    {
      strings := strings[key := value];
    }
  }

  /** A value stored under a key is what a later read of that key returns, whatever the default. */
  lemma StoredValueIsReadBack<V>(stored: map<string, V>, key: string, value: V, other: string, default: V)
    ensures ValueOr(stored[key := value], key, default) == value
    ensures other != key ==> ValueOr(stored[key := value], other, default) == ValueOr(stored, other, default)
  {
  }

  /** The records of the store that do not belong to user `u`. */
  ghost function OtherUsersRows(rows: map<int, Row>, u: int): map<int, Row> {
    map id | id in rows && rows[id].userId != u :: rows[id]
  }

  /** Once a user has no rows, every listing for that user is empty and the count is 0. */
  lemma ClearedUserHasNothingToList(rows: map<int, Row>, u: int, list: seq<ExpenseRecord>)
    requires UserIds(rows, u) == {}
    requires IsListing(rows, u, list)
    ensures list == [] && |UserIds(rows, u)| == 0
  {
    CountIsListingLength(rows, u, list);
  }

  /** What the removed ids of a listing leave of the table: the other users' rows. */
  lemma RemovingListedIdsLeavesOthers(rows: map<int, Row>, u: int, list: seq<ExpenseRecord>)
    requires IsListing(rows, u, list)
    ensures rows - IdsOf(list) == OtherUsersRows(rows, u)
    ensures UserIds(rows - IdsOf(list), u) == {}
  {
    ListingIdsAndLength(rows, u, list);
    assert UserIds(rows - IdsOf(list), u) == {} by {
      forall id | id in rows - IdsOf(list) ensures (rows - IdsOf(list))[id].userId != u {
        assert id !in UserIds(rows, u);
      }
    }
  }

  class SettingsScreen {
    const db: DatabaseHelper
    const preferences: Preferences
    var currentUserId: int
    var darkModeChecked: bool
    var notificationsChecked: bool
    var currencyText: string

    /** `onCreate`: the user of the `USER_ID` extra (1 when missing), then `loadSettings`. */
    constructor (db: DatabaseHelper, preferences: Preferences, extra: Option<int>)
      ensures this.db == db && this.preferences == preferences
      ensures currentUserId == UserIdExtra(extra, 1)
      ensures darkModeChecked == ValueOr(preferences.booleans, KeyDarkMode, false)
      ensures notificationsChecked == ValueOr(preferences.booleans, KeyNotifications, true)
      ensures currencyText == ValueOr(preferences.strings, KeyCurrency, "USD")
    {
      this.db := db;
      this.preferences := preferences;
      currentUserId := UserIdExtra(extra, 1);
      new;
      LoadSettings();
    }

    /** `loadSettings`: dark mode defaults to off, notifications to on, the currency to "USD". */
    method LoadSettings()
      modifies this
      ensures currentUserId == old(currentUserId)
      ensures darkModeChecked == ValueOr(preferences.booleans, KeyDarkMode, false)
      ensures notificationsChecked == ValueOr(preferences.booleans, KeyNotifications, true)
      ensures currencyText == ValueOr(preferences.strings, KeyCurrency, "USD")
    {
      darkModeChecked := ValueOr(preferences.booleans, KeyDarkMode, false);
      notificationsChecked := ValueOr(preferences.booleans, KeyNotifications, true);
      currencyText := ValueOr(preferences.strings, KeyCurrency, "USD");
    }

    /** The dark-mode switch: stores the new state under "dark_mode" and nothing else. */
    method OnDarkModeChanged(isChecked: bool)
      modifies preferences
      ensures preferences.booleans == old(preferences.booleans)[KeyDarkMode := isChecked]
      ensures preferences.strings == old(preferences.strings)
    {
      preferences.PutBoolean(KeyDarkMode, isChecked);
    }

    /** The notifications switch: stores the new state under "notifications" and nothing else. */
    method OnNotificationsChanged(isChecked: bool)
      modifies preferences
      ensures preferences.booleans == old(preferences.booleans)[KeyNotifications := isChecked]
      ensures preferences.strings == old(preferences.strings)
    {
      preferences.PutBoolean(KeyNotifications, isChecked);
    }

    /** A pick in the currency dialog: stores and shows the entry's three-letter code. */
    method OnCurrencySelected(which: int)
      requires 0 <= which < |Currencies|
      modifies this, preferences
      ensures preferences.strings == old(preferences.strings)[KeyCurrency := CurrencyCode(which)]
      ensures preferences.booleans == old(preferences.booleans)
      ensures currencyText == CurrencyCode(which)
      ensures darkModeChecked == old(darkModeChecked) && notificationsChecked == old(notificationsChecked)
      ensures currentUserId == old(currentUserId)
    {
      var selectedCurrency := CurrencyCode(which);
      preferences.PutString(KeyCurrency, selectedCurrency);
      currencyText := selectedCurrency;
    }

    /**
     * `clearUserData`: fetch the user's records and delete each by id. Afterwards
     * the user has no rows left, and every other user's rows are as they were.
     */
    method ClearUserData()
      requires db.Valid()
      modifies db
      ensures db.Valid() && db.nextId == old(db.nextId) && db.issued == old(db.issued)
      ensures db.rows == OtherUsersRows(old(db.rows), currentUserId)
      ensures UserIds(db.rows, currentUserId) == {}
    {
      var expenses := db.GetAllExpenses(currentUserId);
      ghost var before := db.rows;
      var i := 0;
      while i < |expenses|
        invariant 0 <= i <= |expenses|
        invariant db.Valid() && db.nextId == old(db.nextId) && db.issued == old(db.issued)
        invariant db.rows == before - IdsOf(expenses[..i])
      {
        assert IdsOf(expenses[..i + 1]) == IdsOf(expenses[..i]) + {expenses[i].id} by {
          assert forall j :: 0 <= j < i ==> expenses[..i + 1][j] == expenses[..i][j];
        }
        db.DeleteExpense(expenses[i].id);
        i := i + 1;
      }
      assert expenses[..i] == expenses;
      RemovingListedIdsLeavesOthers(before, currentUserId, expenses);
    }
  }
}
