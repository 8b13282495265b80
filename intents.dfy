/**
 * How every screen learns whose data it shows: `getIntExtra("USER_ID", default)`
 * on the intent that started it. The dashboard's default is -1 (and means "nobody");
 * the reports, add, list and settings screens default to user 1.
 */
module Intents {
  import opened Wrappers

  /** The `USER_ID` extra when present, otherwise the screen's default. */
  function UserIdExtra(extra: Option<int>, default: int): (id: int)
    ensures extra.None? ==> id == default
    ensures extra.Some? ==> id == extra.value
  {
    extra.GetOr(default)
  }
}
