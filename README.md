# Expense tracker record store, in Dafny

This project models the in-memory record store of a command-line expense
tracker written in Rust. The store is `Expenses` in
`src/app/expenses_definitions.rs`: a vector of expense records, each with an id,
a description, an amount, an optional category, a creation date and an
optional update date. It supports these operations:

- adding a record with the next id (one above the largest id present);
- listing the records in insertion order;
- deleting every record with a given id (`retain`);
- partially updating the first record with a given id;
- summing the amounts of the records created in a given month and/or year.

An older copy of the store lives in `src/expenses/expenses_definitions.rs`. It
has no dates and no id assignment, and offers only add, list and delete. That
copy is modelled as well.

Files:

- `wrappers.dfy` (`Wrappers`): Rust's `Option`.
- `rust_ints.dfy` (`RustInts`): the `u8`/`u32` ranges and a model of
  `str::parse::<i32>()`, which the summary applies to its year filter. The
  printing-and-parsing round trip is proved.
- `record_lists.dfy` (`RecordLists`): `Vec::retain(|el| el.id != id)` as the
  function `KeepOthers`, generic in the record type so that both stores share
  its proofs. The module also proves order preservation, the length/"found"
  relation, and preservation of distinct and of increasing ids.
- `expense_store.dfy` (`ExpenseStore`): the records, `next_id`,
  `get_month_name`, the functions that define update and summary, their lemmas,
  and the class `Expenses`. Its methods change the `expenses` field in place,
  as the Rust `&mut self` methods do. `update_expense` and `summary` are loops,
  proved against the functions `UpdateFirst` and `Total`.
- `legacy_store.dfy` (`LegacyExpenseStore`): the older store as a class.
- `scenarios.dfy` (`ExpenseScenarios`): the unit tests of
  `src/app/expenses_definitions.rs` and a few worked examples. They are written
  as client methods whose assertions follow from the contracts alone.

The current date, which the source reads from the local clock
(`Local::now()`), is the parameter `today: Date` of `AddExpense` and
`UpdateExpense`.

Three behaviours of the code are worth stating:

- Ids are reused. `next_id` is the maximum present id plus one, so deleting the
  record with the largest id and adding again can hand out that id again.
  `DeleteMaxThenNextId` states exactly when that happens, and
  `DeleteThenAddReusesId` shows it on one record.
- `list_expenses` has no category filter. It returns the whole slice, so no
  case-insensitive category comparison is modelled.
- The store accepts any `u32` amount, including 0. `src/app/build.rs` rejects
  amounts below 1; `src/main.rs`, the compiled entry point, does not.

## Model

| member | source | states |
|---|---|---|
| `RustInts.ParseDigits` | src/app/expenses_definitions.rs:127 | a digit string has a value exactly when every character is an ASCII digit |
| `RustInts.ParseI32` | src/app/expenses_definitions.rs:127 | a successful `parse::<i32>` yields a value in the `i32` range, from a non-empty text that is not a bare sign and is all digits after its sign |
| `RustInts.ParseShowNat` | src/app/expenses_definitions.rs:127 | the decimal text of a natural number parses back to that number |
| `RustInts.ParseShowRoundTrip` | src/app/expenses_definitions.rs:127 | every `i32`, printed in decimal, parses back to itself |
| `RustInts.ParseRejectsNonDigit` | src/app/expenses_definitions.rs:127-135 | a text holding any character other than a digit or one leading sign fails to parse, so it takes the `Err` branch |
| `RustInts.ParsePlusShowNat` | src/app/expenses_definitions.rs:127 | a `+` followed by the decimal text of a non-negative `i32` parses to that number |
| `RustInts.ParseMinusShowNat` | src/app/expenses_definitions.rs:127 | a `-` followed by the decimal text of a number up to 2^31 parses to its negation, so "-0" gives 0 |
| `RustInts.ParseOverflow` | src/app/expenses_definitions.rs:127-135 | decimal text whose value is outside the `i32` range, with or without a sign, fails to parse, so it takes the `Err` branch and excludes every record |
| `RustInts.ParseDigitsLeadingZero` | src/app/expenses_definitions.rs:127 | a leading zero does not change the value of a digit string |
| `RustInts.ParseI32Congruent` | src/app/expenses_definitions.rs:127 | two texts with the same sign and digits of the same value parse alike |
| `RustInts.ParseI32ZeroPadded` | src/app/expenses_definitions.rs:127 | zero padding after an optional sign is accepted and keeps the value |
| `RecordLists.KeepOthers` | src/app/expenses_definitions.rs:60 | `retain` never grows the list, and no kept record has the deleted id |
| `RecordLists.KeepOthersMembers` | src/app/expenses_definitions.rs:60 | a record survives `retain` exactly when it was present and its id differs from the deleted one |
| `RecordLists.KeepOthersLength` | src/app/expenses_definitions.rs:57-66 | the length is unchanged exactly when no record had the id, and then the list is unchanged; otherwise the length strictly decreases |
| `RecordLists.KeepOthersAppend` | src/app/expenses_definitions.rs:60 | `retain` distributes over concatenation, so the survivors keep their relative order |
| `RecordLists.KeepOthersSubsequence` | src/expenses/expenses_definitions.rs:30 | the survivors of `retain` form a subsequence of the original list |
| `RecordLists.KeepOthersIdempotent` | src/app/expenses_definitions.rs:60 | deleting the same id twice leaves the same list as deleting it once |
| `RecordLists.KeepOthersDistinct` | src/app/expenses_definitions.rs:60 | if all ids are distinct before a delete, they are distinct after it |
| `RecordLists.KeepOthersIncreasing` | src/app/expenses_definitions.rs:60 | if ids increase along the list before a delete, they still increase after it |
| `ExpenseStore.MaxId` | src/app/expenses_definitions.rs:148 | the result bounds every id, is 0 on an empty list, and is the id of some record otherwise |
| `ExpenseStore.NextId` | src/app/expenses_definitions.rs:147-149 | the next id exceeds every existing id, is 1 on an empty list, and is otherwise one above some existing id |
| `ExpenseStore.MonthName` | src/app/expenses_definitions.rs:151-167 | the name is "Unknown" exactly for month numbers outside 1 to 12 |
| `ExpenseStore.MonthNamesDistinct` | src/app/expenses_definitions.rs:152-164 | the twelve month names are pairwise different |
| `ExpenseStore.Apply` | src/app/expenses_definitions.rs:86-99 | on the matched record, each supplied field replaces the old value and each absent field keeps it; a category is never cleared; id and creation date are kept; the update date becomes today |
| `ExpenseStore.ApplyIdempotent` | src/app/expenses_definitions.rs:86-99 | applying the same update twice on the same day gives the same record as applying it once |
| `ExpenseStore.FindFirst` | src/app/expenses_definitions.rs:84-85 | the result is the index of the first record with the id; it is absent exactly when no record has the id |
| `ExpenseStore.UpdateFirst` | src/app/expenses_definitions.rs:84-104 | an update keeps the length and every record's id |
| `ExpenseStore.UpdateEffect` | src/app/expenses_definitions.rs:84-104 | an absent id changes nothing; otherwise exactly the first record with the id is patched as `Apply` says, and every other record is untouched |
| `ExpenseStore.UpdateWithDistinctIds` | src/app/expenses_definitions.rs:84-101 | with distinct ids, the record with the id is patched and every other record is unchanged |
| `ExpenseStore.UpdateIdempotent` | src/app/expenses_definitions.rs:84-104 | repeating an update on the same day leaves the list as after the first update |
| `ExpenseStore.UpdateKeepsIdShape` | src/app/expenses_definitions.rs:84-104 | an update keeps ids distinct, and keeps them increasing, when they were before |
| `ExpenseStore.AddKeepsIdsDistinct` | src/app/expenses_definitions.rs:39 | appending a record with the next id keeps all ids distinct |
| `ExpenseStore.AddKeepsIdsIncreasing` | src/app/expenses_definitions.rs:39 | appending a record with the next id keeps ids increasing in list order |
| `ExpenseStore.NextIdOfIncreasing` | src/app/expenses_definitions.rs:147-149 | when ids increase along the list, the next id is one above the last record's id |
| `ExpenseStore.DeleteMaxThenNextId` | src/app/expenses_definitions.rs:147-149 | after deleting the largest id, the next id is at most that id, and equals it exactly when that id is 1 or the id just below it is present, so ids are reused |
| `ExpenseStore.SurvivorsBelowMax` | src/app/expenses_definitions.rs:60 | deleting the largest id keeps every smaller id present and brings in none |
| `ExpenseStore.Matches` | src/app/expenses_definitions.rs:116-137 | the per-record filter: with no filters every record matches; a year that does not parse, or a different month, excludes the record |
| `ExpenseStore.Total` | src/app/expenses_definitions.rs:112-141 | the filtered sum: the amount of every matching record is part of it, and it is 0 when no record matches |
| `ExpenseStore.SummaryMonthName` | src/app/expenses_definitions.rs:113-119 | the summary names a month exactly when a month was asked for and the list is non-empty, and the name is that month's |
| `ExpenseStore.TotalAppend` | src/app/expenses_definitions.rs:115-142 | the filtered total over two lists joined is the sum of their totals |
| `ExpenseStore.AddThenTotal` | src/app/expenses_definitions.rs:139-141 | adding a record raises each total it matches by its amount and leaves the other totals unchanged |
| `ExpenseStore.TotalNoFilters` | src/app/expenses_definitions.rs:107-145 | with no month and no year, the total is the sum of all amounts |
| `ExpenseStore.TotalUnparsableYear` | src/app/expenses_definitions.rs:126-136 | a year text that does not parse as an `i32` excludes every record, so the total is 0 |
| `ExpenseStore.TotalAtMostAll` | src/app/expenses_definitions.rs:116-141 | adding a month filter never raises the total, and no filtered total exceeds the sum of all amounts |
| `ExpenseStore.MonthsTotalStep` | src/app/expenses_definitions.rs:118-141 | the running sum of monthly totals grows by a new record's amount exactly when its month is in range and it passes the year filter |
| `ExpenseStore.MonthsTotalZero` | src/app/expenses_definitions.rs:118-123 | base case of `MonthlyTotalsAddUp`: on an empty list every running sum of monthly totals is 0 |
| `ExpenseStore.MonthlyTotalsAddUp` | src/app/expenses_definitions.rs:107-145 | for records with valid dates, the twelve monthly totals add up to the total for the same year filter |
| `ExpenseStore.Expenses.constructor` | src/app/expenses_definitions.rs:26-28 | a new store is empty |
| `ExpenseStore.Expenses.AddExpense` | src/app/expenses_definitions.rs:30-50 | returns `Some("Created successfully!")` and appends exactly one record: the next id, the given fields, created today, never updated; earlier records are unchanged and in order; distinct or increasing ids stay so |
| `ExpenseStore.Expenses.ListExpenses` | src/app/expenses_definitions.rs:52-54 | returns the whole list in insertion order, and reads without changing it |
| `ExpenseStore.Expenses.DeleteExpense` | src/app/expenses_definitions.rs:56-69 | keeps exactly the records with another id, in order; returns `None` exactly when no record had the id, and then the list is unchanged; otherwise returns `Some("Deleted successfully")` and the list shrinks; distinct or increasing ids stay so |
| `ExpenseStore.Expenses.UpdateExpense` | src/app/expenses_definitions.rs:71-105 | the list becomes `UpdateFirst` of the old list; returns `Some("Updated successfully!")` exactly when the id was present, else `None` |
| `ExpenseStore.Expenses.Summary` | src/app/expenses_definitions.rs:107-145 | returns the filtered total `Total` and the month name `SummaryMonthName`, and changes nothing |
| `LegacyExpenseStore.Expenses.AddExpense` | src/expenses/expenses_definitions.rs:17-20 | appends the given record unchanged at the end and returns `Some("Created successfully!")` |
| `LegacyExpenseStore.Expenses.ListExpenses` | src/expenses/expenses_definitions.rs:22-24 | returns the whole list in insertion order, and reads without changing it |
| `LegacyExpenseStore.Expenses.DeleteExpense` | src/expenses/expenses_definitions.rs:26-39 | keeps exactly the records with another id, in order; returns `None` exactly when no record had the id, with the list unchanged; otherwise returns `Some("Deleted successfully")` and the list shrinks |
| `ExpenseScenarios.ItShouldAddExpense` | src/app/expenses_definitions.rs:174-185 | adding to a new store returns `Some("Created successfully!")` |
| `ExpenseScenarios.ItShouldDeleteExpense` | src/app/expenses_definitions.rs:187-202 | the first record added gets id 1; deleting id 1 returns `Some("Deleted successfully")` and empties the store |
| `ExpenseScenarios.ItShouldListExpenses` | src/app/expenses_definitions.rs:204-216 | a new store holds no record, and holds one after an add |
| `ExpenseScenarios.ItShouldUpdateExpense` | src/app/expenses_definitions.rs:218-239 | updating id 1 returns `Some("Updated successfully!")`, and the record then holds every supplied field, its id and creation date, and the update date |
| `ExpenseScenarios.TwoRecordsSummary` | src/app/expenses_definitions.rs:107-149 | two added records of 20 and 100 get ids 1 and 2, and the unfiltered summary is 120 with no month name |
| `ExpenseScenarios.MaySummary` | src/app/expenses_definitions.rs:107-145 | one May 2025 record of 20: month 5 with year "2025" gives 20 and "May"; year "twenty" gives 0 and still "May" |
| `ExpenseScenarios.SignedAndPaddedYears` | src/app/expenses_definitions.rs:127 | the year texts "2025", "+2025" and "02025" all parse to 2025, and "-0" parses to 0 |
| `ExpenseScenarios.DeleteThenAddReusesId` | src/app/expenses_definitions.rs:147-149 | deleting the only record and adding again hands out id 1 again |

## Left out

- Persistence (`src/app/storage.rs`) is not part of this model: loading, saving
  and CSV export are file I/O delegated to serde and the `csv` crate, whose code
  is not visible.
- Command-line parsing and dispatch (`src/app/build.rs`, `src/main.rs`,
  `src/cli/argument_parser.rs`) are not part of this model. That includes the
  `amount >= 1` check of `src/app/build.rs` (which `src/main.rs` does not
  make) and the discarded save result.
- The local clock is the parameter `today`. Time zones and chrono's date
  validation are not modelled; `Date` holds any year, month and day.
- `ExpenseStore.Expenses.Summary`: the total is an exact `nat` sum, not an
  `f64` followed by `ceil`. Every addend is a whole `u32`, so this agrees with
  the source below 2^53. The rounding of larger totals is not modelled.
- `ExpenseStore.Expenses.AddExpense`: requires the largest id to be below
  `u32::MAX`. At that id, `next_id` overflows: it panics in a debug build and
  wraps to 0 in a release build. Neither outcome is modelled.
- `Vec` is modelled as a `seq` field that the methods reassign. Borrowing
  (`&[Expense]`, `&mut`) and the in-place update of a single record's fields
  become value updates of that sequence.
- The legacy `Expenses` has no constructor in its source, so the model has
  none either.
