/**
 * The in-memory expense store (`Expenses` in src/app/expenses_definitions.rs):
 * a list of records kept in insertion order, with id assignment, deletion by
 * id, partial update of the first record with an id, and a filtered sum.
 * The current date, which the store reads from the local clock, is the
 * parameter `today` here.
 */
module ExpenseStore {
  import opened Wrappers
  import opened RustInts
  import opened RecordLists

  /** A calendar date (chrono's `NaiveDate`). */
  datatype Date = Date(year: int, month: nat, day: nat)

  predicate ValidDate(d: Date) {
    1 <= d.month <= 12 && 1 <= d.day <= 31
  }

  datatype Expense = Expense(
    id: u32,
    description: string,
    amount: u32,
    category: Option<string>,
    dateCreated: Date,
    dateUpdated: Option<Date>)

  /** The fields an update may supply; an absent field keeps its value. */
  datatype UpdateExpense = Patch(
    description: Option<string>,
    amount: Option<u32>,
    category: Option<string>)

  const CREATED: string := "Created successfully!"
  const DELETED: string := "Deleted successfully"
  const UPDATED: string := "Updated successfully!"

  function IdOf(e: Expense): int {
    e.id
  }

  /** `iter().map(|item| item.id).max().unwrap_or(0)`. */
  function MaxId(es: seq<Expense>): (m: nat)
    ensures forall i | 0 <= i < |es| :: es[i].id <= m
    ensures es == [] ==> m == 0
    ensures es != [] ==> exists i | 0 <= i < |es| :: es[i].id == m
  {
    if es == [] then 0
    else
      var rest := MaxId(es[1..]);
      if es[0].id >= rest then es[0].id else rest
  }

  /** The id the next added record receives: one above every existing id, and
      no larger than that needs to be. */
  function NextId(es: seq<Expense>): (r: nat)
    ensures forall i | 0 <= i < |es| :: es[i].id < r
    ensures es == [] ==> r == 1
    ensures es != [] ==> exists i | 0 <= i < |es| :: es[i].id == r - 1
  {
    MaxId(es) + 1
  }

  /** `get_month_name`: English month names for 1 to 12, "Unknown" otherwise. */
  function MonthName(month: int): (name: string)
    ensures name == "Unknown" <==> !(1 <= month <= 12)
  {
    match month
    case 1 => "January"
    case 2 => "February"
    case 3 => "March"
    case 4 => "April"
    case 5 => "May"
    case 6 => "June"
    case 7 => "July"
    case 8 => "August"
    case 9 => "September"
    case 10 => "October"
    case 11 => "November"
    case 12 => "December"
    case _ => "Unknown"
  }

  /** Twelve different names: the name identifies the month. */
  lemma MonthNamesDistinct(a: int, b: int)
    requires 1 <= a <= 12 && 1 <= b <= 12 && a != b
    ensures MonthName(a) != MonthName(b)
  {
  }

  // ---------------------------------------------------------------------------
  // Update

  /** The effect of an update on the matched record. */
  function Apply(e: Expense, p: UpdateExpense, today: Date): (r: Expense)
    ensures r.id == e.id && r.dateCreated == e.dateCreated
    ensures r.dateUpdated == Some(today)
    ensures p.amount.Some? ==> r.amount == p.amount.value
    ensures p.amount.None? ==> r.amount == e.amount
    ensures p.description.Some? ==> r.description == p.description.value
    ensures p.description.None? ==> r.description == e.description
    ensures p.category.Some? ==> r.category == p.category
    ensures p.category.None? ==> r.category == e.category
    ensures e.category.Some? ==> r.category.Some?
  {
    var e1 := if p.amount.Some? then e.(amount := p.amount.value) else e;
    var e2 := if p.description.Some? then e1.(description := p.description.value) else e1;
    var e3 := if p.category.Some? then e2.(category := Some(p.category.value)) else e2;
    e3.(dateUpdated := Some(today))
  }

  /** Applying the same update twice on the same day is applying it once. */
  lemma ApplyIdempotent(e: Expense, p: UpdateExpense, today: Date)
    ensures Apply(Apply(e, p, today), p, today) == Apply(e, p, today)
  {
  }

  /** Index of the first record with id `id`. */
  function FindFirst(es: seq<Expense>, id: int): (r: Option<nat>)
    ensures r.Some? ==> r.value < |es| && es[r.value].id == id
    ensures r.Some? ==> forall j | 0 <= j < r.value :: es[j].id != id
    ensures r.None? <==> !HasKey(es, IdOf, id)
  {
    if es == [] then None
    else if es[0].id == id then Some(0)
    else match FindFirst(es[1..], id)
      case None => None
      case Some(i) => Some(i + 1)
  }

  /** The list after `update_expense`: the first record with the id is patched. */
  function UpdateFirst(es: seq<Expense>, id: int, p: UpdateExpense, today: Date): (r: seq<Expense>)
    ensures |r| == |es|
    ensures forall k | 0 <= k < |es| :: r[k].id == es[k].id
  {
    match FindFirst(es, id)
    case None => es
    case Some(i) => es[i := Apply(es[i], p, today)]
  }

  /** An update changes the first record carrying the id, as `Apply` says, and
      nothing else; an absent id changes nothing. */
  lemma UpdateEffect(es: seq<Expense>, id: int, p: UpdateExpense, today: Date)
    ensures !HasKey(es, IdOf, id) ==> UpdateFirst(es, id, p, today) == es
    ensures HasKey(es, IdOf, id) ==>
      exists i | 0 <= i < |es| ::
        && es[i].id == id
        && (forall j | 0 <= j < i :: es[j].id != id)
        && UpdateFirst(es, id, p, today) == es[i := Apply(es[i], p, today)]
  {
    var f := FindFirst(es, id);
    if f.Some? {
      var i := f.value;
      assert UpdateFirst(es, id, p, today) == es[i := Apply(es[i], p, today)];
    }
  }

  /** With distinct ids the first record with the id is the only one: exactly
      that record is patched. */
  lemma UpdateWithDistinctIds(es: seq<Expense>, id: int, p: UpdateExpense, today: Date, k: nat)
    requires DistinctKeys(es, IdOf) && k < |es|
    ensures UpdateFirst(es, id, p, today)[k] == if es[k].id == id then Apply(es[k], p, today) else es[k]
  {
  }

  /** Repeating an update on the same day changes nothing more. */
  lemma UpdateIdempotent(es: seq<Expense>, id: int, p: UpdateExpense, today: Date)
    ensures UpdateFirst(UpdateFirst(es, id, p, today), id, p, today) == UpdateFirst(es, id, p, today)
  {
  }

  /** Updates never change ids, so they keep ids distinct and increasing. */
  lemma UpdateKeepsIdShape(es: seq<Expense>, id: int, p: UpdateExpense, today: Date)
    ensures DistinctKeys(es, IdOf) ==> DistinctKeys(UpdateFirst(es, id, p, today), IdOf)
    ensures KeysIncreasing(es, IdOf) ==> KeysIncreasing(UpdateFirst(es, id, p, today), IdOf)
  {
  }

  // ---------------------------------------------------------------------------
  // Adding and deleting

  /** A record added with the next id keeps the ids distinct. */
  lemma AddKeepsIdsDistinct(es: seq<Expense>, e: Expense)
    requires DistinctKeys(es, IdOf) && e.id == NextId(es)
    ensures DistinctKeys(es + [e], IdOf)
  {
  }

  /** A record added with the next id keeps the ids increasing in list order. */
  lemma AddKeepsIdsIncreasing(es: seq<Expense>, e: Expense)
    requires KeysIncreasing(es, IdOf) && e.id == NextId(es)
    ensures KeysIncreasing(es + [e], IdOf)
  {
  }

  /** On a list whose ids increase, the next id is one above the last record's. */
  lemma NextIdOfIncreasing(es: seq<Expense>)
    requires KeysIncreasing(es, IdOf) && es != []
    ensures NextId(es) == es[|es| - 1].id + 1
  {
  }

  /** Ids are reused: after deleting the record with the largest id, the next
      id is at most that id, and equals it exactly when the id below it is
      present (or it is 1). */
  lemma DeleteMaxThenNextId(es: seq<Expense>)
    requires MaxId(es) >= 1
    ensures NextId(KeepOthers(es, IdOf, MaxId(es))) <= MaxId(es)
    ensures NextId(KeepOthers(es, IdOf, MaxId(es))) == MaxId(es) <==>
      MaxId(es) == 1 || HasKey(es, IdOf, MaxId(es) - 1)
  {
    var m := MaxId(es);
    var r := KeepOthers(es, IdOf, m);
    forall j | 0 <= j < |r| ensures r[j].id < m {
      KeepOthersMembers(es, IdOf, m, r[j]);
    }
    if m > 1 {
      SurvivorsBelowMax(es, m - 1);
    }
  }

  /** An id below the largest survives the deletion of the largest, and every
      survivor was in the list before. */
  lemma SurvivorsBelowMax(es: seq<Expense>, k: int)
    requires k < MaxId(es)
    ensures HasKey(KeepOthers(es, IdOf, MaxId(es)), IdOf, k) <==> HasKey(es, IdOf, k)
  {
    var m := MaxId(es);
    var r := KeepOthers(es, IdOf, m);
    if HasKey(es, IdOf, k) {
      var i :| 0 <= i < |es| && es[i].id == k;
      KeepOthersMembers(es, IdOf, m, es[i]);
      var j :| 0 <= j < |r| && r[j] == es[i];
      assert IdOf(r[j]) == k;
    }
    if HasKey(r, IdOf, k) {
      var j :| 0 <= j < |r| && r[j].id == k;
      KeepOthersMembers(es, IdOf, m, r[j]);
      var i :| 0 <= i < |es| && es[i] == r[j];
      assert IdOf(es[i]) == k;
    }
  }

  // ---------------------------------------------------------------------------
  // Summary

  /** The filters of `summary`: the month when given, and the year when given,
      which must parse as an `i32`; an unparsable year matches nothing. */
  predicate Matches(e: Expense, month: Option<u8>, year: Option<string>)
    ensures month.None? && year.None? ==> Matches(e, month, year)
    ensures year.Some? && ParseI32(year.value).None? ==> !Matches(e, month, year)
    ensures month.Some? && e.dateCreated.month != month.value ==> !Matches(e, month, year)
  {
    && (month.Some? ==> e.dateCreated.month == month.value)
    && (year.Some? ==>
          var y := ParseI32(year.value);
          y.Some? && e.dateCreated.year == y.value)
  }

  /** Sum of the amounts of the matching records: every matching record's
      amount is part of it, and it is 0 when no record matches. */
  function Total(es: seq<Expense>, month: Option<u8>, year: Option<string>): (r: nat)
    ensures forall i | 0 <= i < |es| && Matches(es[i], month, year) :: es[i].amount <= r
    ensures (forall i | 0 <= i < |es| :: !Matches(es[i], month, year)) ==> r == 0
  {
    if es == [] then 0
    else
      var last := es[|es| - 1];
      Total(es[..|es| - 1], month, year) + (if Matches(last, month, year) then last.amount else 0)
  }

  /** Sum of all amounts. */
  function SumAmounts(es: seq<Expense>): nat {
    if es == [] then 0 else es[0].amount + SumAmounts(es[1..])
  }

  /** The month name the summary reports: only when a month was asked for and
      the loop over the records ran at least once. */
  function SummaryMonthName(es: seq<Expense>, month: Option<u8>): (r: Option<string>)
    ensures r.Some? <==> month.Some? && es != []
    ensures r.Some? ==> r.value == MonthName(month.value)
  {
    if month.Some? && es != [] then Some(MonthName(month.value)) else None
  }

  /** The total is additive over concatenation. */
  lemma {:induction false} TotalAppend(a: seq<Expense>, b: seq<Expense>, month: Option<u8>, year: Option<string>)
    ensures Total(a + b, month, year) == Total(a, month, year) + Total(b, month, year)
  {
    if b != [] {
      var b' := b[..|b| - 1];
      TotalAppend(a, b', month, year);
      assert (a + b)[..|a + b| - 1] == a + b';
      assert (a + b)[|a + b| - 1] == b[|b| - 1];
    } else {
      assert a + b == a;
    }
  }

  /** Adding a record raises every total it matches by its amount and leaves
      the others as they were. */
  lemma AddThenTotal(es: seq<Expense>, e: Expense, month: Option<u8>, year: Option<string>)
    ensures Total(es + [e], month, year) ==
      Total(es, month, year) + (if Matches(e, month, year) then e.amount else 0)
  {
  }

  /** Without filters the summary is the sum of all amounts. */
  lemma {:induction false} TotalNoFilters(es: seq<Expense>)
    ensures Total(es, None, None) == SumAmounts(es)
  {
    if es != [] {
      TotalNoFilters(es[1..]);
      TotalAppend([es[0]], es[1..], None, None);
      assert [es[0]] + es[1..] == es;
      assert [es[0]][..0] == [];
    }
  }

  /** A year that does not parse excludes every record. */
  lemma TotalUnparsableYear(es: seq<Expense>, month: Option<u8>, year: string)
    requires ParseI32(year) == None
    ensures Total(es, month, Some(year)) == 0
  {
  }

  /** Adding a filter can only lower the total: a filtered summary never
      exceeds the sum of all amounts. */
  lemma {:induction false} TotalAtMostAll(es: seq<Expense>, month: Option<u8>, year: Option<string>)
    ensures Total(es, month, year) <= Total(es, None, year)
    ensures Total(es, month, year) <= Total(es, None, None) == SumAmounts(es)
  {
    if es != [] {
      TotalAtMostAll(es[..|es| - 1], month, year);
    }
    TotalNoFilters(es);
  }

  /** Sum of the totals for months `1..n`. */
  function MonthsTotal(es: seq<Expense>, year: Option<string>, n: nat): nat
    requires n <= 12
  {
    if n == 0 then 0 else MonthsTotal(es, year, n - 1) + Total(es, Some(n), year)
  }

  lemma {:induction false} MonthsTotalStep(es: seq<Expense>, e: Expense, year: Option<string>, n: nat)
    requires n <= 12
    ensures MonthsTotal(es + [e], year, n) ==
      MonthsTotal(es, year, n) + (if 1 <= e.dateCreated.month <= n && Matches(e, None, year) then e.amount else 0)
  {
    if n > 0 {
      MonthsTotalStep(es, e, year, n - 1);
      TotalAppend(es, [e], Some(n), year);
      assert [e][..0] == [];
    }
  }

  /** For valid dates the twelve monthly totals add up to the total over all
      months (for the same year filter). */
  lemma {:induction false} MonthlyTotalsAddUp(es: seq<Expense>, year: Option<string>)
    requires forall i | 0 <= i < |es| :: ValidDate(es[i].dateCreated)
    ensures MonthsTotal(es, year, 12) == Total(es, None, year)
  {
    if es == [] {
      assert MonthsTotal(es, year, 12) == 0 by {
        forall n: nat | n <= 12 ensures MonthsTotal(es, year, n) == 0 {
          MonthsTotalZero(year, n);
        }
      }
    } else {
      var p := es[..|es| - 1];
      var e := es[|es| - 1];
      MonthlyTotalsAddUp(p, year);
      assert p + [e] == es;
      MonthsTotalStep(p, e, year, 12);
    }
  }

  lemma {:induction false} MonthsTotalZero(year: Option<string>, n: nat)
    requires n <= 12
    ensures MonthsTotal([], year, n) == 0
  {
    if n > 0 { MonthsTotalZero(year, n - 1); }
  }

  // ---------------------------------------------------------------------------
  // The store

  class Expenses {
    var expenses: seq<Expense>

    /** `Expenses::new`. */
    constructor ()
      ensures expenses == []
    {
      expenses := [];
    }

    /** Appends a record with the next id, created today and never updated. */
    method AddExpense(description: string, amount: u32, category: Option<string>, today: Date)
      returns (msg: Option<string>)
      requires MaxId(expenses) < U32_MAX
      modifies this
      ensures msg == Some(CREATED)
      ensures expenses == old(expenses) + [Expense(NextId(old(expenses)), description, amount, category, today, None)]
      ensures DistinctKeys(old(expenses), IdOf) ==> DistinctKeys(expenses, IdOf)
      ensures KeysIncreasing(old(expenses), IdOf) ==> KeysIncreasing(expenses, IdOf)
    {
      if DistinctKeys(expenses, IdOf) {
        AddKeepsIdsDistinct(expenses, Expense(NextId(expenses), description, amount, category, today, None));
      }
      if KeysIncreasing(expenses, IdOf) {
        AddKeepsIdsIncreasing(expenses, Expense(NextId(expenses), description, amount, category, today, None));
      }
      var expense := Expense(NextId(expenses), description, amount, category, today, None);
      expenses := expenses + [expense];
      return Some(CREATED);
    }

    /** The whole list, in insertion order. */
    function ListExpenses(): (r: Option<seq<Expense>>)
      reads this
      ensures r.Some? && r.value == expenses
    {
      Some(expenses)
    }

    /** Keeps every record whose id differs; reports `None` when nothing went. */
    method DeleteExpense(id: u32) returns (msg: Option<string>)
      modifies this
      ensures expenses == KeepOthers(old(expenses), IdOf, id)
      ensures msg.None? <==> !HasKey(old(expenses), IdOf, id)
      ensures msg.None? ==> expenses == old(expenses)
      ensures msg.Some? ==> msg.value == DELETED && |expenses| < |old(expenses)|
      ensures DistinctKeys(old(expenses), IdOf) ==> DistinctKeys(expenses, IdOf)
      ensures KeysIncreasing(old(expenses), IdOf) ==> KeysIncreasing(expenses, IdOf)
    {
      var originalLength := |expenses|;
      KeepOthersLength(expenses, IdOf, id);
      if DistinctKeys(expenses, IdOf) {
        KeepOthersDistinct(expenses, IdOf, id);
      }
      if KeysIncreasing(expenses, IdOf) {
        KeepOthersIncreasing(expenses, IdOf, id);
      }
      expenses := KeepOthers(expenses, IdOf, id);
      if |expenses| == originalLength {
        return None;
      }
      return Some(DELETED);
    }

    /** Patches the first record with the id and stamps today's date on it. */
    method UpdateExpense(id: u32, description: Option<string>, amount: Option<u32>, category: Option<string>, today: Date)
      returns (msg: Option<string>)
      modifies this
      ensures expenses == UpdateFirst(old(expenses), id, Patch(description, amount, category), today)
      ensures msg == if HasKey(old(expenses), IdOf, id) then Some(UPDATED) else None
      ensures DistinctKeys(old(expenses), IdOf) ==> DistinctKeys(expenses, IdOf)
      ensures KeysIncreasing(old(expenses), IdOf) ==> KeysIncreasing(expenses, IdOf)
    {
      var newExpense := Patch(description, amount, category);
      UpdateKeepsIdShape(expenses, id, newExpense, today);
      var i := 0;
      while i < |expenses|
        invariant 0 <= i <= |expenses|
        invariant expenses == old(expenses)
        invariant forall k | 0 <= k < i :: expenses[k].id != id
      {
        if expenses[i].id == id {
          assert FindFirst(expenses, id) == Some(i);
          expenses := expenses[i := Apply(expenses[i], newExpense, today)];
          return Some(UPDATED);
        }
        i := i + 1;
      }
      return None;
    }

    /** Sums the amounts of the matching records; names the month when one was
        asked for and there was at least one record. */
    method Summary(month: Option<u8>, year: Option<string>) returns (r: Option<(nat, Option<string>)>)
      ensures r == Some((Total(expenses, month, year), SummaryMonthName(expenses, month)))
    {
      var sum: nat := 0;
      var monthName: Option<string> := None;
      var i := 0;
      while i < |expenses|
        invariant 0 <= i <= |expenses|
        invariant sum == Total(expenses[..i], month, year)
        invariant monthName == SummaryMonthName(expenses[..i], month)
      {
        var expense := expenses[i];
        var matches := true;
        if month.Some? {
          monthName := Some(MonthName(month.value));
          if expense.dateCreated.month != month.value {
            matches := false;
          }
        }
        if year.Some? {
          match ParseI32(year.value)
          case Some(parsedYear) =>
            if expense.dateCreated.year != parsedYear {
              matches := false;
            }
          case None =>
            matches := false;
        }
        assert expenses[..i + 1][..i] == expenses[..i];
        if matches {
          sum := sum + expense.amount;
        }
        i := i + 1;
      }
      assert expenses[..i] == expenses;
      return Some((sum, monthName));
    }
  }
}
