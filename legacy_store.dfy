/**
 * The older copy of the store (src/expenses/expenses_definitions.rs): records
 * without dates, added ready-made, and only add, list and delete.
 */
module LegacyExpenseStore {
  import opened Wrappers
  import opened RustInts
  import opened RecordLists

  datatype Expense = Expense(id: u32, description: string, amount: u32, category: Option<string>)

  const CREATED: string := "Created successfully!"
  const DELETED: string := "Deleted successfully"

  function IdOf(e: Expense): int {
    e.id
  }

  class Expenses {
    var expenses: seq<Expense>

    /** Appends the given record unchanged; nothing is checked. */
    method AddExpense(expense: Expense) returns (msg: Option<string>)
      modifies this
      ensures msg == Some(CREATED)
      ensures expenses == old(expenses) + [expense]
    {
      expenses := expenses + [expense];
      return Some(CREATED);
    }

    /** The whole list, in insertion order. */
    function ListExpenses(): (r: Option<seq<Expense>>)
      reads this
      ensures r.Some? && r.value == expenses
    {
      Some(expenses)
    }

    /** Keeps every record whose id differs; reports `None` when nothing went. */
    method DeleteExpense(id: u32) returns (msg: Option<string>)
      modifies this
      ensures expenses == KeepOthers(old(expenses), IdOf, id)
      ensures msg.None? <==> !HasKey(old(expenses), IdOf, id)
      ensures msg.None? ==> expenses == old(expenses)
      ensures msg.Some? ==> msg.value == DELETED && |expenses| < |old(expenses)|
    {
      var originalLength := |expenses|;
      KeepOthersLength(expenses, IdOf, id);
      expenses := KeepOthers(expenses, IdOf, id);
      if |expenses| == originalLength {
        return None;
      }
      return Some(DELETED);
    }
  }
}
