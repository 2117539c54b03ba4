/**
 * The unit tests of src/app/expenses_definitions.rs, and the worked examples
 * of the store's behaviour, as client code that uses only the contracts.
 */
module ExpenseScenarios {
  import opened Wrappers
  import opened RustInts
  import opened ExpenseStore

  const TODAY: Date := Date(2025, 5, 14)

  /** `it_should_add_expense`: adding to a new store reports success. */
  method ItShouldAddExpense() returns (message: Option<string>)
    ensures message == Some("Created successfully!")
  {
    var ex := new Expenses();
    message := ex.AddExpense("Bought data plan from glo", 20, Some("subscriptions"), TODAY);
  }

  /** `it_should_delete_expense`: the first record added gets id 1, and
      deleting id 1 reports success and empties the store. */
  method ItShouldDeleteExpense() returns (message: Option<string>, remaining: nat)
    ensures message == Some("Deleted successfully")
    ensures remaining == 0
  {
    var ex := new Expenses();
    var _ := ex.AddExpense("Bought data plan from glo", 20, Some("subscriptions"), TODAY);
    assert ex.expenses[0].id == 1;
    message := ex.DeleteExpense(1);
    remaining := |ex.expenses|;
  }

  /** `it_should_list_expenses`: a new store holds no record, and one after an add. */
  method ItShouldListExpenses() returns (before: nat, after: nat)
    ensures before == 0 && after == 1
  {
    var ex := new Expenses();
    before := |ex.expenses|;
    var _ := ex.AddExpense("Bought data plan from glo", 20, Some("subscriptions"), TODAY);
    after := |ex.expenses|;
  }

  /** `it_should_update_expense`: updating id 1 reports success, and the record
      carries every supplied field and the update date. */
  method ItShouldUpdateExpense() returns (message: Option<string>, updated: Expense)
    ensures message == Some("Updated successfully!")
    ensures updated == Expense(1, "Updated value", 50, Some("Miscellaneous"), TODAY, Some(Date(2025, 6, 2)))
  {
    var ex := new Expenses();
    var _ := ex.AddExpense("Bought data plan from glo", 20, Some("subscriptions"), TODAY);
    var later := Date(2025, 6, 2);
    message := ex.UpdateExpense(1, Some("Updated value"), Some(50), Some("Miscellaneous"), later);
    updated := ex.expenses[0];
  }

  /** Two records get ids 1 and 2; the unfiltered summary adds both amounts. */
  method TwoRecordsSummary() returns (r: Option<(nat, Option<string>)>)
    ensures r == Some((120, None))
  {
    var ex := new Expenses();
    var _ := ex.AddExpense("Data plan", 20, Some("subscriptions"), TODAY);
    var _ := ex.AddExpense("Airtime", 100, Some("New CAT"), TODAY);
    assert ex.expenses[0].id == 1 && ex.expenses[1].id == 2;
    r := ex.Summary(None, None);
    var es := ex.expenses;
    assert es[..1] == [es[0]] && [es[0]][..0] == [];
    assert Total([es[0]], None, None) == 20;
    assert Total(es, None, None) == 120;
  }

  /** One May record of 20: the May summary is 20 and names the month; a year
      that does not parse gives 0. */
  method MaySummary() returns (may: Option<(nat, Option<string>)>, unparsable: Option<(nat, Option<string>)>)
    ensures may == Some((20, Some("May")))
    ensures unparsable == Some((0, Some("May")))
  {
    var ex := new Expenses();
    var _ := ex.AddExpense("Data plan", 20, None, Date(2025, 5, 3));
    var es := ex.expenses;
    SignedAndPaddedYears();
    assert Total(es, Some(5), Some("2025")) == 20 by {
      AddThenTotal([], es[0], Some(5), Some("2025"));
      assert [] + [es[0]] == es;
    }
    may := ex.Summary(Some(5), Some("2025"));
    ParseRejectsNonDigit("twenty", 0);
    TotalUnparsableYear(es, Some(5), "twenty");
    unparsable := ex.Summary(Some(5), Some("twenty"));
  }

  lemma ShowYear()
    ensures ShowNat(2025) == "2025" && ShowInt(2025) == "2025"
  {
  }

  lemma YearPlain()
    ensures ParseI32("2025") == Some(2025)
  {
    ShowYear();
    ParseShowRoundTrip(2025);
  }

  lemma YearWithPlus()
    ensures ParseI32("+2025") == Some(2025)
  {
    ShowYear();
    ParsePlusShowNat(2025);
    assert "+" + ShowNat(2025) == "+2025";
  }

  lemma YearZeroPadded()
    ensures ParseI32("02025") == Some(2025)
  {
    YearPlain();
    ParseI32ZeroPadded("", "2025");
    assert "" + "0" + "2025" == "02025" && "" + "2025" == "2025";
  }

  lemma MinusZero()
    ensures ParseI32("-0") == Some(0)
  {
  }

  /** Year texts written with a sign or with leading zeros parse to the same
      year as the plain text. */
  lemma SignedAndPaddedYears()
    ensures ParseI32("2025") == Some(2025)
    ensures ParseI32("+2025") == Some(2025)
    ensures ParseI32("02025") == Some(2025)
    ensures ParseI32("-0") == Some(0)
  {
    YearPlain();
    YearWithPlus();
    YearZeroPadded();
    MinusZero();
  }

  /** Deleting the only record and adding again hands out id 1 once more. */
  method DeleteThenAddReusesId() returns (id: int)
    ensures id == 1
  {
    var ex := new Expenses();
    var _ := ex.AddExpense("Data plan", 20, None, TODAY);
    var _ := ex.DeleteExpense(1);
    var _ := ex.AddExpense("Airtime", 100, None, TODAY);
    id := ex.expenses[0].id;
  }
}
