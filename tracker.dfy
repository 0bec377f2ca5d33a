/**
 * The expense tracker component's state and the handlers that change it:
 * the monthly budget, the list of recorded expenses and the draft the
 * entry form edits.
 */
module Tracker {
  import opened Expenses
  import opened Aggregation

  class ExpenseTracker {
    var monthlyBudget: int
    var expenses: seq<Entry>
    var newExpense: Draft

    /** Every recorded entry has a category: the form refuses a draft without one. */
    ghost predicate Valid()
      reads this
    {
      forall i :: 0 <= i < |expenses| ==> expenses[i].category != ""
    }

    /** The state the component mounts with. */
    constructor ()
      ensures Valid()
      ensures monthlyBudget == DEFAULT_MONTHLY_BUDGET
      ensures expenses == []
      ensures newExpense == EMPTY_DRAFT
    {
      monthlyBudget := DEFAULT_MONTHLY_BUDGET;
      expenses := [];
      newExpense := EMPTY_DRAFT;
    }

    /**
     * A form control's change handler: the control's draft field takes the
     * new text; nothing is validated.
     */
    method UpdateDraft(field: Field, value: string)
      requires Valid()
      modifies this`newExpense
      ensures Valid()
      ensures newExpense == WithField(old(newExpense), field, value)
    {
      newExpense := WithField(newExpense, field, value);
    }

    /**
     * The "Add Expense" button. A draft with an empty category or an empty
     * amount is refused (`added` is false, the alert) and nothing changes.
     * Otherwise an entry built from the draft, with the amount parsed by
     * `parse` and dated `now`, is appended and the draft is cleared.
     */
    method AddExpense(parse: string -> real, now: string) returns (added: bool)
      requires Valid()
      modifies this`expenses, this`newExpense
      ensures Valid()
      ensures added <==> old(newExpense).category != "" && old(newExpense).amount != ""
      ensures !added ==> expenses == old(expenses) && newExpense == old(newExpense)
      ensures added ==>
                expenses == old(expenses) + [Entry(old(newExpense).category, parse(old(newExpense).amount),
                                                   old(newExpense).description, now)]
      ensures added ==> newExpense == EMPTY_DRAFT
      ensures monthlyBudget == old(monthlyBudget)
      ensures TotalSpending(expenses) ==
                TotalSpending(old(expenses)) + if added then parse(old(newExpense).amount) else 0.0
      ensures TrendSeries(expenses) ==
                TrendSeries(old(expenses)) + if added then [Point(now, parse(old(newExpense).amount))] else []
    {
      if newExpense.category == "" || newExpense.amount == "" {
        added := false;
        assert TrendSeries(expenses) + [] == TrendSeries(expenses);
        return;
      }
      var entry := Entry(newExpense.category, parse(newExpense.amount), newExpense.description, now);
      TotalSpendingAppend(expenses, entry);
      TrendSeriesAppend(expenses, entry);
      expenses := expenses + [entry];
      newExpense := EMPTY_DRAFT;
      added := true;
    }
  }

  /**
   * The refusal path: a draft with an amount but no category is refused,
   * and the list and the draft stay as they were.
   */
  method MissingCategoryScenario(parse: string -> real, now: string)
    returns (added: bool, expenses: seq<Entry>, draft: Draft)
    ensures !added
    ensures expenses == []
    ensures draft == Draft("", "10", "")
  {
    var t := new ExpenseTracker();
    t.UpdateDraft(Amount, "10");
    added := t.AddExpense(parse, now);
    expenses, draft := t.expenses, t.newExpense;
  }

  /**
   * A first entry of 42.50 in Groceries: the total is that amount and the
   * breakdown has that single category.
   */
  method FirstEntryScenario(parse: string -> real, now: string)
    returns (added: bool, total: real, breakdown: map<string, real>)
    ensures added
    ensures total == parse("42.50")
    ensures breakdown == map["Groceries" := parse("42.50")]
  {
    var t := new ExpenseTracker();
    t.UpdateDraft(Category, "Groceries");
    t.UpdateDraft(Amount, "42.50");
    added := t.AddExpense(parse, now);
    total := TotalSpending(t.expenses);
    breakdown := CalculateCategorySpending(t.expenses);
    assert t.expenses == [Entry("Groceries", parse("42.50"), "", now)];
  }

  /**
   * The add handler checks only that category and amount are non-empty: a
   * category outside CATEGORIES and an amount that is not a number are
   * recorded. The form's select and number input never supply such texts;
   * the scenario shows what the handler itself lets through.
   */
  method UncheckedDraftScenario(parse: string -> real, now: string)
    returns (added: bool, expenses: seq<Entry>)
    ensures "Rent" !in CATEGORIES
    ensures added
    ensures expenses == [Entry("Rent", parse("abc"), "", now)]
  {
    var t := new ExpenseTracker();
    t.UpdateDraft(Category, "Rent");
    t.UpdateDraft(Amount, "abc");
    added := t.AddExpense(parse, now);
    expenses := t.expenses;
  }
}
