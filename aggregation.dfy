/**
 * The views derived from the list of recorded expenses: the total, the
 * per-category breakdown and the points of the spending chart. All of them
 * are recomputed from the list and never change it.
 */
module Aggregation {
  import opened Expenses

  // ---------------------------------------------------------------------
  // Total spending
  // ---------------------------------------------------------------------

  /**
   * The total shown under the budget: the amounts added up in list order,
   * starting from 0 (a left fold, as `reduce` computes it).
   */
  function TotalSpending(expenses: seq<Entry>): real
  {
    if expenses == [] then 0.0
    else TotalSpending(expenses[..|expenses| - 1]) + expenses[|expenses| - 1].amount
  }

  /** With nothing recorded the total is 0. */
  lemma TotalSpendingEmpty()
    ensures TotalSpending([]) == 0.0
  {
  }

  /** Recording one more entry raises the total by exactly its amount. */
  lemma TotalSpendingAppend(expenses: seq<Entry>, e: Entry)
    ensures TotalSpending(expenses + [e]) == TotalSpending(expenses) + e.amount
  {
    assert (expenses + [e])[..|expenses|] == expenses;
  }

  /** The total of a list split in two is the sum of the totals of the parts. */
  lemma {:induction false} TotalSpendingConcat(a: seq<Entry>, b: seq<Entry>)
    ensures TotalSpending(a + b) == TotalSpending(a) + TotalSpending(b)
    decreases |b|
  {
    if b == [] {
      assert a + b == a;
    } else {
      var init := b[..|b| - 1];
      var last := b[|b| - 1];
      assert b == init + [last];
      assert a + b == (a + init) + [last];
      TotalSpendingAppend(a + init, last);
      TotalSpendingAppend(init, last);
      TotalSpendingConcat(a, init);
    }
  }

  /**
   * The total does not depend on the order in which entries were recorded:
   * two lists holding the same entries have the same total.
   */
  lemma {:induction false} TotalSpendingPermutation(a: seq<Entry>, b: seq<Entry>)
    requires multiset(a) == multiset(b)
    ensures TotalSpending(a) == TotalSpending(b)
    decreases |a|
  {
    if a != [] {
      var init := a[..|a| - 1];
      var last := a[|a| - 1];
      assert a == init + [last];
      assert last in multiset(b);
      var j :| 0 <= j < |b| && b[j] == last;
      var rest := b[..j] + b[j + 1..];
      assert b == b[..j] + [last] + b[j + 1..];
      assert multiset(b) == multiset(rest) + multiset{last};
      assert multiset(a) == multiset(init) + multiset{last};
      assert multiset(init) == multiset(a) - multiset{last};
      assert multiset(rest) == multiset(b) - multiset{last};
      TotalSpendingPermutation(init, rest);
      TotalSpendingAppend(init, last);
      TotalSpendingConcat(b[..j] + [last], b[j + 1..]);
      TotalSpendingAppend(b[..j], last);
      TotalSpendingConcat(b[..j], b[j + 1..]);
    } else {
      assert |b| == |multiset(b)|;
    }
  }

  // ---------------------------------------------------------------------
  // Spending by category
  // ---------------------------------------------------------------------

  /** `(acc[c] || 0)`: the running total held for a category, 0 when it has none yet. */
  function Lookup(acc: map<string, real>, c: string): real
  {
    if c in acc then acc[c] else 0.0
  }

  /** One step of the reducer: add the entry's amount to its category's running total. */
  function AddToCategory(acc: map<string, real>, e: Entry): map<string, real>
  {
    acc[e.category := Lookup(acc, e.category) + e.amount]
  }

  /** The breakdown object as the reduce over the list builds it, entry by entry. */
  function CategorySpending(expenses: seq<Entry>): map<string, real>
  {
    if expenses == [] then map[]
    else AddToCategory(CategorySpending(expenses[..|expenses| - 1]), expenses[|expenses| - 1])
  }

  /** The categories that occur in the list. */
  function CategoriesIn(expenses: seq<Entry>): set<string>
  {
    set i | 0 <= i < |expenses| :: expenses[i].category
  }

  /** The entries of one category, in list order. */
  function OfCategory(expenses: seq<Entry>, c: string): seq<Entry>
  {
    if expenses == [] then []
    else if expenses[0].category == c then [expenses[0]] + OfCategory(expenses[1..], c)
    else OfCategory(expenses[1..], c)
  }

  /** Filtering distributes over appending one entry at the end. */
  lemma {:induction false} OfCategoryAppend(expenses: seq<Entry>, e: Entry, c: string)
    ensures OfCategory(expenses + [e], c) ==
            OfCategory(expenses, c) + (if e.category == c then [e] else [])
  {
    if expenses == [] {
      assert [e][1..] == [];
    } else {
      assert (expenses + [e])[1..] == expenses[1..] + [e];
      OfCategoryAppend(expenses[1..], e, c);
    }
  }

  /** Every entry of the filtered list has the requested category. */
  lemma {:induction false} OfCategoryOnly(expenses: seq<Entry>, c: string)
    ensures forall i :: 0 <= i < |OfCategory(expenses, c)| ==> OfCategory(expenses, c)[i].category == c
  {
    if expenses != [] {
      OfCategoryOnly(expenses[1..], c);
    }
  }

  /**
   * The filter keeps every entry of the requested category, as often as it
   * occurs in the list, and no entry of another category.
   */
  lemma {:induction false} OfCategoryCounts(expenses: seq<Entry>, c: string)
    ensures forall e :: multiset(OfCategory(expenses, c))[e] ==
              if e.category == c then multiset(expenses)[e] else 0
  {
    if expenses != [] {
      OfCategoryCounts(expenses[1..], c);
      assert expenses == [expenses[0]] + expenses[1..];
      assert multiset(expenses) == multiset{expenses[0]} + multiset(expenses[1..]);
    }
  }

  lemma CategoriesInAppend(expenses: seq<Entry>, e: Entry)
    ensures CategoriesIn(expenses + [e]) == CategoriesIn(expenses) + {e.category}
  {
    var s := expenses + [e];
    forall c | c in CategoriesIn(s) ensures c in CategoriesIn(expenses) + {e.category} {
      var i :| 0 <= i < |s| && s[i].category == c;
      if i < |expenses| {
        assert expenses[i] == s[i];
      }
    }
    forall c | c in CategoriesIn(expenses) ensures c in CategoriesIn(s) {
      var i :| 0 <= i < |expenses| && expenses[i].category == c;
      assert s[i] == expenses[i];
    }
    assert s[|expenses|] == e;
  }

  /** The breakdown has a key for exactly the categories that occur in the list. */
  lemma {:induction false} CategorySpendingKeys(expenses: seq<Entry>)
    ensures CategorySpending(expenses).Keys == CategoriesIn(expenses)
    decreases |expenses|
  {
    if expenses != [] {
      var init := expenses[..|expenses| - 1];
      var last := expenses[|expenses| - 1];
      assert expenses == init + [last];
      CategorySpendingKeys(init);
      CategoriesInAppend(init, last);
    }
  }

  /**
   * The breakdown's value for a category is the total of that category's
   * entries (and 0, shown by an absent key, for a category with none).
   */
  lemma {:induction false} CategorySpendingValue(expenses: seq<Entry>, c: string)
    ensures Lookup(CategorySpending(expenses), c) == TotalSpending(OfCategory(expenses, c))
    decreases |expenses|
  {
    if expenses != [] {
      var init := expenses[..|expenses| - 1];
      var last := expenses[|expenses| - 1];
      assert expenses == init + [last];
      CategorySpendingValue(init, c);
      OfCategoryAppend(init, last, c);
      assert CategorySpending(expenses) == AddToCategory(CategorySpending(init), last);
      if last.category == c {
        TotalSpendingAppend(OfCategory(init, c), last);
      } else {
        assert OfCategory(init, c) + [] == OfCategory(init, c);
        assert Lookup(CategorySpending(expenses), c) == Lookup(CategorySpending(init), c);
      }
    }
  }

  /**
   * The breakdown as the component computes it: one pass over the list that
   * updates an accumulator object in place.
   */
  method CalculateCategorySpending(expenses: seq<Entry>) returns (acc: map<string, real>)
    ensures acc == CategorySpending(expenses)
    ensures acc.Keys == CategoriesIn(expenses)
    ensures forall c :: c in acc ==> acc[c] == TotalSpending(OfCategory(expenses, c))
  {
    acc := map[];
    for i := 0 to |expenses|
      invariant acc == CategorySpending(expenses[..i])
    {
      var e := expenses[i];
      acc := acc[e.category := (if e.category in acc then acc[e.category] else 0.0) + e.amount];
      assert expenses[..i + 1][..i] == expenses[..i];
    }
    assert expenses[..|expenses|] == expenses;
    CategorySpendingKeys(expenses);
    forall c | c in acc
      ensures acc[c] == TotalSpending(OfCategory(expenses, c))
    {
      CategorySpendingValue(expenses, c);
    }
  }

  /**
   * The breakdown's categories in the order the table lists them: the order
   * in which each category first occurs in the list. This is the insertion
   * order of the object's keys, which the table follows for the names the
   * category select offers (none of them looks like an array index).
   */
  function DistinctCategories(expenses: seq<Entry>): seq<string>
  {
    if expenses == [] then []
    else
      var seen := DistinctCategories(expenses[..|expenses| - 1]);
      var c := expenses[|expenses| - 1].category;
      if c in seen then seen else seen + [c]
  }

  /** The listed categories are exactly the breakdown's keys, each listed once. */
  lemma {:induction false} DistinctCategoriesListsKeys(expenses: seq<Entry>)
    ensures forall c :: c in DistinctCategories(expenses) <==> c in CategorySpending(expenses)
    ensures forall i, j :: 0 <= i < j < |DistinctCategories(expenses)| ==>
              DistinctCategories(expenses)[i] != DistinctCategories(expenses)[j]
    decreases |expenses|
  {
    if expenses != [] {
      DistinctCategoriesListsKeys(expenses[..|expenses| - 1]);
    }
  }

  /** The sum of the running totals of the categories listed in `keys`. */
  function SumOver(acc: map<string, real>, keys: seq<string>): real
  {
    if keys == [] then 0.0
    else SumOver(acc, keys[..|keys| - 1]) + Lookup(acc, keys[|keys| - 1])
  }

  /** Changing the total of a category outside `keys` does not change their sum. */
  lemma {:induction false} SumOverUnlisted(acc: map<string, real>, keys: seq<string>, c: string, v: real)
    requires c !in keys
    ensures SumOver(acc[c := v], keys) == SumOver(acc, keys)
    decreases |keys|
  {
    if keys != [] {
      SumOverUnlisted(acc, keys[..|keys| - 1], c, v);
    }
  }

  /** Raising the total of a category listed once in `keys` raises their sum by as much. */
  lemma {:induction false} SumOverListedOnce(acc: map<string, real>, keys: seq<string>, c: string, a: real)
    requires c in keys
    requires forall i, j :: 0 <= i < j < |keys| ==> keys[i] != keys[j]
    ensures SumOver(acc[c := Lookup(acc, c) + a], keys) == SumOver(acc, keys) + a
    decreases |keys|
  {
    var init := keys[..|keys| - 1];
    if keys[|keys| - 1] == c {
      assert c !in init by {
        forall i | 0 <= i < |init| ensures init[i] != c {
          assert keys[i] != keys[|keys| - 1];
        }
      }
      SumOverUnlisted(acc, init, c, Lookup(acc, c) + a);
    } else {
      SumOverListedOnce(acc, init, c, a);
    }
  }

  /** The category totals add up to the total spending. */
  lemma {:induction false} CategorySpendingSumsToTotal(expenses: seq<Entry>)
    ensures SumOver(CategorySpending(expenses), DistinctCategories(expenses)) == TotalSpending(expenses)
    decreases |expenses|
  {
    if expenses != [] {
      var init := expenses[..|expenses| - 1];
      var last := expenses[|expenses| - 1];
      var acc := CategorySpending(init);
      var keys := DistinctCategories(init);
      var c, a := last.category, last.amount;
      assert CategorySpending(expenses) == acc[c := Lookup(acc, c) + a];
      assert TotalSpending(expenses) == TotalSpending(init) + a;
      CategorySpendingSumsToTotal(init);
      DistinctCategoriesListsKeys(init);
      if c in keys {
        assert DistinctCategories(expenses) == keys;
        SumOverListedOnce(acc, keys, c, a);
      } else {
        var keys' := keys + [c];
        assert DistinctCategories(expenses) == keys';
        assert c !in acc;
        assert keys'[..|keys|] == keys;
        assert SumOver(acc[c := a], keys') == SumOver(acc[c := a], keys) + a;
        SumOverUnlisted(acc, keys, c, a);
      }
    }
  }

  /** The breakdown for three sample entries: two of Food, one of Shopping. */
  lemma CategorySpendingSample()
    ensures CategorySpending([Entry("Food", 10.0, "", "t1"), Entry("Food", 5.0, "", "t2"),
                              Entry("Shopping", 20.0, "", "t3")])
            == map["Food" := 15.0, "Shopping" := 20.0]
  {
    var e1, e2, e3 := Entry("Food", 10.0, "", "t1"), Entry("Food", 5.0, "", "t2"),
                      Entry("Shopping", 20.0, "", "t3");
    assert [e1, e2, e3][..2] == [e1, e2];
    assert [e1, e2][..1] == [e1];
    assert [e1][..0] == [];
    assert CategorySpending([e1]) == map["Food" := 10.0];
    assert CategorySpending([e1, e2]) == map["Food" := 15.0];
  }

  // ---------------------------------------------------------------------
  // Spending chart
  // ---------------------------------------------------------------------

  /** A point of the line chart: the date on the x axis, the amount on the y axis. */
  datatype Point = Point(date: string, amount: real)

  /**
   * The chart's series: it is given the list itself, so it plots one point
   * per entry, in the order the entries were recorded.
   */
  function TrendSeries(expenses: seq<Entry>): (points: seq<Point>)
    ensures |points| == |expenses|
    ensures forall i :: 0 <= i < |expenses| ==>
              points[i].date == expenses[i].date && points[i].amount == expenses[i].amount
  {
    if expenses == [] then []
    else
      var last := expenses[|expenses| - 1];
      TrendSeries(expenses[..|expenses| - 1]) + [Point(last.date, last.amount)]
  }

  /** Recording an entry adds exactly one point to the chart, at its end. */
  lemma TrendSeriesAppend(expenses: seq<Entry>, e: Entry)
    ensures TrendSeries(expenses + [e]) == TrendSeries(expenses) + [Point(e.date, e.amount)]
  {
    assert (expenses + [e])[..|expenses|] == expenses;
  }
}
