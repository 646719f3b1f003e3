/** The budget overlay of client/pages/BudgetPlanning.tsx: per-category budgets for the
    selected month, seeded from the planned entries, merged with the budgets saved under
    `budgets-<month>`, edited by the user, and compared with the actual amounts. */
module Budgets {
  import opened Collections
  import opened Ledger
  import opened CategoryTotals

  datatype CategoryBudget = CategoryBudget(category: string, budgetAmount: real)

  /** The categories of a budget list, in order. `CategoryTotals.Categories` and
      `Analytics.Labels` are the same projection over entries and chart slices; each
      is written out for its own record type so that no proof reasons about a
      function-valued argument. */
  function Names(bs: seq<CategoryBudget>): (r: seq<string>)
    ensures |r| == |bs| && forall i :: 0 <= i < |bs| ==> r[i] == bs[i].category
  {
    seq(|bs|, i requires 0 <= i < |bs| => bs[i].category)
  }

  // ---------------------------------------------------------------------------
  // The merge

  /** `plannedTotals`: the per-category sums of the month's planned entries. */
  function PlannedTotals(m: MonthData): Tally {
    ByCategory(Filter(IsPlanned, m.entries))
  }

  /** Reference definition: the sum of the planned amounts of category `c`. */
  function PlannedAmount(m: MonthData, c: string): real {
    AmountWhere(Filter(IsPlanned, m.entries), IsCategory(c))
  }

  /** The planned totals hold each category that has a planned entry, once, under the
      sum of that category's planned amounts; a category without one reads as 0. */
  lemma PlannedTotalsMeaning(m: MonthData)
    ensures WellFormed(PlannedTotals(m))
    ensures forall c :: c in PlannedTotals(m).keys <==> exists e :: e in m.entries && e.planned && e.category == c
    ensures forall c :: Lookup(PlannedTotals(m), c) == PlannedAmount(m, c)
  {
    var ps := Filter(IsPlanned, m.entries);
    ByCategoryMeaning(ps);
    forall e ensures e in ps <==> e in m.entries && e.planned {
      FilterMember(IsPlanned, m.entries, e);
    }
  }

  /** `savedBudgets.find(b => b.category === c)?.budgetAmount`: the first match. */
  function FindSaved(saved: seq<CategoryBudget>, c: string): (r: Option<real>)
    ensures r.None? <==> c !in Names(saved)
    ensures r.Some? ==> CategoryBudget(c, r.value) in saved
    ensures r.Some? ==>
      exists i :: 0 <= i < |saved| && saved[i] == CategoryBudget(c, r.value) &&
        forall j :: 0 <= j < i ==> saved[j].category != c
  {
    if saved == [] then None
    else
      assert Names(saved) == [saved[0].category] + Names(saved[1..]);
      if saved[0].category == c then Some(saved[0].budgetAmount)
      else
        var r := FindSaved(saved[1..], c);
        assert r.Some? ==>
          exists i :: 0 <= i < |saved| && saved[i] == CategoryBudget(c, r.value) &&
            forall j :: 0 <= j < i ==> saved[j].category != c
        by {
          if r.Some? {
            var k :| 0 <= k < |saved[1..]| && saved[1..][k] == CategoryBudget(c, r.value) &&
              forall j :: 0 <= j < k ==> saved[1..][j].category != c;
            assert saved[k + 1] == CategoryBudget(c, r.value);
            assert forall j :: 0 <= j < k + 1 ==> saved[j].category != c by {
              forall j | 0 <= j < k + 1 ensures saved[j].category != c {
                if j > 0 { assert saved[j] == saved[1..][j - 1]; }
              }
            }
          }
        }
        r
  }

  /** A record appended after one of the same category is never found: `find` stops at
      the first. Only a record for a category not yet saved can be looked up. */
  lemma {:induction false} FindSavedAppend(bs: seq<CategoryBudget>, c: string, a: real, d: string)
    requires c in Names(bs) || d != c
    ensures FindSaved(bs + [CategoryBudget(c, a)], d) == FindSaved(bs, d)
  {
    if bs == [] {
      assert Names(bs) == [];
      assert FindSaved([CategoryBudget(c, a)], d) == FindSaved([], d) by {
        assert [CategoryBudget(c, a)][1..] == [];
      }
    } else {
      assert (bs + [CategoryBudget(c, a)])[1..] == bs[1..] + [CategoryBudget(c, a)];
      if bs[0].category != d {
        assert Names(bs) == [bs[0].category] + Names(bs[1..]);
        FindSavedAppend(bs[1..], c, a, d);
      }
    }
  }

  /** In a list without repeated categories, the lookup of a category finds its record. */
  lemma {:induction false} FindDistinct(bs: seq<CategoryBudget>, i: int)
    requires NoDup(Names(bs)) && 0 <= i < |bs|
    ensures FindSaved(bs, bs[i].category) == Some(bs[i].budgetAmount)
  {
    if i > 0 {
      assert Names(bs)[0] != Names(bs)[i];
      assert Names(bs[1..]) == Names(bs)[1..];
      FindDistinct(bs[1..], i - 1);
    }
  }

  /** The saved list as read back; `None` when nothing is stored for the month. */
  function SavedNames(saved: Option<seq<CategoryBudget>>): seq<string> {
    if saved.None? then [] else Names(saved.value)
  }

  function SavedAmount(saved: Option<seq<CategoryBudget>>, c: string): Option<real> {
    if saved.None? then None else FindSaved(saved.value, c)
  }

  /** `allCats`: the global categories, the planned categories and the saved ones. */
  function AllCategories(categories: seq<string>, m: MonthData, saved: Option<seq<CategoryBudget>>): seq<string> {
    Dedup(categories + PlannedTotals(m).keys + SavedNames(saved))
  }

  /** The amount rule: a saved amount above zero wins, otherwise the planned total. */
  function MergedAmount(m: MonthData, saved: Option<seq<CategoryBudget>>, c: string): real {
    var s := SavedAmount(saved, c);
    if s.Some? && s.value > 0.0 then s.value else Lookup(PlannedTotals(m), c)
  }

  /** `merged`: one record per category of `allCats`, with the merged amount. */
  function Merge(categories: seq<string>, m: MonthData, saved: Option<seq<CategoryBudget>>): (r: seq<CategoryBudget>)
    ensures Names(r) == AllCategories(categories, m, saved)
  {
    var all := AllCategories(categories, m, saved);
    var r := seq(|all|, i requires 0 <= i < |all| => CategoryBudget(all[i], MergedAmount(m, saved, all[i])));
    assert Names(r) == all;
    r
  }

  /** The merged list holds each global, planned and saved category exactly once, the
      global categories first and in their order; each amount is the saved one if that
      is above zero and otherwise the sum of the category's planned entries. */
  lemma MergeMeaning(categories: seq<string>, m: MonthData, saved: Option<seq<CategoryBudget>>)
    ensures var r := Merge(categories, m, saved);
      && NoDup(Names(r))
      && (forall c :: c in Names(r) <==>
            c in categories || (exists e :: e in m.entries && e.planned && e.category == c) || c in SavedNames(saved))
      && |Dedup(categories)| <= |r| && Names(r)[..|Dedup(categories)|] == Dedup(categories)
      && forall i :: 0 <= i < |r| ==>
           r[i].budgetAmount ==
             var s := SavedAmount(saved, r[i].category);
             if s.Some? && s.value > 0.0 then s.value else PlannedAmount(m, r[i].category)
  {
    var x := categories + PlannedTotals(m).keys;
    DedupFacts(x, SavedNames(saved));
    DedupFacts(categories, PlannedTotals(m).keys + SavedNames(saved));
    assert categories + (PlannedTotals(m).keys + SavedNames(saved)) == x + SavedNames(saved);
    PlannedTotalsMeaning(m);
  }

  /** `addNewBudget` appends without checking for the category. When the category is
      already saved, the next merge ignores the new record and returns what it did before. */
  lemma MergeIgnoresRepeat(categories: seq<string>, m: MonthData, bs: seq<CategoryBudget>, c: string, a: real)
    requires c in Names(bs)
    ensures Merge(categories, m, Some(bs + [CategoryBudget(c, a)])) == Merge(categories, m, Some(bs))
  {
    var ext := bs + [CategoryBudget(c, a)];
    var x := categories + PlannedTotals(m).keys;
    assert Names(ext) == Names(bs) + [c];
    assert AllCategories(categories, m, Some(ext)) == AllCategories(categories, m, Some(bs)) by {
      assert x + Names(ext) == (x + Names(bs)) + [c];
      DedupOntoConcat([], x + Names(bs), [c]);
      DedupFacts(x, Names(bs));
      DedupOntoCovered(Dedup(x + Names(bs)), [c]);
    }
    forall d ensures MergedAmount(m, Some(ext), d) == MergedAmount(m, Some(bs), d) {
      FindSavedAppend(bs, c, a, d);
    }
  }

  /** Merging again with a list that has the merged categories as its saved list keeps the
      categories, keeps every amount above zero and reseeds the others from the plan. */
  lemma ReMerge(categories: seq<string>, m: MonthData, saved: Option<seq<CategoryBudget>>, bs: seq<CategoryBudget>)
    requires Names(bs) == AllCategories(categories, m, saved)
    ensures var r := Merge(categories, m, Some(bs));
      && Names(r) == Names(bs)
      && forall i :: 0 <= i < |r| ==>
           r[i].budgetAmount == if bs[i].budgetAmount > 0.0 then bs[i].budgetAmount else Lookup(PlannedTotals(m), bs[i].category)
  {
    var x := categories + PlannedTotals(m).keys;
    DedupAbsorbs(x, SavedNames(saved));
    DedupFacts(x, SavedNames(saved));
    assert AllCategories(categories, m, Some(bs)) == Names(bs);
    forall i | 0 <= i < |bs| ensures FindSaved(bs, bs[i].category) == Some(bs[i].budgetAmount) {
      FindDistinct(bs, i);
    }
  }

  /** The merge is a fixed point: fed its own output as the saved list, it returns that
      output again, so the change guard stops writing. */
  lemma MergeFixedPoint(categories: seq<string>, m: MonthData, saved: Option<seq<CategoryBudget>>)
    ensures Merge(categories, m, Some(Merge(categories, m, saved))) == Merge(categories, m, saved)
  {
    var b := Merge(categories, m, saved);
    ReMerge(categories, m, saved, b);
  }

  // ---------------------------------------------------------------------------
  // Edits

  /** `updateBudget`: the records of `c` get amount `a`. */
  function SetAmount(bs: seq<CategoryBudget>, c: string, a: real): (r: seq<CategoryBudget>)
    ensures Names(r) == Names(bs)
    ensures forall i :: 0 <= i < |bs| && bs[i].category != c ==> r[i] == bs[i]
    ensures forall i :: 0 <= i < |bs| && bs[i].category == c ==> r[i].budgetAmount == a
  {
    var r := seq(|bs|, i requires 0 <= i < |bs| =>
      if bs[i].category == c then bs[i].(budgetAmount := a) else bs[i]);
    assert Names(r) == Names(bs);
    r
  }

  function HasOtherCategory(c: string): CategoryBudget -> bool {
    (b: CategoryBudget) => b.category != c
  }

  /** `removeBudget`: the records of other categories, in order. */
  function WithoutBudget(bs: seq<CategoryBudget>, c: string): (r: seq<CategoryBudget>)
    ensures c !in Names(r)
    ensures forall b :: b in bs && b.category != c ==> b in r
    ensures forall b :: b in r ==> b in bs
    ensures forall b: CategoryBudget :: b.category != c ==> multiset(r)[b] == multiset(bs)[b]
  {
    var r := Filter(HasOtherCategory(c), bs);
    forall b ensures b in r <==> b in bs && b.category != c {
      FilterMember(HasOtherCategory(c), bs, b);
    }
    forall b: CategoryBudget | b.category != c ensures multiset(r)[b] == multiset(bs)[b] {
      FilterCount(HasOtherCategory(c), bs, b);
    }
    r
  }

  /** Removal keeps the order of the remaining records: it works piece by piece. */
  lemma WithoutBudgetConcat(a: seq<CategoryBudget>, b: seq<CategoryBudget>, c: string)
    ensures WithoutBudget(a + b, c) == WithoutBudget(a, c) + WithoutBudget(b, c)
  {
    FilterConcat(HasOtherCategory(c), a, b);
  }

  /** A single record stays exactly when it belongs to another category. */
  lemma WithoutBudgetSingle(x: CategoryBudget, c: string)
    ensures WithoutBudget([x], c) == if x.category == c then [] else [x]
  {
    assert [x][1..] == [];
  }

  /** An amount edited to a value above zero survives the merge that follows the edit;
      one edited to zero or below falls back to the planned sum. Nothing else moves. */
  lemma RefreshAfterEdit(categories: seq<string>, m: MonthData, saved: Option<seq<CategoryBudget>>, c: string, a: real)
    ensures var b := Merge(categories, m, saved);
      var r := Merge(categories, m, Some(SetAmount(b, c, a)));
      && Names(r) == Names(b)
      && forall i :: 0 <= i < |r| ==>
           r[i].budgetAmount ==
             if r[i].category == c then (if a > 0.0 then a else PlannedAmount(m, c)) else b[i].budgetAmount
  {
    var b := Merge(categories, m, saved);
    ReMerge(categories, m, saved, SetAmount(b, c, a));
    PlannedTotalsMeaning(m);
  }

  /** A removed budget comes back, reseeded from the plan, exactly when its category is
      a global category or has planned entries; otherwise the removal sticks. */
  lemma RefreshAfterRemove(categories: seq<string>, m: MonthData, saved: Option<seq<CategoryBudget>>, c: string)
    ensures var r := Merge(categories, m, Some(WithoutBudget(Merge(categories, m, saved), c)));
      && (c in Names(r) <==> c in categories || exists e :: e in m.entries && e.planned && e.category == c)
      && forall i :: 0 <= i < |r| && r[i].category == c ==> r[i].budgetAmount == PlannedAmount(m, c)
  {
    var rest := WithoutBudget(Merge(categories, m, saved), c);
    DedupFacts(categories + PlannedTotals(m).keys, Names(rest));
    PlannedTotalsMeaning(m);
  }

  // ---------------------------------------------------------------------------
  // Derived views

  /** `actualAmounts`: per-category sums of the month's non-planned entries. */
  function ActualAmounts(m: MonthData): Tally {
    ByCategory(Filter(NotPlanned, m.entries))
  }

  datatype ComparisonRow = ComparisonRow(category: string, budget: real, actual: real, remaining: real)

  /** One chart row: the remaining budget is clamped at zero. */
  function Compare(b: CategoryBudget, actuals: Tally): (r: ComparisonRow)
    ensures r.category == b.category && r.budget == b.budgetAmount && r.actual == Lookup(actuals, b.category)
    ensures r.remaining >= 0.0 && r.remaining >= r.budget - r.actual
    ensures r.remaining == 0.0 <==> r.actual >= r.budget
    ensures r.actual <= r.budget ==> r.actual + r.remaining == r.budget
  {
    var actual := Lookup(actuals, b.category);
    var left := b.budgetAmount - actual;
    ComparisonRow(b.category, b.budgetAmount, actual, if left > 0.0 then left else 0.0)
  }

  function HasBudget(r: ComparisonRow): bool {
    r.budget > 0.0
  }

  /** `comparisonData`: a row per budget above zero, in budget order. */
  function ComparisonData(bs: seq<CategoryBudget>, actuals: Tally): (r: seq<ComparisonRow>)
    ensures forall i :: 0 <= i < |r| ==> r[i].budget > 0.0 && r[i].remaining >= 0.0
    ensures forall i :: 0 <= i < |bs| && bs[i].budgetAmount > 0.0 ==> Compare(bs[i], actuals) in r
    ensures forall i :: 0 <= i < |r| ==> exists j :: 0 <= j < |bs| && r[i] == Compare(bs[j], actuals)
  {
    var rows := seq(|bs|, i requires 0 <= i < |bs| => Compare(bs[i], actuals));
    var r := Filter(HasBudget, rows);
    forall i | 0 <= i < |r| ensures exists j :: 0 <= j < |bs| && r[i] == Compare(bs[j], actuals) {
      assert r[i] in rows;
    }
    forall i | 0 <= i < |bs| && bs[i].budgetAmount > 0.0 ensures Compare(bs[i], actuals) in r {
      assert rows[i] == Compare(bs[i], actuals);
    }
    r
  }

  /** The chart rows follow the budgets' order: a row per budget above zero, piece by piece. */
  lemma ComparisonDataConcat(a: seq<CategoryBudget>, b: seq<CategoryBudget>, actuals: Tally)
    ensures ComparisonData(a + b, actuals) == ComparisonData(a, actuals) + ComparisonData(b, actuals)
  {
    var rows := seq(|a + b|, i requires 0 <= i < |a + b| => Compare((a + b)[i], actuals));
    var ra := seq(|a|, i requires 0 <= i < |a| => Compare(a[i], actuals));
    var rb := seq(|b|, i requires 0 <= i < |b| => Compare(b[i], actuals));
    assert rows == ra + rb;
    FilterConcat(HasBudget, ra, rb);
  }

  /** A single budget gives its row exactly when its amount is above zero. */
  lemma ComparisonDataSingle(x: CategoryBudget, actuals: Tally)
    ensures ComparisonData([x], actuals) == if x.budgetAmount > 0.0 then [Compare(x, actuals)] else []
  {
    var rows := seq(1, i requires 0 <= i < 1 => Compare([x][i], actuals));
    assert rows == [Compare(x, actuals)];
    assert rows[1..] == [];
  }

  /** `totalBudget`: the sum of the amounts. */
  function TotalBudget(bs: seq<CategoryBudget>): real {
    if bs == [] then 0.0 else bs[0].budgetAmount + TotalBudget(bs[1..])
  }

  lemma {:induction false} TotalBudgetAppend(bs: seq<CategoryBudget>, b: CategoryBudget)
    ensures TotalBudget(bs + [b]) == TotalBudget(bs) + b.budgetAmount
  {
    if bs != [] {
      assert (bs + [b])[1..] == bs[1..] + [b];
      TotalBudgetAppend(bs[1..], b);
    }
  }

  /** The amounts recorded under category `c`. */
  function BudgetOf(bs: seq<CategoryBudget>, c: string): real {
    if bs == [] then 0.0
    else (if bs[0].category == c then bs[0].budgetAmount else 0.0) + BudgetOf(bs[1..], c)
  }

  /** Removing a category's budgets lowers the total by exactly their amounts. */
  lemma {:induction false} TotalBudgetRemove(bs: seq<CategoryBudget>, c: string)
    ensures TotalBudget(WithoutBudget(bs, c)) == TotalBudget(bs) - BudgetOf(bs, c)
  {
    if bs != [] {
      TotalBudgetRemove(bs[1..], c);
      var rest := WithoutBudget(bs[1..], c);
      if bs[0].category != c {
        assert WithoutBudget(bs, c) == [bs[0]] + rest;
        assert ([bs[0]] + rest)[1..] == rest;
      } else {
        assert WithoutBudget(bs, c) == rest;
      }
    }
  }

  /** Setting a category's amount replaces its contribution to the total and leaves the
      other categories' contributions as they were. */
  lemma {:induction false} TotalBudgetSet(bs: seq<CategoryBudget>, c: string, a: real)
    ensures TotalBudget(SetAmount(bs, c, a)) == TotalBudget(bs) - BudgetOf(bs, c) + BudgetOf(SetAmount(bs, c, a), c)
  {
    if bs != [] {
      var r := SetAmount(bs, c, a);
      TotalBudgetSet(bs[1..], c, a);
      assert r[1..] == SetAmount(bs[1..], c, a);
      if bs[0].category != c {
        assert r[0] == bs[0];
      }
    }
  }

  /** In a list that names each category once, the category's new contribution is the
      amount set, or nothing when the category is not listed. */
  lemma {:induction false} BudgetOfSet(bs: seq<CategoryBudget>, c: string, a: real)
    requires NoDup(Names(bs))
    ensures BudgetOf(SetAmount(bs, c, a), c) == if c in Names(bs) then a else 0.0
  {
    if bs != [] {
      var r := SetAmount(bs, c, a);
      assert Names(bs)[1..] == Names(bs[1..]);
      BudgetOfSet(bs[1..], c, a);
      assert r[1..] == SetAmount(bs[1..], c, a);
      assert c in Names(bs) <==> bs[0].category == c || c in Names(bs[1..]);
      if bs[0].category == c {
        assert c !in Names(bs[1..]) by {
          forall i | 0 <= i < |bs[1..]| ensures Names(bs[1..])[i] != c {
            assert Names(bs)[0] != Names(bs)[i + 1];
          }
        }
      }
    }
  }

  function IncomeCategories(): seq<string> {
    ["Salary", "Freelance"]
  }

  function IsIncomeCategory(c: string): bool {
    c in IncomeCategories()
  }

  function IsSpendCategory(c: string): bool {
    c !in IncomeCategories()
  }

  /** `totalSpent`: the actual amounts of the categories outside the income list. */
  function TotalSpent(m: MonthData): real {
    var t := ActualAmounts(m);
    SumSelected(t, t.keys, IsSpendCategory)
  }

  /** `totalEarned`: the actual amounts of the income-list categories. */
  function TotalEarned(m: MonthData): real {
    var t := ActualAmounts(m);
    SumSelected(t, t.keys, IsIncomeCategory)
  }

  lemma {:induction false} AmountSplit(es: seq<Entry>, p: string -> bool, q: string -> bool)
    requires forall c :: p(c) != q(c)
    ensures AmountWhere(es, p) + AmountWhere(es, q) == Total(es)
  {
    if es != [] {
      AmountSplit(es[1..], p, q);
    }
  }

  /** Spent and earned split the non-planned amounts by the income-category list: earned
      is the sum over Salary and Freelance entries, spent the sum over the rest, and
      together they are every non-planned amount. */
  lemma SpentEarnedSplit(m: MonthData)
    ensures var actual := Filter(NotPlanned, m.entries);
      && TotalEarned(m) == AmountWhere(actual, IsIncomeCategory)
      && TotalSpent(m) == AmountWhere(actual, IsSpendCategory)
      && TotalSpent(m) + TotalEarned(m) == Total(actual)
  {
    var actual := Filter(NotPlanned, m.entries);
    ByCategorySelected(actual, IsIncomeCategory);
    ByCategorySelected(actual, IsSpendCategory);
    AmountSplit(actual, IsSpendCategory, IsIncomeCategory);
  }

  /** A planned Food entry of 1000 in an empty month with no saved budgets gives one
      record per default category, in their order: Food, the third default, at 1000,
      and every other default at 0. */
  lemma SeedFromPlan()
    ensures var m := MonthData("2024-03", [Entry("p", Expense, "2024-03-05", "Food", "", 1000.0, true)]);
      var r := Merge(DefaultCategories(), m, None);
      && |r| == 10 && Names(r) == DefaultCategories()
      && r[2] == CategoryBudget("Food", 1000.0) && r[3] == CategoryBudget("Rent", 0.0)
      && forall i :: 0 <= i < 10 && i != 2 ==> r[i].budgetAmount == 0.0
  {
    var e := Entry("p", Expense, "2024-03-05", "Food", "", 1000.0, true);
    var m := MonthData("2024-03", [e]);
    var t := Tally(["Food"], map["Food" := 1000.0]);
    assert PlannedTotals(m) == t by {
      assert Filter(IsPlanned, m.entries) == [e];
      assert Fold(EmptyTally(), [e]) == Fold(t, []);
    }
    SeedFood(m);
  }

  /** Any month whose planned totals are just Food at 1000 seeds the defaults that way. */
  lemma SeedFood(m: MonthData)
    requires PlannedTotals(m) == Tally(["Food"], map["Food" := 1000.0])
    ensures var r := Merge(DefaultCategories(), m, None);
      && |r| == 10 && Names(r) == DefaultCategories()
      && r[2] == CategoryBudget("Food", 1000.0) && r[3] == CategoryBudget("Rent", 0.0)
      && forall i :: 0 <= i < 10 && i != 2 ==> r[i].budgetAmount == 0.0
  {
    var d := DefaultCategories();
    assert NoDup(d) by {
      assert forall i, j :: 0 <= i < j < 10 ==> d[i] != d[j];
    }
    MergeNothingSaved(d, m);
    assert forall i :: 0 <= i < 10 && i != 2 ==> d[i] != "Food";
  }

  /** With nothing saved, categories free of repeats and every planned category already
      among them, the merge keeps the categories in order and each amount is the planned
      total of its category. */
  lemma MergeNothingSaved(categories: seq<string>, m: MonthData)
    requires NoDup(categories)
    requires forall k :: k in PlannedTotals(m).keys ==> k in categories
    ensures var r := Merge(categories, m, None);
      && Names(r) == categories
      && forall i :: 0 <= i < |r| ==> r[i].budgetAmount == Lookup(PlannedTotals(m), categories[i])
  {
    var keys := PlannedTotals(m).keys;
    assert AllCategories(categories, m, None) == categories by {
      assert categories + keys + SavedNames(None) == categories + keys;
      DedupOntoConcat([], categories, keys);
      DedupDistinct(categories);
      DedupOntoCovered(categories, keys);
    }
  }

  // ---------------------------------------------------------------------------
  // The page state

  /** The page: the selected month, the global categories read once, the budgets shown,
      the two inputs of the add form, and the `budgets-<month>` keys of the storage. */
  class BudgetPlanner {
    var monthKey: string
    const categories: seq<string>
    var budgets: seq<CategoryBudget>
    var newBudgetCategory: string
    var newBudgetAmount: string
    var saved: map<string, seq<CategoryBudget>>
    const store: Store

    constructor (store: Store, monthKey: string, saved: map<string, seq<CategoryBudget>>)
      ensures this.store == store && this.monthKey == monthKey && this.saved == saved
      ensures categories == store.Data().settings.categories
      ensures budgets == [] && newBudgetCategory == "" && newBudgetAmount == ""
    {
      var cats := store.GetCategories();
      this.store := store;
      this.monthKey := monthKey;
      categories := cats;
      budgets := [];
      newBudgetCategory := "";
      newBudgetAmount := "";
      this.saved := saved;
    }

    /** What `budgets-<month>` holds for the selected month. */
    function SavedForMonth(): Option<seq<CategoryBudget>>
      reads this
    {
      if monthKey in saved then Some(saved[monthKey]) else None
    }

    /** The merge computed from the current ledger and saved budgets. */
    function Merged(): seq<CategoryBudget>
      reads this, store
    {
      Merge(categories, GetMonth(store.Data(), monthKey), SavedForMonth())
    }

    /** The load-and-merge effect: it writes the merge to the page and to the storage
      only when it differs from what the page shows. */
    method Refresh() returns (changed: bool)
      modifies this
      ensures changed == (old(budgets) != old(Merged()))
      ensures budgets == old(Merged())
      ensures saved == if changed then old(saved)[monthKey := budgets] else old(saved)
      ensures monthKey == old(monthKey) && newBudgetCategory == old(newBudgetCategory)
      ensures newBudgetAmount == old(newBudgetAmount)
    {
      var latest := store.Data();
      var monthData := GetMonth(latest, monthKey);
      var savedBudgets := if monthKey in saved then Some(saved[monthKey]) else None;
      var merged := Merge(categories, monthData, savedBudgets);
      changed := budgets != merged;
      if changed {
        budgets := merged;
        saved := saved[monthKey := merged];
      }
    }

    /** `saveBudgets`. */
    method SaveBudgets(newBudgets: seq<CategoryBudget>)
      modifies this
      ensures budgets == newBudgets && saved == old(saved)[monthKey := newBudgets]
      ensures monthKey == old(monthKey) && newBudgetCategory == old(newBudgetCategory)
      ensures newBudgetAmount == old(newBudgetAmount)
    {
      budgets := newBudgets;
      saved := saved[monthKey := newBudgets];
    }

    method UpdateBudget(category: string, amount: real)
      modifies this
      ensures budgets == SetAmount(old(budgets), category, amount)
      ensures saved == old(saved)[monthKey := budgets]
      ensures monthKey == old(monthKey) && newBudgetCategory == old(newBudgetCategory)
      ensures newBudgetAmount == old(newBudgetAmount)
    {
      SaveBudgets(SetAmount(budgets, category, amount));
    }

    /** `addNewBudget`, with `parseFloat` as a partial function (`None` for NaN). */
    method AddNewBudget(parseFloat: string -> Option<real>) returns (added: bool)
      modifies this
      ensures added == (old(newBudgetCategory) != "" && old(newBudgetAmount) != ""
                        && parseFloat(old(newBudgetAmount)).Some?)
      ensures added ==> budgets == old(budgets) + [CategoryBudget(old(newBudgetCategory), parseFloat(old(newBudgetAmount)).value)]
      ensures added ==> saved == old(saved)[monthKey := budgets] && newBudgetCategory == "" && newBudgetAmount == ""
      ensures !added ==> budgets == old(budgets) && saved == old(saved)
                         && newBudgetCategory == old(newBudgetCategory) && newBudgetAmount == old(newBudgetAmount)
      ensures monthKey == old(monthKey)
    {
      if newBudgetCategory == "" || newBudgetAmount == "" {
        return false;
      }
      var amount := parseFloat(newBudgetAmount);
      if amount.None? {
        return false;
      }
      SaveBudgets(budgets + [CategoryBudget(newBudgetCategory, amount.value)]);
      newBudgetCategory := "";
      newBudgetAmount := "";
      added := true;
    }

    method RemoveBudget(category: string)
      modifies this
      ensures budgets == WithoutBudget(old(budgets), category)
      ensures saved == old(saved)[monthKey := budgets]
      ensures monthKey == old(monthKey) && newBudgetCategory == old(newBudgetCategory)
      ensures newBudgetAmount == old(newBudgetAmount)
    {
      SaveBudgets(WithoutBudget(budgets, category));
    }

    /** The two inputs of the add form. */
    method EditNewBudget(category: string, amount: string)
      modifies this
      ensures newBudgetCategory == category && newBudgetAmount == amount
      ensures budgets == old(budgets) && saved == old(saved) && monthKey == old(monthKey)
    {
      newBudgetCategory := category;
      newBudgetAmount := amount;
    }

    /** The month selector's `onChange`. */
    method SelectMonth(key: string)
      modifies this
      ensures monthKey == key && budgets == old(budgets) && saved == old(saved)
      ensures newBudgetCategory == old(newBudgetCategory) && newBudgetAmount == old(newBudgetAmount)
    {
      monthKey := key;
    }
  }

  /** The page settles: once one merge has been applied, the effect that it triggers
      again finds nothing to change. */
  method RefreshTwice(p: BudgetPlanner) returns (second: bool)
    modifies p
    ensures !second
    ensures p.budgets == old(p.Merged())
  {
    var first := p.Refresh();
    MergeFixedPoint(p.categories, GetMonth(p.store.Data(), p.monthKey), old(p.SavedForMonth()));
    second := p.Refresh();
  }
}
