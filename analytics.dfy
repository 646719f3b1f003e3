/** The analytics page of client/pages/Analytics.tsx: the six-month projection of planned
    net, and the expense breakdown by category sorted by amount. */
module Analytics {
  import opened Collections
  import opened Ledger
  import opened MonthKeys
  import opened CategoryTotals

  // ---------------------------------------------------------------------------
  // The six-month projection

  /** One point of the projection chart: the month's short name and its planned net. */
  datatype MonthPoint = MonthPoint(monthName: string, plannedNet: real)

  /** date-fns `format(d, "MMM")` in the default English locale. */
  function MonthAbbrev(m: int): string
    requires 1 <= m <= 12
  {
    ["Jan", "Feb", "Mar", "Apr", "May", "Jun", "Jul", "Aug", "Sep", "Oct", "Nov", "Dec"][m - 1]
  }

  /** The point for the month `i` months after `base`. */
  function PointAt(data: AppData, base: YearMonth, i: int): MonthPoint {
    var d := AddMonths(base, i);
    MonthPoint(MonthAbbrev(d.month), MonthTotals(GetMonth(data, Format(d))).net.planned)
  }

  /** The six points from `base` on. */
  function Projection(data: AppData, base: YearMonth): seq<MonthPoint> {
    seq(6, i requires 0 <= i < 6 => PointAt(data, base, i))
  }

  /** `nextMonths`: a counted loop that pushes one point per month; `None` where the
      source's date formatting throws because the selected key is not a date. */
  method NextMonths(data: AppData, monthKey: string) returns (r: Option<seq<MonthPoint>>)
    ensures r.None? <==> Parse(monthKey).None?
    ensures r.Some? ==> r.value == Projection(data, Parse(monthKey).value)
  {
    var parsed := Parse(monthKey);
    if parsed.None? {
      return None;
    }
    var base := parsed.value;
    var list: seq<MonthPoint> := [];
    var i := 0;
    while i < 6
      invariant 0 <= i <= 6
      invariant list == Projection(data, base)[..i]
    {
      var d := AddMonths(base, i);
      var key := Format(d);
      var m := GetMonth(data, key);
      var t := MonthTotals(m);
      list := list + [MonthPoint(MonthAbbrev(d.month), t.net.planned)];
      i := i + 1;
    }
    return Some(list);
  }

  /** The projection has six points: the selected month and the five after it, each
      labelled with its month's short name and valued at its planned income minus its
      planned expense; a month with no bucket counts zero. */
  lemma ProjectionMeaning(data: AppData, monthKey: string)
    requires Parse(monthKey).Some?
    ensures var base := Parse(monthKey).value; var p := Projection(data, base);
      && |p| == 6
      && Format(AddMonths(base, 0)) == monthKey
      && (forall i :: 0 <= i < 5 ==> AddMonths(base, i + 1) == Next(AddMonths(base, i)))
      && forall i :: 0 <= i < 6 ==>
           var key := Format(AddMonths(base, i));
           var es := GetMonth(data, key).entries;
           && p[i].monthName == MonthAbbrev(AddMonths(base, i).month)
           && p[i].plannedNet == BucketSum(es, Income, true) - BucketSum(es, Expense, true)
           && (key !in data.months ==> p[i].plannedNet == 0.0)
  {
    var base := Parse(monthKey).value;
    FormatParse(monthKey);
    OrdinalInjective(AddMonths(base, 0), base);
    forall i | 0 <= i < 5 ensures AddMonths(base, i + 1) == Next(AddMonths(base, i)) {
      OrdinalInjective(AddMonths(base, i + 1), Next(AddMonths(base, i)));
    }
    forall i | 0 <= i < 6
      ensures var es := GetMonth(data, Format(AddMonths(base, i))).entries;
        Projection(data, base)[i].plannedNet == BucketSum(es, Income, true) - BucketSum(es, Expense, true)
    {
      MonthTotalsMeaning(GetMonth(data, Format(AddMonths(base, i))));
    }
  }

  // ---------------------------------------------------------------------------
  // The expense breakdown

  /** One slice of the pie chart. */
  datatype CategoryValue = CategoryValue(name: string, value: real)

  /** `Object.entries(t).map(([category, amount]) => ({ name: category, value: amount }))`
      over the keys `ks`. */
  function PairsOf(t: Tally, ks: seq<string>): (r: seq<CategoryValue>)
    ensures |r| == |ks|
    ensures forall i :: 0 <= i < |ks| ==> r[i] == CategoryValue(ks[i], Lookup(t, ks[i]))
  {
    if ks == [] then [] else [CategoryValue(ks[0], Lookup(t, ks[0]))] + PairsOf(t, ks[1..])
  }

  ghost predicate SortedDesc(s: seq<CategoryValue>) {
    forall i, j :: 0 <= i < j < |s| ==> s[i].value >= s[j].value
  }

  /** Puts `x` before the first element that is not larger, so that elements the
      comparator `b.value - a.value` finds equal keep their order. */
  function Insert(x: CategoryValue, s: seq<CategoryValue>): seq<CategoryValue> {
    if s == [] || x.value >= s[0].value then [x] + s else [s[0]] + Insert(x, s[1..])
  }

  /** `.sort((a, b) => b.value - a.value)`, as a stable insertion sort. */
  function SortDesc(s: seq<CategoryValue>): seq<CategoryValue> {
    if s == [] then [] else Insert(s[0], SortDesc(s[1..]))
  }

  lemma {:induction false} InsertCount(x: CategoryValue, s: seq<CategoryValue>)
    ensures multiset(Insert(x, s)) == multiset(s) + multiset{x}
  {
    if s != [] && x.value < s[0].value {
      InsertCount(x, s[1..]);
      assert s == [s[0]] + s[1..];
    }
  }

  lemma {:induction false} InsertSorted(x: CategoryValue, s: seq<CategoryValue>)
    requires SortedDesc(s)
    ensures SortedDesc(Insert(x, s))
  {
    if s == [] || x.value >= s[0].value {
      assert Insert(x, s) == [x] + s;
      assert forall j :: 0 <= j < |s| ==> x.value >= s[j].value;
    } else {
      var r := Insert(x, s[1..]);
      InsertSorted(x, s[1..]);
      InsertCount(x, s[1..]);
      forall j | 0 <= j < |r| ensures s[0].value >= r[j].value {
        assert r[j] in multiset(r);
        assert r[j] == x || r[j] in s[1..];
      }
      assert Insert(x, s) == [s[0]] + r;
    }
  }

  lemma {:induction false} InsertNoDup(x: CategoryValue, s: seq<CategoryValue>)
    requires NoDup(s) && x !in s
    ensures NoDup(Insert(x, s))
  {
    if s != [] && x.value < s[0].value {
      var r := Insert(x, s[1..]);
      InsertNoDup(x, s[1..]);
      InsertCount(x, s[1..]);
      assert s[0] !in s[1..];
      assert s[0] != x;
      assert s[0] !in multiset(r);
      assert Insert(x, s) == [s[0]] + r;
    }
  }

  /** The sort orders by value, non-increasing, and only permutes its input. */
  lemma {:induction false} SortDescFacts(s: seq<CategoryValue>)
    ensures SortedDesc(SortDesc(s))
    ensures multiset(SortDesc(s)) == multiset(s)
  {
    if s != [] {
      SortDescFacts(s[1..]);
      InsertCount(s[0], SortDesc(s[1..]));
      InsertSorted(s[0], SortDesc(s[1..]));
      assert s == [s[0]] + s[1..];
    }
  }

  /** The sort keeps a list without repeats free of repeats. */
  lemma {:induction false} SortDescNoDup(s: seq<CategoryValue>)
    requires NoDup(s)
    ensures NoDup(SortDesc(s))
  {
    if s != [] {
      SortDescNoDup(s[1..]);
      SortDescFacts(s[1..]);
      assert s[0] !in s[1..];
      assert s[0] !in multiset(SortDesc(s[1..]));
      InsertNoDup(s[0], SortDesc(s[1..]));
    }
  }

  /** Sum of the values of the slices. */
  function TotalValue(s: seq<CategoryValue>): real {
    if s == [] then 0.0 else s[0].value + TotalValue(s[1..])
  }

  lemma {:induction false} InsertTotal(x: CategoryValue, s: seq<CategoryValue>)
    ensures TotalValue(Insert(x, s)) == x.value + TotalValue(s)
  {
    if s != [] && x.value < s[0].value {
      InsertTotal(x, s[1..]);
    }
  }

  lemma {:induction false} SortDescTotal(s: seq<CategoryValue>)
    ensures TotalValue(SortDesc(s)) == TotalValue(s)
  {
    if s != [] {
      SortDescTotal(s[1..]);
      InsertTotal(s[0], SortDesc(s[1..]));
    }
  }

  lemma {:induction false} PairsTotal(t: Tally, ks: seq<string>)
    ensures TotalValue(PairsOf(t, ks)) == SumSelected(t, ks, AnyCategory)
  {
    if ks != [] {
      PairsTotal(t, ks[1..]);
    }
  }

  /** The expense entries hold exactly the planned and the actual expense amounts. */
  lemma {:induction false} ExpenseTotal(es: seq<Entry>)
    ensures Total(Filter(IsExpense, es)) == BucketSum(es, Expense, true) + BucketSum(es, Expense, false)
  {
    if es != [] {
      ExpenseTotal(es[1..]);
      var rest := Filter(IsExpense, es[1..]);
      if IsExpense(es[0]) {
        assert Filter(IsExpense, es) == [es[0]] + rest;
        assert ([es[0]] + rest)[1..] == rest;
      } else {
        assert Filter(IsExpense, es) == rest;
      }
    }
  }

  /** `categoryData`: the per-category sums of the month's expense entries, planned and
      actual alike, largest first. */
  function CategoryData(m: MonthData): seq<CategoryValue> {
    var t := ByCategory(Filter(IsExpense, m.entries));
    SortDesc(PairsOf(t, t.keys))
  }

  /** The category names of the slices, in order. Written out for chart slices, as
      `Budgets.Names` is for budget records. */
  function Labels(s: seq<CategoryValue>): (r: seq<string>)
    ensures |r| == |s| && forall i :: 0 <= i < |s| ==> r[i] == s[i].name
  {
    seq(|s|, i requires 0 <= i < |s| => s[i].name)
  }

  /** The breakdown is sorted by value, non-increasing, and names each category once. */
  lemma CategoryDataSorted(m: MonthData)
    ensures SortedDesc(CategoryData(m))
    ensures NoDup(Labels(CategoryData(m)))
  {
    var es := Filter(IsExpense, m.entries);
    var t := ByCategory(es);
    var pairs := PairsOf(t, t.keys);
    var r := SortDesc(pairs);
    ByCategoryMeaning(es);
    assert NoDup(pairs);
    SortDescFacts(pairs);
    SortDescNoDup(pairs);
    DistinctLabels(t, r);
  }

  /** A repeat-free reordering of a tally's entries names each key once. */
  lemma DistinctLabels(t: Tally, r: seq<CategoryValue>)
    requires multiset(r) == multiset(PairsOf(t, t.keys)) && NoDup(r)
    ensures NoDup(Labels(r))
  {
    SlicesOfTally(t, r);
    forall i, j | 0 <= i < j < |r| ensures r[i].name != r[j].name {
      assert r[i] != r[j];
    }
  }

  /** A reordering of a tally's entries names exactly its keys, each with its value. */
  lemma SlicesOfTally(t: Tally, r: seq<CategoryValue>)
    requires multiset(r) == multiset(PairsOf(t, t.keys))
    ensures forall c :: c in Labels(r) <==> c in t.keys
    ensures forall i :: 0 <= i < |r| ==> r[i].value == Lookup(t, r[i].name)
  {
    var pairs := PairsOf(t, t.keys);
    forall c ensures c in Labels(r) <==> c in t.keys {
      if c in t.keys {
        var k :| 0 <= k < |t.keys| && t.keys[k] == c;
        assert pairs[k] in multiset(r);
        var i :| 0 <= i < |r| && r[i] == pairs[k];
        assert Labels(r)[i] == c;
      }
      if c in Labels(r) {
        var i :| 0 <= i < |r| && Labels(r)[i] == c;
        assert r[i] in multiset(pairs);
      }
    }
    forall i | 0 <= i < |r| ensures r[i].value == Lookup(t, r[i].name) {
      assert r[i] in multiset(pairs);
    }
  }

  /** The categories of the expense totals are those of the expense entries. */
  lemma ExpenseCategories(m: MonthData)
    ensures forall c :: c in ByCategory(Filter(IsExpense, m.entries)).keys <==>
      exists e :: e in m.entries && e.kind == Expense && e.category == c
  {
    var es := Filter(IsExpense, m.entries);
    ByCategoryMeaning(es);
    forall e ensures e in es <==> e in m.entries && e.kind == Expense {
      FilterMember(IsExpense, m.entries, e);
    }
  }

  /** The breakdown has a slice for exactly the categories that have an expense entry,
      planned or actual, and each slice holds the sum of that category's expenses. */
  lemma CategoryDataSlices(m: MonthData)
    ensures var r := CategoryData(m);
      && (forall c :: c in Labels(r) <==> exists e :: e in m.entries && e.kind == Expense && e.category == c)
      && (forall i :: 0 <= i < |r| ==> r[i].value == AmountWhere(Filter(IsExpense, m.entries), IsCategory(r[i].name)))
  {
    var es := Filter(IsExpense, m.entries);
    var t := ByCategory(es);
    var pairs := PairsOf(t, t.keys);
    ByCategoryMeaning(es);
    SortDescFacts(pairs);
    SlicesOfTally(t, SortDesc(pairs));
    ExpenseCategories(m);
  }

  /** The slices add up to the month's planned plus actual expense total. */
  lemma CategoryDataTotal(m: MonthData)
    ensures TotalValue(CategoryData(m)) == MonthTotals(m).expense.planned + MonthTotals(m).expense.actual
  {
    var es := Filter(IsExpense, m.entries);
    var t := ByCategory(es);
    var pairs := PairsOf(t, t.keys);
    SortDescTotal(pairs);
    PairsTotal(t, t.keys);
    ByCategorySelected(es, AnyCategory);
    ExpenseTotal(m.entries);
    MonthTotalsMeaning(m);
  }
}
