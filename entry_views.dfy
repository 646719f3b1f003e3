/** The entries page of client/pages/Index.tsx: the month's entries sorted by date, the
    actual (non-planned) ones, their split into incomes and expenses, and the handlers
    that route additions, deletions and edits to the store under the selected month. */
module EntryViews {
  import opened Collections
  import opened Ledger

  // ---------------------------------------------------------------------------
  // Date order

  /** Lexicographic order on character codes, which is the order `localeCompare` gives
      the zero-padded "yyyy-MM-dd" dates the entry form produces. */
  predicate StrLe(a: string, b: string) {
    a == [] || (b != [] && (a[0] < b[0] || (a[0] == b[0] && StrLe(a[1..], b[1..]))))
  }

  lemma {:induction false} StrLeTotal(a: string, b: string)
    ensures StrLe(a, b) || StrLe(b, a)
  {
    if a != [] && b != [] && a[0] == b[0] {
      StrLeTotal(a[1..], b[1..]);
    }
  }

  lemma {:induction false} StrLeTrans(a: string, b: string, c: string)
    requires StrLe(a, b) && StrLe(b, c)
    ensures StrLe(a, c)
  {
    if a != [] && b != [] && c != [] && a[0] == b[0] && b[0] == c[0] {
      StrLeTrans(a[1..], b[1..], c[1..]);
    }
  }

  ghost predicate SortedByDate(es: seq<Entry>) {
    forall i, j :: 0 <= i < j < |es| ==> StrLe(es[i].date, es[j].date)
  }

  /** Puts `e` before the first entry whose date is not earlier, so that entries with
      equal dates keep their order. */
  function InsertByDate(e: Entry, es: seq<Entry>): seq<Entry> {
    if es == [] || StrLe(e.date, es[0].date) then [e] + es else [es[0]] + InsertByDate(e, es[1..])
  }

  /** `[...entries].sort((a, b) => a.date.localeCompare(b.date))`, as a stable insertion
      sort on a copy. */
  function SortByDate(es: seq<Entry>): seq<Entry> {
    if es == [] then [] else InsertByDate(es[0], SortByDate(es[1..]))
  }

  lemma {:induction false} InsertByDateCount(e: Entry, es: seq<Entry>)
    ensures multiset(InsertByDate(e, es)) == multiset(es) + multiset{e}
  {
    if es != [] && !StrLe(e.date, es[0].date) {
      InsertByDateCount(e, es[1..]);
      assert es == [es[0]] + es[1..];
    }
  }

  lemma {:induction false} InsertByDateSorted(e: Entry, es: seq<Entry>)
    requires SortedByDate(es)
    ensures SortedByDate(InsertByDate(e, es))
  {
    if es == [] {
    } else if StrLe(e.date, es[0].date) {
      forall j | 0 < j < |es| ensures StrLe(e.date, es[j].date) {
        StrLeTrans(e.date, es[0].date, es[j].date);
      }
      assert InsertByDate(e, es) == [e] + es;
    } else {
      var r := InsertByDate(e, es[1..]);
      InsertByDateSorted(e, es[1..]);
      InsertByDateCount(e, es[1..]);
      StrLeTotal(e.date, es[0].date);
      forall j | 0 <= j < |r| ensures StrLe(es[0].date, r[j].date) {
        assert r[j] in multiset(r);
        assert r[j] == e || r[j] in es[1..];
      }
      assert InsertByDate(e, es) == [es[0]] + r;
    }
  }

  /** The sorted copy is ordered by date and is a permutation of the stored entries. */
  lemma {:induction false} SortByDateFacts(es: seq<Entry>)
    ensures SortedByDate(SortByDate(es))
    ensures multiset(SortByDate(es)) == multiset(es)
  {
    if es != [] {
      SortByDateFacts(es[1..]);
      InsertByDateCount(es[0], SortByDate(es[1..]));
      InsertByDateSorted(es[0], SortByDate(es[1..]));
      assert es == [es[0]] + es[1..];
    }
  }

  /** A filter keeps the date order. */
  lemma {:induction false} FilterSortedByDate(p: Entry -> bool, es: seq<Entry>)
    requires SortedByDate(es)
    ensures SortedByDate(Filter(p, es))
  {
    if es != [] {
      FilterSortedByDate(p, es[1..]);
      var rest := Filter(p, es[1..]);
      if p(es[0]) {
        forall j | 0 <= j < |rest| ensures StrLe(es[0].date, rest[j].date) {
          assert rest[j] in es[1..];
        }
        assert Filter(p, es) == [es[0]] + rest;
      } else {
        assert Filter(p, es) == rest;
      }
    }
  }

  // ---------------------------------------------------------------------------
  // The views

  /** `sortedEntries`. */
  function SortedEntries(m: MonthData): seq<Entry> {
    SortByDate(m.entries)
  }

  /** `visibleEntries`: the sorted entries that are not planned. */
  function VisibleEntries(m: MonthData): seq<Entry> {
    Filter(NotPlanned, SortedEntries(m))
  }

  function Incomes(m: MonthData): seq<Entry> {
    Filter(IsIncome, VisibleEntries(m))
  }

  function Expenses(m: MonthData): seq<Entry> {
    Filter(IsExpense, VisibleEntries(m))
  }

  /** The sorted view is a date-ordered permutation of the stored entries. */
  lemma SortedEntriesMeaning(m: MonthData)
    ensures SortedByDate(SortedEntries(m))
    ensures multiset(SortedEntries(m)) == multiset(m.entries)
  {
    SortByDateFacts(m.entries);
  }

  /** The visible entries are exactly the stored non-planned ones, each as often as
      stored, in date order. */
  lemma VisibleEntriesMeaning(m: MonthData)
    ensures SortedByDate(VisibleEntries(m))
    ensures multiset(VisibleEntries(m)) == multiset(Filter(NotPlanned, m.entries))
    ensures forall e :: e in VisibleEntries(m) <==> e in m.entries && !e.planned
  {
    SortByDateFacts(m.entries);
    FilterSortedByDate(NotPlanned, SortedEntries(m));
    FilterPermutation(NotPlanned, SortedEntries(m), m.entries);
    forall e ensures e in VisibleEntries(m) <==> e in m.entries && !e.planned {
      FilterMember(NotPlanned, SortedEntries(m), e);
      assert e in SortedEntries(m) <==> e in multiset(m.entries);
    }
  }

  /** Incomes hold only income entries and expenses only expense entries; both keep the
      date order, and together they are the visible entries. */
  lemma IncomeExpenseSplit(m: MonthData)
    ensures forall e :: e in Incomes(m) ==> e.kind == Income && !e.planned
    ensures forall e :: e in Expenses(m) ==> e.kind == Expense && !e.planned
    ensures SortedByDate(Incomes(m)) && SortedByDate(Expenses(m))
    ensures multiset(Incomes(m)) + multiset(Expenses(m)) == multiset(VisibleEntries(m))
  {
    VisibleEntriesMeaning(m);
    FilterSortedByDate(IsIncome, VisibleEntries(m));
    FilterSortedByDate(IsExpense, VisibleEntries(m));
    FilterPartition(IsIncome, IsExpense, VisibleEntries(m));
    forall e ensures e in Incomes(m) ==> e.kind == Income && !e.planned {
      FilterMember(IsIncome, VisibleEntries(m), e);
    }
    forall e ensures e in Expenses(m) ==> e.kind == Expense && !e.planned {
      FilterMember(IsExpense, VisibleEntries(m), e);
    }
  }

  // ---------------------------------------------------------------------------
  // The handlers

  /** The page: the selected month, the entry being edited, and the store. */
  class IndexPage {
    var monthKey: string
    var editing: Option<Entry>
    const store: Store

    constructor (store: Store, monthKey: string)
      ensures this.store == store && this.monthKey == monthKey && editing.None?
    {
      this.store := store;
      this.monthKey := monthKey;
      editing := None;
    }

    /** The month selector's `onChange`. */
    method SelectMonth(key: string)
      modifies this
      ensures monthKey == key && editing == old(editing)
    {
      monthKey := key;
    }

    /** `onAdd`: the entry goes into the selected month's bucket, whatever its date. */
    method OnAdd(e: Entry)
      modifies store
      ensures store.Data() == WithEntryAdded(old(store.Data()), monthKey, e)
    {
      store.AddEntry(monthKey, e);
    }

    /** `onEdit`: opens the edit form on `e`. */
    method OnEdit(e: Entry)
      modifies this
      ensures editing == Some(e) && monthKey == old(monthKey)
    {
      editing := Some(e);
    }

    /** `onDelete`: removes the id from the selected month's bucket. */
    method OnDelete(id: string)
      modifies store
      ensures store.Data() == WithEntryRemoved(old(store.Data()), monthKey, id)
    {
      store.RemoveEntry(monthKey, id);
    }

    /** The edit form's `onSubmit`: updates the entry in the selected month's bucket
      and closes the form. */
    method OnEditSubmit(e: Entry)
      modifies this, store
      ensures store.Data() == WithEntryUpdated(old(store.Data()), monthKey, e)
      ensures editing.None? && monthKey == old(monthKey)
    {
      store.UpdateEntry(monthKey, e);
      editing := None;
    }
  }
}
