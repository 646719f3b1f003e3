/** The month-keyed ledger of client/lib/storage.ts: entries grouped in month buckets,
    the category settings, the persisted aggregate with its defaults, the
    read-modify-write operations on it, and the per-month totals. */
module Ledger {
  import opened Collections

  // ---------------------------------------------------------------------------
  // Data model

  datatype EntryType = Income | Expense

  /** One income or expense line; `planned` marks a budgeted line rather than a
      realised transaction. Amounts are exact reals. */
  datatype Entry = Entry(
    id: string,
    kind: EntryType,
    date: string,
    category: string,
    note: string,
    amount: real,
    planned: bool)

  /** A month bucket: its "YYYY-MM" key and its entries, newest first. */
  datatype MonthData = MonthData(month: string, entries: seq<Entry>)

  datatype SettingsData = SettingsData(categories: seq<string>)

  /** The whole persisted aggregate. */
  datatype AppData = AppData(months: map<string, MonthData>, settings: SettingsData)

  /** What the storage key holds: nothing (or an empty string), text that does not
      parse, or a parsed object whose two top-level fields may each be missing. */
  datatype Blob =
    | Absent
    | Unparseable
    | Parsed(months: Option<map<string, MonthData>>, settings: Option<SettingsData>)

  function IsPlanned(e: Entry): bool {
    e.planned
  }

  function NotPlanned(e: Entry): bool {
    !e.planned
  }

  function IsIncome(e: Entry): bool {
    e.kind == Income
  }

  function IsExpense(e: Entry): bool {
    e.kind == Expense
  }

  function DefaultCategories(): seq<string> {
    ["Salary", "Freelance", "Food", "Rent", "Transport",
     "Utilities", "Entertainment", "Health", "Savings", "Misc"]
  }

  function EmptyMonth(month: string): MonthData {
    MonthData(month, [])
  }

  // ---------------------------------------------------------------------------
  // Load and save

  /** `loadData`: defaults for a missing or unparseable value; a parsed value gets the
      default settings if it has none and empty months if it has none, each on its own. */
  function Load(blob: Blob): (d: AppData)
    ensures d.months == if blob.Parsed? && blob.months.Some? then blob.months.value else map[]
    ensures d.settings ==
      if blob.Parsed? && blob.settings.Some? then blob.settings.value else SettingsData(DefaultCategories())
  {
    match blob
    case Absent => AppData(map[], SettingsData(DefaultCategories()))
    case Unparseable => AppData(map[], SettingsData(DefaultCategories()))
    case Parsed(months, settings) =>
      var settings' := if settings.None? then SettingsData(DefaultCategories()) else settings.value;
      var months' := if months.None? then map[] else months.value;
      AppData(months', settings')
  }

  /** `saveData`: the whole aggregate, with both fields present. */
  function Persist(d: AppData): Blob {
    Parsed(Some(d.months), Some(d.settings))
  }

  /** Saving and loading again gives the aggregate back, and a complete stored value
      that is loaded and saved again is unchanged. */
  lemma PersistRoundTrip(d: AppData, b: Blob)
    ensures Load(Persist(d)) == d
    ensures b.Parsed? && b.months.Some? && b.settings.Some? ==> Persist(Load(b)) == b
  {
  }

  /** The first load on a fresh installation: no months, the ten default categories. */
  lemma FirstLoad()
    ensures Load(Absent) == Load(Unparseable) == AppData(map[], SettingsData(DefaultCategories()))
    ensures |Load(Absent).settings.categories| == 10 && NoDup(Load(Absent).settings.categories)
  {
  }

  // ---------------------------------------------------------------------------
  // Reading and changing month buckets

  /** `getMonth`: the stored bucket, or a fresh empty one under that key; nothing is
      added to `d`. */
  function GetMonth(d: AppData, key: string): (m: MonthData)
    ensures key in d.months ==> m == d.months[key]
    ensures key !in d.months ==> m == MonthData(key, [])
  {
    if key in d.months then d.months[key] else EmptyMonth(key)
  }

  /** `r` differs from `d` at most in the bucket under `key`, which it holds (created if
      it was absent), with the same month field. */
  ghost predicate OnlyBucketChanged(d: AppData, r: AppData, key: string) {
    && r.settings == d.settings
    && r.months.Keys == d.months.Keys + {key}
    && (forall k :: k in d.months && k != key ==> r.months[k] == d.months[k])
    && GetMonth(r, key).month == GetMonth(d, key).month
  }

  /** The bucket under `key` (stored or fresh) with its entries replaced, stored back. */
  function WithBucket(d: AppData, key: string, entries: seq<Entry>): (r: AppData)
    ensures OnlyBucketChanged(d, r, key)
    ensures GetMonth(r, key).entries == entries
  {
    var month := GetMonth(d, key);
    d.(months := d.months[key := month.(entries := entries)])
  }

  /** `upsertMonth`: stores the bucket under its own month field. */
  function WithMonth(d: AppData, m: MonthData): (r: AppData)
    ensures r.settings == d.settings && r.months.Keys == d.months.Keys + {m.month}
    ensures GetMonth(r, m.month) == m
    ensures forall k :: k in d.months && k != m.month ==> r.months[k] == d.months[k]
  {
    d.(months := d.months[m.month := m])
  }

  /** `addEntry`: the entry goes in front of the bucket's entries. */
  function WithEntryAdded(d: AppData, key: string, e: Entry): (r: AppData)
    ensures OnlyBucketChanged(d, r, key)
    ensures GetMonth(r, key).entries == [e] + GetMonth(d, key).entries
  {
    WithBucket(d, key, [e] + GetMonth(d, key).entries)
  }

  /** Every entry carrying the id of `e` replaced by `e`. */
  function ReplaceById(es: seq<Entry>, e: Entry): (r: seq<Entry>)
    ensures |r| == |es|
    ensures forall i :: 0 <= i < |es| ==> r[i] == if es[i].id == e.id then e else es[i]
  {
    seq(|es|, i requires 0 <= i < |es| => if es[i].id == e.id then e else es[i])
  }

  /** `updateEntry`: entries with a matching id are replaced in place. */
  function WithEntryUpdated(d: AppData, key: string, e: Entry): (r: AppData)
    ensures OnlyBucketChanged(d, r, key)
    ensures GetMonth(r, key).entries == ReplaceById(GetMonth(d, key).entries, e)
  {
    WithBucket(d, key, ReplaceById(GetMonth(d, key).entries, e))
  }

  function HasOtherId(id: string): Entry -> bool {
    (e: Entry) => e.id != id
  }

  /** `removeEntry`: entries with that id are filtered out. */
  function WithEntryRemoved(d: AppData, key: string, id: string): (r: AppData)
    ensures OnlyBucketChanged(d, r, key)
    ensures GetMonth(r, key).entries == Filter(HasOtherId(id), GetMonth(d, key).entries)
  {
    WithBucket(d, key, Filter(HasOtherId(id), GetMonth(d, key).entries))
  }

  /** `setCategories`: the category list replaced, the months untouched. */
  function WithCategories(d: AppData, categories: seq<string>): (r: AppData)
    ensures r.months == d.months && r.settings.categories == categories
  {
    d.(settings := d.settings.(categories := categories))
  }

  /** An update whose id matches no entry leaves the entries as they were (the bucket is
      still materialised by `WithEntryUpdated`). */
  lemma {:induction false} UpdateWithoutMatch(es: seq<Entry>, e: Entry)
    requires forall x :: x in es ==> x.id != e.id
    ensures ReplaceById(es, e) == es
  {
    assert forall i :: 0 <= i < |es| ==> es[i] in es;
  }

  /** After an update, an entry of the bucket carries the new value exactly where the old
      one carried its id; all other entries are untouched. */
  lemma UpdateMeaning(d: AppData, key: string, e: Entry)
    ensures var before := GetMonth(d, key).entries;
      var after := GetMonth(WithEntryUpdated(d, key, e), key).entries;
      && |after| == |before|
      && (forall i :: 0 <= i < |before| && before[i].id == e.id ==> after[i] == e)
      && (forall i :: 0 <= i < |before| && before[i].id != e.id ==> after[i] == before[i])
  {
  }

  /** After a removal, the bucket holds exactly the entries with other ids, each as
      often as before. Their relative order is kept because the bucket is a `Filter`
      of the old one (see `FilterConcat`). */
  lemma {:induction false} RemoveMeaning(d: AppData, key: string, id: string)
    ensures var before := GetMonth(d, key).entries;
      var after := GetMonth(WithEntryRemoved(d, key, id), key).entries;
      && (forall x :: x in after <==> x in before && x.id != id)
      && (forall x :: multiset(after)[x] == if x.id != id then multiset(before)[x] else 0)
  {
    var before := GetMonth(d, key).entries;
    var after := GetMonth(WithEntryRemoved(d, key, id), key).entries;
    forall x: Entry ensures multiset(after)[x] == if x.id != id then multiset(before)[x] else 0 {
      FilterCount(HasOtherId(id), before, x);
    }
  }

  /** Removing an id and then updating an entry with that id leaves the bucket as the
      removal left it: the update finds no target. */
  lemma UpdateAfterRemove(d: AppData, key: string, e: Entry)
    ensures var removed := WithEntryRemoved(d, key, e.id);
      GetMonth(WithEntryUpdated(removed, key, e), key) == GetMonth(removed, key)
  {
    var removed := WithEntryRemoved(d, key, e.id);
    var es := GetMonth(removed, key).entries;
    assert forall x :: x in es ==> x.id != e.id by {
      RemoveMeaning(d, key, e.id);
    }
    UpdateWithoutMatch(es, e);
  }

  /** Adding an entry whose id is new to its bucket and then removing that id gives the
      bucket back: removal undoes an addition. */
  lemma RemoveAfterAdd(d: AppData, key: string, e: Entry)
    requires forall x :: x in GetMonth(d, key).entries ==> x.id != e.id
    ensures var added := WithEntryAdded(d, key, e);
      GetMonth(WithEntryRemoved(added, key, e.id), key).entries == GetMonth(d, key).entries
  {
    var es := GetMonth(d, key).entries;
    assert Filter(HasOtherId(e.id), [e] + es) == Filter(HasOtherId(e.id), es);
    FilterKeepsAll(HasOtherId(e.id), es);
  }

  // ---------------------------------------------------------------------------
  // Month totals

  datatype Pair = Pair(planned: real, actual: real)

  /** The reduce accumulator of `monthTotals`. */
  datatype Sums = Sums(income: Pair, expense: Pair)

  datatype Totals = Totals(income: Pair, expense: Pair, net: Pair)

  /** Adds an amount to the planned or the actual half of a pair. */
  function AddTo(p: Pair, planned: bool, amount: real): Pair {
    if planned then p.(planned := p.planned + amount) else p.(actual := p.actual + amount)
  }

  /** The reduce step: the entry's amount goes to the sum picked by its type and flag. */
  function Route(acc: Sums, e: Entry): Sums {
    if e.kind == Income then acc.(income := AddTo(acc.income, e.planned, e.amount))
    else acc.(expense := AddTo(acc.expense, e.planned, e.amount))
  }

  /** `entries.reduce(route, acc)`. */
  function FoldSums(acc: Sums, es: seq<Entry>): Sums
    decreases |es|
  {
    if es == [] then acc else FoldSums(Route(acc, es[0]), es[1..])
  }

  /** `monthTotals`: the four sums of one pass, and the planned and actual net. */
  function MonthTotals(m: MonthData): Totals {
    var s := FoldSums(Sums(Pair(0.0, 0.0), Pair(0.0, 0.0)), m.entries);
    Totals(s.income, s.expense,
           Pair(s.income.planned - s.expense.planned, s.income.actual - s.expense.actual))
  }

  /** Reference definition: the sum of the amounts of the entries of one type and flag. */
  function BucketSum(es: seq<Entry>, kind: EntryType, planned: bool): real
  {
    if es == [] then 0.0
    else (if es[0].kind == kind && es[0].planned == planned then es[0].amount else 0.0)
         + BucketSum(es[1..], kind, planned)
  }

  /** Sum of the amounts of the entries whose category `sel` accepts. */
  function AmountWhere(es: seq<Entry>, sel: string -> bool): real
  {
    if es == [] then 0.0
    else (if sel(es[0].category) then es[0].amount else 0.0) + AmountWhere(es[1..], sel)
  }

  function AnyCategory(c: string): bool {
    true
  }

  /** Sum of all amounts. */
  function Total(es: seq<Entry>): real {
    AmountWhere(es, AnyCategory)
  }

  /** The fold adds to its accumulator exactly the four bucket sums. */
  lemma {:induction false} FoldSumsMeaning(acc: Sums, es: seq<Entry>)
    ensures var s := FoldSums(acc, es);
      && s.income.planned == acc.income.planned + BucketSum(es, Income, true)
      && s.income.actual == acc.income.actual + BucketSum(es, Income, false)
      && s.expense.planned == acc.expense.planned + BucketSum(es, Expense, true)
      && s.expense.actual == acc.expense.actual + BucketSum(es, Expense, false)
    decreases |es|
  {
    if es != [] {
      FoldSumsMeaning(Route(acc, es[0]), es[1..]);
    }
  }

  /** Each total is the sum over its own bucket, and the nets are income minus expense. */
  lemma MonthTotalsMeaning(m: MonthData)
    ensures var t := MonthTotals(m);
      && t.income.planned == BucketSum(m.entries, Income, true)
      && t.income.actual == BucketSum(m.entries, Income, false)
      && t.expense.planned == BucketSum(m.entries, Expense, true)
      && t.expense.actual == BucketSum(m.entries, Expense, false)
      && t.net.planned == BucketSum(m.entries, Income, true) - BucketSum(m.entries, Expense, true)
      && t.net.actual == BucketSum(m.entries, Income, false) - BucketSum(m.entries, Expense, false)
  {
    FoldSumsMeaning(Sums(Pair(0.0, 0.0), Pair(0.0, 0.0)), m.entries);
  }

  /** The four buckets together hold every amount exactly once. */
  lemma {:induction false} BucketsCoverAll(es: seq<Entry>)
    ensures BucketSum(es, Income, true) + BucketSum(es, Income, false)
          + BucketSum(es, Expense, true) + BucketSum(es, Expense, false) == Total(es)
  {
    if es != [] {
      BucketsCoverAll(es[1..]);
    }
  }

  /** Adding an entry in front of a bucket raises exactly the total of its own type and
      flag by its amount and leaves the other three as they were. */
  lemma EntryCountsOnce(m: MonthData, e: Entry)
    ensures var t := MonthTotals(m);
      var t' := MonthTotals(m.(entries := [e] + m.entries));
      && t'.income == (if e.kind == Income then AddTo(t.income, e.planned, e.amount) else t.income)
      && t'.expense == (if e.kind == Expense then AddTo(t.expense, e.planned, e.amount) else t.expense)
  {
    var m' := m.(entries := [e] + m.entries);
    MonthTotalsMeaning(m);
    MonthTotalsMeaning(m');
    assert m'.entries[1..] == m.entries;
  }

  /** An empty bucket totals to zero everywhere. */
  lemma EmptyMonthTotals(key: string)
    ensures MonthTotals(EmptyMonth(key)) == Totals(Pair(0.0, 0.0), Pair(0.0, 0.0), Pair(0.0, 0.0))
  {
  }

  /** A worked month: one actual and one planned salary of 50000 and an actual expense of
      12000 give actual net 38000 and planned net 50000. */
  lemma SampleMonthTotals()
    ensures var m := MonthData("2024-03", [
        Entry("a", Income, "2024-03-01", "Salary", "", 50000.0, false),
        Entry("b", Income, "2024-03-01", "Salary", "", 50000.0, true),
        Entry("c", Expense, "2024-03-02", "Rent", "", 12000.0, false)]);
      MonthTotals(m) == Totals(Pair(50000.0, 50000.0), Pair(0.0, 12000.0), Pair(50000.0, 38000.0))
  {
    var m := MonthData("2024-03", [
        Entry("a", Income, "2024-03-01", "Salary", "", 50000.0, false),
        Entry("b", Income, "2024-03-01", "Salary", "", 50000.0, true),
        Entry("c", Expense, "2024-03-02", "Rent", "", 12000.0, false)]);
    MonthTotalsMeaning(m);
    assert m.entries[1..][1..][1..] == [];
  }

  // ---------------------------------------------------------------------------
  // The store

  /** The browser's storage under the ledger's key; every operation loads the whole
      aggregate, changes it and saves all of it back. */
  class Store {
    var blob: Blob

    constructor (stored: Blob)
      ensures blob == stored
    {
      blob := stored;
    }

    /** What `loadData` returns right now. */
    function Data(): AppData
      reads this
    {
      Load(blob)
    }

    /** `saveData`. */
    method SaveData(d: AppData)
      modifies this
      ensures blob == Persist(d) && Data() == d
    {
      blob := Persist(d);
    }

    method UpsertMonth(m: MonthData)
      modifies this
      ensures blob == Persist(WithMonth(old(Data()), m))
      ensures Data() == WithMonth(old(Data()), m)
    {
      var data := Load(blob);
      data := data.(months := data.months[m.month := m]);
      SaveData(data);
    }

    method AddEntry(key: string, e: Entry)
      modifies this
      ensures blob == Persist(WithEntryAdded(old(Data()), key, e))
      ensures Data() == WithEntryAdded(old(Data()), key, e)
    {
      var data := Load(blob);
      var month := GetMonth(data, key);
      month := month.(entries := [e] + month.entries);
      data := data.(months := data.months[key := month]);
      SaveData(data);
    }

    method UpdateEntry(key: string, e: Entry)
      modifies this
      ensures blob == Persist(WithEntryUpdated(old(Data()), key, e))
      ensures Data() == WithEntryUpdated(old(Data()), key, e)
    {
      var data := Load(blob);
      var month := GetMonth(data, key);
      month := month.(entries := ReplaceById(month.entries, e));
      data := data.(months := data.months[key := month]);
      SaveData(data);
    }

    method RemoveEntry(key: string, id: string)
      modifies this
      ensures blob == Persist(WithEntryRemoved(old(Data()), key, id))
      ensures Data() == WithEntryRemoved(old(Data()), key, id)
    {
      var data := Load(blob);
      var month := GetMonth(data, key);
      month := month.(entries := Filter(HasOtherId(id), month.entries));
      data := data.(months := data.months[key := month]);
      SaveData(data);
    }

    method SetCategories(categories: seq<string>)
      modifies this
      ensures blob == Persist(WithCategories(old(Data()), categories))
      ensures Data() == WithCategories(old(Data()), categories)
    {
      var data := Load(blob);
      data := data.(settings := data.settings.(categories := categories));
      SaveData(data);
    }

    /** `getCategories`: the stored list, or the defaults when nothing usable is stored. */
    method GetCategories() returns (categories: seq<string>)
      ensures categories == if blob.Parsed? && blob.settings.Some? then blob.settings.value.categories
                            else DefaultCategories()
    {
      categories := Load(blob).settings.categories;
    }
  }

  /** A client of the store: adding an entry puts it first in its bucket, and setting the
      categories is seen by the next read of them. */
  method StoreClient(store: Store, key: string, e: Entry, categories: seq<string>)
    modifies store
    ensures GetMonth(store.Data(), key).entries == [e] + GetMonth(old(store.Data()), key).entries
    ensures store.Data().settings.categories == categories
    ensures store.Data().months.Keys == old(store.Data().months.Keys) + {key}
  {
    store.AddEntry(key, e);
    store.SetCategories(categories);
    var read := store.GetCategories();
    assert read == categories;
  }
}
