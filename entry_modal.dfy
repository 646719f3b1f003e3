/** The entry form's submit handler of client/components/tracker/EntryModal.tsx: the
    validation, the first entry handed to the page's callback, and the recurring copies
    the form stores itself, one per following month. */
module EntryModal {
  import opened Collections
  import opened Ledger
  import opened MonthKeys
  import opened EntryViews

  /** The form's state when submit is pressed; `initial` is the entry being edited. */
  datatype Form = Form(
    kind: EntryType,
    date: string,
    category: string,
    note: string,
    amountText: string,
    planned: bool,
    recurring: bool,
    recurringMonths: string,
    initial: Option<Entry>)

  /** The library calls the handler makes: `parseFloat` and `parseInt` (`None` for NaN),
      `crypto.randomUUID` (the id drawn by call number `n`, 0 for the first entry and `i`
      for copy `i`), and the day part date-fns gives copy `i` after clamping. */
  datatype Oracles = Oracles(
    parseFloat: string -> Option<real>,
    parseInt: string -> Option<int>,
    uuid: nat -> string,
    copyDay: nat -> string)

  /** The validation: a category, a date and an amount that parses. */
  predicate Accepts(f: Form, o: Oracles) {
    f.category != "" && f.date != "" && o.parseFloat(f.amountText).Some?
  }

  /** `Math.max(1, parseInt(recurringMonths || "1", 10))`; `None` stands for NaN. */
  function MonthCount(f: Form, o: Oracles): (r: Option<int>)
    ensures r.Some? ==> r.value >= 1
  {
    var n := o.parseInt(if f.recurringMonths == "" then "1" else f.recurringMonths);
    if n.None? then None else Some(if n.value > 1 then n.value else 1)
  }

  /** The month of `parseISO(date)`, for dates that start with a "yyyy-MM" key. */
  function BaseMonth(date: string): Option<YearMonth> {
    if |date| >= 7 then Parse(date[..7]) else None
  }

  /** How many copies are stored: none unless recurring with a month count that parses;
      none when the base date is invalid, since formatting the first copy's date throws. */
  function CopyCount(f: Form, o: Oracles): nat {
    if BaseMonth(f.date).None? then 0 else LoopCount(f.recurring, MonthCount(f, o))
  }

  /** How many passes the copy loop makes for a month count of at least 1. */
  function LoopCount(recurring: bool, months: Option<int>): nat
    requires months.Some? ==> months.value >= 1
  {
    if !recurring || months.None? then 0 else months.value - 1
  }

  /** The entry handed to `onSubmit`: the edited entry's id or a fresh one, and the form's
      fields. */
  function FirstEntry(f: Form, amount: real, o: Oracles): Entry {
    Entry(if f.initial.Some? then f.initial.value.id else o.uuid(0),
          f.kind, f.date, f.category, f.note, amount, f.planned)
  }

  /** The bucket of copy `i`. */
  function CopyKey(base: YearMonth, i: int): string {
    Format(AddMonths(base, i))
  }

  /** Copy `i`: a fresh id, a date `i` months after the base date, the form's fields. */
  function Copy(f: Form, amount: real, base: YearMonth, o: Oracles, i: nat): Entry {
    Entry(o.uuid(i), f.kind, CopyKey(base, i) + "-" + o.copyDay(i), f.category, f.note, amount, f.planned)
  }

  /** `item(1)` to `item(n - 1)`, in order. */
  function Items<T>(item: nat -> T, n: nat): (r: seq<T>)
    ensures |r| == if n <= 1 then 0 else n - 1
    decreases n
  {
    if n <= 1 then [] else Items(item, n - 1) + [item(n - 1)]
  }

  lemma {:induction false} ItemsAt<T>(item: nat -> T, n: nat, j: nat)
    requires j < |Items(item, n)|
    ensures Items(item, n)[j] == item(j + 1)
    decreases n
  {
    if j < n - 2 {
      ItemsAt(item, n - 1, j);
    }
  }

  /** Copy `i` with its bucket. */
  function CopyItem(f: Form, amount: real, base: YearMonth, o: Oracles): nat -> (string, Entry) {
    (i: nat) => (CopyKey(base, i), Copy(f, amount, base, o, i))
  }

  /** Copies 1 to `n - 1` with their buckets, in the order the loop stores them. */
  function CopyPlan(f: Form, amount: real, base: YearMonth, o: Oracles, n: nat): seq<(string, Entry)> {
    Items(CopyItem(f, amount, base, o), n)
  }

  lemma CopyPlanAt(f: Form, amount: real, base: YearMonth, o: Oracles, n: nat, j: nat)
    requires j < |CopyPlan(f, amount, base, o, n)|
    ensures CopyPlan(f, amount, base, o, n)[j] == (CopyKey(base, j + 1), Copy(f, amount, base, o, j + 1))
  {
    ItemsAt(CopyItem(f, amount, base, o), n, j);
  }

  /** The store after `addEntry` on each pair in turn. */
  function Placed(d: AppData, ps: seq<(string, Entry)>): AppData
    decreases |ps|
  {
    if ps == [] then d
    else WithEntryAdded(Placed(d, ps[..|ps| - 1]), ps[|ps| - 1].0, ps[|ps| - 1].1)
  }

  /** The entries of `ps` bound for bucket `k`, latest first. */
  function PlacedIn(ps: seq<(string, Entry)>, k: string): seq<Entry>
    decreases |ps|
  {
    if ps == [] then []
    else (if ps[|ps| - 1].0 == k then [ps[|ps| - 1].1] else []) + PlacedIn(ps[..|ps| - 1], k)
  }

  /** The store after copies 1 to `n - 1`, each prepended to its bucket in turn. */
  function ApplyCopies(d: AppData, f: Form, amount: real, base: YearMonth, o: Oracles, n: nat): AppData {
    Placed(d, CopyPlan(f, amount, base, o, n))
  }

  /** The copies among 1 to `n - 1` that go to bucket `k`, latest first. */
  function CopiesFor(f: Form, amount: real, base: YearMonth, o: Oracles, k: string, n: nat): seq<Entry> {
    PlacedIn(CopyPlan(f, amount, base, o, n), k)
  }

  /** The page's callback: `onAdd` for a new entry, the edit handler when editing, both
      under the page's selected month. */
  function Submitted(d: AppData, key: string, f: Form, e: Entry): AppData {
    if f.initial.Some? then WithEntryUpdated(d, key, e) else WithEntryAdded(d, key, e)
  }

  /** The store after an accepted submit. */
  function Outcome(d: AppData, key: string, f: Form, o: Oracles): AppData
    requires Accepts(f, o)
  {
    var amount := o.parseFloat(f.amountText).value;
    var d1 := Submitted(d, key, f, FirstEntry(f, amount, o));
    var base := BaseMonth(f.date);
    if base.None? then d1 else ApplyCopies(d1, f, amount, base.value, o, CopyCount(f, o) + 1)
  }

  /** `handleSubmit`: nothing for invalid input; otherwise the first entry goes to the
      page's callback, then the loop stores the copies through `addEntry`. */
  method HandleSubmit(page: IndexPage, f: Form, o: Oracles) returns (first: Option<Entry>)
    modifies page, page.store
    ensures first.None? <==> !Accepts(f, o)
    ensures first.None? ==> page.store.blob == old(page.store.blob) && page.editing == old(page.editing)
    ensures first.Some? ==>
      && first.value == FirstEntry(f, o.parseFloat(f.amountText).value, o)
      && page.store.Data() == Outcome(old(page.store.Data()), old(page.monthKey), f, o)
      && page.editing == if f.initial.Some? then None else old(page.editing)
    ensures page.monthKey == old(page.monthKey)
  {
    var parsed := o.parseFloat(f.amountText);
    if f.category == "" || f.date == "" || parsed.None? {
      return None;
    }
    var base := BaseMonth(f.date);
    var months := MonthCount(f, o);
    var e := FirstEntry(f, parsed.value, o);
    if f.initial.Some? {
      page.OnEditSubmit(e);
    } else {
      page.OnAdd(e);
    }
    first := Some(e);
    StoreCopies(page.store, f, parsed.value, o, base, months);
  }

  /** The loop of `handleSubmit`: copy `i` goes to the bucket `i` months after the base
      date, for `i` from 1 while below the month count. */
  method StoreCopies(store: Store, f: Form, amount: real, o: Oracles, base: Option<YearMonth>, months: Option<int>)
    requires months.Some? ==> months.value >= 1
    modifies store
    ensures base.None? ==> store.Data() == old(store.Data())
    ensures base.Some? ==>
      store.Data() == ApplyCopies(old(store.Data()), f, amount, base.value, o, LoopCount(f.recurring, months) + 1)
  {
    ghost var d := store.Data();
    var i := 1;
    while f.recurring && months.Some? && i < months.value
      invariant if f.recurring && months.Some? then 1 <= i <= months.value else i == 1
      invariant base.None? ==> store.Data() == d
      invariant base.Some? ==> store.Data() == ApplyCopies(d, f, amount, base.value, o, i)
      decreases if months.Some? then months.value - i else 0
    {
      if base.None? {
        // `format` throws on the invalid date before the first copy is stored.
        return;
      }
      StoreCopy(store, d, f, amount, base.value, o, i);
      i := i + 1;
    }
    assert i == LoopCount(f.recurring, months) + 1;
  }

  /** One pass of the loop: `addEntry` of copy `i` to its bucket. */
  method StoreCopy(store: Store, ghost d: AppData, f: Form, amount: real, base: YearMonth, o: Oracles, i: nat)
    requires 1 <= i && store.Data() == ApplyCopies(d, f, amount, base, o, i)
    modifies store
    ensures store.Data() == ApplyCopies(d, f, amount, base, o, i + 1)
  {
    ghost var done := CopyPlan(f, amount, base, o, i);
    var key := CopyKey(base, i);
    var next := Copy(f, amount, base, o, i);
    store.AddEntry(key, next);
    assert CopyItem(f, amount, base, o)(i) == (key, next);
    assert CopyPlan(f, amount, base, o, i + 1) == done + [(key, next)];
    assert (done + [(key, next)])[..|done|] == done;
  }

  /** One `addEntry`, seen from bucket `k`. */
  lemma CopyStep(d: AppData, key: string, c: Entry, k: string)
    ensures GetMonth(WithEntryAdded(d, key, c), k).entries == (if k == key then [c] else []) + GetMonth(d, k).entries
  {
    if k != key {
      assert GetMonth(WithEntryAdded(d, key, c), k) == GetMonth(d, k);
    }
  }

  /** The keys a sequence of pairs stores into. */
  function PlanKeys(ps: seq<(string, Entry)>): set<string> {
    set j | 0 <= j < |ps| :: ps[j].0
  }

  /** Storing the pairs keeps the settings and adds the pairs' keys to the stored months. */
  lemma {:induction false} PlacedKeys(d: AppData, ps: seq<(string, Entry)>)
    ensures Placed(d, ps).settings == d.settings
    ensures Placed(d, ps).months.Keys == d.months.Keys + PlanKeys(ps)
    decreases |ps|
  {
    if ps != [] {
      var init := ps[..|ps| - 1];
      PlacedKeys(d, init);
      assert PlanKeys(ps) == PlanKeys(init) + {ps[|ps| - 1].0} by {
        forall x | x in PlanKeys(ps) ensures x in PlanKeys(init) + {ps[|ps| - 1].0} {
          var j :| 0 <= j < |ps| && ps[j].0 == x;
          if j < |ps| - 1 {
            assert init[j].0 == x;
          }
        }
        forall x | x in PlanKeys(init) ensures x in PlanKeys(ps) {
          var j :| 0 <= j < |init| && init[j].0 == x;
          assert ps[j].0 == x;
        }
      }
    }
  }

  /** Storing the pairs gives each bucket its own entries in front. */
  lemma {:induction false} PlacedEntries(d: AppData, ps: seq<(string, Entry)>, k: string)
    ensures GetMonth(Placed(d, ps), k).entries == PlacedIn(ps, k) + GetMonth(d, k).entries
    decreases |ps|
  {
    if ps != [] {
      var init := ps[..|ps| - 1];
      PlacedEntries(d, init, k);
      CopyStep(Placed(d, init), ps[|ps| - 1].0, ps[|ps| - 1].1, k);
    }
  }

  /** Every entry bound for bucket `k` comes from a pair with that key. */
  lemma {:induction false} PlacedInMember(ps: seq<(string, Entry)>, k: string, x: Entry)
    requires x in PlacedIn(ps, k)
    ensures exists j :: 0 <= j < |ps| && ps[j] == (k, x)
    decreases |ps|
  {
    var last := ps[|ps| - 1];
    if !(last.0 == k && x == last.1) {
      PlacedInMember(ps[..|ps| - 1], k, x);
      var j :| 0 <= j < |ps| - 1 && ps[..|ps| - 1][j] == (k, x);
      assert ps[j] == (k, x);
    }
  }

  /** With distinct keys, each pair's bucket gets exactly that pair's entry. */
  lemma {:induction false} PlacedInSingle(ps: seq<(string, Entry)>, j: nat)
    requires j < |ps|
    requires forall a, b :: 0 <= a < b < |ps| ==> ps[a].0 != ps[b].0
    ensures PlacedIn(ps, ps[j].0) == [ps[j].1]
    decreases |ps|
  {
    var init := ps[..|ps| - 1];
    if j == |ps| - 1 {
      PlacedInAbsent(init, ps[j].0);
    } else {
      assert init[j] == ps[j];
      PlacedInSingle(init, j);
    }
  }

  lemma {:induction false} PlacedInAbsent(ps: seq<(string, Entry)>, k: string)
    requires forall a :: 0 <= a < |ps| ==> ps[a].0 != k
    ensures PlacedIn(ps, k) == []
    decreases |ps|
  {
    if ps != [] {
      PlacedInAbsent(ps[..|ps| - 1], k);
    }
  }

  /** The copies change nothing but the buckets they go to: each bucket gets its own
      copies in front and the settings stay. */
  lemma ApplyCopiesMeaning(d: AppData, f: Form, amount: real, base: YearMonth, o: Oracles, n: nat)
    ensures ApplyCopies(d, f, amount, base, o, n).settings == d.settings
    ensures forall k :: GetMonth(ApplyCopies(d, f, amount, base, o, n), k).entries
                        == CopiesFor(f, amount, base, o, k, n) + GetMonth(d, k).entries
  {
    var plan := CopyPlan(f, amount, base, o, n);
    PlacedKeys(d, plan);
    forall k ensures GetMonth(Placed(d, plan), k).entries == PlacedIn(plan, k) + GetMonth(d, k).entries {
      PlacedEntries(d, plan, k);
    }
  }

  /** A month is stored afterwards exactly when it was stored before or is the bucket of
      one of copies 1 to `n - 1`. */
  lemma ApplyCopiesKeys(d: AppData, f: Form, amount: real, base: YearMonth, o: Oracles, n: nat, k: string)
    ensures k in ApplyCopies(d, f, amount, base, o, n).months
            <==> k in d.months || exists i :: 1 <= i < n && CopyKey(base, i) == k
  {
    var plan := CopyPlan(f, amount, base, o, n);
    PlacedKeys(d, plan);
    if k in PlanKeys(plan) {
      var j :| 0 <= j < |plan| && plan[j].0 == k;
      CopyPlanAt(f, amount, base, o, n, j);
    }
    if i :| 1 <= i < n && CopyKey(base, i) == k {
      CopyPlanAt(f, amount, base, o, n, i - 1);
      assert k in PlanKeys(plan);
    }
  }

  /** Every copy carries the form's type, category, note, amount and planned flag, a
      fresh id drawn for it, and a date inside the bucket it is stored in. */
  lemma CopiesCarryForm(f: Form, amount: real, base: YearMonth, o: Oracles, k: string, n: nat)
    ensures forall x :: x in CopiesFor(f, amount, base, o, k, n) ==>
      && x.kind == f.kind && x.category == f.category && x.note == f.note
      && x.amount == amount && x.planned == f.planned
      && |k| <= |x.date| && x.date[..|k|] == k
      && exists i :: 1 <= i < n && x.id == o.uuid(i) && k == CopyKey(base, i)
  {
    var plan := CopyPlan(f, amount, base, o, n);
    forall x | x in PlacedIn(plan, k)
      ensures && x.kind == f.kind && x.category == f.category && x.note == f.note
              && x.amount == amount && x.planned == f.planned
              && |k| <= |x.date| && x.date[..|k|] == k
              && exists i :: 1 <= i < n && x.id == o.uuid(i) && k == CopyKey(base, i)
    {
      PlacedInMember(plan, k, x);
      var j :| 0 <= j < |plan| && plan[j] == (k, x);
      CopyPlanAt(f, amount, base, o, n, j);
      assert x == Copy(f, amount, base, o, j + 1) && k == CopyKey(base, j + 1);
      assert x.date[..|k|] == k;
    }
  }

  /** Copies `a < b` of a base month from year 1 on go to different buckets. */
  lemma CopyKeysDiffer(base: YearMonth, a: int, b: int)
    requires ValidMonth(base) && 1 <= base.year && 0 <= a < b
    ensures CopyKey(base, a) != CopyKey(base, b)
  {
    var x, y := AddMonths(base, a), AddMonths(base, b);
    assert 1 <= x.year <= y.year;
    if CopyKey(base, a) == CopyKey(base, b) {
      FormatInjective(x, y);
    }
  }

  lemma PlanKeysDiffer(f: Form, amount: real, base: YearMonth, o: Oracles, n: nat, a: nat, b: nat)
    requires ValidMonth(base) && 1 <= base.year && a < b < n - 1
    ensures CopyPlan(f, amount, base, o, n)[a].0 != CopyPlan(f, amount, base, o, n)[b].0
  {
    var plan := CopyPlan(f, amount, base, o, n);
    assert plan[a].0 == CopyKey(base, a + 1) by {
      CopyPlanAt(f, amount, base, o, n, a);
    }
    assert plan[b].0 == CopyKey(base, b + 1) by {
      CopyPlanAt(f, amount, base, o, n, b);
    }
    assert CopyKey(base, a + 1) != CopyKey(base, b + 1) by {
      CopyKeysDiffer(base, a + 1, b + 1);
    }
  }

  /** From a base month in year 1 or later the copies' months are all different, so
      each following month's bucket gets exactly one copy. */
  lemma OneCopyPerMonth(f: Form, amount: real, base: YearMonth, o: Oracles, n: nat)
    requires ValidMonth(base) && 1 <= base.year && 1 < n
    ensures forall i :: 1 <= i < n ==> CopiesFor(f, amount, base, o, CopyKey(base, i), n) == [Copy(f, amount, base, o, i)]
  {
    var plan := CopyPlan(f, amount, base, o, n);
    forall a, b | 0 <= a < b < |plan| ensures plan[a].0 != plan[b].0 {
      PlanKeysDiffer(f, amount, base, o, n, a, b);
    }
    forall i | 1 <= i < n ensures CopiesFor(f, amount, base, o, CopyKey(base, i), n) == [Copy(f, amount, base, o, i)] {
      CopyPlanAt(f, amount, base, o, n, i - 1);
      PlacedInSingle(plan, i - 1);
    }
  }

  /** The page's callback changes only the page's bucket: a new entry goes in front, an
      edited one replaces the entries with its id. */
  lemma SubmittedBucket(d: AppData, key: string, f: Form, e: Entry, k: string)
    ensures Submitted(d, key, f, e).settings == d.settings
    ensures GetMonth(Submitted(d, key, f, e), k).entries ==
      if k != key then GetMonth(d, k).entries
      else if f.initial.Some? then ReplaceById(GetMonth(d, key).entries, e)
      else [e] + GetMonth(d, key).entries
  {
    if k != key {
      assert k in d.months ==> Submitted(d, key, f, e).months[k] == d.months[k];
    }
  }

  /** An accepted submit: the page's bucket gets the first entry (added in front, or
      replacing the entry with its id when editing), every bucket gets its copies in
      front, and the settings stay. */
  lemma OutcomeMeaning(d: AppData, key: string, f: Form, o: Oracles)
    requires Accepts(f, o)
    ensures var amount := o.parseFloat(f.amountText).value;
      var e := FirstEntry(f, amount, o);
      var r := Outcome(d, key, f, o);
      && r.settings == d.settings
      && (BaseMonth(f.date).None? ==> r == Submitted(d, key, f, e))
      && (BaseMonth(f.date).Some? ==> forall k ::
            GetMonth(r, k).entries ==
              CopiesFor(f, amount, BaseMonth(f.date).value, o, k, CopyCount(f, o) + 1)
              + (if k != key then GetMonth(d, k).entries
                 else if f.initial.Some? then ReplaceById(GetMonth(d, key).entries, e)
                 else [e] + GetMonth(d, key).entries))
  {
    var amount := o.parseFloat(f.amountText).value;
    var e := FirstEntry(f, amount, o);
    var d1 := Submitted(d, key, f, e);
    SubmittedBucket(d, key, f, e, key);
    if BaseMonth(f.date).Some? {
      ApplyCopiesMeaning(d1, f, amount, BaseMonth(f.date).value, o, CopyCount(f, o) + 1);
      forall k {
        SubmittedBucket(d, key, f, e, k);
      }
    }
  }
}
