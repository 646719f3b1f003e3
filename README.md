# Notebook Budget ledger, in Dafny

A model of the logic behind Notebook Budget, a browser budget notebook. It keeps income and
expense entries in month buckets keyed `"YYYY-MM"`, plus a global category list, and
persists them as one aggregate under one storage key. The model covers:

- the ledger (`client/lib/storage.ts`): loading with per-field defaults, saving, the
  read-modify-write operations on month buckets and categories, and the per-month
  totals (income and expense, each planned and actual, plus the nets);
- the budget overlay (`client/pages/BudgetPlanning.tsx`): the per-month budget list
  merged from the global categories, the planned entries and the saved budgets; the
  change-guarded write-back; the edits; and the derived views (actual amounts,
  comparison rows, total budget, spent and earned);
- the category editor (`client/pages/Settings.tsx`): trimmed de-duplicated append,
  drag-and-drop reorder by two in-place splices on an array, removal, and the
  structural check an import must pass before it overwrites the store;
- the analytics page (`client/pages/Analytics.tsx`): the six-month planned-net
  projection loop and the expense breakdown by category, sorted by value;
- the entries page (`client/pages/Index.tsx`): the date-sorted copy of a month, the
  non-planned view with its income/expense split, and the routing of add, delete and
  edit-submit to the store under the selected month;
- the entry form's submit handler (`client/components/tracker/EntryModal.tsx`):
  validation, the first entry (reusing the id when editing) and the loop that stores
  one recurring copy in each following month;
- the month selector (`client/components/tracker/MonthSelector.tsx`): previous and
  next month keys.

Files and modules:

| file | module | contents |
|---|---|---|
| `collections.dfy` | `Collections` | `Option`, `Array.prototype.filter` as `Filter`, `Array.from(new Set(..))` as `Dedup` |
| `month_keys.dfy` | `MonthKeys` | months, `addMonths`, the `yyyy-MM` format and parse, the selector's ◀/▶ |
| `ledger.dfy` | `Ledger` | entries, buckets, the aggregate, the `Store` class, `monthTotals` |
| `category_totals.dfy` | `CategoryTotals` | the `acc[c] = (acc[c] \|\| 0) + amount` fold into an insertion-ordered object |
| `budgets.dfy` | `Budgets` | the merge, edits, derived views, the `BudgetPlanner` page class |
| `category_settings.dfy` | `CategorySettings` | trim, add, remove, the array reorder, the `SettingsPage` class |
| `analytics.dfy` | `Analytics` | the projection loop and the sorted expense breakdown |
| `entry_views.dfy` | `EntryViews` | the date sort, the filtered views, the `IndexPage` class |
| `entry_modal.dfy` | `EntryModal` | `handleSubmit` and its recurring-copy loop |

Modelling choices:

- Amounts are exact `real`s. `x || 0` on a stored amount is the amount itself.
- The storage key's content is a `Blob`: absent, unparseable, or parsed with each of
  `months` and `settings` present or missing. It is the field of class `Ledger.Store`.
  `Load` is `loadData`, and every store method ensures its new content is
  `Persist(WithX(old data, ..))` for a pure `WithX`, about which the lemmas speak.
- A JavaScript object filled by `reduce` is a `Tally`: its keys in insertion order and a
  map. `Object.keys`/`Object.entries` follow that order.
- `parseFloat`, `parseInt` and `crypto.randomUUID` are oracles: functions passed in as
  parameters, `None` standing for `NaN`.
- The `budgets-<month>` keys are a map field of `Budgets.BudgetPlanner`.
- Where the source's date code throws on an invalid date (`format` of an Invalid Date),
  the model returns `None` or stops, as the exception would.

Behaviour of the source that the proofs make explicit:

- A budget removed on the budget page comes back on the next merge, reseeded from the
  plan, whenever its category is a global category or has planned entries
  (`Budgets.RefreshAfterRemove`).
- `addCat` also drops duplicates already present in the stored list, because the whole
  list goes through `new Set` (`CategorySettings.AddCategoryMeaning`).
- ◀ on `"0001-01"` yields `"0001-12"`: date-fns prints year 0 as era year 1, so ◀ then ▶
  does not return there (`MonthKeys.PrevOfFirstMonth`); ▶ from `"9999-12"` yields a
  five-digit year that no longer parses.
- `loadData` defaults `months` and `settings` each on its own, so a stored value missing
  one of them keeps the other (`Ledger.Load`).

## Model

| member | source | states |
|---|---|---|
| Collections.Filter | client/lib/storage.ts:100 | the filtered sequence is no longer than the input, holds only input elements satisfying the predicate, and holds every such element |
| Collections.FilterConcat | client/pages/BudgetPlanning.tsx:97 | filtering commutes with concatenation, so kept elements keep their relative order |
| Collections.FilterCount | client/pages/Settings.tsx:53 | each kept element occurs as often as in the input; each dropped one not at all |
| Collections.FilterMember | client/pages/BudgetPlanning.tsx:106 | membership in the filtered sequence is membership in the input plus the predicate, both directions |
| Collections.FilterPartition | client/pages/Index.tsx:40-41 | two filters with disagreeing predicates split the input as a multiset |
| Collections.DedupOntoFacts | client/pages/BudgetPlanning.tsx:56 | adding elements to an insertion-ordered set keeps the old set as prefix, holds exactly old plus new elements, and stays free of repeats |
| Collections.DedupFacts | client/pages/BudgetPlanning.tsx:56 | `Array.from(new Set(a + b))` is repeat-free, holds exactly the elements of `a` and `b`, and starts with the de-duplication of `a` |
| Collections.DedupAbsorbs | client/pages/BudgetPlanning.tsx:56 | de-duplicating `x` followed by a de-duplication of `x + z` reproduces that de-duplication |
| Collections.DedupAppend | client/pages/Settings.tsx:24 | on a repeat-free list, the set of list plus `v` is the list, with `v` appended exactly when it is new |
| Collections.DedupDistinct | client/pages/BudgetPlanning.tsx:56 | a repeat-free list is its own de-duplication |
| MonthKeys.FromOrdinal | client/components/tracker/MonthSelector.tsx:15 | the month with a given month count is a valid month with that count |
| MonthKeys.AddMonths | client/components/tracker/MonthSelector.tsx:19 | `addMonths` on day-01 dates gives a valid month exactly `k` months later |
| MonthKeys.OrdinalInjective | client/components/tracker/MonthSelector.tsx:10 | two valid months with the same month count are equal |
| MonthKeys.Next | client/components/tracker/MonthSelector.tsx:19 | the month after December is January of the next year, otherwise the next month of the same year |
| MonthKeys.Prev | client/components/tracker/MonthSelector.tsx:15 | the month before January is December of the previous year, otherwise the previous month of the same year |
| MonthKeys.Decimal | client/components/tracker/MonthSelector.tsx:11 | the decimal numeral of a year is all digits, with at least as many digits as the year's magnitude needs |
| MonthKeys.DecimalRoundTrip | client/components/tracker/MonthSelector.tsx:11 | the decimal numeral of a year reads back as that year |
| MonthKeys.YearTextInjective | client/components/tracker/MonthSelector.tsx:11 | different years from 1 on print differently, whether padded to four digits or longer |
| MonthKeys.FormatInjective | client/components/tracker/EntryModal.tsx:80 | different months of the years from 1 on have different keys |
| MonthKeys.FormatShape | client/components/tracker/MonthSelector.tsx:11 | every formatted month is in YYYY-MM form, exactly seven characters for years 1 to 9999 |
| MonthKeys.ParseFormat | client/components/tracker/MonthSelector.tsx:10-11 | parsing a formatted month of the years 1 to 9999 gives the month back |
| MonthKeys.FormatParse | client/components/tracker/MonthSelector.tsx:10-11 | formatting a parsed key gives the key back |
| MonthKeys.NextKeyMeaning | client/components/tracker/MonthSelector.tsx:10-19 | ▶ succeeds exactly on parseable keys, emits YYYY-MM form, and, whenever the successor is still in a four-digit year, names it with December rolling to January |
| MonthKeys.PrevKeyMeaning | client/components/tracker/MonthSelector.tsx:10-15 | ◀ succeeds exactly on parseable keys, emits YYYY-MM form, and, whenever the predecessor is in year 1 or later, names it with January rolling to December |
| MonthKeys.EdgeKeys | client/components/tracker/MonthSelector.tsx:11 | December 9999 prints as "9999-12", January 1 as "0001-01", December of year 0 as "0001-12" |
| MonthKeys.PrevAfterNext | client/components/tracker/MonthSelector.tsx:10-19 | ▶ then ◀ returns the original key, for every parseable key but "9999-12" |
| MonthKeys.NextAfterPrev | client/components/tracker/MonthSelector.tsx:10-19 | ◀ then ▶ returns the original key, for every parseable key but "0001-01" |
| MonthKeys.PrevOfFirstMonth | client/components/tracker/MonthSelector.tsx:15 | ◀ on "0001-01" yields "0001-12" |
| Ledger.Load | client/lib/storage.ts:50-61 | absent or unparseable storage gives no months and the default categories; a parsed value missing `settings` gets the defaults and one missing `months` gets none, each on its own |
| Ledger.PersistRoundTrip | client/lib/storage.ts:50-65 | loading what was saved gives the aggregate back; a complete stored value loaded and saved again is unchanged |
| Ledger.FirstLoad | client/lib/storage.ts:31-59 | the first load on a fresh or corrupt store gives no months and the ten default categories, distinct and in order |
| Ledger.GetMonth | client/lib/storage.ts:71-73 | the stored bucket if present, else an empty bucket with that key; the aggregate is not changed |
| Ledger.WithBucket | client/lib/storage.ts:83-86 | a bucket write changes only that bucket, creating it if absent, and sets its entries |
| Ledger.WithMonth | client/lib/storage.ts:75-79 | `upsertMonth` stores the bucket under its own month and leaves the other buckets and settings |
| Ledger.WithEntryAdded | client/lib/storage.ts:81-87 | the bucket's entries become the entry followed by the old entries; nothing else changes; an absent bucket is created |
| Ledger.ReplaceById | client/lib/storage.ts:92 | same length; each position holds the new entry where the id matched and the old entry elsewhere |
| Ledger.WithEntryUpdated | client/lib/storage.ts:89-95 | only the bucket changes (materialised if absent), its entries replaced by id |
| Ledger.WithEntryRemoved | client/lib/storage.ts:97-103 | only the bucket changes (materialised if absent), keeping the entries with other ids |
| Ledger.WithCategories | client/lib/storage.ts:105-109 | the categories are replaced and the months unchanged |
| Ledger.UpdateWithoutMatch | client/lib/storage.ts:92 | an update whose id matches nothing leaves the entries as they were |
| Ledger.UpdateMeaning | client/lib/storage.ts:89-95 | after an update, the bucket has its old length, the new entry where the id matched, and the old entries elsewhere |
| Ledger.RemoveMeaning | client/lib/storage.ts:97-103 | after a removal, the bucket holds exactly the entries with other ids, each as often as before |
| Ledger.UpdateAfterRemove | client/lib/storage.ts:89-103 | removing an id and then updating with that id leaves the bucket as the removal left it |
| Ledger.RemoveAfterAdd | client/lib/storage.ts:81-103 | adding an entry with a new id and then removing that id restores the bucket's entries |
| Ledger.FoldSumsMeaning | client/lib/storage.ts:116-131 | the reduce adds to its accumulator exactly the four sums by type and planned flag |
| Ledger.MonthTotalsMeaning | client/lib/storage.ts:115-137 | each total is the sum over its own type and flag; the nets are income minus expense, planned and actual |
| Ledger.BucketsCoverAll | client/lib/storage.ts:116-131 | the four sums together are the sum of all amounts, so each amount is counted exactly once |
| Ledger.EntryCountsOnce | client/lib/storage.ts:116-131 | a new entry raises exactly the total of its own type and flag by its amount; the other totals stay |
| Ledger.EmptyMonthTotals | client/lib/storage.ts:115-137 | an empty bucket totals zero everywhere |
| Ledger.SampleMonthTotals | client/lib/storage.ts:115-137 | a worked month: actual net 38000 and planned net 50000 |
| Ledger.Store.constructor | client/lib/storage.ts:52 | the store starts with the given stored value |
| Ledger.Store.SaveData | client/lib/storage.ts:63-65 | after saving, the store holds the aggregate in full and loads it back unchanged |
| Ledger.Store.UpsertMonth | client/lib/storage.ts:75-79 | the stored value becomes the save of `WithMonth` on the previous load |
| Ledger.Store.AddEntry | client/lib/storage.ts:81-87 | the stored value becomes the save of `WithEntryAdded` on the previous load |
| Ledger.Store.UpdateEntry | client/lib/storage.ts:89-95 | the stored value becomes the save of `WithEntryUpdated` on the previous load |
| Ledger.Store.RemoveEntry | client/lib/storage.ts:97-103 | the stored value becomes the save of `WithEntryRemoved` on the previous load |
| Ledger.Store.SetCategories | client/lib/storage.ts:105-109 | the stored value becomes the save of `WithCategories` on the previous load |
| Ledger.Store.GetCategories | client/lib/storage.ts:111-113 | the stored categories, or the defaults when none are stored |
| Ledger.StoreClient | client/lib/storage.ts:81-113 | after an add and a category update, the entry leads its bucket, the next read returns the categories just set, and only the bucket's key is added |
| CategoryTotals.FoldMeaning | client/pages/BudgetPlanning.tsx:48-51 | the reduce keeps the object well formed, adds new categories as keys in first-seen order, and adds each entry's amount under its category |
| CategoryTotals.ByCategoryMeaning | client/pages/BudgetPlanning.tsx:105-110 | each category of the entries is a key exactly once, in first-seen order, valued at that category's sum |
| CategoryTotals.SumSelectedConcat | client/pages/BudgetPlanning.tsx:124-126 | a sum over keys splits over concatenated key lists |
| CategoryTotals.SumSelectedChange | client/pages/BudgetPlanning.tsx:108 | changing one key's value changes a sum over distinct keys by the change exactly when that key is selected |
| CategoryTotals.BumpSelected | client/pages/BudgetPlanning.tsx:108 | one reduce step raises the selected sum by the amount exactly when its category is selected |
| CategoryTotals.FoldSelected | client/pages/BudgetPlanning.tsx:107-110 | summing the selected keys after the reduce adds the selected entries' amounts |
| CategoryTotals.ByCategorySelected | client/pages/BudgetPlanning.tsx:124-129 | summing the per-category totals over selected categories equals summing the selected entries directly |
| Budgets.PlannedTotalsMeaning | client/pages/BudgetPlanning.tsx:46-51 | the planned totals hold exactly the categories with a planned entry, each once, valued at the sum of that category's planned amounts |
| Budgets.FindSaved | client/pages/BudgetPlanning.tsx:58 | the lookup fails exactly when the category is not saved; a found amount is that of the first saved record of the category |
| Budgets.FindDistinct | client/pages/BudgetPlanning.tsx:58 | in a list naming each category once, the lookup finds that category's record |
| Budgets.FindSavedAppend | client/pages/BudgetPlanning.tsx:58 | a record appended behind one of the same category is never found, so the lookup of every category is unchanged |
| Budgets.Merge | client/pages/BudgetPlanning.tsx:56-62 | the merged list names exactly the de-duplicated global, planned and saved categories |
| Budgets.MergeMeaning | client/pages/BudgetPlanning.tsx:56-61 | each global, planned and saved category appears exactly once, global categories first in order; each amount is the saved one if above zero, else the planned sum |
| Budgets.MergeNothingSaved | client/pages/BudgetPlanning.tsx:56-62 | with nothing saved, the categories free of repeats and every planned category already among them, the merge keeps the categories in order and reads each amount from the planned totals |
| Budgets.MergeIgnoresRepeat | client/pages/BudgetPlanning.tsx:56-94 | a budget added for a category that is already saved leaves the next merge unchanged: the first record's amount wins and the new one is dropped |
| Budgets.ReMerge | client/pages/BudgetPlanning.tsx:56-62 | re-merging with a list over the merged categories keeps the categories, keeps amounts above zero, and reseeds the others from the plan |
| Budgets.MergeFixedPoint | client/pages/BudgetPlanning.tsx:56-69 | the merge fed its own output as the saved list returns that output, so the change guard stops writing |
| Budgets.SetAmount | client/pages/BudgetPlanning.tsx:78-83 | same categories and order; records of other categories unchanged; records of the category get the amount |
| Budgets.WithoutBudget | client/pages/BudgetPlanning.tsx:96-98 | the category is gone; every record of another category stays, as often as before; nothing new appears |
| Budgets.WithoutBudgetConcat | client/pages/BudgetPlanning.tsx:96-98 | removal works piece by piece along the list, so the remaining records keep their order |
| Budgets.WithoutBudgetSingle | client/pages/BudgetPlanning.tsx:96-98 | a single record stays exactly when it belongs to another category |
| Budgets.RefreshAfterEdit | client/pages/BudgetPlanning.tsx:56-83 | an amount edited above zero survives the next merge; one edited to zero or below falls back to the planned sum; nothing else moves |
| Budgets.RefreshAfterRemove | client/pages/BudgetPlanning.tsx:56-98 | a removed budget returns on the next merge, reseeded from the plan, exactly when its category is global or planned |
| Budgets.Compare | client/pages/BudgetPlanning.tsx:115-119 | a row keeps the category, budget and actual amount; remaining is never negative, at least budget minus actual, zero exactly when the actual reaches the budget, and the rest of the budget otherwise |
| Budgets.ComparisonData | client/pages/BudgetPlanning.tsx:114-121 | rows exist exactly for the budgets above zero, each the comparison of a budget record |
| Budgets.ComparisonDataConcat | client/pages/BudgetPlanning.tsx:114-121 | the rows follow the budgets' order, piece by piece |
| Budgets.ComparisonDataSingle | client/pages/BudgetPlanning.tsx:114-121 | a single budget gives its comparison row exactly when its amount is above zero |
| Budgets.TotalBudgetAppend | client/pages/BudgetPlanning.tsx:123 | appending a record raises the total budget by its amount |
| Budgets.TotalBudgetRemove | client/pages/BudgetPlanning.tsx:123 | removing a category lowers the total budget by exactly its records' amounts |
| Budgets.TotalBudgetSet | client/pages/BudgetPlanning.tsx:123 | setting a category's amount replaces its contribution to the total and leaves the rest |
| Budgets.BudgetOfSet | client/pages/BudgetPlanning.tsx:79-81 | in a list naming each category once, the edited category contributes the new amount, or nothing when absent |
| Budgets.AmountSplit | client/pages/BudgetPlanning.tsx:124-129 | two complementary category selections split the sum of all amounts |
| Budgets.SpentEarnedSplit | client/pages/BudgetPlanning.tsx:102-129 | earned is the sum of actual Salary and Freelance amounts, spent the sum of the other actual amounts, and together they are every actual amount |
| Budgets.SeedFromPlan | client/pages/BudgetPlanning.tsx:46-62 | a planned Food entry of 1000 with no saved budgets gives one record per default category, in order: Food, the third default, at 1000 and every other default at 0 |
| Budgets.BudgetPlanner.constructor | client/pages/BudgetPlanning.tsx:17-22 | the page starts with the stored categories, no budgets and empty inputs |
| Budgets.BudgetPlanner.Refresh | client/pages/BudgetPlanning.tsx:42-70 | the page shows the merge; it is written to the month's saved budgets exactly when it differs from what was shown |
| Budgets.BudgetPlanner.SaveBudgets | client/pages/BudgetPlanning.tsx:73-76 | the list is shown and saved under the selected month |
| Budgets.BudgetPlanner.UpdateBudget | client/pages/BudgetPlanning.tsx:78-83 | the shown and saved list becomes `SetAmount` of the old one |
| Budgets.BudgetPlanner.AddNewBudget | client/pages/BudgetPlanning.tsx:85-94 | a no-op for an empty category, empty amount or NaN; otherwise appends one record, saves, and clears the inputs |
| Budgets.BudgetPlanner.RemoveBudget | client/pages/BudgetPlanning.tsx:96-99 | the shown and saved list becomes `WithoutBudget` of the old one |
| Budgets.BudgetPlanner.EditNewBudget | client/pages/BudgetPlanning.tsx:195-209 | the two add-form inputs take the typed values; nothing else changes |
| Budgets.BudgetPlanner.SelectMonth | client/pages/BudgetPlanning.tsx:132 | the selected month changes and nothing else |
| Budgets.RefreshTwice | client/pages/BudgetPlanning.tsx:64-70 | after one merge is applied, the next run of the effect changes nothing |
| CategorySettings.TrimStart | client/pages/Settings.tsx:22 | the result is a suffix after leading white space, and does not start with white space |
| CategorySettings.TrimEnd | client/pages/Settings.tsx:22 | the result is a prefix before trailing white space, and does not end with white space |
| CategorySettings.TrimMeaning | client/pages/Settings.tsx:22 | the trimmed string is the middle of the input between white space; it neither starts nor ends with white space; it is empty exactly for all-white input |
| CategorySettings.TrimIdempotent | client/pages/Settings.tsx:22 | trimming twice is trimming once |
| CategorySettings.AddCategoryMeaning | client/pages/Settings.tsx:21-28 | blank input is refused exactly; otherwise every old category and the trimmed input appear once, old order first; on a repeat-free list the input is appended exactly when new |
| CategorySettings.RemoveCategory | client/pages/Settings.tsx:53 | every occurrence of the category goes; every other category keeps its count |
| CategorySettings.RemoveCategoryConcat | client/pages/Settings.tsx:53 | removal works piece by piece along the list, so the remaining categories keep their order |
| CategorySettings.RemoveCategorySingle | client/pages/Settings.tsx:53 | a single category stays exactly when it is not the one removed |
| CategorySettings.Moved | client/pages/Settings.tsx:45-47 | the reordered list has the old length |
| CategorySettings.MovedAt | client/pages/Settings.tsx:45-47 | each position of the reordered list, stated by cases on the drag and drop indices |
| CategorySettings.MovedPlaces | client/pages/Settings.tsx:45-47 | the dragged element lands at the drop index, and the other elements keep their relative order |
| CategorySettings.MovedPermutation | client/pages/Settings.tsx:45-47 | the reorder is a permutation |
| CategorySettings.MovedUndo | client/pages/Settings.tsx:40-50 | dragging the element back from the drop index to its old index restores the list |
| CategorySettings.SpliceOut | client/pages/Settings.tsx:46 | `splice(from, 1)` in place on an array: the first slots hold the list without that element |
| CategorySettings.SpliceIn | client/pages/Settings.tsx:47 | `splice(to, 0, x)` in place on an array: `x` inserted at `to` |
| CategorySettings.Reorder | client/pages/Settings.tsx:45-47 | the array copy with its two splices computes `Moved` |
| CategorySettings.SettingsPage.constructor | client/pages/Settings.tsx:12-19 | the page starts with the stored categories, an empty input and no drag source |
| CategorySettings.SettingsPage.TypeCategory | client/pages/Settings.tsx:134 | the input takes the typed text; nothing else changes |
| CategorySettings.SettingsPage.AddCat | client/pages/Settings.tsx:21-28 | blank input changes nothing; otherwise the page and the store get `AddCategory` and the input is cleared |
| CategorySettings.SettingsPage.OnDragStart | client/pages/Settings.tsx:31-35 | the drag source is recorded |
| CategorySettings.SettingsPage.OnDrop | client/pages/Settings.tsx:40-50 | the drag source is cleared; with no source or a drop on itself nothing changes; otherwise the page and the store get the moved list |
| CategorySettings.SettingsPage.RemoveCat | client/pages/Settings.tsx:52-56 | the page and the store get `RemoveCategory` of the list |
| CategorySettings.SettingsPage.ImportData | client/pages/Settings.tsx:83-89 | a value is saved exactly when it has both `months` and `settings`, and the page then shows its categories; otherwise store and page are untouched |
| Analytics.NextMonths | client/pages/Analytics.tsx:18-29 | the counted loop computes the six-point projection; it fails exactly on an unparseable key |
| Analytics.ProjectionMeaning | client/pages/Analytics.tsx:18-28 | six points: the selected month and the five consecutive months after it, each named by its month and valued at its planned net; a month without a bucket gives 0 |
| Analytics.PairsOf | client/pages/Analytics.tsx:44-45 | one slice per key, in key order, with that key's value |
| Analytics.InsertCount | client/pages/Analytics.tsx:46 | one insertion step adds exactly its element |
| Analytics.InsertSorted | client/pages/Analytics.tsx:46 | inserting into a list sorted by value, non-increasing, keeps it sorted |
| Analytics.InsertNoDup | client/pages/Analytics.tsx:46 | inserting a new element into a repeat-free list keeps it repeat-free |
| Analytics.SortDescFacts | client/pages/Analytics.tsx:46 | the sort orders by value, non-increasing, and is a permutation |
| Analytics.SortDescNoDup | client/pages/Analytics.tsx:46 | the sort keeps a repeat-free list repeat-free |
| Analytics.InsertTotal | client/pages/Analytics.tsx:46 | one insertion step adds its value to the total |
| Analytics.SortDescTotal | client/pages/Analytics.tsx:46 | the sort keeps the total |
| Analytics.PairsTotal | client/pages/Analytics.tsx:44-45 | the slices of a tally sum to the sum of its values |
| Analytics.ExpenseTotal | client/pages/Analytics.tsx:38 | the expense entries sum to the planned plus the actual expense sums |
| Analytics.CategoryDataSorted | client/pages/Analytics.tsx:37-47 | the breakdown is sorted by value, non-increasing, and names each category once |
| Analytics.DistinctLabels | client/pages/Analytics.tsx:44-46 | a repeat-free reordering of a tally's slices names each key once |
| Analytics.SlicesOfTally | client/pages/Analytics.tsx:44-45 | a reordering of a tally's slices names exactly its keys, each with its value |
| Analytics.ExpenseCategories | client/pages/Analytics.tsx:38-42 | the tally's keys are exactly the categories of the expense entries |
| Analytics.CategoryDataSlices | client/pages/Analytics.tsx:37-47 | a slice exists exactly for each category with an expense entry, planned or actual, valued at that category's expense sum |
| Analytics.CategoryDataTotal | client/pages/Analytics.tsx:37-47 | the slices sum to the month's planned plus actual expense totals |
| EntryViews.StrLeTotal | client/pages/Index.tsx:36 | any two dates are comparable |
| EntryViews.StrLeTrans | client/pages/Index.tsx:36 | the date order is transitive |
| EntryViews.InsertByDateCount | client/pages/Index.tsx:36 | one insertion step adds exactly its entry |
| EntryViews.InsertByDateSorted | client/pages/Index.tsx:36 | inserting into a date-sorted list keeps it sorted |
| EntryViews.SortByDateFacts | client/pages/Index.tsx:36 | the sort orders by date ascending and is a permutation |
| EntryViews.FilterSortedByDate | client/pages/Index.tsx:39-41 | filtering keeps the date order |
| EntryViews.SortedEntriesMeaning | client/pages/Index.tsx:35-37 | the sorted view is a date-ordered permutation of the month's entries |
| EntryViews.VisibleEntriesMeaning | client/pages/Index.tsx:39 | the visible entries are date-ordered and are exactly the non-planned entries, each as often as stored |
| EntryViews.IncomeExpenseSplit | client/pages/Index.tsx:40-41 | incomes hold only income entries and expenses only expense entries, both date-ordered, and together they are the visible entries |
| EntryViews.IndexPage.constructor | client/pages/Index.tsx:14-17 | the page starts on the given month with nothing being edited |
| EntryViews.IndexPage.SelectMonth | client/pages/Index.tsx:63 | the selected month changes and the edited entry stays |
| EntryViews.IndexPage.OnAdd | client/pages/Index.tsx:43-46 | the entry is added to the selected month's bucket, whatever its date |
| EntryViews.IndexPage.OnEdit | client/pages/Index.tsx:48-50 | the edit form opens on the entry |
| EntryViews.IndexPage.OnDelete | client/pages/Index.tsx:51-54 | the id is removed from the selected month's bucket |
| EntryViews.IndexPage.OnEditSubmit | client/pages/Index.tsx:134-138 | the entry is updated in the selected month's bucket and editing ends |
| EntryModal.MonthCount | client/components/tracker/EntryModal.tsx:56 | a parsed month count is at least 1 |
| EntryModal.CopyPlanAt | client/components/tracker/EntryModal.tsx:69-82 | the `j`-th stored copy is copy `j + 1`, bound for the month `j + 1` months after the base |
| EntryModal.HandleSubmit | client/components/tracker/EntryModal.tsx:52-84 | invalid input stores nothing, submits nothing and leaves the edit state alone; otherwise the first entry is submitted to the page, an edit closes the edit form, and the store ends as `Outcome` |
| EntryModal.StoreCopies | client/components/tracker/EntryModal.tsx:69-82 | the loop stores copies 1 to n-1, n-1 being 0 unless recurring with a parsed count; an invalid base date stores nothing |
| EntryModal.StoreCopy | client/components/tracker/EntryModal.tsx:70-81 | one pass adds copy `i` to its month |
| EntryModal.CopyStep | client/components/tracker/EntryModal.tsx:81 | one `addEntry` prepends to its own bucket and leaves every other bucket |
| EntryModal.PlacedKeys | client/components/tracker/EntryModal.tsx:69-82 | storing copies keeps the settings and adds exactly their months to the stored months |
| EntryModal.PlacedEntries | client/components/tracker/EntryModal.tsx:69-82 | storing copies puts each month's own copies in front of its old entries |
| EntryModal.PlacedInMember | client/components/tracker/EntryModal.tsx:80-81 | every copy in a bucket was stored under that bucket's key |
| EntryModal.PlacedInSingle | client/components/tracker/EntryModal.tsx:80-81 | with distinct keys, each key's bucket gets exactly its copy |
| EntryModal.PlacedInAbsent | client/components/tracker/EntryModal.tsx:80-81 | a bucket no copy is bound for gets none |
| EntryModal.ApplyCopiesMeaning | client/components/tracker/EntryModal.tsx:69-82 | the copies keep the settings and put into each month exactly its own copies, in front |
| EntryModal.ApplyCopiesKeys | client/components/tracker/EntryModal.tsx:69-82 | a month is stored afterwards exactly when it was before or is the month of some copy 1 to n-1 |
| EntryModal.CopiesCarryForm | client/components/tracker/EntryModal.tsx:69-82 | each copy has the form's type, category, note, amount and planned flag, a freshly drawn id, and a date inside its month |
| EntryModal.CopyKeysDiffer | client/components/tracker/EntryModal.tsx:70-80 | from a base month in year 1 or later, different copies go to different months |
| EntryModal.PlanKeysDiffer | client/components/tracker/EntryModal.tsx:69-80 | from a base month in year 1 or later, the stored copies' months are pairwise different |
| EntryModal.OneCopyPerMonth | client/components/tracker/EntryModal.tsx:69-82 | from a base month in year 1 or later, each of the n-1 following months gets exactly one copy |
| EntryModal.SubmittedBucket | client/components/tracker/EntryModal.tsx:67 | the page's callback changes only the selected month: a new entry in front, an edited one replacing its id |
| EntryModal.OutcomeMeaning | client/components/tracker/EntryModal.tsx:52-84 | an accepted submit keeps the settings; the selected month gets the first entry; every month gets its copies in front |

## Left out

- Browser storage and JSON: the stored text is a `Blob` value, and parsing is only
  "parses or not, with each top-level field present or missing". The shapes inside a
  parsed value are taken as well-typed.
- `exportData`, the file reading of `importData`, the status messages and their
  timers, and `clearAllData`: these are file, DOM and timer I/O.
- The `storage` event listeners and version counters: cross-tab notification has
  nothing sequential to prove. React state, effects, memoisation and rendering are
  reduced to explicit state and methods.
- `client/lib/currency.ts` and `client/lib/resizeObserverFix.ts`: currency display and
  a browser patch.
- IEEE-754 arithmetic: amounts are exact reals, so rounding, `NaN` amounts and `-0`
  versus `0` in the JSON comparison of `Budgets.BudgetPlanner.Refresh` are not modelled.
- `crypto.randomUUID`, `parseFloat` and `parseInt` are oracles. Fresh ids are not
  assumed distinct from stored ids, so no property relies on it.
- Budgets.BudgetPlanner.Refresh: the saved list is compared by value equality rather
  than by its JSON text.
- The exact day of a recurring copy after date-fns clamps it: the day part is an
  oracle, and only the month is modelled.
- EntryModal.BaseMonth: reads only the `yyyy-MM` prefix of the date. The day's
  validation by `parseISO`, and the other ISO formats it accepts, are not modelled.
- MonthKeys.Parse: accepts exactly four year digits naming a year from 1 to 9999 and
  exactly two month digits. Date-fns' handling of other year spellings, and of a
  one-digit month such as "2024-3", is not modelled; those keys count as invalid.
- EntryModal.StoreCopies, EntryModal.OneCopyPerMonth: JavaScript dates end in year
  275760, past which `addMonths` and `format` fail. The model's months are unbounded,
  so copies that far out are not modelled as failing.
- CategoryTotals.Lookup, CategoryTotals.Bump: the source's tallies are plain `{}`
  objects, so a category named after an inherited member such as "constructor" or
  "toString" reads a function through `acc[c] || 0` and its sum turns into a string,
  and "__proto__" is never stored as a key. The model's tallies are plain maps. The
  `plannedTotals[cat] || 0` lookup of the budget merge is affected the same way.
- `Object.keys` order: JavaScript lists integer-like keys first, in numeric order. The
  model keeps plain insertion order, which matches for the non-numeric category names.
- `localeCompare` on dates is modelled as code-point order, which agrees with it on
  `yyyy-MM-dd` strings.
- Analytics.MonthAbbrev: the English short month names only; other locales are not
  modelled.
- CategorySettings.SettingsPage.OnDrop: requires a recorded drag index still inside the
  list. A stale index after a removal makes the source's splice insert `undefined`,
  which is not modelled.
- CategorySettings.SettingsPage.OnDragStart: requires the index to be inside the list,
  as for a rendered row.
- The open and closed state of the entry form's dialog, and the reset of its fields
  when it opens.
- The sorts' stability is part of the definitions (`Analytics.SortDesc`,
  `EntryViews.SortByDate` insert before the first element that is not smaller), but no
  lemma states it separately.
