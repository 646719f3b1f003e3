/** The category editor and the import of client/pages/Settings.tsx: a trimmed,
    de-duplicated append, a drag-and-drop reorder, a removal, and the structural check
    that guards an import. Each change is written through to the ledger store. */
module CategorySettings {
  import opened Collections
  import opened Ledger

  // ---------------------------------------------------------------------------
  // String.prototype.trim

  /** The characters `trim` strips: the ECMAScript white space (tab, vertical tab, form
      feed, space, no-break space, byte order mark and the other space separators) and
      the line terminators. */
  predicate IsSpace(c: char) {
    || c == '\t' || c == '\U{000B}' || c == '\U{000C}' || c == ' ' || c == '\U{00A0}' || c == '\U{FEFF}'
    || c == '\U{1680}' || ('\U{2000}' <= c <= '\U{200A}') || c == '\U{202F}' || c == '\U{205F}'
    || c == '\U{3000}'
    || c == '\n' || c == '\r' || c == '\U{2028}' || c == '\U{2029}'
  }

  predicate AllSpace(s: string) {
    forall i :: 0 <= i < |s| ==> IsSpace(s[i])
  }

  /** Drops the leading white space. */
  function TrimStart(s: string): (r: string)
    ensures |r| <= |s| && r == s[|s| - |r|..]
    ensures AllSpace(s[..|s| - |r|])
    ensures r == [] || !IsSpace(r[0])
  {
    if s != [] && IsSpace(s[0]) then TrimStart(s[1..]) else s
  }

  /** Drops the trailing white space. */
  function TrimEnd(s: string): (r: string)
    ensures |r| <= |s| && r == s[..|r|]
    ensures AllSpace(s[|r|..])
    ensures r == [] || !IsSpace(r[|r| - 1])
  {
    if s != [] && IsSpace(s[|s| - 1]) then TrimEnd(s[..|s| - 1]) else s
  }

  /** `s.trim()`. */
  function Trim(s: string): string {
    TrimEnd(TrimStart(s))
  }

  /** The trimmed string is the middle part of `s` between white space at both ends,
      itself neither starting nor ending with white space, and empty exactly when `s`
      is all white space. */
  lemma TrimMeaning(s: string)
    ensures var r := Trim(s);
      && (exists i, j :: 0 <= i <= j <= |s| && r == s[i..j] && AllSpace(s[..i]) && AllSpace(s[j..]))
      && (r != [] ==> !IsSpace(r[0]) && !IsSpace(r[|r| - 1]))
      && (r == [] <==> AllSpace(s))
  {
    var t := TrimStart(s);
    TrimPieces(s, t, TrimEnd(t));
  }

  /** The same, for any `t` and `r` with the properties of the two one-sided trims. */
  lemma TrimPieces(s: string, t: string, r: string)
    requires |t| <= |s| && t == s[|s| - |t|..] && AllSpace(s[..|s| - |t|]) && (t == [] || !IsSpace(t[0]))
    requires |r| <= |t| && r == t[..|r|] && AllSpace(t[|r|..]) && (r == [] || !IsSpace(r[|r| - 1]))
    ensures && (exists i, j :: 0 <= i <= j <= |s| && r == s[i..j] && AllSpace(s[..i]) && AllSpace(s[j..]))
            && (r != [] ==> !IsSpace(r[0]) && !IsSpace(r[|r| - 1]))
            && (r == [] <==> AllSpace(s))
  {
    SliceOfSuffix(s, t, r);
    var i := |s| - |t|;
    var j := i + |r|;
    assert r == s[i..j] && AllSpace(s[..i]) && AllSpace(s[j..]);
    if r == [] {
      AllSpaceJoin(s, i);
    } else {
      assert r[0] == t[0] == s[i];
    }
  }

  /** A prefix `r` of a suffix `t` of `s` is a slice of `s`. */
  lemma SliceOfSuffix(s: string, t: string, r: string)
    requires |t| <= |s| && t == s[|s| - |t|..] && |r| <= |t| && r == t[..|r|]
    ensures var i := |s| - |t|;
      && r == s[i..i + |r|] && s[i + |r|..] == t[|r|..] && (r != [] ==> r[0] == s[i])
  {
    var i := |s| - |t|;
    assert s[i..][..|r|] == s[i..i + |r|];
    assert s[i..][|r|..] == s[i + |r|..];
  }

  /** White space on both sides of a cut is white space throughout. */
  lemma AllSpaceJoin(s: string, i: nat)
    requires i <= |s| && AllSpace(s[..i]) && AllSpace(s[i..])
    ensures AllSpace(s)
  {
    forall k | 0 <= k < |s| ensures IsSpace(s[k]) {
      if k < i {
        assert s[k] == s[..i][k];
      } else {
        assert s[k] == s[i..][k - i];
      }
    }
  }

  /** Trimming twice is trimming once. */
  lemma TrimIdempotent(s: string)
    ensures Trim(Trim(s)) == Trim(s)
  {
    var r := Trim(s);
    TrimMeaning(s);
    if r != [] {
      assert TrimStart(r) == r;
      assert TrimEnd(r) == r;
    }
  }

  // ---------------------------------------------------------------------------
  // The list edits

  /** `addCat`: nothing for blank input; otherwise the trimmed input goes through
      `Array.from(new Set([...categories, v]))`. */
  function AddCategory(categories: seq<string>, input: string): Option<seq<string>> {
    var v := Trim(input);
    if v == [] then None else Some(Dedup(categories + [v]))
  }

  /** The append is refused exactly for blank input; otherwise the list holds every old
      category and the trimmed input, each once, with the old order first. On a list
      without repeats it is the old list, plus the input at the end if it is new. */
  lemma AddCategoryMeaning(categories: seq<string>, input: string)
    ensures AddCategory(categories, input).None? <==> AllSpace(input)
    ensures var r := AddCategory(categories, input);
      r.Some? ==>
        && NoDup(r.value)
        && (forall c :: c in r.value <==> c in categories || c == Trim(input))
        && |Dedup(categories)| <= |r.value| && r.value[..|Dedup(categories)|] == Dedup(categories)
    ensures var r := AddCategory(categories, input);
      r.Some? && NoDup(categories) ==>
        r.value == if Trim(input) in categories then categories else categories + [Trim(input)]
  {
    var v := Trim(input);
    TrimMeaning(input);
    if v != [] {
      DedupFacts(categories, [v]);
      if NoDup(categories) {
        DedupAppend(categories, v);
      }
    }
  }

  function IsOther(c: string): string -> bool {
    (x: string) => x != c
  }

  /** `removeCat`: every occurrence of `c` goes, the rest stay in order. */
  function RemoveCategory(categories: seq<string>, c: string): (r: seq<string>)
    ensures c !in r
    ensures forall x :: x != c ==> multiset(r)[x] == multiset(categories)[x]
  {
    var r := Filter(IsOther(c), categories);
    FilterMember(IsOther(c), categories, c);
    forall x | x != c ensures multiset(r)[x] == multiset(categories)[x] {
      FilterCount(IsOther(c), categories, x);
    }
    r
  }

  /** Removal keeps the order of what stays: it works piece by piece along the list. */
  lemma RemoveCategoryConcat(a: seq<string>, b: seq<string>, c: string)
    ensures RemoveCategory(a + b, c) == RemoveCategory(a, c) + RemoveCategory(b, c)
  {
    FilterConcat(IsOther(c), a, b);
  }

  /** A single category stays exactly when it is not the one removed. */
  lemma RemoveCategorySingle(x: string, c: string)
    ensures RemoveCategory([x], c) == if x == c then [] else [x]
  {
    assert [x][1..] == [];
  }

  /** The list without the element at `i`. */
  function Remove<T>(s: seq<T>, i: nat): seq<T>
    requires i < |s|
  {
    s[..i] + s[i + 1..]
  }

  /** `next.splice(from, 1)` followed by `next.splice(to, 0, moved)`. */
  function Moved<T>(s: seq<T>, from: nat, to: nat): (r: seq<T>)
    requires from < |s| && to < |s|
    ensures |r| == |s|
  {
    var rest := Remove(s, from);
    rest[..to] + [s[from]] + rest[to..]
  }

  /** Element `k` of the reordered list, by position. */
  lemma MovedAt<T>(s: seq<T>, from: nat, to: nat, k: nat)
    requires from < |s| && to < |s| && k < |s|
    ensures Moved(s, from, to)[k] ==
      if k == to then s[from]
      else var j := if k < to then k else k - 1; if j < from then s[j] else s[j + 1]
  {
  }

  /** The moved element lands at the drop index, and taking it out again gives the
      list without it in its original position: the others keep their relative order. */
  lemma MovedPlaces<T>(s: seq<T>, from: nat, to: nat)
    requires from < |s| && to < |s|
    ensures Moved(s, from, to)[to] == s[from]
    ensures Remove(Moved(s, from, to), to) == Remove(s, from)
  {
    var rest := Remove(s, from);
    assert Moved(s, from, to)[..to] == rest[..to];
    assert Moved(s, from, to)[to + 1..] == rest[to..];
  }

  /** The reorder is a permutation. */
  lemma MovedPermutation<T>(s: seq<T>, from: nat, to: nat)
    requires from < |s| && to < |s|
    ensures multiset(Moved(s, from, to)) == multiset(s)
  {
    var rest := Remove(s, from);
    var x := s[from];
    calc {
      multiset(Moved(s, from, to));
      multiset(rest[..to] + [x] + rest[to..]);
      multiset(rest[..to]) + multiset([x]) + multiset(rest[to..]);
      { assert rest == rest[..to] + rest[to..]; }
      multiset(rest) + multiset([x]);
      multiset(s[..from]) + multiset(s[from + 1..]) + multiset([x]);
      { assert s == s[..from] + [x] + s[from + 1..]; }
      multiset(s);
    }
  }

  /** Dragging the element back from the drop index to its old index undoes the move. */
  lemma MovedUndo<T>(s: seq<T>, from: nat, to: nat)
    requires from < |s| && to < |s|
    ensures Moved(Moved(s, from, to), to, from) == s
  {
    MovedPlaces(s, from, to);
    var rest := Remove(s, from);
    assert rest[..from] == s[..from];
    assert rest[from..] == s[from + 1..];
    assert s == s[..from] + [s[from]] + s[from + 1..];
  }

  /** `splice(from, 1)` on an array: the elements after `from` move one place left; the
      last slot is left over. */
  method SpliceOut(a: array<string>, from: nat)
    requires from < a.Length
    modifies a
    ensures a[..a.Length - 1] == Remove(old(a[..]), from)
  {
    var n := a.Length;
    var i := from;
    while i < n - 1
      invariant from <= i <= n - 1
      invariant forall k :: 0 <= k < from ==> a[k] == old(a[k])
      invariant forall k :: from <= k < i ==> a[k] == old(a[k + 1])
      invariant forall k :: i <= k < n ==> a[k] == old(a[k])
    {
      a[i] := a[i + 1];
      i := i + 1;
    }
    assert forall k :: 0 <= k < n - 1 ==> a[..n - 1][k] == Remove(old(a[..]), from)[k];
  }

  /** `splice(to, 0, x)` on an array whose last slot is free: the elements from `to` on
      move one place right and `x` goes in at `to`. */
  method SpliceIn(a: array<string>, to: nat, x: string)
    requires to < a.Length
    modifies a
    ensures a[..] == old(a[..a.Length - 1])[..to] + [x] + old(a[..a.Length - 1])[to..]
  {
    var n := a.Length;
    ghost var rest := a[..n - 1];
    var j := n - 1;
    while j > to
      invariant to <= j <= n - 1
      invariant forall k :: 0 <= k < j ==> a[k] == rest[k]
      invariant forall k :: j < k < n ==> a[k] == rest[k - 1]
    {
      a[j] := a[j - 1];
      j := j - 1;
    }
    a[to] := x;
    assert forall k :: 0 <= k < n ==> a[..][k] == (rest[..to] + [x] + rest[to..])[k];
  }

  /** The drop handler's `categories.slice()` followed by its two splices. */
  method Reorder(categories: seq<string>, from: nat, to: nat) returns (next: seq<string>)
    requires from < |categories| && to < |categories|
    ensures next == Moved(categories, from, to)
  {
    var n := |categories|;
    var a := new string[n](i requires 0 <= i < n => categories[i]);
    assert a[..] == categories;
    var moved := a[from];
    SpliceOut(a, from);
    SpliceIn(a, to, moved);
    next := a[..];
  }

  // ---------------------------------------------------------------------------
  // The page state

  /** The settings page: its copy of the categories, the new-category input, the drag
      source, and the store every change is written to. */
  class SettingsPage {
    var categories: seq<string>
    var newCategory: string
    var dragIndex: Option<nat>
    const store: Store

    constructor (store: Store)
      ensures this.store == store && categories == store.Data().settings.categories
      ensures newCategory == "" && dragIndex.None?
    {
      var cats := store.GetCategories();
      this.store := store;
      categories := cats;
      newCategory := "";
      dragIndex := None;
    }

    /** The new-category input. */
    method TypeCategory(text: string)
      modifies this
      ensures newCategory == text && categories == old(categories) && dragIndex == old(dragIndex)
    {
      newCategory := text;
    }

    method AddCat()
      modifies this, store
      ensures AddCategory(old(categories), old(newCategory)).None? ==>
        categories == old(categories) && newCategory == old(newCategory) && store.blob == old(store.blob)
      ensures AddCategory(old(categories), old(newCategory)).Some? ==>
        && categories == AddCategory(old(categories), old(newCategory)).value
        && newCategory == ""
        && store.Data() == WithCategories(old(store.Data()), categories)
      ensures dragIndex == old(dragIndex)
    {
      var v := Trim(newCategory);
      if v == [] {
        return;
      }
      var next := Dedup(categories + [v]);
      categories := next;
      store.SetCategories(next);
      newCategory := "";
    }

    method OnDragStart(idx: nat)
      requires idx < |categories|
      modifies this
      ensures dragIndex == Some(idx) && categories == old(categories) && newCategory == old(newCategory)
    {
      dragIndex := Some(idx);
    }

    /** The drop handler: it always clears the drag source, and moves the dragged name to
      the drop index unless there is no source or the source is the drop index. */
    method OnDrop(idx: nat)
      requires idx < |categories|
      requires dragIndex.Some? ==> dragIndex.value < |categories|
      modifies this, store
      ensures dragIndex.None? && newCategory == old(newCategory)
      ensures old(dragIndex).None? || old(dragIndex).value == idx ==>
        categories == old(categories) && store.blob == old(store.blob)
      ensures old(dragIndex).Some? && old(dragIndex).value != idx ==>
        && categories == Moved(old(categories), old(dragIndex).value, idx)
        && store.Data() == WithCategories(old(store.Data()), categories)
    {
      var from := dragIndex;
      dragIndex := None;
      if from.None? || from.value == idx {
        return;
      }
      var next := Reorder(categories, from.value, idx);
      categories := next;
      store.SetCategories(next);
    }

    method RemoveCat(c: string)
      modifies this, store
      ensures categories == RemoveCategory(old(categories), c)
      ensures store.Data() == WithCategories(old(store.Data()), categories)
      ensures newCategory == old(newCategory) && dragIndex == old(dragIndex)
    {
      var next := RemoveCategory(categories, c);
      categories := next;
      store.SetCategories(next);
    }

    /** The import after the file has been read and parsed: only a value with both
      `months` and `settings` is saved, and then the page shows its categories; anything
      else leaves the store and the page as they were. */
    method ImportData(parsed: Blob) returns (ok: bool)
      modifies this, store
      ensures ok <==> parsed.Parsed? && parsed.months.Some? && parsed.settings.Some?
      ensures ok ==> store.blob == parsed && store.Data() == Load(parsed)
                     && categories == parsed.settings.value.categories
      ensures !ok ==> store.blob == old(store.blob) && categories == old(categories)
      ensures newCategory == old(newCategory) && dragIndex == old(dragIndex)
    {
      if !(parsed.Parsed? && parsed.months.Some? && parsed.settings.Some?) {
        return false;
      }
      var data := Load(parsed);
      store.SaveData(data);
      categories := data.settings.categories;
      ok := true;
    }
  }
}
