/** The per-category `reduce` into a plain object, `acc[c] = (acc[c] || 0) + amount`,
    that the budget page (planned totals, actual amounts) and the analytics page (expense
    breakdown) build from a month's entries. */
module CategoryTotals {
  import opened Collections
  import opened Ledger

  /** A plain object from category to amount: its keys in insertion order, and the value
      under each. */
  datatype Tally = Tally(keys: seq<string>, sums: map<string, real>)

  ghost predicate WellFormed(t: Tally) {
    NoDup(t.keys) && forall k :: k in t.sums <==> k in t.keys
  }

  function EmptyTally(): Tally {
    Tally([], map[])
  }

  /** `t[c] || 0`. */
  function Lookup(t: Tally, c: string): real {
    if c in t.sums then t.sums[c] else 0.0
  }

  /** `acc[c] = (acc[c] || 0) + amount`: a key seen for the first time goes last. */
  function Bump(t: Tally, c: string, amount: real): Tally {
    if c in t.sums then Tally(t.keys, t.sums[c := t.sums[c] + amount])
    else Tally(t.keys + [c], t.sums[c := amount])
  }

  /** `es.reduce(bump, t)`. */
  function Fold(t: Tally, es: seq<Entry>): Tally
    decreases |es|
  {
    if es == [] then t else Fold(Bump(t, es[0].category, es[0].amount), es[1..])
  }

  /** The category totals of `es`, starting from `{}`. */
  function ByCategory(es: seq<Entry>): Tally {
    Fold(EmptyTally(), es)
  }

  /** The categories of `es`, in order, repeats included. Written out for entries, as
      `Budgets.Names` is for budget records. */
  function Categories(es: seq<Entry>): (r: seq<string>)
    ensures |r| == |es| && forall i :: 0 <= i < |es| ==> r[i] == es[i].category
  {
    seq(|es|, i requires 0 <= i < |es| => es[i].category)
  }

  function IsCategory(c: string): string -> bool {
    (k: string) => k == c
  }

  /** Sum of the values under the keys `ks` that `sel` accepts. */
  function SumSelected(t: Tally, ks: seq<string>, sel: string -> bool): real
  {
    if ks == [] then 0.0
    else (if sel(ks[0]) then Lookup(t, ks[0]) else 0.0) + SumSelected(t, ks[1..], sel)
  }

  /** The fold keeps the object well formed, adds each new category as a key in order of
      first occurrence, and adds to each key the amounts of its entries. */
  lemma {:induction false} FoldMeaning(t: Tally, es: seq<Entry>)
    requires WellFormed(t)
    ensures WellFormed(Fold(t, es))
    ensures Fold(t, es).keys == DedupOnto(t.keys, Categories(es))
    ensures forall c :: Lookup(Fold(t, es), c) == Lookup(t, c) + AmountWhere(es, IsCategory(c))
    decreases |es|
  {
    if es != [] {
      var t' := Bump(t, es[0].category, es[0].amount);
      assert WellFormed(t');
      FoldMeaning(t', es[1..]);
      assert Categories(es)[1..] == Categories(es[1..]);
    }
  }

  /** The category totals of a month: each category of `es` is a key exactly once, in
      order of first occurrence, and its value is the sum of that category's amounts. */
  lemma ByCategoryMeaning(es: seq<Entry>)
    ensures WellFormed(ByCategory(es))
    ensures ByCategory(es).keys == Dedup(Categories(es))
    ensures forall c :: c in ByCategory(es).keys <==> exists e :: e in es && e.category == c
    ensures forall c :: Lookup(ByCategory(es), c) == AmountWhere(es, IsCategory(c))
  {
    FoldMeaning(EmptyTally(), es);
    DedupOntoFacts([], Categories(es));
    forall c | c in Categories(es) ensures exists e :: e in es && e.category == c {
      var i :| 0 <= i < |es| && Categories(es)[i] == c;
      assert es[i] in es;
    }
    forall c | (exists e :: e in es && e.category == c) ensures c in Categories(es) {
      var e :| e in es && e.category == c;
      var i :| 0 <= i < |es| && es[i] == e;
      assert Categories(es)[i] == c;
    }
  }

  lemma {:induction false} SumSelectedConcat(t: Tally, a: seq<string>, b: seq<string>, sel: string -> bool)
    ensures SumSelected(t, a + b, sel) == SumSelected(t, a, sel) + SumSelected(t, b, sel)
  {
    if a == [] {
      assert a + b == b;
    } else {
      assert (a + b)[1..] == a[1..] + b;
      SumSelectedConcat(t, a[1..], b, sel);
    }
  }

  /** Changing the value under one key changes a sum over distinct keys by the change
      if that key is among them and accepted, and not at all otherwise. */
  lemma {:induction false} SumSelectedChange(t: Tally, t': Tally, ks: seq<string>, c: string, delta: real, sel: string -> bool)
    requires NoDup(ks)
    requires forall k :: k != c ==> Lookup(t', k) == Lookup(t, k)
    requires Lookup(t', c) == Lookup(t, c) + delta
    ensures SumSelected(t', ks, sel) == SumSelected(t, ks, sel) + (if c in ks && sel(c) then delta else 0.0)
  {
    if ks != [] {
      SumSelectedChange(t, t', ks[1..], c, delta, sel);
      assert ks[0] == c ==> c !in ks[1..];
    }
  }

  /** One bump raises the sum over all keys that `sel` accepts by the amount, if the
      category is accepted. */
  lemma BumpSelected(t: Tally, c: string, amount: real, sel: string -> bool)
    requires WellFormed(t)
    ensures var t' := Bump(t, c, amount);
      SumSelected(t', t'.keys, sel) == SumSelected(t, t.keys, sel) + (if sel(c) then amount else 0.0)
  {
    var t' := Bump(t, c, amount);
    if c in t.sums {
      SumSelectedChange(t, t', t.keys, c, amount, sel);
    } else {
      SumSelectedChange(t, t', t.keys, c, amount, sel);
      SumSelectedConcat(t', t.keys, [c], sel);
    }
  }

  lemma {:induction false} FoldSelected(t: Tally, es: seq<Entry>, sel: string -> bool)
    requires WellFormed(t)
    ensures var r := Fold(t, es); SumSelected(r, r.keys, sel) == SumSelected(t, t.keys, sel) + AmountWhere(es, sel)
    decreases |es|
  {
    if es != [] {
      var t' := Bump(t, es[0].category, es[0].amount);
      BumpSelected(t, es[0].category, es[0].amount, sel);
      FoldMeaning(t, [es[0]]);
      FoldSelected(t', es[1..], sel);
    }
  }

  /** Summing the category totals over the categories that `sel` accepts gives the sum
      of the amounts of the entries in those categories. */
  lemma ByCategorySelected(es: seq<Entry>, sel: string -> bool)
    ensures SumSelected(ByCategory(es), ByCategory(es).keys, sel) == AmountWhere(es, sel)
  {
    FoldSelected(EmptyTally(), es, sel);
  }
}
