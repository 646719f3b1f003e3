/** Sequence helpers shared by the ledger model: the option type, `Array.prototype.filter`,
    and the first-occurrence de-duplication that `Array.from(new Set(xs))` performs. */
module Collections {

  datatype Option<T> = None | Some(value: T)

  /** Elements pairwise distinct. */
  ghost predicate NoDup<T>(s: seq<T>) {
    forall i, j :: 0 <= i < j < |s| ==> s[i] != s[j]
  }

  // ---------------------------------------------------------------------------
  // filter

  /** `s.filter(p)`: the elements satisfying `p`, in their original order. */
  function Filter<T>(p: T -> bool, s: seq<T>): (r: seq<T>)
    ensures |r| <= |s|
    ensures forall i :: 0 <= i < |r| ==> r[i] in s && p(r[i])
    ensures forall i :: 0 <= i < |s| && p(s[i]) ==> s[i] in r
  {
    if s == [] then [] else (if p(s[0]) then [s[0]] else []) + Filter(p, s[1..])
  }

  /** Filtering commutes with concatenation: the kept elements keep their relative order. */
  lemma {:induction false} FilterConcat<T>(p: T -> bool, a: seq<T>, b: seq<T>)
    ensures Filter(p, a + b) == Filter(p, a) + Filter(p, b)
  {
    if a == [] {
      assert a + b == b;
    } else {
      assert (a + b)[1..] == a[1..] + b;
      FilterConcat(p, a[1..], b);
    }
  }

  /** Each element occurs in the filtered sequence as often as in the input if it
      satisfies `p`, and not at all otherwise. */
  lemma {:induction false} FilterCount<T>(p: T -> bool, s: seq<T>, x: T)
    ensures multiset(Filter(p, s))[x] == if p(x) then multiset(s)[x] else 0
  {
    if s != [] {
      FilterCount(p, s[1..], x);
      assert s == [s[0]] + s[1..];
    }
  }

  /** An element is in the filtered sequence exactly when it is in the input and
      satisfies `p`. */
  lemma FilterMember<T>(p: T -> bool, s: seq<T>, x: T)
    ensures x in Filter(p, s) <==> x in s && p(x)
  {
    FilterCount(p, s, x);
  }

  /** Filtering two permutations of each other gives permutations of each other. */
  lemma FilterPermutation<T>(p: T -> bool, a: seq<T>, b: seq<T>)
    requires multiset(a) == multiset(b)
    ensures multiset(Filter(p, a)) == multiset(Filter(p, b))
  {
    forall x ensures multiset(Filter(p, a))[x] == multiset(Filter(p, b))[x] {
      FilterCount(p, a, x);
      FilterCount(p, b, x);
    }
  }

  /** Two filters whose predicates disagree on every element split the input into two
      parts that together are a permutation of it. */
  lemma FilterPartition<T>(p: T -> bool, q: T -> bool, s: seq<T>)
    requires forall x :: x in s ==> p(x) != q(x)
    ensures multiset(Filter(p, s)) + multiset(Filter(q, s)) == multiset(s)
  {
    forall x ensures (multiset(Filter(p, s)) + multiset(Filter(q, s)))[x] == multiset(s)[x] {
      FilterCount(p, s, x);
      FilterCount(q, s, x);
    }
  }

  /** Predicates that agree on every element of `s` filter it alike. */
  lemma {:induction false} FilterAgree<T>(p: T -> bool, q: T -> bool, s: seq<T>)
    requires forall x :: x in s ==> p(x) == q(x)
    ensures Filter(p, s) == Filter(q, s)
  {
    if s != [] {
      FilterAgree(p, q, s[1..]);
    }
  }

  /** A filter that keeps every element is the identity. */
  lemma {:induction false} FilterKeepsAll<T>(p: T -> bool, s: seq<T>)
    requires forall x :: x in s ==> p(x)
    ensures Filter(p, s) == s
  {
    if s != [] {
      var rest := s[1..];
      assert forall x :: x in rest ==> x in s;
      FilterKeepsAll(p, rest);
      calc {
        Filter(p, s);
        [s[0]] + Filter(p, rest);
        [s[0]] + rest;
        s;
      }
    }
  }

  // ---------------------------------------------------------------------------
  // Array.from(new Set(xs))

  /** Adds the elements of `s`, left to right, to the insertion-ordered set `seen`,
      skipping those already present (what `Set.prototype.add` does). */
  function DedupOnto<T(==)>(seen: seq<T>, s: seq<T>): seq<T>
    decreases s
  {
    if s == [] then seen
    else DedupOnto(if s[0] in seen then seen else seen + [s[0]], s[1..])
  }

  /** `Array.from(new Set(s))`: each element once, in order of first occurrence. */
  function Dedup<T(==)>(s: seq<T>): seq<T>
  {
    DedupOnto([], s)
  }

  /** The set built so far is a prefix of the result, the result holds exactly the
      elements of both, and it has no duplicates when `seen` had none. */
  lemma {:induction false} DedupOntoFacts<T>(seen: seq<T>, s: seq<T>)
    ensures |seen| <= |DedupOnto(seen, s)| && DedupOnto(seen, s)[..|seen|] == seen
    ensures forall x :: x in DedupOnto(seen, s) <==> x in seen || x in s
    ensures NoDup(seen) ==> NoDup(DedupOnto(seen, s))
    decreases s
  {
    if s != [] {
      var next := if s[0] in seen then seen else seen + [s[0]];
      DedupOntoFacts(next, s[1..]);
      assert next[..|seen|] == seen;
      assert DedupOnto(seen, s)[..|seen|] == DedupOnto(seen, s)[..|next|][..|seen|];
      assert forall x :: x in s <==> x == s[0] || x in s[1..] by {
        assert s == [s[0]] + s[1..];
      }
    }
  }

  /** Adding `a + b` is adding `a`, then `b`. */
  lemma {:induction false} DedupOntoConcat<T>(seen: seq<T>, a: seq<T>, b: seq<T>)
    ensures DedupOnto(seen, a + b) == DedupOnto(DedupOnto(seen, a), b)
    decreases a
  {
    if a == [] {
      assert a + b == b;
    } else {
      assert (a + b)[1..] == a[1..] + b;
      DedupOntoConcat(if a[0] in seen then seen else seen + [a[0]], a[1..], b);
    }
  }

  /** Adding elements that are all present already changes nothing. */
  lemma {:induction false} DedupOntoCovered<T>(seen: seq<T>, s: seq<T>)
    requires forall x :: x in s ==> x in seen
    ensures DedupOnto(seen, s) == seen
  {
    if s != [] {
      DedupOntoCovered(seen, s[1..]);
    }
  }

  /** Adding distinct elements none of which is present appends them all, in order. */
  lemma {:induction false} DedupOntoFresh<T>(seen: seq<T>, s: seq<T>)
    requires NoDup(s)
    requires forall x :: x in s ==> x !in seen
    ensures DedupOnto(seen, s) == seen + s
    decreases s
  {
    if s != [] {
      assert s[0] !in s[1..];
      DedupOntoFresh(seen + [s[0]], s[1..]);
      assert seen + [s[0]] + s[1..] == seen + s;
    }
  }

  /** A sequence without duplicates is its own de-duplication. */
  lemma DedupDistinct<T>(s: seq<T>)
    requires NoDup(s)
    ensures Dedup(s) == s
  {
    DedupOntoFresh([], s);
  }

  /** The de-duplicated sequence holds each element of `s` exactly once, starting with
      the de-duplicated `a` when `s` starts with `a`. */
  lemma DedupFacts<T>(a: seq<T>, b: seq<T>)
    ensures NoDup(Dedup(a + b))
    ensures forall x :: x in Dedup(a + b) <==> x in a || x in b
    ensures |Dedup(a)| <= |Dedup(a + b)| && Dedup(a + b)[..|Dedup(a)|] == Dedup(a)
  {
    DedupOntoConcat([], a, b);
    DedupOntoFacts([], a);
    DedupOntoFacts(Dedup(a), b);
  }

  /** A duplicate-free sequence is its prefix followed by a duplicate-free rest that
      shares nothing with the prefix. */
  lemma DistinctSplit<T>(u: seq<T>, p: seq<T>)
    requires NoDup(u) && |p| <= |u| && u[..|p|] == p
    ensures u == p + u[|p|..] && NoDup(u[|p|..])
    ensures forall y :: y in u[|p|..] ==> y !in p
  {
    var tail := u[|p|..];
    forall i, j | 0 <= i < j < |tail| ensures tail[i] != tail[j] {
      assert tail[i] == u[|p| + i] && tail[j] == u[|p| + j];
    }
    forall y | y in tail ensures y !in p {
      var j :| 0 <= j < |tail| && tail[j] == y;
      assert u[|p| + j] == y;
      forall i | 0 <= i < |p| ensures p[i] != y {
        assert p[i] == u[i];
      }
    }
  }

  /** Feeding the de-duplication of `x + z` back in after `x` reproduces it: the
      first-seen order is already fixed by `x`, and the rest of it is new and distinct. */
  lemma DedupAbsorbs<T>(x: seq<T>, z: seq<T>)
    ensures Dedup(x + Dedup(x + z)) == Dedup(x + z)
  {
    var dx := Dedup(x);
    var u := Dedup(x + z);
    DedupFacts(x, z);
    DedupOntoConcat([], x, z);
    DedupOntoFacts([], x);
    var tail := u[|dx|..];
    DistinctSplit(u, dx);
    calc {
      Dedup(x + u);
      { DedupOntoConcat([], x, u); }
      DedupOnto(dx, dx + tail);
      { DedupOntoConcat(dx, dx, tail); }
      DedupOnto(DedupOnto(dx, dx), tail);
      { DedupOntoCovered(dx, dx); }
      DedupOnto(dx, tail);
      { DedupOntoFresh(dx, tail); }
      dx + tail;
    }
  }

  /** With a duplicate-free list, adding one element appends it exactly when it is new. */
  lemma DedupAppend<T>(s: seq<T>, v: T)
    requires NoDup(s)
    ensures Dedup(s + [v]) == if v in s then s else s + [v]
  {
    DedupOntoConcat([], s, [v]);
    DedupOntoFresh([], s);
  }
}
