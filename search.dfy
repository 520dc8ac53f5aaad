/** The gallery's search: the predicate `filteredPrompts` applies to each
    record (App.tsx:377-384) and the order-keeping filter over a record list. */
module Search {
  import opened Types
  import opened Text

  /** `selectedCategory`: either `'All'` or one category. */
  datatype Selection = All | Only(category: Category)

  /** `matchesCategory`: the selection is `'All'` or names the record's
      category. */
  predicate CategoryMatches(p: Prompt, sel: Selection)
    ensures sel.All? ==> CategoryMatches(p, sel)
    ensures sel == Only(p.category) ==> CategoryMatches(p, sel)
  {
    sel.All? || p.category == sel.category
  }

  /** `matchesSearch`: the lower-cased query occurs in the lower-cased
      title, description or category string. */
  function SearchMatches(p: Prompt, query: string): (b: bool)
    ensures b <==>
      Contains(Lower(p.title), Lower(query))
      || Contains(Lower(p.description), Lower(query))
      || Contains(Lower(DisplayName(p.category)), Lower(query))
  {
    var q := Lower(query);
    Includes(Lower(p.title), q) ||
    Includes(Lower(p.description), q) ||
    Includes(Lower(DisplayName(p.category)), q)
  }

  /** The test `filteredPrompts` applies to each record. */
  predicate Keep(p: Prompt, sel: Selection, query: string)
    ensures Keep(p, sel, query) ==> SearchMatches(p, query)
    ensures sel.All? ==> (Keep(p, sel, query) <==> SearchMatches(p, query))
  {
    CategoryMatches(p, sel) && SearchMatches(p, query)
  }

  /** `xs.filter(keep)`: the elements that pass, in their original
      order. */
  function FilterBy<T>(xs: seq<T>, keep: T -> bool): (r: seq<T>)
    ensures |r| <= |xs|
    ensures forall k :: 0 <= k < |r| ==> keep(r[k])
  {
    if xs == [] then []
    else if keep(xs[0]) then [xs[0]] + FilterBy(xs[1..], keep)
    else FilterBy(xs[1..], keep)
  }

  /** An element is in the filter result exactly when it is in the list
      and passes. */
  lemma {:induction false} FilterByMembers<T>(xs: seq<T>, keep: T -> bool, x: T)
    ensures x in FilterBy(xs, keep) <==> x in xs && keep(x)
  {
    if xs != [] {
      FilterByMembers(xs[1..], keep, x);
      assert xs == [xs[0]] + xs[1..];
    }
  }

  /** The positions `from`, `from + 1`, ... of `xs` whose element passes,
      in increasing order. */
  function KeptPositions<T(!new)>(xs: seq<T>, keep: T -> bool, from: nat): (idx: seq<nat>)
    requires from <= |xs|
    ensures forall k :: 0 <= k < |idx| ==> from <= idx[k] < |xs| && keep(xs[idx[k]])
    ensures forall k, l :: 0 <= k < l < |idx| ==> idx[k] < idx[l]
    ensures forall i :: from <= i < |xs| && keep(xs[i]) ==> i in idx
    decreases |xs| - from
  {
    if from == |xs| then []
    else if keep(xs[from]) then [from] + KeptPositions(xs, keep, from + 1)
    else KeptPositions(xs, keep, from + 1)
  }

  /** The elements of `xs` at positions `idx`. */
  function At<T(!new)>(xs: seq<T>, idx: seq<nat>): (r: seq<T>)
    requires forall k :: 0 <= k < |idx| ==> idx[k] < |xs|
    ensures |r| == |idx| && forall k :: 0 <= k < |idx| ==> r[k] == xs[idx[k]]
  {
    seq(|idx|, k requires 0 <= k < |idx| => xs[idx[k]])
  }

  /** The filter result is `xs` read at exactly the passing positions, in
      increasing order: a subsequence that keeps the elements' relative
      order and leaves out no passing element. */
  lemma FilterIsKeptSubsequence<T(!new)>(xs: seq<T>, keep: T -> bool)
    ensures FilterBy(xs, keep) == At(xs, KeptPositions(xs, keep, 0))
  {
    FilterSuffix(xs, keep, 0);
    assert xs[0..] == xs;
  }

  lemma {:induction false} FilterSuffix<T(!new)>(xs: seq<T>, keep: T -> bool, from: nat)
    requires from <= |xs|
    ensures FilterBy(xs[from..], keep) == At(xs, KeptPositions(xs, keep, from))
    decreases |xs| - from
  {
    if from < |xs| {
      var rest := KeptPositions(xs, keep, from + 1);
      FilterSuffix(xs, keep, from + 1);
      assert xs[from..][0] == xs[from] && xs[from..][1..] == xs[from + 1..];
      if keep(xs[from]) {
        AtCons(xs, from, rest);
      }
    }
  }

  lemma AtCons<T(!new)>(xs: seq<T>, i: nat, idx: seq<nat>)
    requires i < |xs| && forall k :: 0 <= k < |idx| ==> idx[k] < |xs|
    ensures At(xs, [i] + idx) == [xs[i]] + At(xs, idx)
  {
  }

  /** Filtering splits over concatenation. */
  lemma {:induction false} FilterAppend<T(!new)>(a: seq<T>, b: seq<T>, keep: T -> bool)
    ensures FilterBy(a + b, keep) == FilterBy(a, keep) + FilterBy(b, keep)
  {
    if a == [] {
      assert a + b == b;
    } else {
      assert (a + b)[0] == a[0];
      assert (a + b)[1..] == a[1..] + b;
      FilterAppend(a[1..], b, keep);
    }
  }

  /** When every element passes, the filter returns the list unchanged. */
  lemma {:induction false} FilterKeepsAll<T(!new)>(xs: seq<T>, keep: T -> bool)
    requires forall k :: 0 <= k < |xs| ==> keep(xs[k])
    ensures FilterBy(xs, keep) == xs
  {
    if xs != [] {
      FilterKeepsAll(xs[1..], keep);
    }
  }

  /** When no element passes, the filter returns the empty list. */
  lemma {:induction false} FilterDropsAll<T(!new)>(xs: seq<T>, keep: T -> bool)
    requires forall k :: 0 <= k < |xs| ==> !keep(xs[k])
    ensures FilterBy(xs, keep) == []
  {
    if xs != [] {
      FilterDropsAll(xs[1..], keep);
    }
  }

  /** When the passing elements form one block `xs[lo..hi]`, the filter
      returns that block. */
  lemma {:induction false} FilterBlock<T(!new)>(xs: seq<T>, keep: T -> bool, lo: nat, hi: nat)
    requires lo <= hi <= |xs|
    requires forall k :: 0 <= k < |xs| ==> (keep(xs[k]) <==> lo <= k < hi)
    ensures FilterBy(xs, keep) == xs[lo..hi]
  {
    if hi == 0 {
      FilterDropsAll(xs, keep);
    } else {
      var tail := xs[1..];
      assert forall k :: 0 <= k < |tail| ==> tail[k] == xs[k + 1];
      if lo > 0 {
        assert !keep(xs[0]);
        assert FilterBy(xs, keep) == FilterBy(tail, keep);
        FilterBlock(tail, keep, lo - 1, hi - 1);
        assert tail[lo - 1..hi - 1] == xs[lo..hi];
      } else {
        assert keep(xs[0]);
        assert FilterBy(xs, keep) == [xs[0]] + FilterBy(tail, keep);
        FilterBlock(tail, keep, 0, hi - 1);
        assert [xs[0]] + tail[0..hi - 1] == xs[0..hi];
      }
    }
  }

  /** The gallery's test as a predicate value. */
  function KeepTest(sel: Selection, query: string): Prompt -> bool {
    p => Keep(p, sel, query)
  }

  /** `filteredPrompts`: `ps.filter(p => Keep(p, sel, query))`. */
  function Filter(ps: seq<Prompt>, sel: Selection, query: string): (r: seq<Prompt>)
    ensures |r| <= |ps|
    ensures forall k :: 0 <= k < |r| ==> Keep(r[k], sel, query)
  {
    FilterBy(ps, KeepTest(sel, query))
  }

  /** A record is shown exactly when it is in the list and passes the
      category and search tests. */
  lemma FilterMembers(ps: seq<Prompt>, sel: Selection, query: string, p: Prompt)
    ensures p in Filter(ps, sel, query) <==> p in ps && CategoryMatches(p, sel) && SearchMatches(p, query)
  {
    FilterByMembers(ps, KeepTest(sel, query), p);
  }

  /** The filter result is `ps` read at exactly the positions whose record
      passes the gallery's test, in increasing order. */
  lemma FilterIsOrderedSubsequence(ps: seq<Prompt>, sel: Selection, query: string)
    ensures var idx := KeptPositions(ps, KeepTest(sel, query), 0);
      && Filter(ps, sel, query) == At(ps, idx)
      && (forall k, l :: 0 <= k < l < |idx| ==> idx[k] < idx[l])
      && (forall i :: 0 <= i < |ps| ==> (i in idx <==> Keep(ps[i], sel, query)))
  {
    FilterIsKeptSubsequence(ps, KeepTest(sel, query));
  }

  /** Filtering the filter's own output with the same selection and query
      changes nothing. */
  lemma FilterIdempotent(ps: seq<Prompt>, sel: Selection, query: string)
    ensures Filter(Filter(ps, sel, query), sel, query) == Filter(ps, sel, query)
  {
    var r := Filter(ps, sel, query);
    assert forall k :: 0 <= k < |r| ==> KeepTest(sel, query)(r[k]);
    FilterKeepsAll(r, KeepTest(sel, query));
  }

  /** The empty query occurs in every string, so it matches every record. */
  lemma EmptyQueryMatches(p: Prompt, sel: Selection)
    ensures Keep(p, sel, "") <==> sel == All || sel == Only(p.category)
  {
    IncludesEmpty(Lower(p.title));
  }

  /** `'All'` with the empty query shows the whole list in its order. */
  lemma AllWithEmptyQueryIsIdentity(ps: seq<Prompt>)
    ensures Filter(ps, All, "") == ps
  {
    forall k | 0 <= k < |ps| ensures KeepTest(All, "")(ps[k]) {
      EmptyQueryMatches(ps[k], All);
    }
    FilterKeepsAll(ps, KeepTest(All, ""));
  }

  /** A selection of one category with the empty query keeps exactly the
      records of that category; when they form one block `ps[lo..hi]`, the
      result is that block. */
  lemma CategoryBlockWithEmptyQuery(ps: seq<Prompt>, c: Category, lo: nat, hi: nat)
    requires lo <= hi <= |ps|
    requires forall k :: 0 <= k < |ps| ==> (ps[k].category == c <==> lo <= k < hi)
    ensures Filter(ps, Only(c), "") == ps[lo..hi]
  {
    forall k | 0 <= k < |ps| ensures KeepTest(Only(c), "")(ps[k]) <==> lo <= k < hi {
      EmptyQueryMatches(ps[k], Only(c));
    }
    FilterBlock(ps, KeepTest(Only(c), ""), lo, hi);
  }

  /** A record of category `sel` (or any, for `'All'`) whose title starts
      with a string that lowers to the lowered query is shown. */
  lemma TitlePrefixShown(ps: seq<Prompt>, i: nat, sel: Selection, prefix: string, query: string)
    requires i < |ps| && CategoryMatches(ps[i], sel)
    requires prefix <= ps[i].title && Lower(prefix) == Lower(query)
    ensures ps[i] in Filter(ps, sel, query)
  {
    LowerKeepsPrefix(prefix, ps[i].title);
    assert OccursAt(Lower(ps[i].title), Lower(query), 0);
    FilterMembers(ps, sel, query, ps[i]);
  }
}
