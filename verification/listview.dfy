/**
 * The list operations every admin tab shares: `Array.prototype.filter`,
 * `Array.prototype.find`, and the search loop that pushes the matching
 * entities into a fresh `results` array, and the search rule every tab
 * applies to its full list.
 */
module ListView {
  import opened Opt
  import opened Text

  /** `xs.filter(keep)`: the elements satisfying `keep`, in their original order. */
  function Filter<T>(xs: seq<T>, keep: T -> bool): (ys: seq<T>)
    ensures |ys| <= |xs|
    decreases |xs|
  {
    if xs == [] then [] else (if keep(xs[0]) then [xs[0]] else []) + Filter(xs[1..], keep)
  }

  /** `ys` is `xs` with some elements deleted and the others kept in order. */
  ghost predicate IsSubsequence<T>(ys: seq<T>, xs: seq<T>)
    decreases |xs|
  {
    || ys == []
    || (xs != [] && ((ys[0] == xs[0] && IsSubsequence(ys[1..], xs[1..])) || IsSubsequence(ys, xs[1..])))
  }

  /** Filtering never reorders: the result is a subsequence of the input. */
  lemma {:induction false} FilterIsSubsequence<T>(xs: seq<T>, keep: T -> bool)
    ensures IsSubsequence(Filter(xs, keep), xs)
    decreases |xs|
  {
    if xs != [] {
      FilterIsSubsequence(xs[1..], keep);
      var ys := Filter(xs, keep);
      if keep(xs[0]) {
        assert ys[0] == xs[0] && ys[1..] == Filter(xs[1..], keep);
      } else {
        assert ys == Filter(xs[1..], keep);
      }
    }
  }

  /** An element is in the filtered list exactly when it is in the list and is kept. */
  lemma {:induction false} FilterMembership<T>(xs: seq<T>, keep: T -> bool, x: T)
    ensures x in Filter(xs, keep) <==> x in xs && keep(x)
    decreases |xs|
  {
    if xs != [] {
      FilterMembership(xs[1..], keep, x);
      assert xs == [xs[0]] + xs[1..];
    }
  }

  /** A filter that keeps every element returns the list itself. */
  lemma {:induction false} FilterKeepsAll<T>(xs: seq<T>, keep: T -> bool)
    requires forall i :: 0 <= i < |xs| ==> keep(xs[i])
    ensures Filter(xs, keep) == xs
    decreases |xs|
  {
    if xs != [] {
      FilterKeepsAll(xs[1..], keep);
      assert xs == [xs[0]] + xs[1..];
    }
  }

  /** Filtering a list extended by one element extends the filtered list by at most it. */
  lemma {:induction false} FilterSnoc<T>(xs: seq<T>, x: T, keep: T -> bool)
    ensures Filter(xs + [x], keep) == Filter(xs, keep) + (if keep(x) then [x] else [])
    decreases |xs|
  {
    if xs == [] {
      assert [x][1..] == [];
    } else {
      assert (xs + [x])[1..] == xs[1..] + [x];
      FilterSnoc(xs[1..], x, keep);
    }
  }

  /** Two filters applied one after the other commute. */
  lemma {:induction false} FilterCommutes<T>(xs: seq<T>, p: T -> bool, q: T -> bool)
    ensures Filter(Filter(xs, p), q) == Filter(Filter(xs, q), p)
    decreases |xs|
  {
    if xs != [] {
      FilterCommutes(xs[1..], p, q);
      var a := (if p(xs[0]) then [xs[0]] else []);
      var b := (if q(xs[0]) then [xs[0]] else []);
      FilterAppend(a, Filter(xs[1..], p), q);
      FilterAppend(b, Filter(xs[1..], q), p);
    }
  }

  lemma {:induction false} FilterAppend<T>(xs: seq<T>, ys: seq<T>, keep: T -> bool)
    ensures Filter(xs + ys, keep) == Filter(xs, keep) + Filter(ys, keep)
    decreases |xs|
  {
    if xs != [] {
      assert (xs + ys)[1..] == xs[1..] + ys;
      FilterAppend(xs[1..], ys, keep);
    } else {
      assert xs + ys == ys;
    }
  }

  /**
   * The search loop of the admin tabs: walk the full list once, pushing
   * every element the match test accepts onto `results`.
   */
  method FilterLoop<T>(all: seq<T>, keep: T -> bool) returns (results: seq<T>)
    ensures results == Filter(all, keep)
  {
    results := [];
    var i := 0;
    while i < |all|
      invariant 0 <= i <= |all|
      invariant results == Filter(all[..i], keep)
    {
      FilterSnoc(all[..i], all[i], keep);
      assert all[..i + 1] == all[..i] + [all[i]];
      if keep(all[i]) {
        results := results + [all[i]];
      }
      i := i + 1;
    }
    assert all[..|all|] == all;
  }

  /** `xs.find(p)`: the first element satisfying `p`, or None when there is none. */
  function First<T>(xs: seq<T>, p: T -> bool): (r: Option<T>)
    ensures r.None? <==> forall i :: 0 <= i < |xs| ==> !p(xs[i])
    ensures r.Some? ==> exists i :: 0 <= i < |xs| && xs[i] == r.value && p(xs[i])
                                    && forall j :: 0 <= j < i ==> !p(xs[j])
    decreases |xs|
  {
    if xs == [] then None
    else if p(xs[0]) then Some(xs[0])
    else
      var r := First(xs[1..], p);
      assert r.Some? ==> exists i :: 0 <= i < |xs| && xs[i] == r.value && p(xs[i])
                                     && forall j :: 0 <= j < i ==> !p(xs[j]) by {
        if r.Some? {
          var k :| 0 <= k < |xs[1..]| && xs[1..][k] == r.value && p(xs[1..][k])
                   && forall j :: 0 <= j < k ==> !p(xs[1..][j]);
          assert xs[k + 1] == r.value;
          assert forall j :: 0 <= j < k + 1 ==> !p(xs[j]) by {
            forall j | 0 <= j < k + 1 ensures !p(xs[j]) {
              if j > 0 { assert xs[j] == xs[1..][j - 1]; }
            }
          }
        }
      }
      r
  }
  lemma {:induction false} SubsequenceOfSelf<T>(xs: seq<T>)
    ensures IsSubsequence(xs, xs)
    decreases |xs|
  {
    if xs != [] {
      SubsequenceOfSelf(xs[1..]);
    }
  }

  /** The element test of a search: `matches(x, term)` with the term fixed. */
  function Keep<T>(matches: (T, string) -> bool, term: string): T -> bool
  {
    x => matches(x, term)
  }

  /**
   * The list a tab displays for a search term: the full list when the
   * term is empty, otherwise the entities that `matches` accepts for the
   * lower-cased term.
   */
  function SearchView<T>(all: seq<T>, term: string, matches: (T, string) -> bool): seq<T>
  {
    if term == "" then all else Filter(all, Keep(matches, Lower(term)))
  }

  /**
   * The search effect: an empty term shows everything; otherwise the
   * displayed list keeps exactly the matching entities, in their order.
   */
  lemma SearchViewSpec<T>(all: seq<T>, term: string, matches: (T, string) -> bool)
    ensures term == "" ==> SearchView(all, term, matches) == all
    ensures IsSubsequence(SearchView(all, term, matches), all)
    ensures forall x :: x in SearchView(all, term, matches) <==> x in all && (term == "" || matches(x, Lower(term)))
  {
    if term == "" {
      SubsequenceOfSelf(all);
    } else {
      FilterIsSubsequence(all, Keep(matches, Lower(term)));
      forall x
        ensures x in SearchView(all, term, matches) <==> x in all && matches(x, Lower(term))
      {
        FilterMembership(all, Keep(matches, Lower(term)), x);
      }
    }
  }

  /** Removing entities from the full list and from the displayed list keeps the two in step. */
  lemma SearchViewAfterRemoval<T>(all: seq<T>, term: string, matches: (T, string) -> bool, keep: T -> bool)
    ensures Filter(SearchView(all, term, matches), keep) == SearchView(Filter(all, keep), term, matches)
  {
    if term != "" {
      FilterCommutes(all, Keep(matches, Lower(term)), keep);
    }
  }

  /** The search loop run over the full list, or the full list itself for an empty term. */
  method Search<T>(all: seq<T>, term: string, matches: (T, string) -> bool) returns (results: seq<T>)
    ensures results == SearchView(all, term, matches)
  {
    if term == "" {
      results := all;
    } else {
      results := FilterLoop(all, Keep(matches, Lower(term)));
    }
  }
}
