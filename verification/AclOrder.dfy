/**
 The order rules are tried in: by order index, then priority, then place in the
 list.  Sorting stably and taking the first match finds the least match.
 */
module AclOrder {
  import opened Wrappers
  import opened AclTypes

  type Filter = PolicyRule -> bool

  /** Strictly earlier by order index, then priority. */
  predicate Before(a: PolicyRule, b: PolicyRule) {
    a.orderIndex < b.orderIndex || (a.orderIndex == b.orderIndex && a.priority < b.priority)
  }

  // The least match

  function Winner(rules: seq<PolicyRule>, p: Filter): Option<PolicyRule> {
    if rules == [] then None
    else
      var best, last := Winner(rules[..|rules| - 1], p), rules[|rules| - 1];
      if p(last) && (best.None? || Before(last, best.value)) then Some(last) else best
  }

  /** Position q holds the match that is least by order index, priority and position. */
  predicate LeastAt(rules: seq<PolicyRule>, p: Filter, q: nat) {
    && q < |rules| && p(rules[q])
    && forall j :: 0 <= j < |rules| && p(rules[j]) ==>
         || rules[q].orderIndex < rules[j].orderIndex
         || (rules[q].orderIndex == rules[j].orderIndex && rules[q].priority < rules[j].priority)
         || (rules[q].orderIndex == rules[j].orderIndex && rules[q].priority == rules[j].priority && q <= j)
  }

  ghost predicate AnyMatch(rules: seq<PolicyRule>, p: Filter) {
    exists r :: r in rules && p(r)
  }

  lemma {:induction false} WinnerIsLeast(rules: seq<PolicyRule>, p: Filter)
    ensures Winner(rules, p).Some? <==> AnyMatch(rules, p)
    ensures Winner(rules, p).Some? ==> exists q: nat :: LeastAt(rules, p, q) && Winner(rules, p) == Some(rules[q])
    decreases |rules|
  {
    if rules == [] {
    } else {
      var init, last := rules[..|rules| - 1], rules[|rules| - 1];
      WinnerIsLeast(init, p);
      assert rules == init + [last];
      if AnyMatch(init, p) {
        var r :| r in init && p(r);
        assert r in rules;
      }
      if p(last) {
        assert last in rules;
        if Winner(init, p).None? || Before(last, Winner(init, p).value) {
          assert LeastAt(rules, p, |init|) by {
            forall j | 0 <= j < |rules| && p(rules[j])
              ensures Before(last, rules[j]) || (!Before(rules[j], last) && |init| <= j)
            {
              assert j < |init| ==> rules[j] in init;
            }
          }
        }
      }
      if Winner(init, p).Some? && !(p(last) && Before(last, Winner(init, p).value)) {
        var q: nat :| LeastAt(init, p, q) && Winner(init, p) == Some(init[q]);
        assert LeastAt(rules, p, q);
      }
    }
  }

  /** There is only one least match. */
  lemma LeastIsUnique(rules: seq<PolicyRule>, p: Filter, q: nat)
    requires LeastAt(rules, p, q)
    ensures Winner(rules, p) == Some(rules[q])
  {
    WinnerIsLeast(rules, p);
    assert rules[q] in rules;
    var least: nat :| LeastAt(rules, p, least) && Winner(rules, p) == Some(rules[least]);
    assert Before(rules[q], rules[least]) || q <= least;
  }

  lemma {:induction false} WinnerCongruent(rules: seq<PolicyRule>, p: Filter, p': Filter)
    requires forall r :: r in rules ==> p(r) == p'(r)
    ensures Winner(rules, p) == Winner(rules, p')
    decreases |rules|
  {
    if rules == [] {
    } else {
      assert rules[|rules| - 1] in rules;
      WinnerCongruent(rules[..|rules| - 1], p, p');
    }
  }

  /** Rules that cannot win may be dropped from either end. */
  lemma {:induction false} WinnerDropsSuffix(a: seq<PolicyRule>, b: seq<PolicyRule>, p: Filter)
    requires !AnyMatch(b, p)
    ensures Winner(a + b, p) == Winner(a, p)
    decreases |b|
  {
    if b == [] {
      assert a + b == a;
    } else {
      assert (a + b)[..|a + b| - 1] == a + b[..|b| - 1] && b[|b| - 1] in b;
      WinnerDropsSuffix(a, b[..|b| - 1], p);
    }
  }

  lemma {:induction false} WinnerDropsPrefix(a: seq<PolicyRule>, b: seq<PolicyRule>, p: Filter)
    requires !AnyMatch(a, p)
    ensures Winner(a + b, p) == Winner(b, p)
    decreases |b|
  {
    if b == [] {
      assert a + b == a;
      WinnerIsLeast(a, p);
    } else {
      assert (a + b)[..|a + b| - 1] == a + b[..|b| - 1];
      WinnerDropsPrefix(a, b[..|b| - 1], p);
    }
  }

  function Select(rules: seq<PolicyRule>, keep: Filter): seq<PolicyRule> {
    if rules == [] then []
    else
      var last := rules[|rules| - 1];
      Select(rules[..|rules| - 1], keep) + One(last, keep)
  }

  lemma {:induction false} SelectKeeps(rules: seq<PolicyRule>, keep: Filter, r: PolicyRule)
    ensures r in Select(rules, keep) <==> r in rules && keep(r)
    decreases |rules|
  {
    if rules == [] {
    } else {
      var init, last := rules[..|rules| - 1], rules[|rules| - 1];
      SelectKeeps(init, keep, r);
      assert r in rules <==> r in init || r == last;
    }
  }

  lemma {:induction false} WinnerOfSelected(rules: seq<PolicyRule>, keep: Filter, p: Filter)
    requires forall r :: r in rules && p(r) ==> keep(r)
    ensures Winner(Select(rules, keep), p) == Winner(rules, p)
    decreases |rules|
  {
    if rules == [] {
    } else {
      var init, last := rules[..|rules| - 1], rules[|rules| - 1];
      assert last in rules;
      WinnerOfSelected(init, keep, p);
      if keep(last) {
        assert (Select(init, keep) + [last])[..|Select(init, keep)|] == Select(init, keep);
      } else {
        assert Select(init, keep) + [] == Select(init, keep);
      }
    }
  }

  // Stable sorting

  /** After every rule that does not come later. */
  function Insert(sorted: seq<PolicyRule>, r: PolicyRule): seq<PolicyRule> {
    if sorted != [] && Before(r, sorted[|sorted| - 1])
    then Insert(sorted[..|sorted| - 1], r) + [sorted[|sorted| - 1]]
    else sorted + [r]
  }

  function StableSort(rules: seq<PolicyRule>): seq<PolicyRule> {
    if rules == [] then []
    else Insert(StableSort(rules[..|rules| - 1]), rules[|rules| - 1])
  }

  predicate Sorted(rules: seq<PolicyRule>) {
    forall i, j :: 0 <= i < j < |rules| ==> !Before(rules[j], rules[i])
  }

  lemma SortedGrows(sorted: seq<PolicyRule>, last: PolicyRule)
    requires Sorted(sorted) && forall x :: x in sorted ==> !Before(last, x)
    ensures Sorted(sorted + [last])
  {
  }

  lemma {:induction false} InsertAdds(sorted: seq<PolicyRule>, r: PolicyRule)
    ensures multiset(Insert(sorted, r)) == multiset(sorted) + multiset{r}
    decreases |sorted|
  {
    if sorted != [] && Before(r, sorted[|sorted| - 1]) {
      assert sorted == sorted[..|sorted| - 1] + [sorted[|sorted| - 1]];
      InsertAdds(sorted[..|sorted| - 1], r);
    }
  }

  lemma {:induction false} InsertKeepsOrder(sorted: seq<PolicyRule>, r: PolicyRule)
    requires Sorted(sorted)
    ensures Sorted(Insert(sorted, r))
    decreases |sorted|
  {
    if sorted != [] && Before(r, sorted[|sorted| - 1]) {
      var init, last := sorted[..|sorted| - 1], sorted[|sorted| - 1];
      InsertKeepsOrder(init, r);
      InsertAdds(init, r);
      forall x | x in Insert(init, r) ensures !Before(last, x) {
        assert x in multiset(Insert(init, r));
      }
      SortedGrows(Insert(init, r), last);
    } else {
      forall x | x in sorted ensures !Before(r, x) {
        var i :| 0 <= i < |sorted| && sorted[i] == x;
        assert i < |sorted| - 1 ==> !Before(sorted[|sorted| - 1], sorted[i]);
      }
      SortedGrows(sorted, r);
    }
  }

  /** Sorted, and the same rules. */
  lemma {:induction false} StableSortSorts(rules: seq<PolicyRule>)
    ensures Sorted(StableSort(rules)) && multiset(StableSort(rules)) == multiset(rules)
    decreases |rules|
  {
    if rules == [] {
    } else {
      assert rules == rules[..|rules| - 1] + [rules[|rules| - 1]];
      StableSortSorts(rules[..|rules| - 1]);
      InsertKeepsOrder(StableSort(rules[..|rules| - 1]), rules[|rules| - 1]);
      InsertAdds(StableSort(rules[..|rules| - 1]), rules[|rules| - 1]);
    }
  }

  predicate SameKey(a: PolicyRule, b: PolicyRule) {
    a.orderIndex == b.orderIndex && a.priority == b.priority
  }

  function WithKey(k: PolicyRule): Filter {
    x => SameKey(x, k)
  }

  function One(r: PolicyRule, keep: Filter): seq<PolicyRule> {
    if keep(r) then [r] else []
  }

  /** Of two rules that are not both kept, the order does not show. */
  lemma KeptSwap(kept: seq<PolicyRule>, r: PolicyRule, last: PolicyRule, keep: Filter)
    requires !(keep(r) && keep(last))
    ensures (kept + One(r, keep)) + One(last, keep) == (kept + One(last, keep)) + One(r, keep)
  {
  }

  lemma {:induction false} InsertIsStable(sorted: seq<PolicyRule>, r: PolicyRule, keep: Filter)
    requires keep(r) ==> forall i :: 0 <= i < |sorted| && Before(r, sorted[i]) ==> !keep(sorted[i])
    ensures Select(Insert(sorted, r), keep) == Select(sorted, keep) + One(r, keep)
    decreases |sorted|
  {
    if sorted != [] && Before(r, sorted[|sorted| - 1]) {
      var init, last := sorted[..|sorted| - 1], sorted[|sorted| - 1];
      InsertIsStable(init, r, keep);
      SelectOneMore(Insert(init, r), last, keep);
      KeptSwap(Select(init, keep), r, last, keep);
    } else {
      SelectOneMore(sorted, r, keep);
    }
  }

  lemma SelectOneMore(rules: seq<PolicyRule>, r: PolicyRule, keep: Filter)
    ensures Select(rules + [r], keep) == Select(rules, keep) + One(r, keep)
  {
    assert (rules + [r])[..|rules|] == rules;
  }

  /** Rules with equal order index and priority keep their places relative to each other. */
  lemma {:induction false} StableSortIsStable(rules: seq<PolicyRule>, k: PolicyRule)
    ensures Select(StableSort(rules), WithKey(k)) == Select(rules, WithKey(k))
    decreases |rules|
  {
    if rules == [] {
    } else {
      StableSortIsStable(rules[..|rules| - 1], k);
      InsertIsStable(StableSort(rules[..|rules| - 1]), rules[|rules| - 1], WithKey(k));
    }
  }

  // First match in a list

  function First(rules: seq<PolicyRule>, p: Filter): Option<PolicyRule> {
    if rules == [] then None
    else
      var found := First(rules[..|rules| - 1], p);
      if found.Some? then found else if p(rules[|rules| - 1]) then Some(rules[|rules| - 1]) else None
  }

  lemma {:induction false} FirstIsIn(rules: seq<PolicyRule>, p: Filter)
    ensures First(rules, p).Some? ==> First(rules, p).value in rules && p(First(rules, p).value)
    ensures First(rules, p).None? ==> forall r :: r in rules ==> !p(r)
    decreases |rules|
  {
    if rules == [] {
    } else {
      FirstIsIn(rules[..|rules| - 1], p);
    }
  }

  lemma {:induction false} FirstKeepsPrefix(a: seq<PolicyRule>, b: seq<PolicyRule>, p: Filter)
    requires First(a, p).Some?
    ensures First(a + b, p) == First(a, p)
    decreases |b|
  {
    if b == [] {
      assert a + b == a;
    } else {
      assert (a + b)[..|a + b| - 1] == a + b[..|b| - 1];
      FirstKeepsPrefix(a, b[..|b| - 1], p);
    }
  }

  lemma {:induction false} FirstAfterInsert(sorted: seq<PolicyRule>, r: PolicyRule, p: Filter)
    requires Sorted(sorted)
    ensures var f := First(sorted, p);
            First(Insert(sorted, r), p) == if p(r) && (f.None? || Before(r, f.value)) then Some(r) else f
    decreases |sorted|
  {
    if sorted != [] && Before(r, sorted[|sorted| - 1]) {
      var init, last := sorted[..|sorted| - 1], sorted[|sorted| - 1];
      FirstAfterInsert(init, r, p);
      assert (Insert(init, r) + [last])[..|Insert(init, r)|] == Insert(init, r);
    } else {
      assert (sorted + [r])[..|sorted|] == sorted;
      FirstIsIn(sorted, p);
    }
  }

  /** The first match after stable sorting is the least match of the unsorted list. */
  lemma {:induction false} FirstOfSortedWins(rules: seq<PolicyRule>, p: Filter)
    ensures First(StableSort(rules), p) == Winner(rules, p)
    decreases |rules|
  {
    if rules == [] {
    } else {
      FirstOfSortedWins(rules[..|rules| - 1], p);
      StableSortSorts(rules[..|rules| - 1]);
      FirstAfterInsert(StableSort(rules[..|rules| - 1]), rules[|rules| - 1], p);
    }
  }
}
