/** Collection operations the store's queries are built from: filtering,
    counting, summing, sorting by a key in descending order (the
    `sort({ field: -1 })` of a query), and the `skip`/`limit` of a cursor. */
module Seqs {

  /** The elements of `s` that satisfy `p`, in their order. */
  function Filter<T(!new)>(s: seq<T>, p: T -> bool): (r: seq<T>)
    ensures |r| <= |s|
    ensures forall x :: x in r <==> x in s && p(x)
    ensures forall i :: 0 <= i < |r| ==> p(r[i])
    ensures multiset(r) <= multiset(s)
  {
    if s == [] then []
    else
      var rest := Filter(s[1..], p);
      assert s == [s[0]] + s[1..];
      if p(s[0]) then [s[0]] + rest else rest
  }

  /** Filtering distributes over concatenation. */
  lemma {:induction false} FilterAppend<T(!new)>(a: seq<T>, b: seq<T>, p: T -> bool)
    ensures Filter(a + b, p) == Filter(a, p) + Filter(b, p)
    decreases |a|
  {
    if a == [] {
      assert a + b == b;
    } else {
      assert (a + b)[1..] == a[1..] + b;
      FilterAppend(a[1..], b, p);
    }
  }

  /** Filters by predicates that agree everywhere are equal. */
  lemma {:induction false} FilterExt<T(!new)>(s: seq<T>, p: T -> bool, q: T -> bool)
    requires forall x :: p(x) == q(x)
    ensures Filter(s, p) == Filter(s, q)
    decreases |s|
  {
    if s != [] {
      FilterExt(s[1..], p, q);
    }
  }

  /** Two filters in a row are one filter on the conjunction. */
  lemma {:induction false} FilterFilter<T(!new)>(s: seq<T>, p: T -> bool, q: T -> bool)
    ensures Filter(Filter(s, p), q) == Filter(s, x => p(x) && q(x))
    decreases |s|
  {
    if s != [] {
      FilterFilter(s[1..], p, q);
    }
  }

  /** A filter is contained in a filter by any weaker predicate. */
  lemma {:induction false} FilterWeaker<T(!new)>(s: seq<T>, p: T -> bool, q: T -> bool)
    requires forall x :: p(x) ==> q(x)
    ensures |Filter(s, p)| <= |Filter(s, q)|
    ensures forall x :: x in Filter(s, p) ==> x in Filter(s, q)
    decreases |s|
  {
    if s != [] {
      FilterWeaker(s[1..], p, q);
    }
  }

  /** The sum of `f` over `s`. */
  function Sum<T>(s: seq<T>, f: T -> real): real {
    if s == [] then 0.0 else f(s[0]) + Sum(s[1..], f)
  }

  lemma {:induction false} SumAppend<T>(a: seq<T>, b: seq<T>, f: T -> real)
    ensures Sum(a + b, f) == Sum(a, f) + Sum(b, f)
    decreases |a|
  {
    if a == [] {
      assert a + b == b;
    } else {
      assert (a + b)[1..] == a[1..] + b;
      SumAppend(a[1..], b, f);
    }
  }

  /** The complement of a predicate. */
  function Not<T>(p: T -> bool): T -> bool {
    x => !p(x)
  }

  /** The mean of `n` values whose sum is `total`: `$avg`. */
  function Average(total: real, n: nat): (a: real)
    requires n > 0
    ensures a * (n as real) == total
  {
    total / (n as real)
  }

  /** Splitting a sum along a predicate: the parts of a filter and of its
      complement add up to the whole. */
  lemma {:induction false} SumPartition<T(!new)>(s: seq<T>, f: T -> real, p: T -> bool)
    ensures Sum(s, f) == Sum(Filter(s, p), f) + Sum(Filter(s, Not(p)), f)
    decreases |s|
  {
    if s != [] {
      SumPartition(s[1..], f, p);
    }
  }

  /** The number of elements of `s` that satisfy `p`. */
  function Count<T(!new)>(s: seq<T>, p: T -> bool): (n: nat)
    ensures n <= |s|
    ensures n == 0 <==> forall x :: x in s ==> !p(x)
  {
    |Filter(s, p)|
  }

  /** The distinct elements of `s`, in order of first occurrence: the keys
      of a `$group` stage. */
  function Distinct<T(==)>(s: seq<T>): (r: seq<T>)
    ensures forall i :: 0 <= i < |r| ==> r[i] in s
    ensures forall i :: 0 <= i < |s| ==> s[i] in r
    ensures forall i, j :: 0 <= i < j < |r| ==> r[i] != r[j]
    ensures |r| <= |s|
  {
    if s == [] then []
    else
      var init := s[..|s| - 1];
      var rest := Distinct(init);
      assert forall i :: 0 <= i < |init| ==> init[i] == s[i];
      if s[|s| - 1] in rest then rest else rest + [s[|s| - 1]]
  }

  /** `s` with `f` applied to every element. */
  function Map<T, U>(s: seq<T>, f: T -> U): (r: seq<U>)
    ensures |r| == |s|
    ensures forall i :: 0 <= i < |s| ==> r[i] == f(s[i])
  {
    seq(|s|, i requires 0 <= i < |s| => f(s[i]))
  }

  // ---------------------------------------------------------------------
  // Sorting by a key, largest first

  predicate SortedDesc<T>(s: seq<T>, key: T -> int) {
    forall i, j :: 0 <= i < j < |s| ==> key(s[i]) >= key(s[j])
  }

  /** Inserts `x` in front of the first element whose key is not larger, so
      that elements with equal keys keep their relative order. */
  function InsertDesc<T>(x: T, s: seq<T>, key: T -> int): (r: seq<T>)
    requires SortedDesc(s, key)
    ensures SortedDesc(r, key)
    ensures multiset(r) == multiset(s) + multiset{x}
    ensures |r| == |s| + 1
    ensures r[0] == x || (s != [] && r[0] == s[0])
  {
    if s == [] || key(x) >= key(s[0]) then
      [x] + s
    else
      var rest := InsertDesc(x, s[1..], key);
      assert s == [s[0]] + s[1..];
      [s[0]] + rest
  }

  /** A stable insertion sort by `key`, largest first: the model of
      `sort({ key: -1 })`, which fixes no order among equal keys; this model
      keeps stored order among them. */
  function SortDesc<T>(s: seq<T>, key: T -> int): (r: seq<T>)
    ensures SortedDesc(r, key)
    ensures multiset(r) == multiset(s)
    ensures |r| == |s|
  {
    if s == [] then []
    else
      assert s == [s[0]] + s[1..];
      InsertDesc(s[0], SortDesc(s[1..], key), key)
  }

  lemma SortDescMembers<T>(s: seq<T>, key: T -> int, x: T)
    ensures x in SortDesc(s, key) <==> x in s
  {
    assert x in multiset(SortDesc(s, key)) <==> x in multiset(s);
  }

  // ---------------------------------------------------------------------
  // Cursor paging

  function Min(a: nat, b: nat): nat {
    if a <= b then a else b
  }

  /** `.skip(skip).limit(limit)`: drop the first `skip` elements, then keep
      at most `limit`; a limit of 0 keeps all. */
  function Page<T>(s: seq<T>, skip: nat, limit: nat): (r: seq<T>)
    ensures skip >= |s| ==> r == []
    ensures skip < |s| ==> |r| == (if limit == 0 then |s| - skip else Min(limit, |s| - skip))
    ensures forall i :: 0 <= i < |r| ==> skip + i < |s| && r[i] == s[skip + i]
  {
    if skip >= |s| then []
    else if limit == 0 || skip + limit >= |s| then s[skip..]
    else s[skip..skip + limit]
  }

  /** `.limit(limit)` alone. */
  function Take<T>(s: seq<T>, limit: nat): (r: seq<T>)
    ensures limit == 0 || |s| <= limit ==> r == s
    ensures limit > 0 ==> |r| <= limit
    ensures forall i :: 0 <= i < |r| ==> r[i] == s[i]
  {
    Page(s, 0, limit)
  }

  /** A page of a sorted sequence is sorted, and its elements come from the
      sequence. */
  lemma PageSorted<T>(s: seq<T>, skip: nat, limit: nat, key: T -> int)
    requires SortedDesc(s, key)
    ensures SortedDesc(Page(s, skip, limit), key)
    ensures forall x :: x in Page(s, skip, limit) ==> x in s
  {
    var r := Page(s, skip, limit);
    forall i, j | 0 <= i < j < |r| ensures key(r[i]) >= key(r[j]) {
      assert r[i] == s[skip + i] && r[j] == s[skip + j];
    }
    forall x | x in r ensures x in s {
      var i :| 0 <= i < |r| && r[i] == x;
      assert s[skip + i] == x;
    }
  }

  /** `r` is a top-`limit` selection of `s` by `key`, largest first: as
      many elements as the limit allows (all when it is 0), taken from `s`
      without repeats beyond their multiplicity, and no element left out has
      a larger key than the last one kept. Equal keys may be chosen either
      way. */
  ghost predicate IsTop<T>(r: seq<T>, s: seq<T>, limit: nat, key: T -> int) {
    && |r| == (if limit == 0 then |s| else Min(limit, |s|))
    && multiset(r) <= multiset(s)
    && SortedDesc(r, key)
    && forall x :: x in multiset(s) - multiset(r) ==> |r| > 0 && key(x) <= key(r[|r| - 1])
  }

  /** What a prefix of a sorted sequence leaves out is no larger than the
      prefix's last element. */
  lemma SortedTailBelow<T>(t: seq<T>, m: nat, key: T -> int)
    requires SortedDesc(t, key)
    requires 0 < m <= |t|
    ensures forall x :: x in t[m..] ==> key(x) <= key(t[m - 1])
  {
    forall x | x in t[m..] ensures key(x) <= key(t[m - 1]) {
      var j :| m <= j < |t| && t[j] == x;
    }
  }

  /** Taking a prefix away leaves the suffix. */
  lemma PrefixRemoved<T>(t: seq<T>, m: nat)
    requires m <= |t|
    ensures multiset(t) - multiset(t[..m]) == multiset(t[m..])
  {
    assert t == t[..m] + t[m..];
  }

  /** Sorting and then taking the first `limit` is a top-`limit`
      selection. */
  lemma TakeSortedIsTop<T>(s: seq<T>, limit: nat, key: T -> int)
    ensures IsTop(Take(SortDesc(s, key), limit), s, limit, key)
  {
    var sorted := SortDesc(s, key);
    var r := Take(sorted, limit);
    var m := |r|;
    PageSorted(sorted, 0, limit, key);
    assert r == sorted[..m];
    PrefixRemoved(sorted, m);
    assert multiset(r) <= multiset(s) by {
      assert multiset(sorted) == multiset(r) + multiset(sorted[m..]) by {
        assert sorted == r + sorted[m..];
      }
    }
    forall x | x in multiset(s) - multiset(r) ensures |r| > 0 && key(x) <= key(r[|r| - 1]) {
      assert x in sorted[m..];
      assert m > 0;
      SortedTailBelow(sorted, m, key);
      assert r[m - 1] == sorted[m - 1];
    }
  }

  /** No element occurs twice. */
  predicate NoRepeats<T(==)>(s: seq<T>) {
    forall i, j :: 0 <= i < j < |s| ==> s[i] != s[j]
  }

  /** In a sequence without repeats every element occurs at most once. */
  lemma {:induction false} NoRepeatsOnce<T>(s: seq<T>, x: T)
    requires NoRepeats(s)
    ensures multiset(s)[x] <= 1
    decreases |s|
  {
    if s != [] {
      var init := s[..|s| - 1];
      assert s == init + [s[|s| - 1]];
      assert NoRepeats(init) by {
        forall i, j | 0 <= i < j < |init| ensures init[i] != init[j] {
          assert init[i] == s[i] && init[j] == s[j];
        }
      }
      NoRepeatsOnce(init, x);
      if s[|s| - 1] == x {
        assert x !in init by {
          forall k | 0 <= k < |init| ensures init[k] != x {
            assert init[k] == s[k];
          }
        }
      }
    }
  }

  /** An element at two positions occurs at least twice. */
  lemma RepeatTwice<T>(r: seq<T>, i: nat, j: nat)
    requires i < j < |r| && r[i] == r[j]
    ensures multiset(r)[r[i]] >= 2
  {
    assert r == r[..j] + [r[j]] + r[j + 1..];
    assert r[..j][i] == r[i];
  }

  /** Taking no element more often than a sequence without repeats holds
      it keeps the result free of repeats. */
  lemma SubNoRepeats<T>(r: seq<T>, s: seq<T>)
    requires multiset(r) <= multiset(s)
    requires NoRepeats(s)
    ensures NoRepeats(r)
  {
    forall i, j | 0 <= i < j < |r| ensures r[i] != r[j] {
      NoRepeatsOnce(s, r[i]);
      if r[i] == r[j] {
        RepeatTwice(r, i, j);
        assert false;
      }
    }
  }

  /** A top selection holds only elements of the sequence. */
  lemma TopMembers<T>(r: seq<T>, s: seq<T>, limit: nat, key: T -> int)
    requires IsTop(r, s, limit, key)
    ensures forall x :: x in r ==> x in s
  {
    forall x | x in r ensures x in s {
      assert x in multiset(r);
    }
  }

  /** Consecutive pages partition the sequence: page `k + 1` starts where
      page `k` ends. */
  lemma PagesAdjacent<T>(s: seq<T>, k: nat, limit: nat)
    requires limit > 0
    requires (k + 1) * limit <= |s|
    ensures Page(s, k * limit, limit) + Page(s, (k + 1) * limit, limit) == Page(s, k * limit, 2 * limit)
  {
    assert (k + 1) * limit == k * limit + limit;
  }
}
