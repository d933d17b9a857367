/** Selections over sequences of rows: what a `WHERE … ORDER BY … LIMIT` reads from a table
    whose rows are kept in insertion order. */
module Seqs {
  import opened Wrappers

  /** The rows satisfying `p`, in their order. */
  function Filter<T>(s: seq<T>, p: T -> bool): (r: seq<T>)
    ensures |r| <= |s|
    ensures forall i :: 0 <= i < |r| ==> p(r[i]) && r[i] in s
    ensures forall i :: 0 <= i < |s| && p(s[i]) ==> s[i] in r
  {
    if s == [] then []
    else if p(s[0]) then [s[0]] + Filter(s[1..], p)
    else Filter(s[1..], p)
  }

  /** Filtering distributes over concatenation. */
  lemma {:induction false} FilterAppend<T>(s: seq<T>, t: seq<T>, p: T -> bool)
    ensures Filter(s + t, p) == Filter(s, p) + Filter(t, p)
  {
    if s != [] {
      assert (s + t)[0] == s[0];
      assert (s + t)[1..] == s[1..] + t;
      FilterAppend(s[1..], t, p);
    } else {
      assert s + t == t;
    }
  }

  /** The index of the first row satisfying `p`. */
  function FirstIndex<T>(s: seq<T>, p: T -> bool): (r: Option<nat>)
    ensures r.Some? ==> r.value < |s| && p(s[r.value])
    ensures r.Some? ==> forall j :: 0 <= j < r.value ==> !p(s[j])
    ensures r.None? <==> forall j :: 0 <= j < |s| ==> !p(s[j])
  {
    if s == [] then None
    else if p(s[0]) then Some(0)
    else match FirstIndex(s[1..], p)
      case None => None
      case Some(i) => Some(i + 1)
  }

  /** The index of the last row satisfying `p`. */
  function LastIndex<T>(s: seq<T>, p: T -> bool): (r: Option<nat>)
    ensures r.Some? ==> r.value < |s| && p(s[r.value])
    ensures r.Some? ==> forall j :: r.value < j < |s| ==> !p(s[j])
    ensures r.None? <==> forall j :: 0 <= j < |s| ==> !p(s[j])
  {
    if s == [] then None
    else if p(s[|s| - 1]) then Some(|s| - 1)
    else LastIndex(s[..|s| - 1], p)
  }

  /** The number of rows satisfying `p`. */
  function CountWhere<T>(s: seq<T>, p: T -> bool): (n: nat)
    ensures n == |Filter(s, p)|
  {
    if s == [] then 0 else (if p(s[0]) then 1 else 0) + CountWhere(s[1..], p)
  }

  /** Replacing one row changes the count by what the old and the new row contribute. */
  lemma {:induction false} CountWhereUpdate<T>(s: seq<T>, i: nat, x: T, p: T -> bool)
    requires i < |s|
    ensures CountWhere(s[i := x], p) == CountWhere(s, p) - (if p(s[i]) then 1 else 0) + (if p(x) then 1 else 0)
  {
    if i == 0 {
      assert s[i := x][1..] == s[1..];
    } else {
      assert s[i := x][1..] == s[1..][i - 1 := x];
      CountWhereUpdate(s[1..], i - 1, x, p);
    }
  }

  /** `s.map(f)` */
  function Map<T, U>(s: seq<T>, f: T -> U): (r: seq<U>)
    ensures |r| == |s|
    ensures forall i :: 0 <= i < |s| ==> r[i] == f(s[i])
  {
    if s == [] then [] else [f(s[0])] + Map(s[1..], f)
  }

  /** The image of a member is a member of the image. */
  lemma MapKeepsMembers<T, U>(s: seq<T>, f: T -> U, x: T)
    requires x in s
    ensures f(x) in Map(s, f)
  {
    var k :| 0 <= k < |s| && s[k] == x;
    assert Map(s, f)[k] == f(x);
  }

  /** `s.slice(offset, offset + limit)`: SQL `LIMIT limit OFFSET offset`. */
  function Page<T>(s: seq<T>, limit: nat, offset: nat): (r: seq<T>)
    ensures |r| <= limit
    ensures offset <= |s| ==> r == s[offset..offset + (if limit < |s| - offset then limit else |s| - offset)]
    ensures offset >= |s| ==> r == []
  {
    if offset >= |s| then []
    else if limit < |s| - offset then s[offset..offset + limit]
    else s[offset..]
  }

  /** `s` in reverse order. */
  function Reverse<T>(s: seq<T>): (r: seq<T>)
    ensures |r| == |s|
    ensures forall i :: 0 <= i < |s| ==> r[i] == s[|s| - 1 - i]
  {
    if s == [] then [] else Reverse(s[1..]) + [s[0]]
  }

  /** `s` is in non-decreasing order of `k`. */
  ghost predicate SortedBy<T>(s: seq<T>, k: T -> int) {
    forall i, j :: 0 <= i < j < |s| ==> k(s[i]) <= k(s[j])
  }

  /** A selection keeps the order of the rows it selects. */
  lemma {:induction false} FilterKeepsSorted<T>(s: seq<T>, p: T -> bool, k: T -> int)
    requires SortedBy(s, k)
    ensures SortedBy(Filter(s, p), k)
  {
    if s != [] {
      assert SortedBy(s[1..], k);
      FilterKeepsSorted(s[1..], p, k);
      if p(s[0]) {
        var r := Filter(s[1..], p);
        forall j | 0 <= j < |r|
          ensures k(s[0]) <= k(r[j])
        {
          var m :| 0 <= m < |s[1..]| && s[1..][m] == r[j];
          assert s[m + 1] == r[j];
        }
        ConsKeepsSorted(s[0], r, k);
      }
    }
  }

  lemma ConsKeepsSorted<T>(x: T, r: seq<T>, k: T -> int)
    requires SortedBy(r, k)
    requires forall j :: 0 <= j < |r| ==> k(x) <= k(r[j])
    ensures SortedBy([x] + r, k)
  {
    forall i, j | 0 <= i < j < |[x] + r|
      ensures k(([x] + r)[i]) <= k(([x] + r)[j])
    {
      assert ([x] + r)[j] == r[j - 1];
      if i > 0 {
        assert ([x] + r)[i] == r[i - 1];
      }
    }
  }

  /** `s` is in strictly increasing order of `k`: no two rows share a key. */
  ghost predicate StrictlySortedBy<T>(s: seq<T>, k: T -> int) {
    forall i, j :: 0 <= i < j < |s| ==> k(s[i]) < k(s[j])
  }

  /** A selection of rows with distinct increasing keys has distinct increasing keys. */
  lemma {:induction false} FilterKeepsStrictlySorted<T>(s: seq<T>, p: T -> bool, k: T -> int)
    requires StrictlySortedBy(s, k)
    ensures StrictlySortedBy(Filter(s, p), k)
  {
    if s != [] {
      assert StrictlySortedBy(s[1..], k);
      FilterKeepsStrictlySorted(s[1..], p, k);
      if p(s[0]) {
        var r := Filter(s[1..], p);
        forall j | 0 <= j < |r|
          ensures k(s[0]) < k(r[j])
        {
          var m :| 0 <= m < |s[1..]| && s[1..][m] == r[j];
          assert s[m + 1] == r[j];
        }
        ConsKeepsStrictlySorted(s[0], r, k);
      }
    }
  }

  lemma ConsKeepsStrictlySorted<T>(x: T, r: seq<T>, k: T -> int)
    requires StrictlySortedBy(r, k)
    requires forall j :: 0 <= j < |r| ==> k(x) < k(r[j])
    ensures StrictlySortedBy([x] + r, k)
  {
    forall i, j | 0 <= i < j < |[x] + r|
      ensures k(([x] + r)[i]) < k(([x] + r)[j])
    {
      assert ([x] + r)[j] == r[j - 1];
      if i > 0 {
        assert ([x] + r)[i] == r[i - 1];
      }
    }
  }

  /** The first `m` rows of a reversed ordered sequence are its newest: a row with a greater key
      than one of them is one of them. */
  lemma ReversePrefixIsNewest<T>(s: seq<T>, m: nat, k: T -> int, p: nat, q: nat)
    requires SortedBy(s, k) && m <= |s|
    requires p < |s| && q < m && k(Reverse(s)[q]) < k(s[p])
    ensures s[p] in Reverse(s)[..m]
  {
    assert Reverse(s)[q] == s[|s| - 1 - q];
    assert Reverse(s)[..m][|s| - 1 - p] == s[p];
  }

  /** The first page of an ordered sequence listed newest first holds its newest rows. */
  lemma FirstPageOfReversedIsNewest<T>(s: seq<T>, k: T -> int, limit: nat, x: T, y: T)
    requires SortedBy(s, k) && x in s
    requires y in Page(Reverse(s), limit, 0) && k(y) < k(x)
    ensures x in Page(Reverse(s), limit, 0)
  {
    var page := Page(Reverse(s), limit, 0);
    var m := |page|;
    assert page == Reverse(s)[..m];
    var i :| 0 <= i < |s| && s[i] == x;
    var q :| 0 <= q < m && page[q] == y;
    ReversePrefixIsNewest(s, m, k, i, q);
  }

  /** The first page of a selection listed newest first holds its newest rows: a selected row
      with a greater key than one on the page is on the page too. */
  lemma FirstPageIsNewest<T>(s: seq<T>, p: T -> bool, k: T -> int, limit: nat, x: T, y: T)
    requires SortedBy(s, k)
    requires x in s && p(x)
    requires y in Page(Reverse(Filter(s, p)), limit, 0) && k(y) < k(x)
    ensures x in Page(Reverse(Filter(s, p)), limit, 0)
  {
    assert x in Filter(s, p) by {
      var j :| 0 <= j < |s| && s[j] == x;
    }
    assert SortedBy(Filter(s, p), k) by {
      FilterKeepsSorted(s, p, k);
    }
    FirstPageOfReversedIsNewest(Filter(s, p), k, limit, x, y);
  }

  /** `s` is in non-increasing order of `k`. */
  ghost predicate SortedDescBy<T>(s: seq<T>, k: T -> int) {
    forall i, j :: 0 <= i < j < |s| ==> k(s[i]) >= k(s[j])
  }

  lemma ReverseOfSorted<T>(s: seq<T>, k: T -> int)
    requires SortedBy(s, k)
    ensures SortedDescBy(Reverse(s), k)
  {
  }

  lemma ReverseKeepsElements<T>(s: seq<T>)
    ensures forall x :: x in s <==> x in Reverse(s)
  {
    forall x | x in s
      ensures x in Reverse(s)
    {
      var i :| 0 <= i < |s| && s[i] == x;
      assert Reverse(s)[|s| - 1 - i] == x;
    }
    forall x | x in Reverse(s)
      ensures x in s
    {
      var i :| 0 <= i < |s| && Reverse(s)[i] == x;
      assert s[|s| - 1 - i] == x;
    }
  }

  /** Every selected row satisfies the selection. */
  lemma FilterSatisfies<T>(s: seq<T>, p: T -> bool)
    ensures forall x :: x in Filter(s, p) ==> p(x)
  {
    forall x | x in Filter(s, p)
      ensures p(x)
    {
      var i :| 0 <= i < |Filter(s, p)| && Filter(s, p)[i] == x;
    }
  }

  /** A page holds only rows of the listing it is cut from. */
  lemma PageIsWithin<T>(s: seq<T>, limit: nat, offset: nat)
    ensures forall x :: x in Page(s, limit, offset) ==> x in s
  {
    forall x | x in Page(s, limit, offset)
      ensures x in s
    {
      var i :| 0 <= i < |Page(s, limit, offset)| && Page(s, limit, offset)[i] == x;
      assert s[offset + i] == x;
    }
  }

  lemma PageKeepsSortedDesc<T>(s: seq<T>, limit: nat, offset: nat, k: T -> int)
    requires SortedDescBy(s, k)
    ensures SortedDescBy(Page(s, limit, offset), k)
  {
  }
}
