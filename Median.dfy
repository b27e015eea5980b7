/**
 * `calculateRoughMedian`: copy the list, sort the copy ascending and take the
 * element at index floor(n/2) (no interpolation for even n); an empty list
 * gives 0. The sort is the runtime's `Array.prototype.sort` with the numeric
 * comparator `(a, b) => a - b`; it is specified here by what it returns (an
 * ascending permutation, which is unique) and realised by insertion.
 */
module Median {

  predicate Ascending(s: seq<int>)
  {
    forall i, j :: 0 <= i < j < |s| ==> s[i] <= s[j]
  }

  /** Places `x` into an ascending sequence. */
  function Insert(x: int, s: seq<int>): (r: seq<int>)
    requires Ascending(s)
    ensures |r| == |s| + 1
    ensures Ascending(r)
    ensures multiset(r) == multiset(s) + multiset{x}
    ensures r[0] == if s == [] || x <= s[0] then x else s[0]
  {
    if s == [] || x <= s[0] then [x] + s
    else
      assert s == [s[0]] + s[1..];
      [s[0]] + Insert(x, s[1..])
  }

  /** An ascending-sorted copy: the same elements, in ascending order. */
  function SortAscending(s: seq<int>): (r: seq<int>)
    ensures |r| == |s|
    ensures Ascending(r)
    ensures multiset(r) == multiset(s)
  {
    if s == [] then []
    else
      assert s == [s[0]] + s[1..];
      Insert(s[0], SortAscending(s[1..]))
  }

  /** The head of an ascending sequence is at most each of its elements. */
  lemma HeadIsLeast(s: seq<int>, x: int)
    requires Ascending(s) && x in multiset(s)
    ensures s != [] && s[0] <= x
  {
    var j :| 0 <= j < |s| && s[j] == x;
    if j > 0 {
      assert s[0] <= s[j];
    }
  }

  lemma TailAscending(s: seq<int>)
    requires s != [] && Ascending(s)
    ensures Ascending(s[1..])
  {
  }

  lemma TailMultiset(s: seq<int>)
    requires s != []
    ensures multiset(s[1..]) == multiset(s) - multiset{s[0]}
  {
    assert s == [s[0]] + s[1..];
  }

  /** Two ascending sequences with the same elements are equal: "the sorted copy" is well defined. */
  lemma {:induction false} AscendingPermutationUnique(a: seq<int>, b: seq<int>)
    requires Ascending(a) && Ascending(b)
    requires multiset(a) == multiset(b)
    ensures a == b
  {
    if a != [] {
      assert b != [] && a[0] == b[0] by {
        assert a[0] in multiset(a);
        HeadIsLeast(b, a[0]);
        assert b[0] in multiset(b);
        HeadIsLeast(a, b[0]);
      }
      assert multiset(a[1..]) == multiset(b[1..]) by {
        TailMultiset(a);
        TailMultiset(b);
      }
      TailAscending(a);
      TailAscending(b);
      AscendingPermutationUnique(a[1..], b[1..]);
      assert a == [a[0]] + a[1..];
      assert b == [b[0]] + b[1..];
    } else {
      assert |b| == |multiset(b)| == 0;
    }
  }

  /** `calculateRoughMedian`. */
  function RoughMedian(arr: seq<int>): (median: int)
    ensures arr == [] ==> median == 0
    ensures arr != [] ==> median in arr
  {
    if |arr| == 0 then 0
    else
      var sorted := SortAscending(arr);
      assert sorted[|arr| / 2] in multiset(sorted);
      sorted[|arr| / 2]
  }

  /** Whatever ascending permutation of the input one sorts into, the rough median is its element floor(n/2). */
  lemma RoughMedianOfSortedCopy(arr: seq<int>, sorted: seq<int>)
    requires arr != []
    requires Ascending(sorted) && multiset(sorted) == multiset(arr)
    ensures |sorted| == |arr|
    ensures RoughMedian(arr) == sorted[|arr| / 2]
  {
    assert |sorted| == |multiset(sorted)| == |multiset(arr)| == |arr|;
    AscendingPermutationUnique(sorted, SortAscending(arr));
  }

  // ---------------------------------------------------------------------
  // Rank: how many elements lie strictly below and strictly above
  // ---------------------------------------------------------------------

  function CountBelow(s: seq<int>, x: int): (c: nat)
    ensures c <= |s|
  {
    if s == [] then 0 else (if s[0] < x then 1 else 0) + CountBelow(s[1..], x)
  }

  function CountAbove(s: seq<int>, x: int): (c: nat)
    ensures c <= |s|
  {
    if s == [] then 0 else (if s[0] > x then 1 else 0) + CountAbove(s[1..], x)
  }

  lemma {:induction false} InsertCounts(y: int, s: seq<int>, x: int)
    requires Ascending(s)
    ensures CountBelow(Insert(y, s), x) == CountBelow(s, x) + (if y < x then 1 else 0)
    ensures CountAbove(Insert(y, s), x) == CountAbove(s, x) + (if y > x then 1 else 0)
  {
    var r := Insert(y, s);
    if s == [] || y <= s[0] {
      assert r[1..] == s;
    } else {
      assert r[1..] == Insert(y, s[1..]);
      InsertCounts(y, s[1..], x);
    }
  }

  /** Sorting keeps the number of elements below and above any value. */
  lemma {:induction false} SortKeepsCounts(s: seq<int>, x: int)
    ensures CountBelow(SortAscending(s), x) == CountBelow(s, x)
    ensures CountAbove(SortAscending(s), x) == CountAbove(s, x)
  {
    if s != [] {
      SortKeepsCounts(s[1..], x);
      InsertCounts(s[0], SortAscending(s[1..]), x);
    }
  }

  lemma {:induction false} FewBelow(t: seq<int>, x: int, k: nat)
    requires k <= |t|
    requires forall i :: k <= i < |t| ==> t[i] >= x
    ensures CountBelow(t, x) <= k
  {
    if t != [] {
      FewBelow(t[1..], x, if k == 0 then 0 else k - 1);
    }
  }

  lemma {:induction false} FewAbove(t: seq<int>, x: int, k: nat)
    requires k <= |t|
    requires forall i :: 0 <= i < k ==> t[i] <= x
    ensures CountAbove(t, x) <= |t| - k
  {
    if t != [] && k > 0 {
      FewAbove(t[1..], x, k - 1);
    }
  }

  /** In an ascending sequence, at most k elements are below element k and at most n - 1 - k above it. */
  lemma AscendingRank(sorted: seq<int>, k: nat)
    requires Ascending(sorted) && k < |sorted|
    ensures CountBelow(sorted, sorted[k]) <= k
    ensures CountAbove(sorted, sorted[k]) <= |sorted| - 1 - k
  {
    var m := sorted[k];
    assert CountBelow(sorted, m) <= k by {
      forall i | k <= i < |sorted| ensures sorted[i] >= m {
        if i > k {
          assert sorted[k] <= sorted[i];
        }
      }
      FewBelow(sorted, m, k);
    }
    forall i | 0 <= i < k + 1 ensures sorted[i] <= m {
      if i < k {
        assert sorted[i] <= sorted[k];
      }
    }
    FewAbove(sorted, m, k + 1);
  }

  /**
   * The rough median's rank: at most floor(n/2) elements of the input are
   * below it and at most n - 1 - floor(n/2) are above it.
   */
  lemma RoughMedianRank(arr: seq<int>)
    requires arr != []
    ensures CountBelow(arr, RoughMedian(arr)) <= |arr| / 2
    ensures CountAbove(arr, RoughMedian(arr)) <= |arr| - 1 - |arr| / 2
  {
    var sorted := SortAscending(arr);
    var k := |arr| / 2;
    assert RoughMedian(arr) == sorted[k];
    AscendingRank(sorted, k);
    SortKeepsCounts(arr, sorted[k]);
  }
}
