/**
 * The list sort that `ArrayAdapter.sort(comparator)` runs (Collections.sort,
 * hence java.util.TimSort). For fewer than 32 elements TimSort does no
 * merging: it finds the initial run (reversing it when it is strictly
 * descending) and then binary-insertion-sorts the remaining elements. This
 * module models that path. The comparator is an arbitrary int-valued
 * function; nothing here assumes it is consistent.
 */
module JdkSort {

  /** A java.util.Comparator: the sign of the result orders its two arguments. */
  type Comparator<-T> = (T, T) -> int

  /** TimSort.MIN_MERGE: shorter lists are sorted without merging. */
  const MIN_MERGE := 32

  function Reverse<T>(s: seq<T>): (r: seq<T>)
    ensures |r| == |s|
    ensures forall i :: 0 <= i < |s| ==> r[i] == s[|s| - 1 - i]
  {
    if s == [] then [] else Reverse(s[1..]) + [s[0]]
  }

  lemma {:induction false} ReverseMultiset<T>(s: seq<T>)
    ensures multiset(Reverse(s)) == multiset(s)
  {
    if s != [] {
      ReverseMultiset(s[1..]);
      assert s == [s[0]] + s[1..];
    }
  }

  /** End of the strictly descending run s[0..e), scanning on from index i. */
  function DescendingRunEnd<T>(s: seq<T>, cmp: Comparator<T>, i: nat): (e: nat)
    requires 1 <= i <= |s|
    ensures i <= e <= |s|
    ensures forall k :: i <= k < e ==> cmp(s[k], s[k - 1]) < 0
    ensures e < |s| ==> cmp(s[e], s[e - 1]) >= 0
    decreases |s| - i
  {
    if i < |s| && cmp(s[i], s[i - 1]) < 0 then DescendingRunEnd(s, cmp, i + 1) else i
  }

  /** End of the non-descending run s[0..e), scanning on from index i. */
  function AscendingRunEnd<T>(s: seq<T>, cmp: Comparator<T>, i: nat): (e: nat)
    requires 1 <= i <= |s|
    ensures i <= e <= |s|
    ensures forall k :: i <= k < e ==> cmp(s[k], s[k - 1]) >= 0
    ensures e < |s| ==> cmp(s[e], s[e - 1]) < 0
    decreases |s| - i
  {
    if i < |s| && cmp(s[i], s[i - 1]) >= 0 then AscendingRunEnd(s, cmp, i + 1) else i
  }

  /**
   * countRunAndMakeAscending: the list with its initial run made ascending
   * (a strictly descending run is reversed in place), and the run's length.
   */
  function MakeRunAscending<T>(s: seq<T>, cmp: Comparator<T>): (r: (seq<T>, nat))
    requires |s| >= 2
    ensures |r.0| == |s| && 2 <= r.1 <= |s|
  {
    if cmp(s[1], s[0]) < 0 then
      var e := DescendingRunEnd(s, cmp, 2);
      (Reverse(s[..e]) + s[e..], e)
    else
      (s, AscendingRunEnd(s, cmp, 2))
  }

  /**
   * The binary search of binarySort: the insertion point of pivot in
   * s[left..right), after every element it does not compare below.
   */
  function InsertionPoint<T>(s: seq<T>, cmp: Comparator<T>, pivot: T, left: nat, right: nat): (p: nat)
    requires left <= right <= |s|
    ensures left <= p <= right
    decreases right - left
  {
    if left < right then
      var mid := (left + right) / 2;
      if cmp(pivot, s[mid]) < 0 then InsertionPoint(s, cmp, pivot, left, mid)
      else InsertionPoint(s, cmp, pivot, mid + 1, right)
    else left
  }

  /** Moves s[from] to index `to`, shifting s[to..from) one place right. */
  function MoveLeft<T>(s: seq<T>, from: nat, to: nat): (r: seq<T>)
    requires to <= from < |s|
    ensures |r| == |s|
  {
    s[..to] + [s[from]] + s[to..from] + s[from + 1..]
  }

  lemma MoveLeftMultiset<T>(s: seq<T>, from: nat, to: nat)
    requires to <= from < |s|
    ensures multiset(MoveLeft(s, from, to)) == multiset(s)
  {
    assert s == s[..to] + s[to..from] + [s[from]] + s[from + 1..];
  }

  /** binarySort: inserts s[start], s[start + 1], ... into the sorted prefix. */
  function BinarySort<T>(s: seq<T>, cmp: Comparator<T>, start: nat): (r: seq<T>)
    requires 1 <= start <= |s|
    ensures |r| == |s|
    decreases |s| - start
  {
    if start == |s| then s
    else BinarySort(MoveLeft(s, start, InsertionPoint(s, cmp, s[start], 0, start)), cmp, start + 1)
  }

  lemma {:induction false} BinarySortMultiset<T>(s: seq<T>, cmp: Comparator<T>, start: nat)
    requires 1 <= start <= |s|
    ensures multiset(BinarySort(s, cmp, start)) == multiset(s)
    decreases |s| - start
  {
    if start < |s| {
      var p := InsertionPoint(s, cmp, s[start], 0, start);
      MoveLeftMultiset(s, start, p);
      BinarySortMultiset(MoveLeft(s, start, p), cmp, start + 1);
    }
  }

  /** TimSort.sort on a whole list, by its no-merge path. */
  function Sort<T>(s: seq<T>, cmp: Comparator<T>): (r: seq<T>)
    ensures |r| == |s|
  {
    if |s| < 2 then s
    else
      var (t, run) := MakeRunAscending(s, cmp);
      BinarySort(t, cmp, run)
  }

  /** Whatever the comparator returns, sorting only rearranges the list. */
  lemma SortPermutes<T>(s: seq<T>, cmp: Comparator<T>)
    ensures multiset(Sort(s, cmp)) == multiset(s)
  {
    if |s| >= 2 {
      var (t, run) := MakeRunAscending(s, cmp);
      if cmp(s[1], s[0]) < 0 {
        var e := DescendingRunEnd(s, cmp, 2);
        ReverseMultiset(s[..e]);
        assert s == s[..e] + s[e..];
      }
      BinarySortMultiset(t, cmp, run);
    }
  }

  /**
   * A comparator that answers "less" for every pair of elements makes the
   * whole list one strictly descending run, which the sort reverses.
   */
  lemma AlwaysLessReverses<T>(s: seq<T>, cmp: Comparator<T>)
    requires forall i, j :: 0 <= i < |s| && 0 <= j < |s| ==> cmp(s[i], s[j]) < 0
    ensures Sort(s, cmp) == Reverse(s)
  {
    if |s| >= 2 {
      assert cmp(s[1], s[0]) < 0;
      WholeRunDescending(s, cmp, 2);
      assert s[..|s|] == s;
      assert Reverse(s) + s[|s|..] == Reverse(s);
    }
  }

  /** Under such a comparator the descending run never stops before the end. */
  lemma {:induction false} WholeRunDescending<T>(s: seq<T>, cmp: Comparator<T>, i: nat)
    requires 1 <= i <= |s|
    requires forall i, j :: 0 <= i < |s| && 0 <= j < |s| ==> cmp(s[i], s[j]) < 0
    ensures DescendingRunEnd(s, cmp, i) == |s|
    decreases |s| - i
  {
    if i < |s| {
      assert cmp(s[i], s[i - 1]) < 0;
      WholeRunDescending(s, cmp, i + 1);
    }
  }
}
