/**
 * A stable insertion sort over an arbitrary "not after" relation. `Array.prototype.sort`
 * is stable, and with a consistent comparator every stable sort yields the same order,
 * so this sort stands for it.
 */
module Sorting {

  import opened Seqs

  /** `le` is total and transitive: a total preorder, which is what a consistent comparator gives. */
  ghost predicate TotalPreorder<T(!new)>(le: (T, T) -> bool) {
    && (forall a, b :: le(a, b) || le(b, a))
    && (forall a, b, c :: le(a, b) && le(b, c) ==> le(a, c))
  }

  /** Every element is "not after" every later one. */
  ghost predicate SortedBy<T>(s: seq<T>, le: (T, T) -> bool) {
    forall i, j :: 0 <= i < j < |s| ==> le(s[i], s[j])
  }

  /** Puts `x` in front of the first element it is "not after". */
  function Insert<T(==)>(x: T, s: seq<T>, le: (T, T) -> bool): (r: seq<T>)
    ensures multiset(r) == multiset(s) + multiset{x}
    decreases |s|
  {
    if |s| == 0 then [x]
    else if le(x, s[0]) then [x] + s
    else
      assert s == [s[0]] + s[1..];
      [s[0]] + Insert(x, s[1..], le)
  }

  /** Sorts the tail, then inserts the head, which therefore lands before its equals. */
  function InsertionSort<T(==)>(s: seq<T>, le: (T, T) -> bool): (r: seq<T>)
    ensures multiset(r) == multiset(s)
    decreases |s|
  {
    if |s| == 0 then []
    else
      assert s == [s[0]] + s[1..];
      Insert(s[0], InsertionSort(s[1..], le), le)
  }

  lemma {:induction false} InsertSorted<T(!new)>(x: T, s: seq<T>, le: (T, T) -> bool)
    requires TotalPreorder(le) && SortedBy(s, le)
    ensures SortedBy(Insert(x, s, le), le)
    decreases |s|
  {
    if |s| > 0 && !le(x, s[0]) {
      InsertSorted(x, s[1..], le);
      var r := Insert(x, s, le);
      var tail := Insert(x, s[1..], le);
      assert r == [s[0]] + tail;
      forall j | 0 <= j < |tail|
        ensures le(s[0], tail[j])
      {
        assert tail[j] in multiset(tail);
        assert tail[j] in multiset(s[1..]) + multiset{x};
        if tail[j] != x {
          var k :| 0 <= k < |s[1..]| && s[1..][k] == tail[j];
          assert s[1..][k] == s[k + 1];
        }
      }
    }
  }

  /** The sort returns its input reordered into non-decreasing order. */
  lemma {:induction false} InsertionSortSorted<T(!new)>(s: seq<T>, le: (T, T) -> bool)
    requires TotalPreorder(le)
    ensures SortedBy(InsertionSort(s, le), le)
    decreases |s|
  {
    if |s| > 0 {
      InsertionSortSorted(s[1..], le);
      InsertSorted(s[0], InsertionSort(s[1..], le), le);
    }
  }

  /** `a` and `b` are equivalent: each is "not after" the other. */
  ghost predicate Equivalent<T>(a: T, b: T, le: (T, T) -> bool) {
    le(a, b) && le(b, a)
  }

  /** The elements of `s` equivalent to `k`, in order. */
  function EquivalentTo<T(!new)>(k: T, le: (T, T) -> bool): T -> bool {
    x => le(x, k) && le(k, x)
  }

  lemma {:induction false} InsertStable<T(!new)>(x: T, s: seq<T>, le: (T, T) -> bool, k: T)
    requires TotalPreorder(le)
    ensures Filter(EquivalentTo(k, le), Insert(x, s, le))
         == (if Equivalent(x, k, le) then [x] else []) + Filter(EquivalentTo(k, le), s)
    decreases |s|
  {
    var p := EquivalentTo(k, le);
    if |s| > 0 && !le(x, s[0]) {
      InsertStable(x, s[1..], le, k);
      assert Insert(x, s, le) == [s[0]] + Insert(x, s[1..], le);
      if Equivalent(x, k, le) {
        assert !p(s[0]);
      }
    }
  }

  /**
   * Stability: for every equivalence class, the members appear in the output in exactly
   * the order they had in the input.
   */
  lemma {:induction false} InsertionSortStable<T(!new)>(s: seq<T>, le: (T, T) -> bool, k: T)
    requires TotalPreorder(le)
    ensures Filter(EquivalentTo(k, le), InsertionSort(s, le)) == Filter(EquivalentTo(k, le), s)
    decreases |s|
  {
    if |s| > 0 {
      InsertionSortStable(s[1..], le, k);
      InsertStable(s[0], InsertionSort(s[1..], le), le, k);
    }
  }

  /** The sort only consults `le`: two relations that agree everywhere sort alike. */
  lemma {:induction false} InsertionSortAgrees<T(!new)>(s: seq<T>, le1: (T, T) -> bool, le2: (T, T) -> bool)
    requires forall a, b :: le1(a, b) == le2(a, b)
    ensures InsertionSort(s, le1) == InsertionSort(s, le2)
    decreases |s|
  {
    if |s| > 0 {
      InsertionSortAgrees(s[1..], le1, le2);
      InsertAgrees(s[0], InsertionSort(s[1..], le1), le1, le2);
    }
  }

  lemma {:induction false} InsertAgrees<T(!new)>(x: T, s: seq<T>, le1: (T, T) -> bool, le2: (T, T) -> bool)
    requires forall a, b :: le1(a, b) == le2(a, b)
    ensures Insert(x, s, le1) == Insert(x, s, le2)
    decreases |s|
  {
    if |s| > 0 {
      InsertAgrees(x, s[1..], le1, le2);
    }
  }

  /** Two elements out of order are swapped. */
  lemma SortOfTwo<T>(y: T, z: T, le: (T, T) -> bool)
    requires !le(y, z)
    ensures InsertionSort([y, z], le) == [z, y]
  {
    assert [y, z][1..] == [z];
    assert InsertionSort([z], le) == [z] by {
      assert [z][1..] == [];
    }
    assert Insert(y, [z], le) == [z] + Insert(y, [], le);
  }

  /** A first element that belongs before the other two stays in front. */
  lemma SortOfThreeFront<T>(x: T, y: T, z: T, le: (T, T) -> bool)
    requires !le(y, z) && le(x, z)
    ensures InsertionSort([x, y, z], le) == [x, z, y]
  {
    assert [x, y, z][1..] == [y, z];
    SortOfTwo(y, z, le);
  }

  /** A first element that belongs between the other two lands in the middle. */
  lemma SortOfThreeMiddle<T>(x: T, y: T, z: T, le: (T, T) -> bool)
    requires !le(y, z) && !le(x, z) && le(x, y)
    ensures InsertionSort([x, y, z], le) == [z, x, y]
  {
    assert [x, y, z][1..] == [y, z];
    SortOfTwo(y, z, le);
    assert [z, y][1..] == [y];
    assert Insert(x, [z, y], le) == [z] + Insert(x, [y], le);
  }
}
