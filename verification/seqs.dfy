/** `Array.prototype.filter` as a pure function on sequences, and what it guarantees. */
module Seqs {

  /** The elements of `s` that satisfy `p`, in their original order. */
  function Filter<T>(p: T -> bool, s: seq<T>): (r: seq<T>)
    ensures |r| <= |s|
    ensures forall i :: 0 <= i < |r| ==> p(r[i])
    decreases |s|
  {
    if |s| == 0 then []
    else if p(s[0]) then [s[0]] + Filter(p, s[1..])
    else Filter(p, s[1..])
  }

  /** An element survives the filter exactly when it is in the input and passes. */
  lemma {:induction false} FilterMembership<T>(p: T -> bool, s: seq<T>, x: T)
    ensures x in Filter(p, s) <==> x in s && p(x)
    decreases |s|
  {
    if |s| > 0 {
      FilterMembership(p, s[1..], x);
    }
  }

  /** `idx` lists strictly increasing positions of `b` at which the elements of `a` occur. */
  ghost predicate IsEmbedding<T>(idx: seq<int>, a: seq<T>, b: seq<T>) {
    && |idx| == |a|
    && (forall i :: 0 <= i < |idx| ==> 0 <= idx[i] < |b| && a[i] == b[idx[i]])
    && (forall i, j :: 0 <= i < j < |idx| ==> idx[i] < idx[j])
  }

  /** Position `k` is one of the positions listed in `idx`. */
  ghost predicate Lists(idx: seq<int>, k: int) {
    exists i :: 0 <= i < |idx| && idx[i] == k
  }

  /**
   * Filtering is an order-preserving selection: the result is embedded in the input at
   * increasing positions, and every position whose element passes is one of them.
   */
  lemma {:induction false} FilterPositions<T>(p: T -> bool, s: seq<T>) returns (idx: seq<int>)
    ensures IsEmbedding(idx, Filter(p, s), s)
    ensures forall k :: 0 <= k < |s| && p(s[k]) ==> Lists(idx, k)
    decreases |s|
  {
    if |s| == 0 {
      idx := [];
    } else {
      var rest := FilterPositions(p, s[1..]);
      var shifted := ShiftPositions(p, s, rest);
      if p(s[0]) {
        idx := PrependPosition(p, s, shifted);
      } else {
        idx := shifted;
        assert Filter(p, s) == Filter(p, s[1..]);
      }
    }
  }

  /** When the head passes, position 0 goes in front of the tail's positions. */
  lemma PrependPosition<T>(p: T -> bool, s: seq<T>, shifted: seq<int>) returns (idx: seq<int>)
    requires |s| > 0 && p(s[0])
    requires IsEmbedding(shifted, Filter(p, s[1..]), s)
    requires forall i :: 0 <= i < |shifted| ==> 1 <= shifted[i]
    requires forall k :: 1 <= k < |s| && p(s[k]) ==> Lists(shifted, k)
    ensures IsEmbedding(idx, Filter(p, s), s)
    ensures forall k :: 0 <= k < |s| && p(s[k]) ==> Lists(idx, k)
  {
    idx := [0] + shifted;
    assert Filter(p, s) == [s[0]] + Filter(p, s[1..]);
    forall i | 0 <= i < |idx|
      ensures 0 <= idx[i] < |s| && Filter(p, s)[i] == s[idx[i]]
    {
      if i > 0 {
        assert idx[i] == shifted[i - 1];
      }
    }
    forall i, j | 0 <= i < j < |idx|
      ensures idx[i] < idx[j]
    {
      var a, b := i - 1, j - 1;
      if i == 0 {
        assert 1 <= shifted[b];
      } else {
        assert shifted[a] < shifted[b];
      }
    }
    forall k | 0 <= k < |s| && p(s[k])
      ensures Lists(idx, k)
    {
      if k == 0 {
        assert idx[0] == 0;
      } else {
        var i :| 0 <= i < |shifted| && shifted[i] == k;
        assert idx[i + 1] == k;
      }
    }
  }

  /** The positions of the tail's survivors, re-read as positions in the whole sequence. */
  lemma ShiftPositions<T>(p: T -> bool, s: seq<T>, rest: seq<int>) returns (shifted: seq<int>)
    requires |s| > 0
    requires IsEmbedding(rest, Filter(p, s[1..]), s[1..])
    requires forall k :: 0 <= k < |s| - 1 && p(s[1..][k]) ==> Lists(rest, k)
    ensures IsEmbedding(shifted, Filter(p, s[1..]), s)
    ensures forall i :: 0 <= i < |shifted| ==> 1 <= shifted[i]
    ensures forall k :: 1 <= k < |s| && p(s[k]) ==> Lists(shifted, k)
  {
    shifted := seq(|rest|, i requires 0 <= i < |rest| => rest[i] + 1);
    ShiftEmbeds(Filter(p, s[1..]), s, rest, shifted);
    forall k | 1 <= k < |s| && p(s[k])
      ensures Lists(shifted, k)
    {
      assert s[k] == s[1..][k - 1];
      var i :| 0 <= i < |rest| && rest[i] == k - 1;
      assert shifted[i] == k;
    }
  }

  /** An embedding into the tail of `s`, moved up by one, is an embedding into `s`. */
  lemma ShiftEmbeds<T>(a: seq<T>, s: seq<T>, rest: seq<int>, shifted: seq<int>)
    requires |s| > 0 && IsEmbedding(rest, a, s[1..])
    requires |shifted| == |rest| && forall i :: 0 <= i < |rest| ==> shifted[i] == rest[i] + 1
    ensures IsEmbedding(shifted, a, s)
    ensures forall i :: 0 <= i < |shifted| ==> 1 <= shifted[i]
  {
    forall i | 0 <= i < |shifted|
      ensures 1 <= shifted[i] < |s| && a[i] == s[shifted[i]]
    {
      assert s[1..][rest[i]] == s[rest[i] + 1];
    }
  }

  /** A filter leaves its input untouched exactly when every element passes. */
  lemma {:induction false} FilterKeepsAll<T>(p: T -> bool, s: seq<T>)
    ensures Filter(p, s) == s <==> forall i :: 0 <= i < |s| ==> p(s[i])
    decreases |s|
  {
    if |s| > 0 {
      FilterKeepsAll(p, s[1..]);
      if !p(s[0]) {
        assert |Filter(p, s)| <= |s[1..]| < |s|;
      } else if Filter(p, s) == s {
        assert Filter(p, s[1..]) == s[1..];
      }
      assert forall i :: 1 <= i < |s| ==> s[i] == s[1..][i - 1];
    }
  }

  /** Filtering twice by the same test is filtering once. */
  lemma {:induction false} FilterIdempotent<T>(p: T -> bool, s: seq<T>)
    ensures Filter(p, Filter(p, s)) == Filter(p, s)
  {
    FilterKeepsAll(p, Filter(p, s));
  }

  /** Two filters can be applied in either order. */
  lemma {:induction false} FilterCommutes<T>(p: T -> bool, q: T -> bool, s: seq<T>)
    ensures Filter(p, Filter(q, s)) == Filter(q, Filter(p, s))
    decreases |s|
  {
    if |s| > 0 {
      FilterCommutes(p, q, s[1..]);
    }
  }

  /** When the passing elements are exactly a prefix, the filter returns that prefix. */
  lemma {:induction false} FilterPrefix<T>(p: T -> bool, s: seq<T>, k: int)
    requires 0 <= k <= |s|
    requires forall i :: 0 <= i < k ==> p(s[i])
    requires forall i :: k <= i < |s| ==> !p(s[i])
    ensures Filter(p, s) == s[..k]
    decreases |s|
  {
    if |s| > 0 {
      if k == 0 {
        FilterPrefix(p, s[1..], 0);
      } else {
        FilterPrefix(p, s[1..], k - 1);
        assert s[..k] == [s[0]] + s[1..][..k - 1];
      }
    }
  }
}
