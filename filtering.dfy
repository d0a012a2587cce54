/** JavaScript's `Array.prototype.filter` on a sequence, and what it
    returns: the subsequence of the elements the callback accepts. */
module Filtering {

  /** `s.filter(keep)`: the elements `keep` accepts, in their order. */
  function Filter<T>(s: seq<T>, keep: T -> bool): (r: seq<T>)
    ensures |r| <= |s|
    ensures forall k :: 0 <= k < |r| ==> keep(r[k])
    ensures forall x :: x in r ==> x in s
  {
    if s == [] then []
    else (if keep(s[0]) then [s[0]] else []) + Filter(s[1..], keep)
  }

  ghost predicate StrictlyIncreasing(idx: seq<int>) {
    forall j, k :: 0 <= j < k < |idx| ==> idx[j] < idx[k]
  }

  /** `r` is the subsequence of `s` at the positions `idx`, and `idx` lists,
      in increasing order, exactly the positions whose elements `keep`
      accepts. */
  ghost predicate Selects<T>(s: seq<T>, r: seq<T>, idx: seq<int>, keep: T -> bool) {
    && |idx| == |r|
    && StrictlyIncreasing(idx)
    && (forall k :: 0 <= k < |idx| ==> 0 <= idx[k] < |s| && r[k] == s[idx[k]])
    && (forall i :: 0 <= i < |s| ==> (keep(s[i]) <==> i in idx))
  }

  function Shifted(idx: seq<int>): (r: seq<int>)
    ensures |r| == |idx| && forall k :: 0 <= k < |r| ==> r[k] == idx[k] + 1
  {
    seq(|idx|, k requires 0 <= k < |idx| => idx[k] + 1)
  }

  /** The positions of the elements `Filter` keeps, in order. */
  function KeptPositions<T>(s: seq<T>, keep: T -> bool): seq<int> {
    if s == [] then []
    else (if keep(s[0]) then [0] else []) + Shifted(KeptPositions(s[1..], keep))
  }

  /** Shifting positions by one shifts membership by one. */
  lemma ShiftedMembers(idx: seq<int>)
    ensures forall i :: i in Shifted(idx) <==> i - 1 in idx
  {
    var r := Shifted(idx);
    forall i ensures i in r <==> i - 1 in idx {
      if i in r {
        var k :| 0 <= k < |r| && r[k] == i;
      }
      if i - 1 in idx {
        var k :| 0 <= k < |idx| && idx[k] == i - 1;
        assert r[k] == i;
      }
    }
  }

  /** Prepending position 0 (or nothing) to positions shifted by one keeps
      them strictly increasing. */
  lemma ConsIncreasing(head: seq<int>, tailIdx: seq<int>)
    requires head == [] || head == [0]
    requires StrictlyIncreasing(tailIdx)
    requires forall k :: 0 <= k < |tailIdx| ==> tailIdx[k] >= 0
    ensures StrictlyIncreasing(head + Shifted(tailIdx))
  {
    var shifted := Shifted(tailIdx);
    var idx := head + shifted;
    var h := |head|;
    forall j, k | 0 <= j < k < |idx| ensures idx[j] < idx[k] {
      assert idx[k] == shifted[k - h];
      if j >= h {
        assert idx[j] == shifted[j - h];
      }
    }
  }

  /** One step of the filter: a selection from the tail extends to one from
      the whole sequence, taking the head exactly when it is accepted. */
  lemma SelectsCons<T>(s: seq<T>, tailKept: seq<T>, tailIdx: seq<int>, keep: T -> bool)
    requires s != []
    requires Selects(s[1..], tailKept, tailIdx, keep)
    ensures Selects(s,
                    (if keep(s[0]) then [s[0]] else []) + tailKept,
                    (if keep(s[0]) then [0] else []) + Shifted(tailIdx),
                    keep)
  {
    var tail := s[1..];
    var head := if keep(s[0]) then [s[0]] else [];
    var headIdx := if keep(s[0]) then [0] else [];
    var kept := head + tailKept;
    var shifted := Shifted(tailIdx);
    var idx := headIdx + shifted;
    var h := |head|;
    ShiftedMembers(tailIdx);
    ConsIncreasing(headIdx, tailIdx);
    forall k | 0 <= k < |idx|
      ensures 0 <= idx[k] < |s| && kept[k] == s[idx[k]]
    {
      if k >= h {
        assert idx[k] == tailIdx[k - h] + 1;
        assert kept[k] == tailKept[k - h] == tail[tailIdx[k - h]];
      }
    }
    forall i | 0 <= i < |s|
      ensures keep(s[i]) <==> i in idx
    {
      if i == 0 {
        assert 0 !in shifted;
      } else {
        assert s[i] == tail[i - 1];
        assert i in idx <==> i in shifted;
      }
    }
  }

  /** The filter keeps exactly the accepted elements, in their original
      order, each one unchanged. */
  lemma {:induction false} FilterSelects<T>(s: seq<T>, keep: T -> bool)
    ensures Selects(s, Filter(s, keep), KeptPositions(s, keep), keep)
  {
    if s != [] {
      FilterSelects(s[1..], keep);
      SelectsCons(s, Filter(s[1..], keep), KeptPositions(s[1..], keep), keep);
    }
  }

  /** A strictly increasing sequence is determined by its elements. */
  lemma {:induction false} IncreasingDeterminedByElements(a: seq<int>, b: seq<int>)
    requires StrictlyIncreasing(a) && StrictlyIncreasing(b)
    requires forall x :: x in a <==> x in b
    ensures a == b
  {
    if a != [] {
      assert a[0] in a;
    }
    if b != [] {
      assert b[0] in b;
    }
    if a != [] && b != [] {
      assert a[0] == b[0] by {
        assert a[0] in b;
        assert b[0] in a;
      }
      forall x ensures x in a[1..] <==> x in b[1..] {
        if x in a[1..] {
          assert x in b;
        }
        if x in b[1..] {
          assert x in a;
        }
      }
      IncreasingDeterminedByElements(a[1..], b[1..]);
      assert a == [a[0]] + a[1..];
      assert b == [b[0]] + b[1..];
    }
  }

  /** Conversely, any subsequence that picks exactly the accepted elements in
      order is what the filter returns. */
  lemma SelectsUnique<T>(s: seq<T>, r: seq<T>, idx: seq<int>, keep: T -> bool)
    requires Selects(s, r, idx, keep)
    ensures r == Filter(s, keep)
  {
    var pos := KeptPositions(s, keep);
    FilterSelects(s, keep);
    forall x ensures x in idx <==> x in pos {
      if x in idx {
        var k :| 0 <= k < |idx| && idx[k] == x;
      }
      if x in pos {
        var k :| 0 <= k < |pos| && pos[k] == x;
      }
    }
    IncreasingDeterminedByElements(idx, pos);
  }

  /** Filtering a concatenation filters each part. */
  lemma {:induction false} FilterAppend<T>(s: seq<T>, t: seq<T>, keep: T -> bool)
    ensures Filter(s + t, keep) == Filter(s, keep) + Filter(t, keep)
  {
    if s != [] {
      assert (s + t)[1..] == s[1..] + t;
      FilterAppend(s[1..], t, keep);
    } else {
      assert s + t == t;
    }
  }

  /** A sequence whose every element is accepted passes the filter
      unchanged, so filtering twice is filtering once. */
  lemma {:induction false} FilterIdentity<T>(s: seq<T>, keep: T -> bool)
    requires forall k :: 0 <= k < |s| ==> keep(s[k])
    ensures Filter(s, keep) == s
  {
    if s != [] {
      FilterIdentity(s[1..], keep);
    }
  }
}
