/** Filtering and mapping of sequences, as the handlers' list comprehensions and loops do them. */
module Seqs {

  /** `[x for x in s if p(x)]`. */
  function Filter<T>(s: seq<T>, p: T -> bool): (r: seq<T>)
    ensures |r| <= |s|
  {
    if s == [] then [] else (if p(s[0]) then [s[0]] else []) + Filter(s[1..], p)
  }

  /** `[f(x) for x in s]`. */
  function Map<A, B>(f: A -> B, s: seq<A>): (r: seq<B>)
    ensures |r| == |s|
    ensures forall i :: 0 <= i < |s| ==> r[i] == f(s[i])
  {
    if s == [] then [] else [f(s[0])] + Map(f, s[1..])
  }

  predicate Increasing(idx: seq<int>)
  {
    forall i, j :: 0 <= i < j < |idx| ==> idx[i] < idx[j]
  }

  /** Position `idx[k]` of `s` holds `r[k]`, for every `k`. */
  ghost predicate Positions<T>(s: seq<T>, r: seq<T>, idx: seq<int>)
  {
    |idx| == |r| && forall k :: 0 <= k < |idx| ==> 0 <= idx[k] < |s| && r[k] == s[idx[k]]
  }

  /** Every position of `s` whose element passes `p` is among `idx`. */
  predicate Covers<T>(s: seq<T>, p: T -> bool, idx: seq<int>)
  {
    forall i :: 0 <= i < |s| && p(s[i]) ==> i in idx
  }

  /**
   * `r` is exactly the elements of `s` that satisfy `p`, in their order in `s`:
   * every element of `r` passes `p`, `r` is read off increasing positions of
   * `s`, and every position whose element passes `p` is read.
   */
  ghost predicate Selects<T>(s: seq<T>, p: T -> bool, r: seq<T>)
  {
    && (forall k :: 0 <= k < |r| ==> p(r[k]))
    && exists idx: seq<int> :: Increasing(idx) && Positions(s, r, idx) && Covers(s, p, idx)
  }

  /** Filtering selects exactly the elements that satisfy the test, keeping their order. */
  lemma FilterSelects<T>(s: seq<T>, p: T -> bool)
    ensures Selects(s, p, Filter(s, p))
  {
    FilterPasses(s, p);
    var idx := FilterPositions(s, p);
  }

  lemma {:induction false} FilterPasses<T>(s: seq<T>, p: T -> bool)
    ensures forall k :: 0 <= k < |Filter(s, p)| ==> p(Filter(s, p)[k])
  {
    if s != [] {
      FilterPasses(s[1..], p);
    }
  }

  /** The positions filtering reads its elements from. */
  lemma {:induction false} FilterPositions<T>(s: seq<T>, p: T -> bool) returns (idx: seq<int>)
    ensures Increasing(idx) && Positions(s, Filter(s, p), idx) && Covers(s, p, idx)
  {
    if s == [] {
      idx := [];
    } else {
      var r := Filter(s[1..], p);
      var tail := FilterPositions(s[1..], p);
      ShiftIncreasing(tail);
      if p(s[0]) {
        TakePositions(s, r, tail);
        TakeCovers(s, p, tail);
        assert Filter(s, p) == [s[0]] + r;
        idx := [0] + Shift(tail);
      } else {
        ShiftPositions(s, r, tail);
        SkipCovers(s, p, tail);
        assert Filter(s, p) == r;
        idx := Shift(tail);
      }
    }
  }

  /** The positions picked from the tail, one further along. */
  function Shift(idx: seq<int>): (r: seq<int>)
    ensures |r| == |idx| && forall k :: 0 <= k < |idx| ==> r[k] == idx[k] + 1
  {
    seq(|idx|, k requires 0 <= k < |idx| => idx[k] + 1)
  }

  lemma ShiftIncreasing(idx: seq<int>)
    requires Increasing(idx)
    ensures Increasing(Shift(idx))
    ensures (forall k :: 0 <= k < |idx| ==> idx[k] >= 0) ==> Increasing([0] + Shift(idx))
  {
    var sh := Shift(idx);
    if forall k :: 0 <= k < |idx| ==> idx[k] >= 0 {
      var z := [0] + sh;
      forall i, j | 0 <= i < j < |z| ensures z[i] < z[j] {
        if i > 0 {
          assert idx[i - 1] < idx[j - 1];
        }
      }
    }
  }

  lemma ShiftPositions<T>(s: seq<T>, r: seq<T>, idx: seq<int>)
    requires s != [] && Positions(s[1..], r, idx)
    ensures Positions(s, r, Shift(idx))
  {
    var t := s[1..];
    var sh := Shift(idx);
    forall k | 0 <= k < |sh| ensures 0 <= sh[k] < |s| && r[k] == s[sh[k]] {
      var j := idx[k];
      assert t[j] == s[j + 1];
    }
  }

  lemma TakePositions<T>(s: seq<T>, r: seq<T>, idx: seq<int>)
    requires s != [] && Positions(s[1..], r, idx)
    ensures Positions(s, [s[0]] + r, [0] + Shift(idx))
  {
    ShiftPositions(s, r, idx);
    var z := [0] + Shift(idx);
    var r' := [s[0]] + r;
    forall k | 0 <= k < |z| ensures 0 <= z[k] < |s| && r'[k] == s[z[k]] {
      if k > 0 {
        assert z[k] == Shift(idx)[k - 1] && r'[k] == r[k - 1];
      }
    }
  }

  lemma SkipCovers<T>(s: seq<T>, p: T -> bool, idx: seq<int>)
    requires s != [] && !p(s[0]) && Covers(s[1..], p, idx)
    ensures Covers(s, p, Shift(idx))
  {
    var t := s[1..];
    var sh := Shift(idx);
    forall i | 0 <= i < |s| && p(s[i]) ensures i in sh {
      assert t[i - 1] == s[i];
      assert i - 1 in idx;
      var k :| 0 <= k < |idx| && idx[k] == i - 1;
      assert sh[k] == i;
    }
  }

  lemma TakeCovers<T>(s: seq<T>, p: T -> bool, idx: seq<int>)
    requires s != [] && Covers(s[1..], p, idx)
    ensures Covers(s, p, [0] + Shift(idx))
  {
    var t := s[1..];
    var z := [0] + Shift(idx);
    forall i | 0 <= i < |s| && p(s[i]) ensures i in z {
      if i > 0 {
        assert t[i - 1] == s[i];
        assert i - 1 in idx;
        var k :| 0 <= k < |idx| && idx[k] == i - 1;
        assert z[k + 1] == i;
      }
    }
  }
}
