/**
 * The few Python string operations the caption parser relies on, written out:
 * `str.split(sep)` (leftmost, non-overlapping), `sep.join(pieces)`,
 * `str.strip()` (Python's whitespace set) and upper-casing of ASCII letters.
 */
module Text {

  /** `sep` occurs in `s` starting at position `p`. */
  predicate MatchAt(s: string, sep: string, p: int)
  {
    0 <= p && p + |sep| <= |s| && s[p..p + |sep|] == sep
  }

  /** `sep` occurs somewhere in `s` (Python's `sep in s`). */
  predicate Contains(s: string, sep: string)
  {
    exists p :: 0 <= p <= |s| - |sep| && MatchAt(s, sep, p)
  }

  /** Prepends `x` to the first piece of a split. */
  function Cons(x: string, pieces: seq<string>): (r: seq<string>)
    requires |pieces| >= 1
    ensures |r| == |pieces|
  {
    [x + pieces[0]] + pieces[1..]
  }

  /**
   * Python's `s.split(sep)` for a non-empty separator: the text is cut at the
   * leftmost occurrence of `sep`, and the scan resumes after that occurrence.
   */
  function Split(s: string, sep: string): (pieces: seq<string>)
    requires sep != []
    ensures |pieces| >= 1
    decreases |s|
  {
    if |s| < |sep| then [s]
    else if s[..|sep|] == sep then [[]] + Split(s[|sep|..], sep)
    else Cons([s[0]], Split(s[1..], sep))
  }

  /** Python's `sep.join(pieces)`. */
  function Join(pieces: seq<string>, sep: string): string
  {
    if pieces == [] then []
    else if |pieces| == 1 then pieces[0]
    else pieces[0] + sep + Join(pieces[1..], sep)
  }

  lemma JoinCons(x: string, pieces: seq<string>, sep: string)
    requires |pieces| >= 1
    ensures Join(Cons(x, pieces), sep) == x + Join(pieces, sep)
  {
    if |pieces| > 1 {
      assert Cons(x, pieces)[1..] == pieces[1..];
    }
  }

  lemma JoinEmptyHead(pieces: seq<string>, sep: string)
    requires |pieces| >= 1
    ensures Join([[]] + pieces, sep) == sep + Join(pieces, sep)
  {
    assert ([[]] + pieces)[1..] == pieces;
  }

  /** Joining the pieces of a split with the same separator gives the text back. */
  lemma {:induction false} SplitJoin(s: string, sep: string)
    requires sep != []
    ensures Join(Split(s, sep), sep) == s
    decreases |s|
  {
    if |s| < |sep| {
    } else if s[..|sep|] == sep {
      SplitJoin(s[|sep|..], sep);
      JoinEmptyHead(Split(s[|sep|..], sep), sep);
      assert s == sep + s[|sep|..];
    } else {
      SplitJoin(s[1..], sep);
      JoinCons([s[0]], Split(s[1..], sep), sep);
      assert s == [s[0]] + s[1..];
    }
  }

  /** The first piece of a split is a prefix of the text. */
  lemma {:induction false} SplitHeadIsPrefix(s: string, sep: string)
    requires sep != []
    ensures Split(s, sep)[0] <= s
    decreases |s|
  {
    if |s| >= |sep| && s[..|sep|] != sep {
      SplitHeadIsPrefix(s[1..], sep);
    }
  }

  /**
   * When a split cuts at all, its first piece ends where the leftmost
   * occurrence of the separator begins.
   */
  lemma {:induction false} SplitHeadEndsAtFirstMatch(s: string, sep: string)
    requires sep != []
    requires |Split(s, sep)| >= 2
    ensures forall p :: 0 <= p < |Split(s, sep)[0]| ==> !MatchAt(s, sep, p)
    ensures MatchAt(s, sep, |Split(s, sep)[0]|)
    decreases |s|
  {
    if |s| < |sep| {
      assert false;
    } else if s[..|sep|] == sep {
      assert Split(s, sep)[0] == [];
    } else {
      var rest := Split(s[1..], sep);
      SplitHeadEndsAtFirstMatch(s[1..], sep);
      var head := Split(s, sep)[0];
      assert head == [s[0]] + rest[0];
      forall p | 0 <= p < |head| ensures !MatchAt(s, sep, p) {
        if p > 0 {
          MatchShift(s, sep, p);
        }
      }
      MatchShift(s, sep, |head|);
    }
  }

  /** A match at `p > 0` in `s` is a match at `p - 1` in `s[1..]`. */
  lemma MatchShift(s: string, sep: string, p: nat)
    requires 0 < p && 0 < |s|
    ensures MatchAt(s, sep, p) == MatchAt(s[1..], sep, p - 1)
  {
    if p + |sep| <= |s| {
      assert s[1..][p - 1..p - 1 + |sep|] == s[p..p + |sep|];
    }
  }

  /** No piece of a split contains the separator. */
  lemma {:induction false} SplitPiecesAreFree(s: string, sep: string)
    requires sep != []
    ensures forall i :: 0 <= i < |Split(s, sep)| ==> !Contains(Split(s, sep)[i], sep)
    decreases |s|
  {
    var pieces := Split(s, sep);
    if |s| < |sep| {
      forall p | MatchAt(s, sep, p) ensures false { }
    } else if s[..|sep|] == sep {
      SplitPiecesAreFree(s[|sep|..], sep);
      assert pieces[1..] == Split(s[|sep|..], sep);
      forall p | MatchAt(pieces[0], sep, p) ensures false { }
    } else {
      var rest := Split(s[1..], sep);
      SplitPiecesAreFree(s[1..], sep);
      SplitHeadIsPrefix(s[1..], sep);
      var head := [s[0]] + rest[0];
      assert head <= s;
      forall p | MatchAt(head, sep, p) ensures false {
        if p > 0 {
          assert head[p..p + |sep|] == rest[0][p - 1..p - 1 + |sep|];
          assert MatchAt(rest[0], sep, p - 1);
        }
      }
      assert pieces[0] == head;
      assert forall i :: 1 <= i < |pieces| ==> pieces[i] == rest[i];
    }
  }

  /** A text without the separator is not cut. */
  lemma {:induction false} SplitWithoutSeparator(s: string, sep: string)
    requires sep != []
    requires !Contains(s, sep)
    ensures Split(s, sep) == [s]
    decreases |s|
  {
    if |s| >= |sep| {
      assert !MatchAt(s, sep, 0);
      assert !Contains(s[1..], sep) by {
        forall p | MatchAt(s[1..], sep, p) ensures false {
          assert s[1..][p..p + |sep|] == s[p + 1..p + 1 + |sep|];
          assert MatchAt(s, sep, p + 1);
        }
      }
      SplitWithoutSeparator(s[1..], sep);
      assert s == [s[0]] + s[1..];
    }
  }

  /**
   * When `sep` starts at no position before `n`, the first `n` characters all
   * belong to the first piece.
   */
  lemma {:induction false} SplitSkip(s: string, n: nat, sep: string)
    requires sep != [] && n <= |s|
    requires forall p :: 0 <= p < n ==> !MatchAt(s, sep, p)
    ensures Split(s, sep) == Cons(s[..n], Split(s[n..], sep))
    decreases n
  {
    if n == 0 {
      assert s[..0] == [] && s[0..] == s;
      var pieces := Split(s, sep);
      assert [] + pieces[0] == pieces[0];
      assert [pieces[0]] + pieces[1..] == pieces;
    } else if |s| < |sep| {
      SplitWithoutSeparator(s[n..], sep);
      assert s[..n] + s[n..] == s;
    } else {
      assert !MatchAt(s, sep, 0);
      forall p | 0 <= p < n - 1 ensures !MatchAt(s[1..], sep, p) {
        assert !MatchAt(s, sep, p + 1);
        if p + |sep| <= |s[1..]| {
          assert s[1..][p..p + |sep|] == s[p + 1..p + 1 + |sep|];
        }
      }
      assert s[..|sep|] != sep;
      assert Split(s, sep) == Cons([s[0]], Split(s[1..], sep));
      SplitSkip(s[1..], n - 1, sep);
      assert s[1..][n - 1..] == s[n..];
      assert [s[0]] + s[1..][..n - 1] == s[..n];
      ConsCons([s[0]], s[1..][..n - 1], Split(s[n..], sep));
    }
  }

  lemma ConsCons(x: string, y: string, pieces: seq<string>)
    requires |pieces| >= 1
    ensures Cons(x, Cons(y, pieces)) == Cons(x + y, pieces)
  {
    assert x + (y + pieces[0]) == (x + y) + pieces[0];
  }

  /** When the first occurrence of `sep` starts at `n`, the first piece is `s[..n]`. */
  lemma SplitAt(s: string, n: nat, sep: string)
    requires sep != []
    requires forall p :: 0 <= p < n ==> !MatchAt(s, sep, p)
    requires MatchAt(s, sep, n)
    ensures Split(s, sep) == [s[..n]] + Split(s[n + |sep|..], sep)
  {
    SplitSkip(s, n, sep);
    var t := s[n..];
    assert t[..|sep|] == sep;
    assert t[|sep|..] == s[n + |sep|..];
    assert Split(t, sep) == [[]] + Split(s[n + |sep|..], sep);
    assert s[..n] + [] == s[..n];
  }

  /** Python's `str.isspace()` for one character. */
  predicate IsSpace(c: char)
  {
    || c == ' ' || '\t' <= c <= '\r' || '\U{1C}' <= c <= '\U{1F}'
    || c == '\U{85}' || c == '\U{A0}' || c == '\U{1680}' || '\U{2000}' <= c <= '\U{200A}'
    || c == '\U{2028}' || c == '\U{2029}' || c == '\U{202F}' || c == '\U{205F}' || c == '\U{3000}'
  }

  function StripLeft(s: string): (r: string)
    ensures |r| <= |s|
  {
    if s != [] && IsSpace(s[0]) then StripLeft(s[1..]) else s
  }

  function StripRight(s: string): (r: string)
    ensures |r| <= |s|
  {
    if s != [] && IsSpace(s[|s| - 1]) then StripRight(s[..|s| - 1]) else s
  }

  /** Python's `s.strip()`: leading and trailing whitespace removed. */
  function Strip(s: string): string
  {
    StripRight(StripLeft(s))
  }

  /** Stripping keeps every character that is not whitespace. */
  lemma StripKeeps(s: string, c: char)
    requires c in s && !IsSpace(c)
    ensures c in Strip(s)
  {
    StripLeftKeeps(s, c);
    StripRightKeeps(StripLeft(s), c);
  }

  lemma {:induction false} StripLeftKeeps(s: string, c: char)
    requires c in s && !IsSpace(c)
    ensures c in StripLeft(s)
  {
    if s != [] && IsSpace(s[0]) {
      assert c in s[1..];
      StripLeftKeeps(s[1..], c);
    }
  }

  lemma {:induction false} StripRightKeeps(s: string, c: char)
    requires c in s && !IsSpace(c)
    ensures c in StripRight(s)
  {
    if s != [] && IsSpace(s[|s| - 1]) {
      assert s == s[..|s| - 1] + [s[|s| - 1]];
      assert c in s[..|s| - 1];
      StripRightKeeps(s[..|s| - 1], c);
    }
  }

  /** A text that starts and ends with a non-whitespace character is its own strip. */
  lemma StripTrimmed(s: string)
    requires s != [] && !IsSpace(s[0]) && !IsSpace(s[|s| - 1])
    ensures Strip(s) == s
  {
  }

  /**
   * What `strip` leaves: a slice `s[i..j]` of the text such that everything
   * before `i` and from `j` on is whitespace, and which is empty or starts and
   * ends with a character that is not whitespace.
   */
  lemma StripResult(s: string)
    ensures exists i, j :: (0 <= i <= j <= |s| && Strip(s) == s[i..j]
                            && (forall k :: 0 <= k < i ==> IsSpace(s[k]))
                            && (forall k :: j <= k < |s| ==> IsSpace(s[k])))
    ensures Strip(s) != [] ==> !IsSpace(Strip(s)[0]) && !IsSpace(Strip(s)[|Strip(s)| - 1])
  {
    var i := LeftCut(s);
    var t := s[i..];
    var j := RightCut(t);
    assert Strip(s) == s[i..i + j];
    forall k | i + j <= k < |s| ensures IsSpace(s[k]) {
      assert s[k] == t[k - i];
    }
    if Strip(s) != [] {
      assert Strip(s)[0] == StripLeft(s)[0];
    }
  }

  /** Where `lstrip` cuts: everything before the returned index is whitespace. */
  lemma {:induction false} LeftCut(s: string) returns (i: nat)
    ensures i <= |s| && StripLeft(s) == s[i..] && forall k :: 0 <= k < i ==> IsSpace(s[k])
    ensures StripLeft(s) != [] ==> !IsSpace(StripLeft(s)[0])
  {
    if s != [] && IsSpace(s[0]) {
      var i' := LeftCut(s[1..]);
      assert s[1..][i'..] == s[i' + 1..];
      forall k | 0 < k < i' + 1 ensures IsSpace(s[k]) {
        assert s[k] == s[1..][k - 1];
      }
      i := i' + 1;
    } else {
      i := 0;
    }
  }

  /** Where `rstrip` cuts: everything from the returned index on is whitespace. */
  lemma {:induction false} RightCut(s: string) returns (j: nat)
    ensures j <= |s| && StripRight(s) == s[..j] && forall k :: j <= k < |s| ==> IsSpace(s[k])
    ensures StripRight(s) != [] ==> !IsSpace(StripRight(s)[|StripRight(s)| - 1])
  {
    if s != [] && IsSpace(s[|s| - 1]) {
      var u := s[..|s| - 1];
      j := RightCut(u);
      assert u[..j] == s[..j];
      forall k | j <= k < |s| - 1 ensures IsSpace(s[k]) {
        assert s[k] == u[k];
      }
    } else {
      j := |s|;
    }
  }

  /** Python's `str.upper()` restricted to ASCII letters. */
  function UpperChar(c: char): char
  {
    if 'a' <= c <= 'z' then (c as int - 32) as char else c
  }

  function Upper(s: string): (r: string)
    ensures |r| == |s|
  {
    if s == [] then [] else [UpperChar(s[0])] + Upper(s[1..])
  }

  /** Upper-casing works character by character. */
  lemma {:induction false} UpperAt(s: string, i: int)
    requires 0 <= i < |s|
    ensures Upper(s)[i] == UpperChar(s[i])
  {
    if i > 0 {
      UpperAt(s[1..], i - 1);
    }
  }
}
