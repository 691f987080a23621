/** The string operations the normaliser relies on: Go's strings.TrimSpace,
    with white space as Go's unicode.IsSpace defines it, and digit strings. */
module Strings {

  /** The characters Go's unicode.IsSpace accepts: the six ASCII spaces,
      NEL and NO-BREAK SPACE in Latin-1, and the Unicode White_Space
      characters above Latin-1. */
  predicate IsSpace(c: char) {
    || c == ' ' || c == '\t' || c == '\n' || c == '\U{000B}' || c == '\U{000C}' || c == '\r'
    || c == '\U{0085}' || c == '\U{00A0}'
    || c == '\U{1680}'
    || ('\U{2000}' <= c <= '\U{200A}')
    || c == '\U{2028}' || c == '\U{2029}' || c == '\U{202F}' || c == '\U{205F}'
    || c == '\U{3000}'
  }

  predicate AllSpace(s: string) {
    forall i :: 0 <= i < |s| ==> IsSpace(s[i])
  }

  predicate IsDigit(c: char) {
    '0' <= c <= '9'
  }

  predicate AllDigits(s: string) {
    forall i :: 0 <= i < |s| ==> IsDigit(s[i])
  }

  lemma SplitAt<T>(s: seq<T>, k: nat)
    requires k <= |s|
    ensures s == s[..k] + s[k..]
  {
  }

  lemma Assoc<T>(a: seq<T>, b: seq<T>, c: seq<T>)
    ensures a + (b + c) == a + b + c
  {
  }

  /** The position of the last `c` in `s`, or -1 when `s` holds none. */
  function LastIndexOf(s: string, c: char): (r: int)
    ensures -1 <= r < |s|
    ensures r >= 0 ==> s[r] == c
    ensures forall i :: r < i < |s| ==> s[i] != c
  {
    if |s| == 0 then -1
    else if s[|s| - 1] == c then |s| - 1
    else LastIndexOf(s[..|s| - 1], c)
  }

  predicate StartsWith(s: string, prefix: string) {
    |prefix| <= |s| && s[..|prefix|] == prefix
  }

  /** The first index at or after `i` that does not hold white space, or |s|. */
  function SkipSpaceForward(s: string, i: nat): (k: nat)
    requires i <= |s|
    ensures i <= k <= |s|
    ensures forall m :: i <= m < k ==> IsSpace(s[m])
    ensures k < |s| ==> !IsSpace(s[k])
    decreases |s| - i
  {
    if i < |s| && IsSpace(s[i]) then SkipSpaceForward(s, i + 1) else i
  }

  /** Walking back from `j`, but not below `lo`: the index just past the last
      character that is not white space, or `lo`. */
  function SkipSpaceBackward(s: string, lo: nat, j: nat): (k: nat)
    requires lo <= j <= |s|
    ensures lo <= k <= j
    ensures forall m :: k <= m < j ==> IsSpace(s[m])
    ensures k > lo ==> !IsSpace(s[k - 1])
    decreases j
  {
    if j > lo && IsSpace(s[j - 1]) then SkipSpaceBackward(s, lo, j - 1) else j
  }

  /** `s[i..j]` is `s` without its leading and trailing white space: all of
      `s` outside the slice is white space, and the slice, when not empty,
      neither starts nor ends with white space. */
  predicate IsTrimOf(s: string, i: nat, j: nat) {
    && i <= j <= |s|
    && (forall m :: 0 <= m < i ==> IsSpace(s[m]))
    && (forall m :: j <= m < |s| ==> IsSpace(s[m]))
    && (i < j ==> !IsSpace(s[i]) && !IsSpace(s[j - 1]))
  }

  /** Where Go's strings.TrimSpace cuts: left white space first, then right
      white space of what remains. */
  function TrimBounds(s: string): (b: (nat, nat))
    ensures IsTrimOf(s, b.0, b.1)
  {
    var i := SkipSpaceForward(s, 0);
    var j := SkipSpaceBackward(s, i, |s|);
    (i, j)
  }

  /** Go's strings.TrimSpace: `s` with leading and trailing white space removed. */
  function TrimSpace(s: string): string {
    s[TrimBounds(s).0..TrimBounds(s).1]
  }

  /** The trim is determined by IsTrimOf: any cut with white space outside and
      non-space ends yields what TrimSpace returns. */
  lemma TrimSpaceUnique(s: string, i: nat, j: nat)
    requires IsTrimOf(s, i, j)
    ensures TrimSpace(s) == s[i..j]
  {
    var (i0, j0) := TrimBounds(s);
    if i < j {
      if i0 < i {
        assert false;
      } else if i < i0 {
        assert false;
      }
      if j0 < j {
        assert false;
      } else if j < j0 {
        assert false;
      }
    } else if i0 < j0 {
      assert false;
    }
  }

  lemma PaddedIndex(a: string, s: string, b: string, m: int)
    requires 0 <= m < |a| + |s| + |b|
    ensures (a + s + b)[m] == if m < |a| then a[m] else if m < |a| + |s| then s[m - |a|] else b[m - |a| - |s|]
  {
  }

  /** White space added around `s` keeps the cut in the same place within `s`. */
  lemma PaddedTrimOf(a: string, s: string, b: string, i: nat, j: nat)
    requires AllSpace(a) && AllSpace(b) && IsTrimOf(s, i, j)
    ensures IsTrimOf(a + s + b, |a| + i, |a| + j)
  {
    var p := a + s + b;
    forall m | 0 <= m < |a| + i
      ensures IsSpace(p[m])
    {
      PaddedIndex(a, s, b, m);
    }
    forall m | |a| + j <= m < |p|
      ensures IsSpace(p[m])
    {
      PaddedIndex(a, s, b, m);
    }
    if i < j {
      PaddedIndex(a, s, b, |a| + i);
      PaddedIndex(a, s, b, |a| + j - 1);
    }
  }

  lemma PaddedSlice(a: string, s: string, b: string, i: nat, j: nat)
    requires i <= j <= |s|
    ensures (a + s + b)[|a| + i..|a| + j] == s[i..j]
  {
    var p := a + s + b;
    forall m | 0 <= m < j - i
      ensures p[|a| + i..|a| + j][m] == s[i..j][m]
    {
      PaddedIndex(a, s, b, |a| + i + m);
    }
  }

  /** Padding a line with white space on either side does not change what
      TrimSpace makes of it. */
  lemma TrimSpacePadded(a: string, s: string, b: string)
    requires AllSpace(a) && AllSpace(b)
    ensures TrimSpace(a + s + b) == TrimSpace(s)
  {
    var i, j := TrimBounds(s).0, TrimBounds(s).1;
    var p := a + s + b;
    assert TrimSpace(p) == p[|a| + i..|a| + j] by {
      PaddedTrimOf(a, s, b, i, j);
      TrimSpaceUnique(p, |a| + i, |a| + j);
    }
    assert p[|a| + i..|a| + j] == s[i..j] by {
      PaddedSlice(a, s, b, i, j);
    }
  }

  /** Trimming twice is trimming once. */
  lemma TrimSpaceIdempotent(s: string)
    ensures TrimSpace(TrimSpace(s)) == TrimSpace(s)
  {
    var r := TrimSpace(s);
    assert IsTrimOf(r, 0, |r|);
    TrimSpaceUnique(r, 0, |r|);
  }

  /** TrimSpace returns the empty string exactly for all-white-space lines. */
  lemma TrimSpaceEmpty(s: string)
    ensures TrimSpace(s) == [] <==> AllSpace(s)
  {
    var (i, j) := TrimBounds(s);
    if AllSpace(s) && i < j {
      assert false;
    }
  }
}
