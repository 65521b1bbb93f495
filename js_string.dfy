/**
 * The two `String.prototype` methods the coordinator relies on to compare
 * names: `trim()` and `toLowerCase()`.
 */
module JsStrings {

  /** ECMAScript WhiteSpace and LineTerminator code points: what `trim()` removes. */
  predicate IsSpace(c: char) {
    || c == '\t' || c == '\n' || c == '\U{B}' || c == '\U{C}' || c == '\r' || c == ' '
    || c == '\U{A0}' || c == '\U{1680}' || ('\U{2000}' <= c <= '\U{200A}')
    || c == '\U{2028}' || c == '\U{2029}' || c == '\U{202F}' || c == '\U{205F}'
    || c == '\U{3000}' || c == '\U{FEFF}'
  }

  predicate AllSpace(s: string) {
    forall i | 0 <= i < |s| :: IsSpace(s[i])
  }

  /** Neither end of `s` is white space. */
  predicate Trimmed(s: string) {
    s == [] || (!IsSpace(s[0]) && !IsSpace(s[|s| - 1]))
  }

  /** The first index in `[lo, hi)` that is not white space, or `hi`. */
  function SkipFront(s: string, lo: nat, hi: nat): (k: nat)
    requires lo <= hi <= |s|
    ensures lo <= k <= hi
    ensures forall i | lo <= i < k :: IsSpace(s[i])
    ensures k == hi || !IsSpace(s[k])
    decreases hi - lo
  {
    if lo < hi && IsSpace(s[lo]) then SkipFront(s, lo + 1, hi) else lo
  }

  /** The end of `[lo, hi)` once its trailing white space is dropped. */
  function SkipBack(s: string, lo: nat, hi: nat): (k: nat)
    requires lo <= hi <= |s|
    ensures lo <= k <= hi
    ensures forall i | k <= i < hi :: IsSpace(s[i])
    ensures k == lo || !IsSpace(s[k - 1])
    decreases hi
  {
    if lo < hi && IsSpace(s[hi - 1]) then SkipBack(s, lo, hi - 1) else hi
  }

  /**
   * `trim()`: `s` without its leading and trailing white space (what
   * `trimEnd(trimStart(s))` leaves).
   */
  function Trim(s: string): (r: string)
    ensures Trimmed(r)
    ensures |r| <= |s|
  {
    var lo := SkipFront(s, 0, |s|);
    s[lo..SkipBack(s, lo, |s|)]
  }

  /**
   * `toLowerCase()` on one code point, for the code points whose lower case is
   * a single code point in the Basic Latin and Latin-1 Supplement blocks.
   */
  function LowerChar(c: char): (d: char)
    ensures IsSpace(d) == IsSpace(c)
    ensures c == d || ('A' <= c <= 'Z') || ('\U{C0}' <= c <= '\U{DE}' && c != '\U{D7}')
  {
    if 'A' <= c <= 'Z' || ('\U{C0}' <= c <= '\U{DE}' && c != '\U{D7}') then
      (c as int + 32) as char
    else c
  }

  function ToLower(s: string): (r: string)
    ensures |r| == |s|
    ensures forall i | 0 <= i < |s| :: r[i] == LowerChar(s[i])
  {
    seq(|s|, i requires 0 <= i < |s| => LowerChar(s[i]))
  }

  lemma LowerCharIdempotent(c: char)
    ensures LowerChar(LowerChar(c)) == LowerChar(c)
  {
  }

  lemma ToLowerIdempotent(s: string)
    ensures ToLower(ToLower(s)) == ToLower(s)
  {
    forall i | 0 <= i < |s| ensures ToLower(ToLower(s))[i] == ToLower(s)[i] {
      LowerCharIdempotent(s[i]);
    }
  }

  /** A string that is already trimmed is left as it is. */
  lemma TrimOfTrimmed(s: string)
    requires Trimmed(s)
    ensures Trim(s) == s
  {
  }

  /** Scanning only looks at which code points are white space. */
  lemma SkipSameSpaces(s: string, t: string, lo: nat, hi: nat)
    requires |s| == |t| && lo <= hi <= |s|
    requires forall i | lo <= i < hi :: IsSpace(s[i]) == IsSpace(t[i])
    ensures SkipFront(s, lo, hi) == SkipFront(t, lo, hi)
    ensures SkipBack(s, lo, hi) == SkipBack(t, lo, hi)
  {
    SkipFrontSame(s, t, lo, hi);
    SkipBackSame(s, t, lo, hi);
  }

  lemma {:induction false} SkipFrontSame(s: string, t: string, lo: nat, hi: nat)
    requires |s| == |t| && lo <= hi <= |s|
    requires forall i | lo <= i < hi :: IsSpace(s[i]) == IsSpace(t[i])
    ensures SkipFront(s, lo, hi) == SkipFront(t, lo, hi)
    decreases hi - lo
  {
    if lo < hi {
      SkipFrontSame(s, t, lo + 1, hi);
    }
  }

  lemma {:induction false} SkipBackSame(s: string, t: string, lo: nat, hi: nat)
    requires |s| == |t| && lo <= hi <= |s|
    requires forall i | lo <= i < hi :: IsSpace(s[i]) == IsSpace(t[i])
    ensures SkipBack(s, lo, hi) == SkipBack(t, lo, hi)
    decreases hi - lo
  {
    if lo < hi {
      SkipBackSame(s, t, lo, hi - 1);
    }
  }

  lemma LowerKeepsSpaces(s: string)
    ensures forall i | 0 <= i < |s| :: IsSpace(ToLower(s)[i]) == IsSpace(s[i])
  {
  }

  lemma LowerOfSlice(s: string, lo: nat, hi: nat)
    requires lo <= hi <= |s|
    ensures ToLower(s)[lo..hi] == ToLower(s[lo..hi])
  {
  }

  /** Lower-casing never creates or removes white space, so it commutes with `trim()`. */
  lemma TrimLowerCommute(s: string)
    ensures Trim(ToLower(s)) == ToLower(Trim(s))
  {
    var t := ToLower(s);
    LowerKeepsSpaces(s);
    SkipSameSpaces(s, t, 0, |s|);
    var lo := SkipFront(s, 0, |s|);
    SkipSameSpaces(s, t, lo, |s|);
    LowerOfSlice(s, lo, SkipBack(s, lo, |s|));
  }

  /** White space that is skipped over can be skipped in one go. */
  lemma {:induction false} SkipFrontOver(s: string, lo: nat, m: nat, hi: nat)
    requires lo <= m <= hi <= |s|
    requires forall i | lo <= i < m :: IsSpace(s[i])
    ensures SkipFront(s, lo, hi) == SkipFront(s, m, hi)
    decreases m - lo
  {
    if lo < m {
      SkipFrontOver(s, lo + 1, m, hi);
    }
  }

  lemma {:induction false} SkipBackOver(s: string, lo: nat, m: nat, hi: nat)
    requires lo <= m <= hi <= |s|
    requires forall i | m <= i < hi :: IsSpace(s[i])
    ensures SkipBack(s, lo, hi) == SkipBack(s, lo, m)
    decreases hi - m
  {
    if m < hi {
      SkipBackOver(s, lo, m, hi - 1);
    }
  }

  /** Scanning a copy of `s` placed at offset `off` inside `x` gives the shifted answer. */
  lemma SkipShift(x: string, s: string, off: nat, lo: nat, hi: nat)
    requires off + |s| <= |x| && lo <= hi <= |s|
    requires forall i | 0 <= i < |s| :: x[off + i] == s[i]
    ensures SkipFront(x, off + lo, off + hi) == off + SkipFront(s, lo, hi)
    ensures SkipBack(x, off + lo, off + hi) == off + SkipBack(s, lo, hi)
  {
    SkipFrontShift(x, s, off, lo, hi);
    SkipBackShift(x, s, off, lo, hi);
  }

  lemma {:induction false} SkipFrontShift(x: string, s: string, off: nat, lo: nat, hi: nat)
    requires off + |s| <= |x| && lo <= hi <= |s|
    requires forall i | 0 <= i < |s| :: x[off + i] == s[i]
    ensures SkipFront(x, off + lo, off + hi) == off + SkipFront(s, lo, hi)
    decreases hi - lo
  {
    if lo < hi {
      assert x[off + lo] == s[lo];
      SkipFrontShift(x, s, off, lo + 1, hi);
    }
  }

  lemma {:induction false} SkipBackShift(x: string, s: string, off: nat, lo: nat, hi: nat)
    requires off + |s| <= |x| && lo <= hi <= |s|
    requires forall i | 0 <= i < |s| :: x[off + i] == s[i]
    ensures SkipBack(x, off + lo, off + hi) == off + SkipBack(s, lo, hi)
    decreases hi - lo
  {
    if lo < hi {
      assert x[off + hi - 1] == s[hi - 1];
      SkipBackShift(x, s, off, lo, hi - 1);
    }
  }

  /** Where the parts of `front + s + back` sit. */
  lemma PaddedParts(front: string, s: string, back: string)
    requires AllSpace(front) && AllSpace(back)
    ensures forall i | 0 <= i < |s| :: (front + s + back)[|front| + i] == s[i]
    ensures forall i | 0 <= i < |front| :: IsSpace((front + s + back)[i])
    ensures forall i | |front| + |s| <= i < |front + s + back| :: IsSpace((front + s + back)[i])
  {
    var x := front + s + back;
    forall i | |front| + |s| <= i < |x| ensures IsSpace(x[i]) {
      assert x[i] == back[i - |front| - |s|];
    }
  }

  /** Where `trim()` starts in a string that holds `s` at offset `f` amid white space. */
  lemma {:induction false} EmbeddedFront(x: string, s: string, f: nat)
    requires f + |s| <= |x|
    requires forall i | 0 <= i < |s| :: x[f + i] == s[i]
    requires forall i | 0 <= i < f :: IsSpace(x[i])
    requires forall i | f + |s| <= i < |x| :: IsSpace(x[i])
    ensures SkipFront(s, 0, |s|) < |s| ==> SkipFront(x, 0, |x|) == f + SkipFront(s, 0, |s|)
    ensures SkipFront(s, 0, |s|) == |s| ==> SkipFront(x, 0, |x|) == |x|
  {
    var n := |s|;
    SkipFrontOver(x, 0, f, |x|);
    SkipShift(x, s, f, 0, n);
    if SkipFront(s, 0, n) == n {
      SkipFrontOver(x, f, f + n, |x|);
      SkipFrontOver(x, f + n, |x|, |x|);
    }
  }

  /** Where `trim()` ends in the same situation, once the start is inside `s`. */
  lemma {:induction false} EmbeddedBack(x: string, s: string, f: nat, lo: nat)
    requires f + |s| <= |x| && lo <= |s|
    requires forall i | 0 <= i < |s| :: x[f + i] == s[i]
    requires forall i | f + |s| <= i < |x| :: IsSpace(x[i])
    ensures SkipBack(x, f + lo, |x|) == f + SkipBack(s, lo, |s|)
  {
    SkipBackOver(x, f + lo, f + |s|, |x|);
    SkipShift(x, s, f, lo, |s|);
  }

  lemma TrimOfEmbedded(x: string, s: string, f: nat)
    requires f + |s| <= |x|
    requires forall i | 0 <= i < |s| :: x[f + i] == s[i]
    requires forall i | 0 <= i < f :: IsSpace(x[i])
    requires forall i | f + |s| <= i < |x| :: IsSpace(x[i])
    ensures Trim(x) == Trim(s)
  {
    EmbeddedFront(x, s, f);
    var lo := SkipFront(s, 0, |s|);
    if lo < |s| {
      EmbeddedBack(x, s, f, lo);
      SliceShift(x, s, f, lo, SkipBack(s, lo, |s|));
    }
  }

  lemma SliceShift(x: string, s: string, f: nat, lo: nat, hi: nat)
    requires f + |s| <= |x| && lo <= hi <= |s|
    requires forall i | 0 <= i < |s| :: x[f + i] == s[i]
    ensures x[f + lo..f + hi] == s[lo..hi]
  {
    forall i | 0 <= i < hi - lo ensures x[f + lo..f + hi][i] == s[lo..hi][i] {
      assert x[f + lo + i] == s[lo + i];
    }
  }

  /** White space added at either end of a string does not change its trimmed form. */
  lemma TrimIgnoresPadding(front: string, s: string, back: string)
    requires AllSpace(front) && AllSpace(back)
    ensures Trim(front + s + back) == Trim(s)
  {
    PaddedParts(front, s, back);
    TrimOfEmbedded(front + s + back, s, |front|);
  }
}
