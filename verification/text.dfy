/**
 * Character-level helpers that mirror the Python string operations used by
 * the grading service: `str.strip()` with no arguments, and searching for the
 * first or last occurrence of one character.
 */
module Text {

  /** Python's `str.isspace` set, which `str.strip()` removes from both ends. */
  predicate IsSpace(c: char)
  {
    || ('\t' <= c <= '\r')              // TAB, LF, VT, FF, CR
    || ('\U{1C}' <= c <= '\U{1F}')      // file, group, record and unit separators
    || c == ' '
    || c == '\U{85}'                    // NEL
    || c == '\U{A0}'                    // NO-BREAK SPACE
    || c == '\U{1680}'
    || ('\U{2000}' <= c <= '\U{200A}')
    || c == '\U{2028}' || c == '\U{2029}'
    || c == '\U{202F}' || c == '\U{205F}' || c == '\U{3000}'
  }

  /** Every character of `s` is whitespace (the empty string included). */
  predicate IsBlank(s: string)
  {
    forall k :: 0 <= k < |s| ==> IsSpace(s[k])
  }

  /** `s` occurs in `t` starting at index `k`. */
  predicate OccursAt(s: string, t: string, k: int)
  {
    0 <= k && k + |s| <= |t| && t[k..k + |s|] == s
  }

  /** `s` occurs as a contiguous slice of `t`. */
  ghost predicate IsInfix(s: string, t: string)
  {
    exists k :: OccursAt(s, t, k)
  }

  /** A slice of a slice of `u` is a slice of `u`. */
  lemma IsInfixTransitive(s: string, t: string, u: string)
    requires IsInfix(s, t) && IsInfix(t, u)
    ensures IsInfix(s, u)
  {
    var i :| OccursAt(s, t, i);
    var k :| OccursAt(t, u, k);
    forall m | 0 <= m < |s| ensures u[k + i + m] == s[m] {
      assert s[m] == t[i..i + |s|][m] == t[i + m];
      assert t[i + m] == u[k..k + |t|][i + m];
    }
    assert u[k + i..k + i + |s|] == s;
    assert OccursAt(s, u, k + i);
  }

  /** Drops the leading whitespace: the rest of `s` from its first non-space. */
  function TrimStart(s: string): (r: string)
    ensures |r| <= |s| && r == s[|s| - |r|..]
    ensures forall k :: 0 <= k < |s| - |r| ==> IsSpace(s[k])
    ensures r == [] || !IsSpace(r[0])
  {
    if |s| > 0 && IsSpace(s[0]) then TrimStart(s[1..]) else s
  }

  /** Drops the trailing whitespace: `s` up to and including its last non-space. */
  function TrimEnd(s: string): (r: string)
    ensures |r| <= |s| && r == s[..|r|]
    ensures forall k :: |r| <= k < |s| ==> IsSpace(s[k])
    ensures r == [] || !IsSpace(r[|r| - 1])
  {
    if |s| > 0 && IsSpace(s[|s| - 1]) then TrimEnd(s[..|s| - 1]) else s
  }

  /** Python's `s.strip()`. */
  function Strip(s: string): (r: string)
    ensures r == [] <==> IsBlank(s)
    ensures r == [] || (!IsSpace(r[0]) && !IsSpace(r[|r| - 1]))
  {
    var a := TrimStart(s);
    var r := TrimEnd(a);
    StripParts(s, a, r);
    r
  }

  /** What `strip()` returns is a contiguous slice of its argument. */
  lemma StripIsInfix(s: string)
    ensures IsInfix(Strip(s), s)
  {
    StripParts(s, TrimStart(s), Strip(s));
  }

  lemma StripParts(s: string, a: string, r: string)
    requires a == TrimStart(s) && r == TrimEnd(a)
    ensures OccursAt(r, s, |s| - |a|)
    ensures r == [] <==> IsBlank(s)
  {
    var n := |s| - |a|;
    assert s[n..][..|r|] == s[n..n + |r|];
  }

  /** A string with no whitespace at either end is its own strip. */
  lemma StripKeepsTrimmed(s: string)
    requires s == [] || (!IsSpace(s[0]) && !IsSpace(s[|s| - 1]))
    ensures Strip(s) == s
  {
  }

  /** `strip()` is idempotent. */
  lemma StripIdempotent(s: string)
    ensures Strip(Strip(s)) == Strip(s)
  {
    StripKeepsTrimmed(Strip(s));
  }

  lemma {:induction false} TrimStartSkipsBlankPrefix(w: string, s: string)
    requires IsBlank(w)
    ensures TrimStart(w + s) == TrimStart(s)
  {
    if w != [] {
      assert (w + s)[1..] == w[1..] + s;
      TrimStartSkipsBlankPrefix(w[1..], s);
    } else {
      assert w + s == s;
    }
  }

  lemma {:induction false} TrimEndSkipsBlankSuffix(s: string, w: string)
    requires IsBlank(w)
    ensures TrimEnd(s + w) == TrimEnd(s)
  {
    if w != [] {
      assert (s + w)[..|s + w| - 1] == s + w[..|w| - 1];
      TrimEndSkipsBlankSuffix(s, w[..|w| - 1]);
    } else {
      assert s + w == s;
    }
  }

  /** Trimming the front commutes with appending a blank suffix, unless all is blank. */
  lemma {:induction false} TrimStartBlankSuffix(s: string, w: string)
    requires IsBlank(w)
    ensures TrimStart(s + w) == if IsBlank(s) then [] else TrimStart(s) + w
  {
    if s == [] {
      assert s + w == w;
      assert TrimStart(w) == w[|w| - |TrimStart(w)|..];
    } else if IsSpace(s[0]) {
      assert (s + w)[1..] == s[1..] + w;
      TrimStartBlankSuffix(s[1..], w);
    } else {
      assert !IsBlank(s);
    }
  }

  /** Surrounding whitespace does not change the result of `strip()`. */
  lemma StripIgnoresSurroundingSpace(w1: string, s: string, w2: string)
    requires IsBlank(w1) && IsBlank(w2)
    ensures Strip(w1 + s + w2) == Strip(s)
  {
    assert w1 + s + w2 == w1 + (s + w2);
    TrimStartSkipsBlankPrefix(w1, s + w2);
    TrimStartBlankSuffix(s, w2);
    if !IsBlank(s) {
      TrimEndSkipsBlankSuffix(TrimStart(s), w2);
    }
  }

  /** Index of the first `c` in `s`, or `|s|` when there is none. */
  function FirstIndexOf(s: string, c: char): (i: nat)
    ensures i <= |s|
    ensures i < |s| ==> s[i] == c
    ensures forall k :: 0 <= k < i ==> s[k] != c
  {
    if |s| == 0 then 0
    else if s[0] == c then 0
    else 1 + FirstIndexOf(s[1..], c)
  }

  /** Index of the last `c` in `s`, or -1 when there is none. */
  function LastIndexOf(s: string, c: char): (j: int)
    ensures -1 <= j < |s|
    ensures 0 <= j ==> s[j] == c
    ensures forall k :: j < k < |s| ==> s[k] != c
  {
    if |s| == 0 then -1
    else if s[|s| - 1] == c then |s| - 1
    else LastIndexOf(s[..|s| - 1], c)
  }
}
