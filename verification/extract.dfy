/**
 * The response extractor of app.py (`extract_json`): strip the model's reply,
 * then take the first match of the regular expression `\{.*\}` under
 * `re.DOTALL`, or the literal "{}" when there is none.
 */
module Extract {
  import opened Text

  /**
   * `t[i..j + 1]` matches `\{.*\}` with DOTALL: `.` accepts every character,
   * so a span matches exactly when it opens with `{` and closes with a later `}`.
   */
  predicate MatchesBraceSpan(t: string, i: int, j: int)
  {
    0 <= i < j < |t| && t[i] == '{' && t[j] == '}'
  }

  /**
   * The match `re.search` reports: the leftmost start at which the pattern
   * matches, and from there the longest span, because `.*` is greedy and
   * backtracks from the end of the text.
   */
  ghost predicate IsSearchResult(t: string, i: int, j: int)
  {
    && MatchesBraceSpan(t, i, j)
    && forall i', j' :: MatchesBraceSpan(t, i', j') ==> i < i' || (i == i' && j' <= j)
  }

  /** Text with no matching span at all. */
  ghost predicate NoBraceSpan(t: string)
  {
    forall i, j :: !MatchesBraceSpan(t, i, j)
  }

  /**
   * `re.search(r"\{.*\}", t, re.DOTALL)`: the span from the first `{` to the
   * last `}` when that `}` comes later, and otherwise no match, for which
   * `extract_json` substitutes "{}".
   */
  function SearchBraceSpan(t: string): (r: string)
    ensures |r| >= 2 && r[0] == '{' && r[|r| - 1] == '}'
    ensures r == "{}" || IsInfix(r, t)
  {
    var i := FirstIndexOf(t, '{');
    var j := LastIndexOf(t, '}');
    if i < j then
      assert OccursAt(t[i..j + 1], t, i);
      t[i..j + 1]
    else "{}"
  }

  /** `extract_json`: the brace span of the stripped reply, or "{}". */
  function ExtractJson(text: string): (r: string)
    ensures |r| >= 2 && r[0] == '{' && r[|r| - 1] == '}'
  {
    SearchBraceSpan(Strip(text))
  }

  /**
   * Whatever is extracted opens with `{`, closes with `}`, and is either the
   * fallback "{}" or a contiguous slice of the reply.
   */
  lemma ExtractJsonShape(text: string)
    ensures var r := ExtractJson(text);
      && |r| >= 2 && r[0] == '{' && r[|r| - 1] == '}'
      && (r == "{}" || IsInfix(r, text))
  {
    var t := Strip(text);
    var r := SearchBraceSpan(t);
    if r != "{}" {
      StripIsInfix(text);
      IsInfixTransitive(r, t, text);
    }
  }

  /** The search result is the first `{` together with the last `}`, and nothing else. */
  lemma SearchResultIsFirstOpenLastClose(t: string, i: int, j: int)
    ensures IsSearchResult(t, i, j) <==>
      (i == FirstIndexOf(t, '{') && j == LastIndexOf(t, '}') && i < j)
  {
    var f, l := FirstIndexOf(t, '{'), LastIndexOf(t, '}');
    if IsSearchResult(t, i, j) {
      if f < i {
        assert MatchesBraceSpan(t, f, j);
      }
      if j < l {
        assert MatchesBraceSpan(t, i, l);
      }
    }
    if i == f && j == l && i < j {
      forall i', j' | MatchesBraceSpan(t, i', j') ensures i < i' || (i == i' && j' <= j) {
      }
    }
  }

  /** Whenever some span matches, the search has a result. */
  lemma SearchResultExists(t: string)
    requires !NoBraceSpan(t)
    ensures IsSearchResult(t, FirstIndexOf(t, '{'), LastIndexOf(t, '}'))
  {
    var i, j :| MatchesBraceSpan(t, i, j);
    SearchResultIsFirstOpenLastClose(t, FirstIndexOf(t, '{'), LastIndexOf(t, '}'));
  }

  /** No `{` in the stripped text, or no `}` after it: the result is "{}". */
  lemma ExtractJsonFallback(text: string)
    requires NoBraceSpan(Strip(text))
    ensures ExtractJson(text) == "{}"
  {
    var t := Strip(text);
    var i, j := FirstIndexOf(t, '{'), LastIndexOf(t, '}');
    if i < j {
      assert MatchesBraceSpan(t, i, j);
    }
  }

  /** In particular, a reply without any `{` yields "{}". */
  lemma ExtractJsonNoOpenBrace(text: string)
    requires '{' !in Strip(text)
    ensures ExtractJson(text) == "{}"
  {
    ExtractJsonFallback(text);
  }

  /**
   * Otherwise the result is the greedy span from the first `{` to the last
   * `}`, everything between them included.
   */
  lemma ExtractJsonGreedySpan(text: string, i: int, j: int)
    requires IsSearchResult(Strip(text), i, j)
    ensures ExtractJson(text) == Strip(text)[i..j + 1]
  {
    SearchResultIsFirstOpenLastClose(Strip(text), i, j);
  }

  /** A text that already opens with `{` and closes with `}` is its own match. */
  lemma SearchBraceSpanOfBraced(r: string)
    requires |r| >= 2 && r[0] == '{' && r[|r| - 1] == '}'
    ensures SearchBraceSpan(r) == r
  {
    assert FirstIndexOf(r, '{') == 0;
    assert LastIndexOf(r, '}') == |r| - 1;
    assert r[0..|r|] == r;
  }

  /** A reply that is already one brace span comes back unchanged. */
  lemma ExtractJsonKeepsBraced(r: string)
    requires |r| >= 2 && r[0] == '{' && r[|r| - 1] == '}'
    ensures ExtractJson(r) == r
  {
    StripKeepsTrimmed(r);
    SearchBraceSpanOfBraced(r);
  }

  /** Extracting again from an extracted span changes nothing. */
  lemma ExtractJsonIdempotent(text: string)
    ensures ExtractJson(ExtractJson(text)) == ExtractJson(text)
  {
    ExtractJsonKeepsBraced(ExtractJson(text));
  }

  /** In a text with no `{` before an object and no `}` after it, the search finds the object. */
  lemma {:induction false} SearchBraceSpanFindsObject(pre: string, obj: string, post: string)
    requires |obj| >= 2 && obj[0] == '{' && obj[|obj| - 1] == '}'
    requires '{' !in pre && '}' !in post
    ensures SearchBraceSpan(pre + obj + post) == obj
  {
    var t := pre + obj + post;
    assert t[|pre|] == '{' && t[|pre| + |obj| - 1] == '}';
    assert forall k :: 0 <= k < |pre| ==> t[k] == pre[k];
    assert forall k :: |pre| + |obj| <= k < |t| ==> t[k] == post[k - |pre| - |obj|];
    assert FirstIndexOf(t, '{') == |pre|;
    assert LastIndexOf(t, '}') == |pre| + |obj| - 1;
    assert t[|pre|..|pre| + |obj|] == obj;
  }

  /**
   * In a reply with no whitespace at either end, prose before the object
   * (with no `{`) and after it (with no `}`), such as commentary or a
   * markdown fence, is cut away.
   */
  lemma ExtractJsonDropsSurroundingProse(pre: string, obj: string, post: string)
    requires |obj| >= 2 && obj[0] == '{' && obj[|obj| - 1] == '}'
    requires '{' !in pre && '}' !in post
    requires Strip(pre + obj + post) == pre + obj + post
    ensures ExtractJson(pre + obj + post) == obj
  {
    SearchBraceSpanFindsObject(pre, obj, post);
  }

  /** Whitespace around the reply does not change what is extracted. */
  lemma ExtractJsonIgnoresSurroundingSpace(w1: string, text: string, w2: string)
    requires IsBlank(w1) && IsBlank(w2)
    ensures ExtractJson(w1 + text + w2) == ExtractJson(text)
  {
    StripIgnoresSurroundingSpace(w1, text, w2);
  }

  /** Prose around a single object is cut away. */
  lemma ExtractJsonFromProse(s: string)
    requires s == "blah {\"a\":1} blah"
    ensures ExtractJson(s) == "{\"a\":1}"
  {
    assert s == "blah " + "{\"a\":1}" + " blah";
    StripKeepsTrimmed(s);
    ExtractJsonDropsSurroundingProse("blah ", "{\"a\":1}", " blah");
  }

  /** Text without a brace gives the fallback. */
  lemma ExtractJsonFromPlainText(s: string)
    requires s == "no json here"
    ensures ExtractJson(s) == "{}"
  {
    StripKeepsTrimmed(s);
    ExtractJsonNoOpenBrace(s);
  }

  /**
   * Two objects in one reply are captured together with the text between
   * them, which is not itself valid JSON.
   */
  lemma ExtractJsonSpansTwoObjects(s: string)
    requires s == "{\"a\":1} and {\"b\":2}"
    ensures ExtractJson(s) == s
  {
    ExtractJsonKeepsBraced(s);
  }
}
