/** Sentence splitting (utils.py): a sentence ends after `.`, `!` or `?`
    when whitespace follows. Both analysers build on it. */
module Sentences {
  import opened TextUtil

  predicate IsPunct(c: char) {
    c == '.' || c == '!' || c == '?'
  }

  /** `(?<=[.!?])\s+` can start matching at position `j` of `s`. */
  predicate IsBreak(s: string, j: int) {
    1 <= j < |s| && IsPunct(s[j - 1]) && IsSpace(s[j])
  }

  /** The leftmost match position at or after `i`, or `|s|` if none. */
  function FindBreak(s: string, i: nat): (r: nat)
    ensures r <= |s|
    ensures r < |s| ==> i <= r && IsBreak(s, r)
    ensures forall j :: i <= j < r ==> !IsBreak(s, j)
    decreases |s| - i
  {
    if i >= |s| then |s| else if IsBreak(s, i) then i else FindBreak(s, i + 1)
  }

  /** The end of the whitespace run starting at `i`: `\s+` is greedy. */
  function SpaceEnd(s: string, i: nat): (r: nat)
    requires i <= |s|
    ensures i <= r <= |s|
    ensures forall j :: i <= j < r ==> IsSpace(s[j])
    ensures r < |s| ==> !IsSpace(s[r])
    decreases |s| - i
  {
    if i == |s| || !IsSpace(s[i]) then i else SpaceEnd(s, i + 1)
  }

  /** `re.split(r'(?<=[.!?])\s+', s)`: cut at each leftmost match and drop
      the whitespace run it consumes. The empty string gives `[""]`. */
  function RegexSplit(s: string): seq<string>
    decreases |s|
  {
    var j := FindBreak(s, 1);
    if j >= |s| then [s] else [s[..j]] + RegexSplit(s[SpaceEnd(s, j)..])
  }

  /** `[x.strip() for x in pieces if x.strip()]` */
  function StripAll(pieces: seq<string>): seq<string>
    decreases |pieces|
  {
    if pieces == [] then []
    else (if Strip(pieces[0]) != [] then [Strip(pieces[0])] else []) + StripAll(pieces[1..])
  }

  /** `simple_sentence_split(text)` */
  function SimpleSentenceSplit(text: string): seq<string> {
    StripAll(RegexSplit(Strip(text)))
  }

  /** `first_n_sentences(text, n)` */
  function FirstNSentences(text: string, n: nat): string {
    Strip(JoinWithSpaces(Prefix(SimpleSentenceSplit(text), n)))
  }

  /** No position of `x` is a split point. */
  predicate NoBreak(x: string) {
    forall j :: 1 <= j < |x| ==> !IsBreak(x, j)
  }

  predicate EndsInPunct(x: string) {
    x != [] && IsPunct(x[|x| - 1])
  }

  /** What a sentence list looks like: every sentence non-empty, without
      surrounding whitespace and without an inner split point, and every
      sentence but the last ending in `.`, `!` or `?`. */
  predicate WellFormed(xs: seq<string>) {
    && (forall i :: 0 <= i < |xs| ==> Tidy(xs[i]) && NoBreak(xs[i]))
    && (forall i :: 0 <= i < |xs| - 1 ==> EndsInPunct(xs[i]))
  }

  lemma {:induction false} RegexSplitWellFormed(t: string)
    requires Tidy(t)
    ensures RegexSplit(t) != [] && WellFormed(RegexSplit(t))
    decreases |t|
  {
    var j := FindBreak(t, 1);
    if j < |t| {
      var p := t[..j];
      var k := SpaceEnd(t, j);
      assert !IsSpace(t[|t| - 1]);
      var rest := t[k..];
      assert rest[|rest| - 1] == t[|t| - 1];
      assert forall m :: 1 <= m < |p| ==> IsBreak(p, m) == IsBreak(t, m);
      assert Tidy(p) && NoBreak(p) && EndsInPunct(p);
      RegexSplitWellFormed(rest);
      var r := RegexSplit(rest);
      assert RegexSplit(t) == [p] + r;
    }
  }

  /** A sentence that ends in punctuation, followed by whitespace, is cut
      exactly at its end. */
  lemma {:induction false} BreakAfterSentence(x: string, tail: string)
    requires Tidy(x) && NoBreak(x) && EndsInPunct(x)
    requires tail != [] && IsSpace(tail[0])
    ensures FindBreak(x + tail, 1) == |x|
  {
    var s := x + tail;
    assert forall m :: 1 <= m < |x| ==> IsBreak(s, m) == IsBreak(x, m);
    assert IsBreak(s, |x|);
  }

  /** A finished sentence, one space and a tidy rest split into the
      sentence and the rest's pieces. */
  lemma {:induction false} RegexSplitStep(x: string, j: string)
    requires Tidy(x) && NoBreak(x) && EndsInPunct(x) && Tidy(j)
    ensures RegexSplit(x + " " + j) == [x] + RegexSplit(j)
  {
    var s := x + ([' '] + j);
    assert x + " " + j == s;
    BreakAfterSentence(x, [' '] + j);
    assert s[|x|] == ' ' && s[|x| + 1] == j[0];
    assert SpaceEnd(s, |x|) == |x| + 1;
    assert s[..|x|] == x && s[|x| + 1..] == j;
  }

  /** Splitting well-formed sentences joined by single spaces gives them back. */
  lemma {:induction false} RegexSplitOfJoin(xs: seq<string>)
    requires xs != [] && WellFormed(xs)
    ensures RegexSplit(JoinWithSpaces(xs)) == xs
  {
    if |xs| == 1 {
      var s := xs[0];
      assert FindBreak(s, 1) == |s|;
    } else {
      var x, more := xs[0], xs[1..];
      assert WellFormed(more);
      JoinTidy(more);
      RegexSplitStep(x, JoinWithSpaces(more));
      RegexSplitOfJoin(more);
      assert [x] + more == xs;
    }
  }

  lemma {:induction false} StripAllOfTidy(xs: seq<string>)
    requires forall i :: 0 <= i < |xs| ==> Tidy(xs[i])
    ensures StripAll(xs) == xs
  {
    if xs != [] {
      StripShape(xs[0]);
      StripAllOfTidy(xs[1..]);
      assert [xs[0]] + xs[1..] == xs;
    }
  }

  /** The pieces of a text that is not all whitespace need no further
      stripping or filtering. */
  lemma {:induction false} SplitIsRegexSplit(text: string)
    requires !AllSpace(text)
    ensures SimpleSentenceSplit(text) == RegexSplit(Strip(text))
    ensures SimpleSentenceSplit(text) != []
  {
    StripShape(text);
    RegexSplitWellFormed(Strip(text));
    StripAllOfTidy(RegexSplit(Strip(text)));
  }

  /** Every returned sentence is non-empty, has no leading or trailing
      whitespace and no `.`/`!`/`?` followed by whitespace, and every
      sentence but the last ends in `.`, `!` or `?`. */
  lemma {:induction false} SentencesWellFormed(text: string)
    ensures WellFormed(SimpleSentenceSplit(text))
  {
    if AllSpace(text) {
      SplitEmptyIff(text);
    } else {
      SplitIsRegexSplit(text);
      StripShape(text);
      RegexSplitWellFormed(Strip(text));
    }
  }

  /** A text splits into no sentences exactly when it is empty or all
      whitespace. */
  lemma {:induction false} SplitEmptyIff(text: string)
    ensures SimpleSentenceSplit(text) == [] <==> AllSpace(text)
  {
    StripShape(text);
    if AllSpace(text) {
      assert RegexSplit([]) == [[]];
      assert StripAll([[]]) == [] by { StripShape([]); }
    } else {
      SplitIsRegexSplit(text);
    }
  }

  /** `first_n_sentences` is the first `min(n, count)` sentences joined by
      single spaces; the final `strip` changes nothing. */
  lemma {:induction false} FirstNSentencesIsJoin(text: string, n: nat)
    ensures FirstNSentences(text, n) == JoinWithSpaces(Prefix(SimpleSentenceSplit(text), n))
    ensures n == 0 ==> FirstNSentences(text, n) == ""
  {
    var ys := Prefix(SimpleSentenceSplit(text), n);
    SentencesWellFormed(text);
    if ys == [] {
      StripShape([]);
    } else {
      assert forall i :: 0 <= i < |ys| ==> Tidy(ys[i]);
      JoinTidy(ys);
      StripShape(JoinWithSpaces(ys));
    }
  }

  lemma {:induction false} WellFormedPrefix(xs: seq<string>, n: nat)
    requires WellFormed(xs)
    ensures WellFormed(Prefix(xs, n))
  {
    var ys := Prefix(xs, n);
    assert forall i :: 0 <= i < |ys| ==> ys[i] == xs[i];
  }

  /** Splitting well-formed sentences joined by single spaces gives them back. */
  lemma {:induction false} SplitOfJoin(ys: seq<string>)
    requires WellFormed(ys)
    ensures SimpleSentenceSplit(JoinWithSpaces(ys)) == ys
  {
    if ys == [] {
      SplitEmptyIff("");
    } else {
      var s := JoinWithSpaces(ys);
      JoinTidy(ys);
      StripShape(s);
      SplitIsRegexSplit(s);
      RegexSplitOfJoin(ys);
    }
  }

  /** Round trip: splitting the first `n` sentences of a text gives back
      exactly the first `n` sentences of the text. */
  lemma {:induction false} FirstNSentencesRoundTrip(text: string, n: nat)
    ensures SimpleSentenceSplit(FirstNSentences(text, n)) == Prefix(SimpleSentenceSplit(text), n)
  {
    var xs := SimpleSentenceSplit(text);
    SentencesWellFormed(text);
    WellFormedPrefix(xs, n);
    FirstNSentencesIsJoin(text, n);
    SplitOfJoin(Prefix(xs, n));
  }
}
