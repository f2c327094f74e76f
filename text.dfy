/** The Python string built-ins the core relies on, over ASCII text:
    `str.isspace`, `str.lower`, `str.upper`, `str.strip`, `str.rstrip(c)`,
    the `in` operator between strings, `" ".join`, `str.split()` with no
    argument, and slicing `s[:n]`. */
module TextUtil {

  /** `c.isspace()` on the ASCII range: space, tab, line feed, carriage
      return, vertical tab, form feed and the separators 0x1C-0x1F. */
  predicate IsSpace(c: char) {
    c == ' ' || c == '\t' || c == '\n' || c == '\r' || c == '\U{000B}' || c == '\U{000C}'
    || ('\U{001C}' <= c <= '\U{001F}')
  }

  function LowerChar(c: char): char {
    if 'A' <= c <= 'Z' then (c as int + 32) as char else c
  }

  function UpperChar(c: char): char {
    if 'a' <= c <= 'z' then (c as int - 32) as char else c
  }

  /** `s.lower()`: every character lower-cased, nothing else changed. */
  function Lower(s: string): (r: string)
    ensures |r| == |s|
    ensures forall i :: 0 <= i < |s| ==> r[i] == LowerChar(s[i])
  {
    if s == [] then [] else [LowerChar(s[0])] + Lower(s[1..])
  }

  function Min(a: int, b: int): int { if a <= b then a else b }

  /** `s[:n]` for a non-negative `n`. */
  function Prefix<T>(s: seq<T>, n: nat): (r: seq<T>)
    ensures |r| == Min(n, |s|) && r <= s
  {
    s[..Min(n, |s|)]
  }

  /** Python's `p in s` for strings: `p` occurs in `s` at some offset
      (so the empty string occurs in every string). */
  predicate Contains(s: string, p: string)
    decreases |s|
  {
    p <= s || (s != [] && Contains(s[1..], p))
  }

  lemma {:induction false} ContainsAt(s: string, p: string, i: nat)
    requires i + |p| <= |s| && s[i..i + |p|] == p
    ensures Contains(s, p)
  {
    if i == 0 {
      assert s[..|p|] == p;
    } else {
      assert s[1..][i - 1..i - 1 + |p|] == s[i..i + |p|];
      ContainsAt(s[1..], p, i - 1);
    }
  }

  /** `any(k in s for k in keys)` */
  predicate ContainsAny(s: string, keys: seq<string>) {
    exists i :: 0 <= i < |keys| && Contains(s, keys[i])
  }

  /** Nothing longer than a string occurs in it. */
  lemma {:induction false} ContainsLength(s: string, p: string)
    requires Contains(s, p)
    ensures |p| <= |s|
    decreases |s|
  {
    if !(p <= s) {
      ContainsLength(s[1..], p);
    }
  }

  /** A non-empty string whose first character does not occur in `s` does
      not occur in `s`. */
  lemma {:induction false} ContainsNeedsFirstChar(s: string, p: string)
    requires p != [] && forall i :: 0 <= i < |s| ==> s[i] != p[0]
    ensures !Contains(s, p)
    decreases |s|
  {
    if s != [] {
      assert !(p <= s) by { assert s[0] != p[0]; }
      ContainsNeedsFirstChar(s[1..], p);
    }
  }

  /** A string contains each of its infixes. */
  lemma {:induction false} ContainsInfix(a: string, p: string, b: string)
    ensures Contains(a + p + b, p)
  {
    var s := a + p + b;
    assert s[|a|..|a| + |p|] == p;
    ContainsAt(s, p, |a|);
  }

  /** `s.lstrip()`: the suffix left after dropping leading whitespace. */
  function TrimLeft(s: string): (r: string)
    ensures |r| <= |s| && r == s[|s| - |r|..]
    ensures r == [] || !IsSpace(r[0])
    ensures forall i :: 0 <= i < |s| - |r| ==> IsSpace(s[i])
    decreases |s|
  {
    if s != [] && IsSpace(s[0]) then TrimLeft(s[1..]) else s
  }

  /** `s.rstrip()`: the prefix left after dropping trailing whitespace. */
  function TrimRight(s: string): (r: string)
    ensures r <= s
    ensures r == [] || !IsSpace(r[|r| - 1])
    ensures forall i :: |r| <= i < |s| ==> IsSpace(s[i])
    decreases |s|
  {
    if s != [] && IsSpace(s[|s| - 1]) then TrimRight(s[..|s| - 1]) else s
  }

  /** `s.strip()` */
  function Strip(s: string): string {
    TrimRight(TrimLeft(s))
  }

  /** Non-empty, with no whitespace at either end: what `strip` leaves
      of a string that is not all whitespace. */
  predicate Tidy(s: string) {
    s != [] && !IsSpace(s[0]) && !IsSpace(s[|s| - 1])
  }

  predicate AllSpace(s: string) {
    forall i :: 0 <= i < |s| ==> IsSpace(s[i])
  }

  /** `strip` gives the empty string exactly on all-whitespace input,
      gives a tidy string otherwise, and leaves a tidy string alone. */
  lemma {:induction false} StripShape(s: string)
    ensures Strip(s) == [] || Tidy(Strip(s))
    ensures Strip(s) == [] <==> AllSpace(s)
    ensures Tidy(s) ==> Strip(s) == s
  {
    var l := TrimLeft(s);
    var r := TrimRight(l);
    if r != [] {
      assert r[0] == l[0];
    }
  }

  /** `s.rstrip(c)`: the prefix left after dropping trailing `c`s. */
  function RStrip(s: string, c: char): (r: string)
    ensures r <= s
    ensures r == [] || r[|r| - 1] != c
    ensures forall i :: |r| <= i < |s| ==> s[i] == c
    decreases |s|
  {
    if s != [] && s[|s| - 1] == c then RStrip(s[..|s| - 1], c) else s
  }

  /** `" ".join(xs)` */
  function JoinWithSpaces(xs: seq<string>): string
    decreases |xs|
  {
    if xs == [] then "" else if |xs| == 1 then xs[0] else xs[0] + " " + JoinWithSpaces(xs[1..])
  }

  /** Joining tidy strings gives a tidy string that starts like the first. */
  lemma {:induction false} JoinTidy(xs: seq<string>)
    requires xs != [] && forall i :: 0 <= i < |xs| ==> Tidy(xs[i])
    ensures Tidy(JoinWithSpaces(xs)) && JoinWithSpaces(xs)[0] == xs[0][0]
  {
    if |xs| > 1 {
      JoinTidy(xs[1..]);
    }
  }

  /** A word as `str.split()` returns it: non-empty, no whitespace. */
  predicate IsWord(w: string) {
    w != [] && forall i :: 0 <= i < |w| ==> !IsSpace(w[i])
  }

  /** The first whitespace position at or after `i`, or `|s|`. */
  function WordEnd(s: string, i: nat): (r: nat)
    requires i <= |s|
    ensures i <= r <= |s|
    ensures forall j :: i <= j < r ==> !IsSpace(s[j])
    ensures r < |s| ==> IsSpace(s[r])
    decreases |s| - i
  {
    if i == |s| || IsSpace(s[i]) then i else WordEnd(s, i + 1)
  }

  /** `s.split()` with no argument: the maximal runs of non-whitespace,
      in order. */
  function Words(s: string): (r: seq<string>)
    decreases |s|
  {
    if s == [] then []
    else if IsSpace(s[0]) then Words(s[1..])
    else
      var k := WordEnd(s, 0);
      [s[..k]] + Words(s[k..])
  }

  /** Every element of `s.split()` is a word. */
  lemma {:induction false} WordsAreWords(s: string)
    ensures forall i :: 0 <= i < |Words(s)| ==> IsWord(Words(s)[i])
    decreases |s|
  {
    if s != [] {
      if IsSpace(s[0]) {
        WordsAreWords(s[1..]);
      } else {
        WordsAreWords(s[WordEnd(s, 0)..]);
      }
    }
  }

  lemma {:induction false} WordsSkipSpace(c: char, s: string)
    requires IsSpace(c)
    ensures Words([c] + s) == Words(s)
  {
    assert ([c] + s)[1..] == s;
  }

  lemma {:induction false} WordEndOfWord(w: string, rest: string)
    requires IsWord(w) && (rest == [] || IsSpace(rest[0]))
    ensures WordEnd(w + rest, 0) == |w|
  {
    var s := w + rest;
    var k := WordEnd(s, 0);
    assert forall i :: 0 <= i < |w| ==> s[i] == w[i];
    assert rest != [] ==> s[|w|] == rest[0];
  }

  /** A word followed by nothing or by whitespace is split off first. */
  lemma {:induction false} WordsCons(w: string, rest: string)
    requires IsWord(w) && (rest == [] || IsSpace(rest[0]))
    ensures Words(w + rest) == [w] + Words(rest)
  {
    var s := w + rest;
    WordEndOfWord(w, rest);
    assert s[..|w|] == w && s[|w|..] == rest;
  }

  /** Splitting words joined by single spaces gives the words back. */
  lemma {:induction false} WordsOfJoin(ws: seq<string>)
    requires forall i :: 0 <= i < |ws| ==> IsWord(ws[i])
    ensures Words(JoinWithSpaces(ws)) == ws
  {
    if |ws| == 1 {
      assert Words(ws[0] + []) == [ws[0]] + Words([]) by { WordsCons(ws[0], []); }
      assert ws[0] + [] == ws[0];
    } else if |ws| > 1 {
      var w, more := ws[0], ws[1..];
      var j := JoinWithSpaces(more);
      var tail := [' '] + j;
      assert JoinWithSpaces(ws) == w + tail;
      assert Words(tail) == more by {
        WordsSkipSpace(' ', j);
        WordsOfJoin(more);
      }
      assert Words(w + tail) == [w] + Words(tail) by { WordsCons(w, tail); }
      assert [w] + more == ws;
    }
  }

  /** Every whitespace character is a single space with a non-space
      character on each side. */
  predicate SingleSpaced(s: string) {
    forall i :: 0 <= i < |s| && IsSpace(s[i]) ==>
      0 < i < |s| - 1 && s[i] == ' ' && !IsSpace(s[i - 1]) && !IsSpace(s[i + 1])
  }

  /** Words joined by single spaces are single-spaced, and tidy unless
      there are no words. */
  lemma {:induction false} JoinSingleSpaced(ws: seq<string>)
    requires forall i :: 0 <= i < |ws| ==> IsWord(ws[i])
    ensures SingleSpaced(JoinWithSpaces(ws))
    ensures ws != [] ==> Tidy(JoinWithSpaces(ws))
  {
    if |ws| > 1 {
      var w, more := ws[0], ws[1..];
      var j := JoinWithSpaces(more);
      JoinSingleSpaced(more);
      var r := JoinWithSpaces(ws);
      assert r == w + [' '] + j;
      assert forall i :: 0 <= i < |w| ==> r[i] == w[i];
      forall i | 0 <= i < |r| && IsSpace(r[i])
        ensures 0 < i < |r| - 1 && r[i] == ' ' && !IsSpace(r[i - 1]) && !IsSpace(r[i + 1])
      {
        if i == |w| {
          assert r[i - 1] == w[|w| - 1] && r[i + 1] == j[0];
        } else if i > |w| {
          assert r[i] == j[i - |w| - 1];
          assert r[i - 1] == j[i - |w| - 2] && r[i + 1] == j[i - |w|];
        }
      }
    }
  }
}
