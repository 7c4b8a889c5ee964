/**
 * String helpers shared by every service: Python's `str.lower`, `str.strip`,
 * `str.split()`, `' '.join`, the `in` substring test, and the regular
 * expressions `\b\w+\b` (word tokens) and `[^\w]` (non-word characters).
 * Characters are restricted to ASCII: `\w` is `[A-Za-z0-9_]` and lowering
 * maps only `A`..`Z`.
 */
module Text {

  predicate IsWordChar(c: char) {
    ('a' <= c <= 'z') || ('A' <= c <= 'Z') || ('0' <= c <= '9') || c == '_'
  }

  /**
   * The ASCII characters `str.split()` and `str.strip()` treat as whitespace:
   * space, tab, line feed, vertical tab, form feed, carriage return and the
   * four separators U+001C..U+001F.
   */
  predicate IsSpace(c: char) {
    c == ' ' || ('\t' <= c <= '\r') || ('\U{001C}' <= c <= '\U{001F}')
  }

  predicate NotSpace(c: char) {
    !IsSpace(c)
  }

  function LowerChar(c: char): (d: char)
    ensures IsWordChar(c) <==> IsWordChar(d)
    ensures IsSpace(c) <==> IsSpace(d)
    ensures !('A' <= d <= 'Z')
  {
    if 'A' <= c <= 'Z' then (c as int + 32) as char else c
  }

  /** `s.lower()` */
  function Lower(s: string): (r: string)
    ensures |r| == |s|
    ensures forall i :: 0 <= i < |s| ==> r[i] == LowerChar(s[i])
  {
    seq(|s|, i requires 0 <= i < |s| => LowerChar(s[i]))
  }

  predicate IsLower(s: string) {
    forall i :: 0 <= i < |s| ==> !('A' <= s[i] <= 'Z')
  }

  predicate IsBlank(s: string) {
    forall i :: 0 <= i < |s| ==> IsSpace(s[i])
  }

  /** One past the last non-whitespace character of `s`, or 0 when there is none. */
  function TrailingEnd(s: string): (n: nat)
    ensures n <= |s|
    ensures forall k :: n <= k < |s| ==> IsSpace(s[k])
    ensures n > 0 ==> !IsSpace(s[n - 1])
  {
    if s == [] || !IsSpace(s[|s| - 1]) then |s| else TrailingEnd(s[..|s| - 1])
  }

  /** `r` occurs in `s` at `i` with only whitespace before and after it. */
  predicate TrimmedAt(s: string, r: string, i: int) {
    && OccursAt(s, r, i)
    && (forall k :: 0 <= k < i ==> IsSpace(s[k]))
    && (forall k :: i + |r| <= k < |s| ==> IsSpace(s[k]))
  }

  /** `s.strip()`: the largest infix of `s` that neither starts nor ends with whitespace. */
  function Strip(s: string): (r: string)
    ensures r == [] <==> IsBlank(s)
    ensures r == [] || (!IsSpace(r[0]) && !IsSpace(r[|r| - 1]))
    ensures exists i :: OccursAt(s, r, i)
  {
    var i := RunLength(s, IsSpace);
    if i == |s| then
      assert OccursAt(s, [], 0);
      []
    else
      var j := TrailingEnd(s);
      assert OccursAt(s, s[i..j], i);
      s[i..j]
  }

  /** `strip()` removes only leading and trailing whitespace. */
  lemma StripTrims(s: string)
    ensures Strip(s) == [] || exists i :: TrimmedAt(s, Strip(s), i)
  {
    var i := RunLength(s, IsSpace);
    if i < |s| {
      var j := TrailingEnd(s);
      assert TrimmedAt(s, s[i..j], i);
    }
  }

  /** A string that neither starts nor ends with whitespace is its own strip. */
  lemma StripStable(s: string)
    requires s == [] || (!IsSpace(s[0]) && !IsSpace(s[|s| - 1]))
    ensures Strip(s) == s
  {
    if s != [] {
      assert s[..|s|] == s;
    }
  }

  /**
   * Stripping `a + b`, where `a` is non-empty and neither starts nor ends with
   * whitespace, keeps all of `a` and a prefix of `b`.
   */
  lemma StripKeepsHead(a: string, b: string)
    requires a != [] && !IsSpace(a[0]) && !IsSpace(a[|a| - 1])
    ensures |a| <= |Strip(a + b)| <= |a + b|
    ensures Strip(a + b) == (a + b)[..|Strip(a + b)|]
  {
    var s := a + b;
    assert s[0] == a[0];
    assert s[|a| - 1] == a[|a| - 1];
  }

  /** `r` is `a`, or `a` followed by a space and at least one more character. */
  predicate SpaceExtends(a: string, r: string) {
    r == a || (|r| > |a| + 1 && r[..|a| + 1] == a + " ")
  }

  /**
   * Stripping a stripped non-empty `a` followed by a space and `b` gives `a`
   * back, or `a`, the space and a non-empty stripped part of `b`.
   */
  lemma StripSpaceAppend(a: string, b: string)
    requires a != [] && !IsSpace(a[0]) && !IsSpace(a[|a| - 1])
    ensures var r := Strip(a + " " + b);
      Strip(r) == r && SpaceExtends(a, r)
  {
    var s := a + " " + b;
    assert s == a + (" " + b);
    StripKeepsHead(a, " " + b);
    var r := Strip(s);
    assert s[|a|] == ' ';
    if |r| == |a| {
      assert r == s[..|a|] == a;
    } else {
      assert r[|a|] == ' ';
      assert |r| != |a| + 1;
      assert r[..|a| + 1] == s[..|a| + 1] == a + " ";
    }
    StripStable(r);
  }

  /** The length of the longest prefix of `s` whose characters all satisfy `p`. */
  function RunLength(s: string, p: char -> bool): (n: nat)
    ensures n <= |s|
    ensures forall i :: 0 <= i < n ==> p(s[i])
    ensures n < |s| ==> !p(s[n])
  {
    if s == [] || !p(s[0]) then 0 else 1 + RunLength(s[1..], p)
  }

  /** The maximal non-empty runs of characters satisfying `p`, left to right. */
  function Runs(s: string, p: char -> bool): (r: seq<string>)
    ensures forall w | w in r :: w != [] && forall i :: 0 <= i < |w| ==> p(w[i])
    decreases |s|
  {
    if s == [] then []
    else if !p(s[0]) then Runs(s[1..], p)
    else
      var n := RunLength(s, p);
      [s[..n]] + Runs(s[n..], p)
  }

  /** `s.split()` with no separator: the maximal runs of non-whitespace. */
  function SplitWhitespace(s: string): seq<string> {
    Runs(s, NotSpace)
  }

  /** `re.findall(r'\b\w+\b', s)`: a `\w+` run bounded by `\b` on both sides is a maximal run. */
  function Words(s: string): seq<string> {
    Runs(s, IsWordChar)
  }

  /** The tokenizer shared by the keyword index and the metadata boost: lowercase, then `\w+` runs. */
  function Tokenize(s: string): (r: seq<string>)
    ensures forall w | w in r :: w != [] && IsLower(w)
  {
    var l := Lower(s);
    var r := Words(l);
    assert forall w | w in r :: IsLower(w) by {
      forall w | w in r ensures IsLower(w) {
        RunsAreInfixes(l, IsWordChar, w);
      }
    }
    r
  }

  /** Every run is an infix of the string it was cut from. */
  lemma {:induction false} RunsAreInfixes(s: string, p: char -> bool, w: string)
    requires w in Runs(s, p)
    ensures exists i :: OccursAt(s, w, i)
    decreases |s|
  {
    if !p(s[0]) {
      RunsAreInfixes(s[1..], p, w);
      var i :| OccursAt(s[1..], w, i);
      assert OccursAt(s, w, i + 1) by {
        assert s[1..][i..i + |w|] == s[i + 1..i + 1 + |w|];
      }
    } else {
      var n := RunLength(s, p);
      if w != s[..n] {
        RunsAreInfixes(s[n..], p, w);
        var i :| OccursAt(s[n..], w, i);
        assert OccursAt(s, w, n + i) by {
          assert s[n..][i..i + |w|] == s[n + i..n + i + |w|];
        }
      } else {
        assert OccursAt(s, w, 0);
      }
    }
  }

  /** A character outside `p` separates the runs on its two sides. */
  lemma {:induction false} RunsSplitAt(a: string, x: char, b: string, p: char -> bool)
    requires !p(x)
    ensures Runs(a + [x] + b, p) == Runs(a, p) + Runs(b, p)
    decreases |a|
  {
    var s := a + [x] + b;
    if a == [] {
      assert s[1..] == b;
    } else if !p(a[0]) {
      assert s[1..] == a[1..] + [x] + b;
      RunsSplitAt(a[1..], x, b, p);
    } else {
      var n := RunLength(a, p);
      RunLengthStops(a, x, b, p);
      assert s[..n] == a[..n];
      assert s[n..] == a[n..] + [x] + b;
      RunsSplitAt(a[n..], x, b, p);
    }
  }

  /** The words of `a` begin the words of `a` itself and of any string that starts with `a` and a space. */
  lemma SplitAfterSpace(a: string, r: string)
    requires SpaceExtends(a, r)
    ensures var o, w := SplitWhitespace(a), SplitWhitespace(r);
      |o| <= |w| && w[..|o|] == o
  {
    if r == a {
      var w := SplitWhitespace(a);
      assert w[..|w|] == w;
      return;
    }
    var rest := r[|a| + 1..];
    assert r == a + [' '] + rest;
    RunsSplitAt(a, ' ', rest, NotSpace);
  }

  lemma {:induction false} RunLengthStops(a: string, x: char, b: string, p: char -> bool)
    requires !p(x)
    ensures RunLength(a + [x] + b, p) == RunLength(a, p)
  {
    var s := a + [x] + b;
    if a != [] && p(a[0]) {
      assert s[1..] == a[1..] + [x] + b;
      RunLengthStops(a[1..], x, b, p);
    }
  }

  /** A string whose characters all satisfy `p` is a single run. */
  lemma OneRun(w: string, p: char -> bool)
    requires w != [] && forall i :: 0 <= i < |w| ==> p(w[i])
    ensures Runs(w, p) == [w]
  {
    assert p(w[0]);
    assert RunLength(w, p) == |w|;
    assert w[..|w|] == w;
    assert w[|w|..] == [];
  }

  /** `sep.join(parts)` */
  function Join(sep: string, parts: seq<string>): (r: string)
    ensures parts == [] ==> r == []
    ensures |parts| == 1 ==> r == parts[0]
  {
    if parts == [] then []
    else if |parts| == 1 then parts[0]
    else parts[0] + sep + Join(sep, parts[1..])
  }

  /** Joining words with a single space and splitting again gives the words back. */
  lemma {:induction false} SplitJoin(ws: seq<string>)
    requires forall w | w in ws :: w != [] && forall i :: 0 <= i < |w| ==> NotSpace(w[i])
    ensures SplitWhitespace(Join(" ", ws)) == ws
  {
    if ws == [] {
    } else if |ws| == 1 {
      OneRun(ws[0], NotSpace);
    } else {
      assert ws[0] in ws;
      OneRun(ws[0], NotSpace);
      SplitJoin(ws[1..]);
      RunsSplitAt(ws[0], ' ', Join(" ", ws[1..]), NotSpace);
    }
  }

  /** `s[:k]` with Python's clamping of an out-of-range bound. */
  function Take<T>(s: seq<T>, k: nat): (r: seq<T>)
    ensures |r| == if k < |s| then k else |s|
    ensures r == s[..|r|]
  {
    if k < |s| then s[..k] else s
  }

  /** `needle` occurs in `hay` starting at index `i`. */
  predicate OccursAt(hay: string, needle: string, i: int) {
    0 <= i <= |hay| - |needle| && hay[i..i + |needle|] == needle
  }

  function StartsWith(s: string, prefix: string): bool {
    |prefix| <= |s| && s[..|prefix|] == prefix
  }

  /** Python's `needle in hay` on strings. */
  function Contains(hay: string, needle: string): (b: bool)
    ensures b <==> exists i :: OccursAt(hay, needle, i)
  {
    if StartsWith(hay, needle) then
      assert OccursAt(hay, needle, 0);
      true
    else if hay == [] then false
    else
      var b := Contains(hay[1..], needle);
      assert b ==> exists i :: OccursAt(hay, needle, i) by {
        if b {
          var j :| OccursAt(hay[1..], needle, j);
          assert hay[1..][j..j + |needle|] == hay[j + 1..j + 1 + |needle|];
          assert OccursAt(hay, needle, j + 1);
        }
      }
      assert (exists i :: OccursAt(hay, needle, i)) ==> b by {
        if i :| OccursAt(hay, needle, i) {
          assert i != 0;
          assert hay[1..][i - 1..i - 1 + |needle|] == hay[i..i + |needle|];
          assert OccursAt(hay[1..], needle, i - 1);
        }
      }
      b
  }

  /** `re.sub(r'[^\w]', '', s)`: keep only the word characters, in order. */
  function KeepWordChars(s: string): (r: string)
    ensures forall i :: 0 <= i < |r| ==> IsWordChar(r[i])
    ensures |r| <= |s|
  {
    if s == [] then []
    else if IsWordChar(s[0]) then [s[0]] + KeepWordChars(s[1..])
    else KeepWordChars(s[1..])
  }
}
