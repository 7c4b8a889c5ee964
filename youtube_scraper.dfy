/**
 * The parts of the YouTube scraper that work on fetched data: reading WebVTT
 * subtitles into timed segments, choosing the subtitle file to download, and
 * turning extracted playlist information into the list of videos to index.
 */
module YouTubeScraper {
  import opened Wrappers
  import opened Text

  // ---------------------------------------------------------------------------
  // Timestamps
  // ---------------------------------------------------------------------------

  predicate IsDigit(c: char) {
    '0' <= c <= '9'
  }

  predicate AllDigits(s: string) {
    forall i :: 0 <= i < |s| ==> IsDigit(s[i])
  }

  function DigitValue(c: char): (d: nat)
    requires IsDigit(c)
    ensures d < 10
  {
    c as int - '0' as int
  }

  function DigitChar(d: nat): (c: char)
    requires d < 10
    ensures IsDigit(c) && DigitValue(c) == d
  {
    ('0' as int + d) as char
  }

  /** `int(s)` on a string of ASCII digits. */
  function Number(s: string): nat
    requires AllDigits(s)
  {
    if s == [] then 0 else Number(s[..|s| - 1]) * 10 + DigitValue(s[|s| - 1])
  }

  /** One `HH:MM:SS.mmm` timestamp, as the four integers its fields spell. */
  datatype Stamp = Stamp(hours: nat, minutes: nat, seconds: nat, millis: nat)

  /** The timestamp counted in whole milliseconds. */
  function TotalMillis(t: Stamp): nat {
    t.hours * 3_600_000 + t.minutes * 60_000 + t.seconds * 1000 + t.millis
  }

  /** `_vtt_time_to_seconds`: never negative, and exact in milliseconds. */
  function Seconds(t: Stamp): (r: real)
    ensures r >= 0.0
    ensures r == TotalMillis(t) as real / 1000.0
  {
    (t.hours * 3600 + t.minutes * 60 + t.seconds) as real + t.millis as real / 1000.0
  }

  /** The converted times order timestamps exactly as their millisecond counts do. */
  lemma SecondsOrder(a: Stamp, b: Stamp)
    ensures Seconds(a) <= Seconds(b) <==> TotalMillis(a) <= TotalMillis(b)
    ensures Seconds(a) == Seconds(b) <==> TotalMillis(a) == TotalMillis(b)
  {
    var x, y := TotalMillis(a) as real, TotalMillis(b) as real;
    assert Seconds(a) == x / 1000.0 && Seconds(b) == y / 1000.0;
    assert x / 1000.0 <= y / 1000.0 <==> x <= y;
  }

  /** The four fields fit the two- and three-digit widths of the format. */
  predicate InRange(t: Stamp) {
    t.hours < 100 && t.minutes < 100 && t.seconds < 100 && t.millis < 1000
  }

  function TwoDigits(n: nat): string
    requires n < 100
  {
    [DigitChar(n / 10), DigitChar(n % 10)]
  }

  function ThreeDigits(n: nat): string
    requires n < 1000
  {
    [DigitChar(n / 100), DigitChar(n / 10 % 10), DigitChar(n % 10)]
  }

  /** A timestamp written the way WebVTT files write it. */
  function FormatStamp(t: Stamp): (s: string)
    requires InRange(t)
    ensures |s| == 12
  {
    TwoDigits(t.hours) + ":" + TwoDigits(t.minutes) + ":" + TwoDigits(t.seconds) + "." + ThreeDigits(t.millis)
  }

  /** `(\d{2}):(\d{2}):(\d{2})\.(\d{3})` matches at index `i` of `s`. */
  predicate StampAt(s: string, i: nat) {
    i + 12 <= |s|
    && AllDigits(s[i..i + 2]) && s[i + 2] == ':'
    && AllDigits(s[i + 3..i + 5]) && s[i + 5] == ':'
    && AllDigits(s[i + 6..i + 8]) && s[i + 8] == '.'
    && AllDigits(s[i + 9..i + 12])
  }

  /** The timestamp matched at index `i`. */
  function StampFrom(s: string, i: nat): Stamp
    requires StampAt(s, i)
  {
    Stamp(Number(s[i..i + 2]), Number(s[i + 3..i + 5]), Number(s[i + 6..i + 8]), Number(s[i + 9..i + 12]))
  }

  lemma TwoDigitsBack(n: nat)
    requires n < 100
    ensures AllDigits(TwoDigits(n)) && Number(TwoDigits(n)) == n
  {
    var s := TwoDigits(n);
    assert s[..1][..0] == [];
    assert Number(s[..1]) == n / 10;
  }

  lemma ThreeDigitsBack(n: nat)
    requires n < 1000
    ensures AllDigits(ThreeDigits(n)) && Number(ThreeDigits(n)) == n
  {
    var s := ThreeDigits(n);
    assert s[..2][..1] == s[..1];
    assert s[..1][..0] == [];
    assert Number(s[..1]) == n / 100;
    assert Number(s[..2]) == n / 100 * 10 + n / 10 % 10;
  }

  lemma TwoDigitsForth(s: string)
    requires |s| == 2 && AllDigits(s)
    ensures Number(s) < 100 && TwoDigits(Number(s)) == s
  {
    assert s[..1][..0] == [];
    var a, b := DigitValue(s[0]), DigitValue(s[1]);
    assert Number(s[..1]) == a;
    assert Number(s) == a * 10 + b;
    assert DigitChar(a) == s[0] && DigitChar(b) == s[1];
  }

  lemma ThreeDigitsForth(s: string)
    requires |s| == 3 && AllDigits(s)
    ensures Number(s) < 1000 && ThreeDigits(Number(s)) == s
  {
    assert s[..2][..1] == s[..1];
    assert s[..1][..0] == [];
    var a, b, c := DigitValue(s[0]), DigitValue(s[1]), DigitValue(s[2]);
    assert Number(s[..1]) == a;
    assert Number(s[..2]) == a * 10 + b;
    assert Number(s) == a * 100 + b * 10 + c;
    DigitsOf(a, b, c);
    assert DigitChar(a) == s[0] && DigitChar(b) == s[1] && DigitChar(c) == s[2];
  }

  lemma DigitsOf(a: nat, b: nat, c: nat)
    requires a < 10 && b < 10 && c < 10
    ensures var n := a * 100 + b * 10 + c; n / 100 == a && n / 10 % 10 == b && n % 10 == c
  {
    var n := a * 100 + b * 10 + c;
    assert n / 10 == a * 10 + b;
  }

  /** Reading back a written timestamp gives the timestamp, whatever follows it. */
  lemma {:induction false} StampRoundTrip(t: Stamp, rest: string)
    requires InRange(t)
    ensures StampAt(FormatStamp(t) + rest, 0)
    ensures StampFrom(FormatStamp(t) + rest, 0) == t
  {
    var s := FormatStamp(t) + rest;
    TwoDigitsBack(t.hours);
    TwoDigitsBack(t.minutes);
    TwoDigitsBack(t.seconds);
    ThreeDigitsBack(t.millis);
    assert s[0..2] == TwoDigits(t.hours);
    assert s[3..5] == TwoDigits(t.minutes);
    assert s[6..8] == TwoDigits(t.seconds);
    assert s[9..12] == ThreeDigits(t.millis);
  }

  /** A matched timestamp is in range and is exactly the text it was read from. */
  lemma {:induction false} StampReadBack(s: string, i: nat)
    requires StampAt(s, i)
    ensures InRange(StampFrom(s, i))
    ensures FormatStamp(StampFrom(s, i)) == s[i..i + 12]
  {
    TwoDigitsForth(s[i..i + 2]);
    TwoDigitsForth(s[i + 3..i + 5]);
    TwoDigitsForth(s[i + 6..i + 8]);
    ThreeDigitsForth(s[i + 9..i + 12]);
    var t := StampFrom(s, i);
    assert FormatStamp(t) == s[i..i + 2] + [s[i + 2]] + s[i + 3..i + 5] + [s[i + 5]] + s[i + 6..i + 8] + [s[i + 8]] + s[i + 9..i + 12];
  }

  // ---------------------------------------------------------------------------
  // Cue timing lines
  // ---------------------------------------------------------------------------

  /** The start and end of one cue. */
  datatype Timing = Timing(start: Stamp, end: Stamp)

  /** `s` without its leading whitespace: what `\s*` consumes. */
  function SkipSpace(s: string): (r: string)
    ensures |r| <= |s| && r == s[|s| - |r|..]
  {
    s[RunLength(s, IsSpace)..]
  }

  /** `\s*-->\s*` followed by a timestamp, matched at the start of `s`. */
  function Arrow(s: string): Option<Stamp> {
    var g := SkipSpace(s);
    if !StartsWith(g, "-->") then None
    else
      var h := SkipSpace(g[3..]);
      if StampAt(h, 0) then Some(StampFrom(h, 0)) else None
  }

  /**
   * The timestamp pattern of `_parse_vtt`, matched at the start of a line only:
   * two timestamps around `-->` with optional whitespace on either side.
   * Whatever follows the second timestamp (cue settings) is ignored. Taking the
   * longest whitespace run on each side of the arrow is what the backtracking
   * match does, since neither `-` nor a digit is whitespace.
   */
  function ParseTiming(line: string): Option<Timing> {
    if !StampAt(line, 0) then None
    else
      match Arrow(line[12..])
      case None => None
      case Some(end) => Some(Timing(StampFrom(line, 0), end))
  }

  /** A timing line as a file writes it: two timestamps around an arrow, with the given gaps. */
  function TimingLine(start: Stamp, gap1: string, gap2: string, end: Stamp): string
    requires InRange(start) && InRange(end)
  {
    FormatStamp(start) + gap1 + "-->" + gap2 + FormatStamp(end)
  }

  lemma {:induction false} SpaceRun(gap: string, rest: string)
    requires IsBlank(gap)
    requires rest != [] && !IsSpace(rest[0])
    ensures SkipSpace(gap + rest) == rest
    ensures RunLength(gap + rest, IsSpace) == |gap|
  {
    if gap != [] {
      assert (gap + rest)[1..] == gap[1..] + rest;
      SpaceRun(gap[1..], rest);
    }
    assert (gap + rest)[|gap|..] == rest;
  }

  /** The arrow part of a written timing line is read back as its second timestamp. */
  lemma {:induction false} ArrowRoundTrip(gap1: string, gap2: string, end: Stamp, settings: string)
    requires InRange(end) && IsBlank(gap1) && IsBlank(gap2)
    ensures Arrow(gap1 + "-->" + gap2 + FormatStamp(end) + settings) == Some(end)
  {
    var b := FormatStamp(end) + settings;
    var s := gap1 + "-->" + gap2 + FormatStamp(end) + settings;
    assert s == gap1 + ("-->" + (gap2 + b));
    SpaceRun(gap1, "-->" + (gap2 + b));
    var g := "-->" + (gap2 + b);
    assert g[3..] == gap2 + b;
    StampRoundTrip(end, settings);
    assert !IsSpace(b[0]);
    SpaceRun(gap2, b);
  }

  /**
   * Every timing line with two-digit fields and whitespace gaps is recognised,
   * with any cue settings after it, and yields exactly its two timestamps.
   */
  lemma {:induction false} TimingRoundTrip(start: Stamp, gap1: string, gap2: string, end: Stamp, settings: string)
    requires InRange(start) && InRange(end) && IsBlank(gap1) && IsBlank(gap2)
    ensures ParseTiming(TimingLine(start, gap1, gap2, end) + settings) == Some(Timing(start, end))
  {
    var rest := gap1 + "-->" + gap2 + FormatStamp(end) + settings;
    var line := TimingLine(start, gap1, gap2, end) + settings;
    assert line == FormatStamp(start) + rest;
    StampRoundTrip(start, rest);
    assert line[12..] == rest;
    ArrowRoundTrip(gap1, gap2, end, settings);
  }

  /** What `SkipSpace` drops is a whitespace run. */
  lemma SkipSpaceSplit(s: string) returns (gap: string)
    ensures IsBlank(gap) && s == gap + SkipSpace(s)
  {
    var i := RunLength(s, IsSpace);
    gap := s[..i];
    assert s == s[..i] + s[i..];
  }

  /** A recognised arrow part is whitespace, the arrow, whitespace and a timestamp match. */
  lemma ArrowParts(r: string) returns (gap1: string, gap2: string, h: string)
    requires Arrow(r).Some?
    ensures IsBlank(gap1) && IsBlank(gap2) && StampAt(h, 0) && Arrow(r).value == StampFrom(h, 0)
    ensures r == gap1 + ("-->" + (gap2 + h))
  {
    var g := SkipSpace(r);
    gap1 := SkipSpaceSplit(r);
    var u := g[3..];
    assert g == "-->" + u;
    h := SkipSpace(u);
    gap2 := SkipSpaceSplit(u);
  }

  /** A recognised arrow part is whitespace, the arrow, whitespace, a written timestamp and the rest. */
  lemma {:induction false} ArrowShape(r: string) returns (gap1: string, gap2: string, settings: string)
    requires Arrow(r).Some?
    ensures InRange(Arrow(r).value) && IsBlank(gap1) && IsBlank(gap2)
    ensures r == gap1 + ("-->" + (gap2 + (FormatStamp(Arrow(r).value) + settings)))
  {
    var h;
    gap1, gap2, h := ArrowParts(r);
    StampReadBack(h, 0);
    settings := h[12..];
    assert h == h[..12] + settings;
  }

  /**
   * Conversely, a recognised line is such a timing line followed by whatever
   * came after the second timestamp: the two-digit fields and whitespace gaps
   * are the only shape the pattern accepts.
   */
  lemma {:induction false} TimingShape(line: string) returns (gap1: string, gap2: string, settings: string)
    requires ParseTiming(line).Some?
    ensures var t := ParseTiming(line).value;
      InRange(t.start) && InRange(t.end) && IsBlank(gap1) && IsBlank(gap2)
      && line == TimingLine(t.start, gap1, gap2, t.end) + settings
  {
    var t := ParseTiming(line).value;
    var r := line[12..];
    StampReadBack(line, 0);
    gap1, gap2, settings := ArrowShape(r);
    var a, b := FormatStamp(t.start), FormatStamp(t.end);
    assert line == line[0..12] + r;
    Regroup(a, gap1, "-->", gap2, b, settings);
  }

  lemma Regroup(a: string, b: string, c: string, d: string, e: string, f: string)
    ensures a + (b + (c + (d + (e + f)))) == a + b + c + d + e + f
  {
    assert d + (e + f) == d + e + f;
    assert c + (d + e + f) == c + d + e + f;
    assert b + (c + d + e + f) == b + c + d + e + f;
  }

  // ---------------------------------------------------------------------------
  // Tags and lines
  // ---------------------------------------------------------------------------

  predicate NotClose(c: char) {
    c != '>'
  }

  /**
   * `re.sub(r'<[^>]+>', '', s)`: scanning left to right, a `<` followed by at
   * least one character other than `>` and then a `>` is removed together with
   * them; a `<` with no such tag after it is kept.
   */
  function RemoveTags(s: string): (r: string)
    ensures |r| <= |s|
    decreases |s|
  {
    if s == [] then []
    else
      var n := RunLength(s[1..], NotClose);
      if s[0] == '<' && 1 <= n < |s| - 1 then RemoveTags(s[n + 2..])
      else [s[0]] + RemoveTags(s[1..])
  }

  /** Removing tags only drops characters: the result is a sub-multiset of the line. */
  lemma {:induction false} RemoveTagsFrom(s: string)
    ensures multiset(RemoveTags(s)) <= multiset(s)
    decreases |s|
  {
    if s != [] {
      var n := RunLength(s[1..], NotClose);
      if s[0] == '<' && 1 <= n < |s| - 1 {
        RemoveTagsFrom(s[n + 2..]);
        assert s == s[..n + 2] + s[n + 2..];
      } else {
        RemoveTagsFrom(s[1..]);
        assert s == [s[0]] + s[1..];
      }
    }
  }

  /** No `<[^>]+>` tag is left: each `<` is followed directly by `>` or by no `>` at all. */
  predicate TagFree(s: string) {
    forall i :: 0 <= i < |s| && s[i] == '<' ==> (i + 1 < |s| && s[i + 1] == '>') || '>' !in s[i + 1..]
  }

  /** A kept `<` at the head of the output is directly followed by `>` or by no `>` at all. */
  lemma KeptOpen(s: string)
    requires s != [] && s[0] == '<'
    requires var n := RunLength(s[1..], NotClose); !(1 <= n < |s| - 1)
    ensures var r := RemoveTags(s); (1 < |r| && r[1] == '>') || '>' !in r[1..]
  {
    var r := RemoveTags(s);
    var t := RemoveTags(s[1..]);
    assert r == [s[0]] + t;
    if 1 < |s| && s[1] == '>' {
      var u := s[1..];
      assert RemoveTags(u) == [u[0]] + RemoveTags(u[1..]);
    } else {
      assert '>' !in s[1..];
      assert r[1..] == t;
      RemoveTagsFrom(s[1..]);
      assert '>' !in multiset(t);
    }
  }

  /** Removing tags leaves no tag behind. */
  lemma {:induction false} RemoveTagsTagFree(s: string)
    ensures TagFree(RemoveTags(s))
    decreases |s|
  {
    if s == [] {
      return;
    }
    var n := RunLength(s[1..], NotClose);
    if s[0] == '<' && 1 <= n < |s| - 1 {
      RemoveTagsTagFree(s[n + 2..]);
      assert RemoveTags(s) == RemoveTags(s[n + 2..]);
      return;
    }
    var t := RemoveTags(s[1..]);
    var r := [s[0]] + t;
    assert r == RemoveTags(s);
    RemoveTagsTagFree(s[1..]);
    if s[0] == '<' {
      KeptOpen(s);
      assert r[1..] == t;
    }
    TagFreeCons(s[0], t);
  }

  /** A character in front of a tag-free line leaves it tag-free unless it starts a tag. */
  lemma TagFreeCons(c: char, t: string)
    requires TagFree(t)
    requires c == '<' ==> (0 < |t| && t[0] == '>') || '>' !in t
    ensures TagFree([c] + t)
  {
    var r := [c] + t;
    forall i | 0 <= i < |r| && r[i] == '<'
      ensures (i + 1 < |r| && r[i + 1] == '>') || '>' !in r[i + 1..]
    {
      if i > 0 {
        assert t[i - 1] == '<';
        assert r[i + 1..] == t[i..];
      } else {
        assert r[1..] == t;
      }
    }
  }

  /** A tag-free line is left as it is. */
  lemma {:induction false} TagFreeFixed(s: string)
    requires TagFree(s)
    ensures RemoveTags(s) == s
    decreases |s|
  {
    if s == [] {
      return;
    }
    var n := RunLength(s[1..], NotClose);
    if s[0] == '<' {
      assert (1 < |s| && s[1] == '>') || '>' !in s[1..];
      if 1 < |s| && s[1] == '>' {
        assert n == 0;
      }
    }
    assert TagFree(s[1..]) by {
      forall i | 0 <= i < |s[1..]| && s[1..][i] == '<'
        ensures (i + 1 < |s[1..]| && s[1..][i + 1] == '>') || '>' !in s[1..][i + 1..]
      {
        assert s[i + 1] == '<';
        assert s[1..][i + 1..] == s[i + 2..];
      }
    }
    TagFreeFixed(s[1..]);
  }

  /** Removing tags twice removes nothing more. */
  lemma RemoveTagsIdempotent(s: string)
    ensures RemoveTags(RemoveTags(s)) == RemoveTags(s)
  {
    RemoveTagsTagFree(s);
    TagFreeFixed(RemoveTags(s));
  }

  /** `s.split('\n')`: at least one piece, and no piece holds a newline. */
  function SplitLines(s: string): (r: seq<string>)
    ensures |r| >= 1
    ensures forall k :: 0 <= k < |r| ==> '\n' !in r[k]
  {
    if s == [] then [[]]
    else
      var rest := SplitLines(s[1..]);
      if s[0] == '\n' then [[]] + rest
      else
        var r := [[s[0]] + rest[0]] + rest[1..];
        assert forall k :: 0 <= k < |r| ==> '\n' !in r[k] by {
          forall k | 0 <= k < |r| ensures '\n' !in r[k] {
            if k == 0 {
              assert '\n' !in rest[0];
            } else {
              assert r[k] == rest[k];
            }
          }
        }
        r
  }

  /** Joining the pieces with newlines gives the text back. */
  lemma {:induction false} SplitLinesJoin(s: string)
    ensures Join("\n", SplitLines(s)) == s
  {
    if s != [] {
      var rest := SplitLines(s[1..]);
      SplitLinesJoin(s[1..]);
      if s[0] == '\n' {
        assert Join("\n", [[]] + rest) == [] + "\n" + Join("\n", rest);
      } else {
        var r := [[s[0]] + rest[0]] + rest[1..];
        assert r[1..] == rest[1..];
        if |rest| > 1 {
          assert Join("\n", rest) == rest[0] + "\n" + Join("\n", rest[1..]);
        }
      }
    }
  }

  /** Splitting newline-free `x` followed by `t` glues `x` onto the first piece of `t`. */
  lemma {:induction false} SplitLinesPrefix(x: string, t: string)
    requires '\n' !in x
    ensures SplitLines(x + t) == [x + SplitLines(t)[0]] + SplitLines(t)[1..]
  {
    if x != [] {
      assert (x + t)[1..] == x[1..] + t;
      assert x[0] in x;
      SplitLinesPrefix(x[1..], t);
      var rest := SplitLines(x[1..] + t);
      assert rest[0] == x[1..] + SplitLines(t)[0];
      assert rest[1..] == SplitLines(t)[1..];
      assert SplitLines(x + t) == [[x[0]] + rest[0]] + rest[1..];
      assert [x[0]] + (x[1..] + SplitLines(t)[0]) == x + SplitLines(t)[0];
    } else {
      assert x + t == t;
      assert x + SplitLines(t)[0] == SplitLines(t)[0];
      assert [x + SplitLines(t)[0]] + SplitLines(t)[1..] == SplitLines(t);
    }
  }

  /** Splitting newline-joined newline-free lines gives the lines back. */
  lemma {:induction false} JoinSplitLines(lines: seq<string>)
    requires |lines| >= 1
    requires forall k :: 0 <= k < |lines| ==> '\n' !in lines[k]
    ensures SplitLines(Join("\n", lines)) == lines
  {
    if |lines| == 1 {
      SplitLinesPrefix(lines[0], []);
      assert lines[0] + [] == lines[0];
    } else {
      var t := "\n" + Join("\n", lines[1..]);
      assert Join("\n", lines) == lines[0] + t;
      JoinSplitLines(lines[1..]);
      assert SplitLines(t) == [[]] + lines[1..];
      SplitLinesPrefix(lines[0], t);
      assert lines[0] + [] == lines[0];
    }
  }

  // ---------------------------------------------------------------------------
  // The cue parser
  // ---------------------------------------------------------------------------

  /** One transcript segment: start and end in seconds, and its text. */
  datatype Segment = Segment(start: real, end: real, text: string)

  /** What the line loop carries: the segments emitted so far, the open cue's timing and its text lines. */
  datatype Cursor = Cursor(segments: seq<Segment>, open: Option<Timing>, texts: seq<string>)

  const Fresh := Cursor([], None, [])

  /** The segments once the open cue, if it collected any text, is emitted. */
  function Emitted(c: Cursor): seq<Segment> {
    if c.open.Some? && c.texts != [] then
      c.segments + [Segment(Seconds(c.open.value.start), Seconds(c.open.value.end), Join(" ", c.texts))]
    else c.segments
  }

  /** A stripped line that may carry cue text: not blank, not the header, not a tag-only line. */
  predicate IsTextLine(line: string) {
    line != [] && !StartsWith(line, "WEBVTT") && !StartsWith(line, "<")
  }

  /** What one line is to the loop. */
  datatype LineKind = Opens(timing: Timing) | Carries(text: string) | Ignored

  /**
   * How the loop reads a line once stripped: a timing line opens a cue; any
   * other non-blank line that is neither the header nor tag-led carries its
   * text with the tags removed, when anything is left of it.
   */
  function Classify(raw: string): (k: LineKind)
    ensures k.Carries? ==> k.text != []
    ensures k.Opens? <==> ParseTiming(Strip(raw)).Some?
  {
    var line := Strip(raw);
    match ParseTiming(line)
    case Some(t) => Opens(t)
    case None =>
      if IsTextLine(line) then
        var clean := RemoveTags(line);
        if clean != [] then Carries(clean) else Ignored
      else Ignored
  }

  /** The effect of one line on the cursor; text counts only while a cue is open. */
  function Advance(c: Cursor, k: LineKind): Cursor {
    match k
    case Opens(t) => Cursor(Emitted(c), Some(t), [])
    case Carries(x) => if c.open.Some? then c.(texts := c.texts + [x]) else c
    case Ignored => c
  }

  /** One pass of the line loop. */
  function Feed(c: Cursor, raw: string): Cursor {
    Advance(c, Classify(raw))
  }

  /** A left fold: `f` applied to the state and each element in turn. */
  function Fold<S, X>(f: (S, X) -> S, s: S, xs: seq<X>): S
    decreases |xs|
  {
    if xs == [] then s else f(Fold(f, s, xs[..|xs| - 1]), xs[|xs| - 1])
  }

  /** The line loop over all of `lines`, from cursor `c`. */
  function FeedAll(c: Cursor, lines: seq<string>): Cursor {
    Fold(Feed, c, lines)
  }

  /** The last line is fed after all the others. */
  lemma FeedLast(c: Cursor, lines: seq<string>)
    requires lines != []
    ensures FeedAll(c, lines) == Feed(FeedAll(c, lines[..|lines| - 1]), lines[|lines| - 1])
  {
  }

  /** Folding over one more element of a prefix. */
  lemma FoldPrefix<S, X>(f: (S, X) -> S, s: S, xs: seq<X>, i: nat)
    requires i < |xs|
    ensures Fold(f, s, xs[..i + 1]) == f(Fold(f, s, xs[..i]), xs[i])
  {
    assert xs[..i + 1][..i] == xs[..i];
  }

  /** The segments `_parse_vtt` returns for a file already split into lines. */
  function ParseLines(lines: seq<string>): seq<Segment> {
    Emitted(FeedAll(Fresh, lines))
  }

  /** The segments `_parse_vtt` returns for a file. */
  function ParseVttSpec(content: string): seq<Segment> {
    ParseLines(SplitLines(content))
  }

  /** `_parse_vtt` */
  method ParseVtt(content: string) returns (segments: seq<Segment>)
    ensures segments == ParseVttSpec(content)
  {
    var lines := SplitLines(content);
    segments := [];
    var current: Option<Timing> := None;
    var currentText: seq<string> := [];
    var i := 0;
    assert lines[..0] == [];
    assert FeedAll(Fresh, lines[..0]) == Fresh;
    while i < |lines|
      invariant 0 <= i <= |lines|
      invariant Cursor(segments, current, currentText) == FeedAll(Fresh, lines[..i])
    {
      segments, current, currentText := FeedLine(segments, current, currentText, lines[i]);
      FoldPrefix(Feed, Fresh, lines, i);
      i := i + 1;
    }
    assert lines[..|lines|] == lines;
    if current.Some? && currentText != [] {
      segments := segments + [Segment(Seconds(current.value.start), Seconds(current.value.end), Join(" ", currentText))];
    }
  }

  /** The body of `_parse_vtt`'s line loop. */
  method FeedLine(segments0: seq<Segment>, current0: Option<Timing>, currentText0: seq<string>, raw: string)
    returns (segments: seq<Segment>, current: Option<Timing>, currentText: seq<string>)
    ensures Cursor(segments, current, currentText) == Feed(Cursor(segments0, current0, currentText0), raw)
  {
    segments, current, currentText := segments0, current0, currentText0;
    var line := Strip(raw);
    var timing := ParseTiming(line);
    if timing.Some? {
      if current.Some? && currentText != [] {
        segments := segments + [Segment(Seconds(current.value.start), Seconds(current.value.end), Join(" ", currentText))];
      }
      current := timing;
      currentText := [];
      assert Classify(raw) == Opens(timing.value);
    } else if line != [] && current.Some? && !StartsWith(line, "WEBVTT") && !StartsWith(line, "<") {
      var clean := RemoveTags(line);
      if clean != [] {
        currentText := currentText + [clean];
        assert Classify(raw) == Carries(clean);
      } else {
        assert Classify(raw) == Ignored;
      }
    } else {
      assert Classify(raw).Ignored? || current.None?;
    }
  }

  // ---------------------------------------------------------------------------
  // Properties of the cue parser
  // ---------------------------------------------------------------------------

  /** Folding over two blocks is folding over the first, then over the second. */
  lemma {:induction false} FoldAppend<S, X>(f: (S, X) -> S, s: S, a: seq<X>, b: seq<X>)
    ensures Fold(f, s, a + b) == Fold(f, Fold(f, s, a), b)
    decreases |b|
  {
    if b == [] {
      assert a + b == a;
    } else {
      var ab := a + b;
      assert ab[..|ab| - 1] == a + b[..|b| - 1];
      FoldAppend(f, s, a, b[..|b| - 1]);
    }
  }

  /** The number of lines that open a cue. */
  function TimingCount(lines: seq<string>): nat {
    if lines == [] then 0
    else TimingCount(lines[..|lines| - 1]) + (if Classify(lines[|lines| - 1]).Opens? then 1 else 0)
  }

  /** The emitted segments and the open cue together never outnumber the timing lines read. */
  lemma {:induction false} CursorCount(lines: seq<string>)
    ensures var c := FeedAll(Fresh, lines);
      |c.segments| + (if c.open.Some? then 1 else 0) <= TimingCount(lines)
  {
    if lines != [] {
      FeedLast(Fresh, lines);
      CursorCount(lines[..|lines| - 1]);
    }
  }

  /** There are at most as many segments as timing lines. */
  lemma SegmentCount(lines: seq<string>)
    ensures |ParseLines(lines)| <= TimingCount(lines)
  {
    CursorCount(lines);
  }

  /** Every segment has text, and every collected text line is non-empty. */
  predicate HasText(c: Cursor) {
    (forall k :: 0 <= k < |c.segments| ==> c.segments[k].text != [])
    && (forall k :: 0 <= k < |c.texts| ==> c.texts[k] != [])
  }

  lemma JoinNonEmpty(sep: string, parts: seq<string>)
    requires parts != [] && parts[0] != []
    ensures Join(sep, parts) != []
  {
    if |parts| > 1 {
      assert Join(sep, parts) == parts[0] + sep + Join(sep, parts[1..]);
    }
  }

  /** One line keeps every segment and every collected line non-empty. */
  lemma AdvanceHasText(c: Cursor, k: LineKind)
    requires HasText(c)
    requires k.Carries? ==> k.text != []
    ensures HasText(Advance(c, k))
  {
    if k.Opens? && c.open.Some? && c.texts != [] {
      JoinNonEmpty(" ", c.texts);
    }
  }

  lemma {:induction false} CursorHasText(lines: seq<string>)
    ensures HasText(FeedAll(Fresh, lines))
  {
    if lines != [] {
      FeedLast(Fresh, lines);
      CursorHasText(lines[..|lines| - 1]);
      AdvanceHasText(FeedAll(Fresh, lines[..|lines| - 1]), Classify(lines[|lines| - 1]));
    }
  }

  /** A cue is emitted only with text: no segment has empty text. */
  lemma SegmentsHaveText(lines: seq<string>)
    ensures forall k :: 0 <= k < |ParseLines(lines)| ==> ParseLines(lines)[k].text != []
  {
    var c := FeedAll(Fresh, lines);
    CursorHasText(lines);
    if c.open.Some? && c.texts != [] {
      JoinNonEmpty(" ", c.texts);
    }
  }

  /** The timing a line opens, if it opens a cue. */
  function TimingOfLine(raw: string): seq<Timing> {
    TimingOf(Classify(raw))
  }

  function TimingOf(k: LineKind): seq<Timing> {
    if k.Opens? then [k.timing] else []
  }

  /** The timings of the lines that open a cue, in file order. */
  function TimingsOf(lines: seq<string>): seq<Timing> {
    if lines == [] then []
    else TimingsOf(lines[..|lines| - 1]) + TimingOfLine(lines[|lines| - 1])
  }

  /** `seg` carries the converted times of `t`. */
  predicate TimedBy(seg: Segment, t: Timing) {
    seg.start == Seconds(t.start) && seg.end == Seconds(t.end)
  }

  /** Some timing of `ts` gives `seg` its times. */
  predicate TimedByOneOf(seg: Segment, ts: seq<Timing>) {
    exists m :: 0 <= m < |ts| && TimedBy(seg, ts[m])
  }

  /** Every emitted segment, and the open cue, take their times from a timing line read so far. */
  predicate TimesFrom(c: Cursor, ts: seq<Timing>) {
    (forall k :: 0 <= k < |c.segments| ==> TimedByOneOf(c.segments[k], ts))
    && (c.open.Some? ==> c.open.value in ts)
  }

  /** Emitting the open cue keeps every segment timed by `ts`. */
  lemma EmittedTimes(c: Cursor, ts: seq<Timing>)
    requires TimesFrom(c, ts)
    ensures forall k :: 0 <= k < |Emitted(c)| ==> TimedByOneOf(Emitted(c)[k], ts)
  {
    var e := Emitted(c);
    forall k | 0 <= k < |e| ensures TimedByOneOf(e[k], ts) {
      if k == |c.segments| {
        var m :| 0 <= m < |ts| && ts[m] == c.open.value;
        assert TimedBy(e[k], ts[m]);
      } else {
        assert e[k] == c.segments[k];
      }
    }
  }

  /** One more line keeps the cursor timed by the timings read, that line's included. */
  lemma AdvanceTimes(c: Cursor, ts: seq<Timing>, k: LineKind)
    requires TimesFrom(c, ts)
    ensures TimesFrom(Advance(c, k), ts + TimingOf(k))
  {
    var ts' := ts + TimingOf(k);
    EmittedTimes(c, ts);
    var d := Advance(c, k);
    forall i | 0 <= i < |d.segments| ensures TimedByOneOf(d.segments[i], ts') {
      var seg := d.segments[i];
      assert TimedByOneOf(seg, ts);
      var m :| 0 <= m < |ts| && TimedBy(seg, ts[m]);
      assert ts'[m] == ts[m];
    }
    if d.open.Some? {
      if k.Opens? {
        assert ts'[|ts|] == d.open.value;
      } else {
        var m :| 0 <= m < |ts| && ts[m] == c.open.value;
        assert ts'[m] == ts[m];
      }
    }
  }

  lemma {:induction false} CursorTimes(lines: seq<string>)
    ensures TimesFrom(FeedAll(Fresh, lines), TimingsOf(lines))
  {
    if lines != [] {
      var init := lines[..|lines| - 1];
      FeedLast(Fresh, lines);
      CursorTimes(init);
      AdvanceTimes(FeedAll(Fresh, init), TimingsOf(init), Classify(lines[|lines| - 1]));
    }
  }

  /** Each segment's start and end are the converted times of a timing line of the file. */
  lemma SegmentTimes(lines: seq<string>)
    ensures forall k :: 0 <= k < |ParseLines(lines)| ==> TimedByOneOf(ParseLines(lines)[k], TimingsOf(lines))
  {
    CursorTimes(lines);
    EmittedTimes(FeedAll(Fresh, lines), TimingsOf(lines));
  }

  /** Lines read before any cue is open leave the loop where it started. */
  lemma {:induction false} PreambleIdle(pre: seq<string>)
    requires forall k :: 0 <= k < |pre| ==> ParseTiming(Strip(pre[k])).None?
    ensures FeedAll(Fresh, pre) == Fresh
  {
    if pre != [] {
      FeedLast(Fresh, pre);
      PreambleIdle(pre[..|pre| - 1]);
    }
  }

  /** Lines before the first timing line (the header and its metadata) do not contribute. */
  lemma PreambleSkipped(pre: seq<string>, rest: seq<string>)
    requires forall k :: 0 <= k < |pre| ==> ParseTiming(Strip(pre[k])).None?
    ensures ParseLines(pre + rest) == ParseLines(rest)
  {
    PreambleIdle(pre);
    FoldAppend(Feed, Fresh, pre, rest);
  }

  // ---------------------------------------------------------------------------
  // Round trip: rendering cues as WebVTT and parsing the file
  // ---------------------------------------------------------------------------

  /** One cue to be written: its two timestamps and its single line of text. */
  datatype Cue = Cue(start: Stamp, end: Stamp, text: string)

  /**
   * Text that reads back as itself: one non-blank stripped line without `<`
   * that is not a header and does not start with a digit (so it cannot be
   * taken for a timing line).
   */
  predicate PlainText(x: string) {
    x != [] && !IsSpace(x[0]) && !IsSpace(x[|x| - 1]) && !IsDigit(x[0])
    && '\n' !in x && '<' !in x && !StartsWith(x, "WEBVTT")
  }

  predicate Writable(c: Cue) {
    InRange(c.start) && InRange(c.end) && PlainText(c.text)
  }

  /** Every cue is writable. */
  predicate AllWritable(cues: seq<Cue>) {
    cues == [] || (AllWritable(cues[..|cues| - 1]) && Writable(cues[|cues| - 1]))
  }

  /** The header, then per cue its timing line, its text and a blank line. */
  function RenderLines(cues: seq<Cue>): (lines: seq<string>)
    requires AllWritable(cues)
    ensures |lines| >= 2
  {
    if cues == [] then ["WEBVTT", ""]
    else
      var c := cues[|cues| - 1];
      RenderLines(cues[..|cues| - 1]) + [TimingLine(c.start, " ", " ", c.end), c.text, ""]
  }

  /** A WebVTT file holding the cues. */
  function Render(cues: seq<Cue>): string
    requires AllWritable(cues)
  {
    Join("\n", RenderLines(cues))
  }

  /** The segments the cues stand for. */
  function SegmentsOf(cues: seq<Cue>): (r: seq<Segment>)
    ensures |r| == |cues|
  {
    if cues == [] then []
    else
      var c := cues[|cues| - 1];
      SegmentsOf(cues[..|cues| - 1]) + [Segment(Seconds(c.start), Seconds(c.end), c.text)]
  }

  lemma FormatStampChars(t: Stamp)
    requires InRange(t)
    ensures '\n' !in FormatStamp(t)
    ensures IsDigit(FormatStamp(t)[0]) && IsDigit(FormatStamp(t)[11])
  {
  }

  /** A written timing line holds no newline. */
  lemma TimingLineNoNewline(start: Stamp, end: Stamp)
    requires InRange(start) && InRange(end)
    ensures '\n' !in TimingLine(start, " ", " ", end)
  {
    var a := FormatStamp(start);
    FormatStampChars(start);
    FormatStampChars(end);
    assert '\n' !in a + " ";
    assert '\n' !in a + " " + "-->";
    assert '\n' !in a + " " + "-->" + " ";
  }

  /** A written timing line is its own strip and reads back as its timing. */
  lemma TimingLineReads(start: Stamp, end: Stamp)
    requires InRange(start) && InRange(end)
    ensures var line := TimingLine(start, " ", " ", end);
      Strip(line) == line && ParseTiming(line) == Some(Timing(start, end))
  {
    var line := TimingLine(start, " ", " ", end);
    FormatStampChars(start);
    FormatStampChars(end);
    assert line[0] == FormatStamp(start)[0];
    assert line[|line| - 1] == FormatStamp(end)[11];
    StripStable(line);
    TimingRoundTrip(start, " ", " ", end, []);
    assert line + [] == line;
  }

  lemma FoldThree<S, X>(f: (S, X) -> S, s: S, a: X, b: X, d: X)
    ensures Fold(f, s, [a, b, d]) == f(f(f(s, a), b), d)
  {
    assert [a][..0] == [];
    assert Fold(f, s, [a]) == f(s, a);
    assert [a, b][..1] == [a];
    assert Fold(f, s, [a, b]) == f(f(s, a), b);
    assert [a, b, d][..2] == [a, b];
  }

  /** A written timing line opens its cue. */
  lemma ClassifyTimingLine(start: Stamp, end: Stamp)
    requires InRange(start) && InRange(end)
    ensures Classify(TimingLine(start, " ", " ", end)) == Opens(Timing(start, end))
  {
    TimingLineReads(start, end);
  }

  /** A plain text line carries itself. */
  lemma ClassifyPlain(x: string)
    requires PlainText(x)
    ensures Classify(x) == Carries(x)
  {
    StripStable(x);
    assert TagFree(x);
    TagFreeFixed(x);
    assert !StampAt(x, 0) by {
      if |x| >= 12 {
        assert x[0..2][0] == x[0];
      }
    }
    assert ParseTiming(x) == None;
    assert !StartsWith(x, "<") by {
      assert x[..1] != "<" by {
        assert x[..1][0] == x[0] && x[0] in x;
      }
    }
    assert IsTextLine(x);
  }

  /** The header and blank lines are ignored. */
  lemma ClassifyHeader()
    ensures Classify("WEBVTT") == Ignored
    ensures Classify("") == Ignored
  {
    StripStable("WEBVTT");
  }

  /** A written timing line emits the open cue and opens its own. */
  lemma FeedTimingLine(cur: Cursor, start: Stamp, end: Stamp)
    requires InRange(start) && InRange(end)
    ensures Feed(cur, TimingLine(start, " ", " ", end)) == Cursor(Emitted(cur), Some(Timing(start, end)), [])
  {
    ClassifyTimingLine(start, end);
  }

  /** A plain text line is collected while a cue is open. */
  lemma FeedTextLine(cur: Cursor, x: string)
    requires PlainText(x) && cur.open.Some?
    ensures Feed(cur, x) == cur.(texts := cur.texts + [x])
  {
    ClassifyPlain(x);
  }

  /** A blank line changes nothing. */
  lemma FeedBlankLine(cur: Cursor)
    ensures Feed(cur, "") == cur
  {
    ClassifyHeader();
  }

  /** The three lines written for one cue emit the open cue and open this one with its text. */
  lemma FeedCueLines(before: Cursor, c: Cue, emitted: seq<Segment>)
    requires Writable(c) && Emitted(before) == emitted
    ensures Fold(Feed, before, [TimingLine(c.start, " ", " ", c.end), c.text, ""])
      == Cursor(emitted, Some(Timing(c.start, c.end)), [c.text])
  {
    var line := TimingLine(c.start, " ", " ", c.end);
    FoldThree(Feed, before, line, c.text, "");
    var opening := Cursor(emitted, Some(Timing(c.start, c.end)), []);
    var withText := Cursor(emitted, Some(Timing(c.start, c.end)), [c.text]);
    assert Feed(before, line) == opening by {
      FeedTimingLine(before, c.start, c.end);
    }
    assert Feed(opening, c.text) == withText by {
      FeedTextLine(opening, c.text);
      assert [] + [c.text] == [c.text];
    }
    assert Feed(withText, "") == withText by {
      FeedBlankLine(withText);
    }
  }

  /** The cursor after the lines of `cues`: the last cue open with its text, the others emitted. */
  function AfterCues(cues: seq<Cue>): Cursor {
    if cues == [] then Fresh
    else
      var c := cues[|cues| - 1];
      Cursor(SegmentsOf(cues[..|cues| - 1]), Some(Timing(c.start, c.end)), [c.text])
  }

  lemma EmittedAfterCues(cues: seq<Cue>)
    ensures Emitted(AfterCues(cues)) == SegmentsOf(cues)
  {
  }

  lemma FeedHeader()
    ensures FeedAll(Fresh, ["WEBVTT", ""]) == Fresh
  {
    ClassifyHeader();
    assert ["WEBVTT", ""][..1] == ["WEBVTT"];
    assert ["WEBVTT"][..0] == [];
    FeedLast(Fresh, ["WEBVTT", ""]);
    FeedLast(Fresh, ["WEBVTT"]);
  }

  lemma FeedRenderedStep(cues: seq<Cue>)
    requires cues != [] && AllWritable(cues)
    requires FeedAll(Fresh, RenderLines(cues[..|cues| - 1])) == AfterCues(cues[..|cues| - 1])
    ensures FeedAll(Fresh, RenderLines(cues)) == AfterCues(cues)
  {
    var init := cues[..|cues| - 1];
    var c := cues[|cues| - 1];
    var tail := [TimingLine(c.start, " ", " ", c.end), c.text, ""];
    assert RenderLines(cues) == RenderLines(init) + tail;
    FoldAppend(Feed, Fresh, RenderLines(init), tail);
    EmittedAfterCues(init);
    FeedCueLines(AfterCues(init), c, SegmentsOf(init));
  }

  /** After the lines of the cues are fed, the last cue is open with its text and the others are emitted. */
  lemma {:induction false} FeedRendered(cues: seq<Cue>)
    requires AllWritable(cues)
    ensures FeedAll(Fresh, RenderLines(cues)) == AfterCues(cues)
  {
    if cues == [] {
      FeedHeader();
    } else {
      FeedRendered(cues[..|cues| - 1]);
      FeedRenderedStep(cues);
    }
  }

  /**
   * Writing well-formed cues as a WebVTT file and parsing it gives back one
   * segment per cue, in order, with the cue's converted times and its text.
   */
  lemma RenderParse(cues: seq<Cue>)
    requires AllWritable(cues)
    ensures ParseVttSpec(Render(cues)) == SegmentsOf(cues)
  {
    var lines := RenderLines(cues);
    assert forall k :: 0 <= k < |lines| ==> '\n' !in lines[k] by {
      RenderNoNewline(cues);
    }
    JoinSplitLines(lines);
    FeedRendered(cues);
    EmittedAfterCues(cues);
  }

  lemma NoNewlineAppend(a: seq<string>, b: seq<string>)
    requires forall k :: 0 <= k < |a| ==> '\n' !in a[k]
    requires forall k :: 0 <= k < |b| ==> '\n' !in b[k]
    ensures forall k :: 0 <= k < |a + b| ==> '\n' !in (a + b)[k]
  {
  }

  lemma {:induction false} RenderNoNewline(cues: seq<Cue>)
    requires AllWritable(cues)
    ensures forall k :: 0 <= k < |RenderLines(cues)| ==> '\n' !in RenderLines(cues)[k]
  {
    if cues != [] {
      var c := cues[|cues| - 1];
      RenderNoNewline(cues[..|cues| - 1]);
      TimingLineNoNewline(c.start, c.end);
      var tail := [TimingLine(c.start, " ", " ", c.end), c.text, ""];
      NoNewlineAppend(RenderLines(cues[..|cues| - 1]), tail);
    }
  }

  // ---------------------------------------------------------------------------
  // Choosing the subtitle file
  // ---------------------------------------------------------------------------

  /** One entry of a language's subtitle list; `None` stands for a missing key. */
  datatype Format = Format(ext: Option<string>, url: Option<string>)

  /** The extensions the scraper accepts, best first. */
  const PreferredFormats: seq<string> := ["vtt", "ttml", "srv3", "srv2", "srv1"]

  predicate Preferred(f: Format) {
    f.ext.Some? && f.ext.value in PreferredFormats
  }

  predicate IsVtt(f: Format) {
    f.ext == Some("vtt")
  }

  /** The index of the first `vtt` entry, or `|fs|` when there is none. */
  function FirstVtt(fs: seq<Format>): (k: nat)
    ensures k <= |fs|
    ensures k < |fs| ==> IsVtt(fs[k])
    ensures forall j :: 0 <= j < k ==> !IsVtt(fs[j])
  {
    if fs == [] then 0
    else if IsVtt(fs[0]) then 0
    else 1 + FirstVtt(fs[1..])
  }

  /** The index of the last entry with a preferred extension, or -1 when there is none. */
  function LastPreferred(fs: seq<Format>): (k: int)
    ensures -1 <= k < |fs|
    ensures k >= 0 ==> Preferred(fs[k])
    ensures forall j :: k < j < |fs| ==> !Preferred(fs[j])
  {
    if fs == [] then -1
    else if Preferred(fs[|fs| - 1]) then |fs| - 1
    else LastPreferred(fs[..|fs| - 1])
  }

  /**
   * The url the scraper downloads for one language: that of the first `vtt`
   * entry if there is one, else that of the last entry with a preferred
   * extension; `None` when there is no such entry or it has no url.
   */
  function SubtitleUrlSpec(fs: seq<Format>): Option<string> {
    var v := FirstVtt(fs);
    if v < |fs| then fs[v].url
    else
      var k := LastPreferred(fs);
      if k >= 0 then fs[k].url else None
  }

  /** The format-selection loop of `get_video_transcript`. */
  method SelectSubtitleUrl(formats: seq<Format>) returns (url: Option<string>)
    ensures url == SubtitleUrlSpec(formats)
  {
    url := None;
    var i := 0;
    while i < |formats|
      invariant 0 <= i <= |formats|
      invariant forall j :: 0 <= j < i ==> !IsVtt(formats[j])
      invariant url == (var k := LastPreferred(formats[..i]); if k >= 0 then formats[k].url else None)
    {
      var f := formats[i];
      assert formats[..i + 1][..i] == formats[..i];
      if f.ext.Some? && f.ext.value in PreferredFormats {
        url := f.url;
        if f.ext == Some("vtt") {
          assert FirstVtt(formats) == i;
          return;
        }
      }
      i := i + 1;
    }
    assert formats[..|formats|] == formats;
  }

  /** A `vtt` entry anywhere in the list decides the choice, whatever follows it. */
  lemma VttWins(fs: seq<Format>, rest: seq<Format>)
    requires exists j :: 0 <= j < |fs| && IsVtt(fs[j])
    ensures SubtitleUrlSpec(fs + rest) == SubtitleUrlSpec(fs)
  {
    var j :| 0 <= j < |fs| && IsVtt(fs[j]);
    var v := FirstVtt(fs);
    assert v <= j;
    var w := FirstVtt(fs + rest);
    assert (fs + rest)[v] == fs[v];
    assert w >= v by {
      forall i | 0 <= i < v ensures !IsVtt((fs + rest)[i]) {
        assert (fs + rest)[i] == fs[i];
      }
    }
  }

  /** Without a `vtt` entry, the chosen url is one of a preferred entry, and no later entry is preferred. */
  lemma NoVttLastPreferred(fs: seq<Format>)
    requires forall j :: 0 <= j < |fs| ==> !IsVtt(fs[j])
    ensures SubtitleUrlSpec(fs).Some? ==>
      exists k :: 0 <= k < |fs| && Preferred(fs[k]) && fs[k].url == SubtitleUrlSpec(fs) &&
        forall j :: k < j < |fs| ==> !Preferred(fs[j])
  {
    assert FirstVtt(fs) == |fs|;
  }

  /** Entries with other extensions are never chosen: with none preferred, there is no url. */
  lemma NothingPreferred(fs: seq<Format>)
    requires forall j :: 0 <= j < |fs| ==> !Preferred(fs[j])
    ensures SubtitleUrlSpec(fs) == None
  {
    assert "vtt" in PreferredFormats;
  }

  // ---------------------------------------------------------------------------
  // Playlist entries
  // ---------------------------------------------------------------------------

  /** One playlist entry as the extractor reports it; `None` stands for a missing key. */
  datatype Entry = Entry(id: Option<string>, title: Option<string>)

  /**
   * What the extractor returns for a url. `entries` is `None` when the key is
   * missing (a single video); a present key whose value is empty or null
   * behaves the same way, as the empty list.
   */
  datatype PlaylistInfo = PlaylistInfo(id: Option<string>, title: Option<string>, entries: Option<seq<Option<Entry>>>)

  /** The outcome of the extractor call: information, possibly empty, or one of the two kinds of failure. */
  datatype Extraction =
    | Extracted(info: Option<PlaylistInfo>)
    | DownloadFailed(message: string)
    | OtherFailure(message: string)

  /** One video to index: its id, its title and its watch url. */
  datatype Video = Video(videoId: string, title: string, url: string)

  const WatchPrefix: string := "https://www.youtube.com/watch?v="

  /** A present, non-empty string: Python's truthiness of an optional string. */
  predicate Truthy(s: Option<string>) {
    s.Some? && s.value != []
  }

  /** The video an entry contributes, if any: null entries and entries without an id are skipped. */
  function EntryVideo(e: Option<Entry>): (v: Option<Video>)
    ensures v.Some? <==> e.Some? && Truthy(e.value.id)
    ensures v.Some? ==>
      v.value.videoId == e.value.id.value && v.value.videoId != [] && v.value.url == WatchPrefix + v.value.videoId
  {
    if e.None? || !Truthy(e.value.id) then None
    else Some(Video(e.value.id.value, e.value.title.GetOr("Unknown"), WatchPrefix + e.value.id.value))
  }

  /** The videos of a list of entries, in order. */
  function KeptEntries(es: seq<Option<Entry>>): (r: seq<Video>)
    ensures |r| <= |es|
    ensures forall k :: 0 <= k < |r| ==> r[k].videoId != [] && r[k].url == WatchPrefix + r[k].videoId
  {
    if es == [] then []
    else
      var v := EntryVideo(es[|es| - 1]);
      KeptEntries(es[..|es| - 1]) + (if v.Some? then [v.value] else [])
  }

  /** The entry loop of `get_playlist_videos`. */
  method CollectEntries(entries: seq<Option<Entry>>) returns (videos: seq<Video>)
    ensures videos == KeptEntries(entries)
  {
    videos := [];
    var i := 0;
    while i < |entries|
      invariant 0 <= i <= |entries|
      invariant videos == KeptEntries(entries[..i])
    {
      assert entries[..i + 1][..i] == entries[..i];
      var entry := entries[i];
      if entry.Some? {
        var videoId := entry.value.id;
        if videoId.Some? && videoId.value != [] {
          videos := videos + [Video(videoId.value, entry.value.title.GetOr("Unknown"), WatchPrefix + videoId.value)];
        }
      }
      i := i + 1;
    }
    assert entries[..|entries|] == entries;
  }

  /** Keeping entries commutes with concatenation: the order of the playlist is preserved. */
  lemma {:induction false} KeptEntriesAppend(a: seq<Option<Entry>>, b: seq<Option<Entry>>)
    ensures KeptEntries(a + b) == KeptEntries(a) + KeptEntries(b)
    decreases |b|
  {
    if b == [] {
      assert a + b == a;
    } else {
      var ab := a + b;
      assert ab[..|ab| - 1] == a + b[..|b| - 1];
      assert ab[|ab| - 1] == b[|b| - 1];
      KeptEntriesAppend(a, b[..|b| - 1]);
    }
  }

  /** A video is kept exactly when some entry contributes it. */
  lemma {:induction false} KeptEntriesExactly(es: seq<Option<Entry>>, v: Video)
    ensures v in KeptEntries(es) <==> exists k :: 0 <= k < |es| && EntryVideo(es[k]) == Some(v)
  {
    if es != [] {
      var init := es[..|es| - 1];
      KeptEntriesExactly(init, v);
      if exists k :: 0 <= k < |init| && EntryVideo(init[k]) == Some(v) {
        var k :| 0 <= k < |init| && EntryVideo(init[k]) == Some(v);
        assert es[k] == init[k];
      }
      if exists k :: 0 <= k < |es| && EntryVideo(es[k]) == Some(v) {
        var k :| 0 <= k < |es| && EntryVideo(es[k]) == Some(v);
        if k < |init| {
          assert init[k] == es[k];
        }
      }
    }
  }

  /** The video list of `get_playlist_videos` for the extracted information. */
  function PlaylistVideosSpec(playlistUrl: string, info: Option<PlaylistInfo>): seq<Video> {
    match info
    case None => []
    case Some(p) =>
      if p.entries.Some? then KeptEntries(p.entries.value)
      else if Truthy(p.id) then
        [Video(p.id.value, p.title.GetOr("Unknown"),
               if Contains(playlistUrl, "watch?v=") then playlistUrl else WatchPrefix + p.id.value)]
      else []
  }

  /** The exception `get_playlist_videos` raises for an extractor download error. */
  function DownloadError(message: string): (e: Error)
    ensures e.ExtractionFailed? ==> e.message == message
  {
    if Contains(message, "Private video") || Contains(message, "This video is private") then PrivateVideos
    else if Contains(message, "Video unavailable") || Contains(message, "This video is unavailable") then UnavailableVideos
    else if Contains(message, "Sign in") || Contains(Lower(message), "login") then AuthenticationRequired
    else ExtractionFailed(message)
  }

  /** `get_playlist_videos`, given the extractor's outcome. */
  function GetPlaylistVideos(playlistUrl: string, x: Extraction): (r: Result<seq<Video>>)
    ensures r.Err? <==> !x.Extracted?
    ensures x.OtherFailure? ==> r == Err(ExtractionFailed(x.message))
  {
    match x
    case Extracted(info) => Ok(PlaylistVideosSpec(playlistUrl, info))
    case DownloadFailed(m) => Err(DownloadError(m))
    case OtherFailure(m) => Err(ExtractionFailed(m))
  }

  /** The transcript information `get_video_transcript` returns for one video. */
  datatype VideoData = VideoData(videoId: Option<string>, title: Option<string>, url: string, transcript: seq<Segment>)

  /** The videos kept by the transcript loop: those whose fetch succeeded with a non-empty transcript. */
  function WithTranscripts(videos: seq<Video>, fetch: string -> Option<VideoData>): (r: seq<VideoData>)
    ensures |r| <= |videos|
    ensures forall k :: 0 <= k < |r| ==> r[k].transcript != []
  {
    if videos == [] then []
    else
      var d := fetch(videos[|videos| - 1].url);
      WithTranscripts(videos[..|videos| - 1], fetch)
        + (if d.Some? && d.value.transcript != [] then [d.value] else [])
  }

  /**
   * `get_playlist_with_transcripts`: extraction failures propagate, an empty
   * video list raises, and otherwise the videos with transcripts are kept.
   * `fetch` stands for `get_video_transcript` on a url, `None` for its failure.
   */
  function PlaylistWithTranscriptsSpec(playlistUrl: string, x: Extraction, fetch: string -> Option<VideoData>): Result<seq<VideoData>> {
    match GetPlaylistVideos(playlistUrl, x)
    case Err(e) => Err(e)
    case Ok(videos) => if videos == [] then Err(EmptyPlaylist) else Ok(WithTranscripts(videos, fetch))
  }

  method PlaylistWithTranscripts(playlistUrl: string, x: Extraction, fetch: string -> Option<VideoData>)
    returns (r: Result<seq<VideoData>>)
    ensures r == PlaylistWithTranscriptsSpec(playlistUrl, x, fetch)
  {
    var listed := GetPlaylistVideos(playlistUrl, x);
    if listed.Err? {
      return Err(listed.error);
    }
    var videos := listed.value;
    if videos == [] {
      return Err(EmptyPlaylist);
    }
    var kept: seq<VideoData> := [];
    var i := 0;
    while i < |videos|
      invariant 0 <= i <= |videos|
      invariant kept == WithTranscripts(videos[..i], fetch)
    {
      assert videos[..i + 1][..i] == videos[..i];
      var data := fetch(videos[i].url);
      if data.Some? && data.value.transcript != [] {
        kept := kept + [data.value];
      }
      i := i + 1;
    }
    assert videos[..|videos|] == videos;
    return Ok(kept);
  }

  /** An empty playlist raises exactly when the extraction succeeded with no usable video. */
  lemma EmptyPlaylistRaises(playlistUrl: string, x: Extraction, fetch: string -> Option<VideoData>)
    ensures PlaylistWithTranscriptsSpec(playlistUrl, x, fetch) == Err(EmptyPlaylist)
      <==> x.Extracted? && PlaylistVideosSpec(playlistUrl, x.info) == []
  {
    if x.DownloadFailed? {
      var e := DownloadError(x.message);
      assert e != EmptyPlaylist;
    }
  }

  /** Every kept item is the fetched data of a listed video and has a transcript. */
  lemma {:induction false} WithTranscriptsSound(videos: seq<Video>, fetch: string -> Option<VideoData>)
    ensures forall k :: 0 <= k < |WithTranscripts(videos, fetch)| ==>
      exists j :: 0 <= j < |videos| && fetch(videos[j].url) == Some(WithTranscripts(videos, fetch)[k])
  {
    if videos == [] {
      assert WithTranscripts(videos, fetch) == [];
    } else {
      var init := videos[..|videos| - 1];
      WithTranscriptsSound(init, fetch);
      var r := WithTranscripts(videos, fetch);
      var head := WithTranscripts(init, fetch);
      var d := fetch(videos[|videos| - 1].url);
      assert r == head + (if d.Some? && d.value.transcript != [] then [d.value] else []);
      forall k | 0 <= k < |r| ensures exists j :: 0 <= j < |videos| && fetch(videos[j].url) == Some(r[k]) {
        if k < |head| {
          var j :| 0 <= j < |init| && fetch(init[j].url) == Some(head[k]);
          assert videos[j] == init[j];
        } else {
          assert fetch(videos[|videos| - 1].url) == Some(r[k]);
        }
      }
    }
  }

  /** Every listed video whose fetch gives a non-empty transcript is kept. */
  lemma {:induction false} WithTranscriptsComplete(videos: seq<Video>, fetch: string -> Option<VideoData>, j: nat)
    requires j < |videos|
    requires fetch(videos[j].url).Some? && fetch(videos[j].url).value.transcript != []
    ensures fetch(videos[j].url).value in WithTranscripts(videos, fetch)
  {
    if j < |videos| - 1 {
      var init := videos[..|videos| - 1];
      assert init[j] == videos[j];
      WithTranscriptsComplete(init, fetch, j);
    }
  }
}
