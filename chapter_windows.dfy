/**
 * Chapter generation (backend/llm_service.py): the transcript is cut into
 * overlapping time windows, each window's text is sent to the language
 * model once, and the reply becomes a chapter whose times are kept inside
 * the window; a quota error yields a chapter made from the raw transcript.
 * The model call and `json.loads` are parameters.
 */
module ChapterWindows {
  import opened Wrappers
  import opened Text
  import YouTubeScraper

  type Segment = YouTubeScraper.Segment

  function Min(a: real, b: real): real { if a <= b then a else b }

  /** The window length and overlap `generate_chapters` passes to `_create_windows`. */
  const WindowSizeSeconds: real := 300.0
  const OverlapSeconds: real := 60.0

  datatype Window = Window(start: real, end: real, segments: seq<Segment>)

  // ---------------------------------------------------------------------------
  // _create_windows
  // ---------------------------------------------------------------------------

  /** The three ways a segment can meet the window `[ws, we)`. */
  predicate Overlaps(s: Segment, ws: real, we: real) {
    (s.start >= ws && s.start < we) || (s.end > ws && s.end <= we) || (s.start <= ws && s.end >= we)
  }

  /** The segments that meet `[ws, we)`, in transcript order. */
  function Members(segs: seq<Segment>, ws: real, we: real): (r: seq<Segment>)
    ensures forall s :: s in r <==> s in segs && Overlaps(s, ws, we)
  {
    if segs == [] then []
    else
      var init := segs[..|segs| - 1];
      var s := segs[|segs| - 1];
      assert segs == init + [s];
      if Overlaps(s, ws, we) then Members(init, ws, we) + [s] else Members(init, ws, we)
  }

  /** The `k`-th window start: the first segment's start advanced by `k` strides. */
  function StartAt(first: real, stride: real, k: nat): real {
    first + k as real * stride
  }

  /** How many more window starts lie before `videoEnd`, as a termination measure. */
  function Remaining(start: real, videoEnd: real, stride: real): nat
    requires stride > 0.0
  {
    if start < videoEnd then ((videoEnd - start) / stride).Floor + 1 else 0
  }

  lemma RemainingDecreases(start: real, videoEnd: real, stride: real)
    requires stride > 0.0 && start < videoEnd
    ensures Remaining(start + stride, videoEnd, stride) < Remaining(start, videoEnd, stride)
  {
    DivStep(videoEnd - start, stride);
    assert videoEnd - (start + stride) == (videoEnd - start) - stride;
  }

  /** One stride less to go: `(d - c) / c == d / c - 1`. */
  lemma DivStep(d: real, c: real)
    requires c > 0.0
    ensures (d - c) / c == d / c - 1.0
  {
    var a, b := (d - c) / c, d / c - 1.0;
    assert a * c == d - c;
    assert (d / c) * c == d;
    assert b * c == (d / c) * c - c;
    MulCancel(a, b, c);
  }

  lemma MulCancel(a: real, b: real, c: real)
    requires c > 0.0 && a * c == b * c
    ensures a == b
  {
    assert (a - b) * c == 0.0;
  }

  /** The windows whose starts are `start`, `start + stride`, ... below `videoEnd`; empty windows are skipped. */
  function WindowsFrom(segs: seq<Segment>, size: real, stride: real, videoEnd: real, start: real): seq<Window>
    requires stride > 0.0
    decreases Remaining(start, videoEnd, stride)
  {
    if start >= videoEnd then []
    else
      RemainingDecreases(start, videoEnd, stride);
      var m := Members(segs, start, start + size);
      var here := if m == [] then [] else [Window(start, Min(start + size, videoEnd), m)];
      here + WindowsFrom(segs, size, stride, videoEnd, start + stride)
  }

  /** One step of `WindowsFrom`: the window at `start`, if it meets a segment, then the rest. */
  lemma WindowsFromStep(segs: seq<Segment>, size: real, stride: real, videoEnd: real, start: real)
    requires stride > 0.0 && start < videoEnd
    ensures var m := Members(segs, start, start + size);
      WindowsFrom(segs, size, stride, videoEnd, start)
      == (if m == [] then [] else [Window(start, Min(start + size, videoEnd), m)])
         + WindowsFrom(segs, size, stride, videoEnd, start + stride)
  {
  }

  /** What `_create_windows` returns; it only terminates when the stride `size - overlap` is positive. */
  function CreateWindowsSpec(segs: seq<Segment>, size: real, overlap: real): seq<Window>
    requires size > overlap
  {
    if segs == [] then [] else WindowsFrom(segs, size, size - overlap, segs[|segs| - 1].end, segs[0].start)
  }

  /** The inner loop of `_create_windows`: collect the segments that meet `[ws, we)`. */
  method CollectMembers(segs: seq<Segment>, ws: real, we: real) returns (found: seq<Segment>)
    ensures found == Members(segs, ws, we)
  {
    found := [];
    for i := 0 to |segs|
      invariant found == Members(segs[..i], ws, we)
    {
      var s := segs[i];
      assert segs[..i + 1][..i] == segs[..i];
      if (s.start >= ws && s.start < we) || (s.end > ws && s.end <= we) || (s.start <= ws && s.end >= we) {
        found := found + [s];
      }
    }
    assert segs[..|segs|] == segs;
  }

  /**
   * `_create_windows`: advance a window start from the first segment's start
   * by `size - overlap` until it reaches the last segment's end, keeping each
   * window that meets at least one segment.
   */
  method CreateWindows(segments: seq<Segment>, windowSize: real, overlap: real) returns (windows: seq<Window>)
    requires windowSize > overlap
    ensures windows == CreateWindowsSpec(segments, windowSize, overlap)
  {
    windows := [];
    if segments == [] {
      return;
    }
    var currentStart := segments[0].start;
    var videoEnd := segments[|segments| - 1].end;
    var stride := windowSize - overlap;
    while currentStart < videoEnd
      invariant windows + WindowsFrom(segments, windowSize, stride, videoEnd, currentStart)
             == CreateWindowsSpec(segments, windowSize, overlap)
      decreases Remaining(currentStart, videoEnd, stride)
    {
      windows := AddWindow(segments, windowSize, stride, videoEnd, currentStart, windows);
      RemainingDecreases(currentStart, videoEnd, stride);
      currentStart := currentStart + stride;
    }
  }

  /** One pass of the outer loop of `_create_windows`: the window at `currentStart` is kept when it meets a segment. */
  method AddWindow(segments: seq<Segment>, windowSize: real, stride: real, videoEnd: real, currentStart: real,
                   windows0: seq<Window>) returns (windows: seq<Window>)
    requires stride > 0.0 && currentStart < videoEnd
    ensures windows + WindowsFrom(segments, windowSize, stride, videoEnd, currentStart + stride)
         == windows0 + WindowsFrom(segments, windowSize, stride, videoEnd, currentStart)
  {
    var currentEnd := currentStart + windowSize;
    var windowSegments := CollectMembers(segments, currentStart, currentEnd);
    WindowsFromStep(segments, windowSize, stride, videoEnd, currentStart);
    ghost var here := if windowSegments == [] then [] else [Window(currentStart, Min(currentEnd, videoEnd), windowSegments)];
    ghost var rest := WindowsFrom(segments, windowSize, stride, videoEnd, currentStart + stride);
    assert windows0 + (here + rest) == (windows0 + here) + rest;
    windows := windows0;
    if windowSegments != [] {
      windows := windows + [Window(currentStart, Min(currentEnd, videoEnd), windowSegments)];
    }
  }

  /** A window as `_create_windows` builds it from the start `ws`. */
  predicate WellShaped(w: Window, segs: seq<Segment>, size: real, videoEnd: real) {
    && w.start < videoEnd
    && w.end == Min(w.start + size, videoEnd)
    && w.segments == Members(segs, w.start, w.start + size)
    && w.segments != []
  }

  /** Every window starts a whole number of strides after `start`, before `videoEnd`, and is well shaped. */
  lemma {:induction false} WindowsFromShape(segs: seq<Segment>, size: real, stride: real, videoEnd: real, start: real)
    requires stride > 0.0
    ensures forall w | w in WindowsFrom(segs, size, stride, videoEnd, start) ::
      WellShaped(w, segs, size, videoEnd) && start <= w.start && exists k: nat :: w.start == StartAt(start, stride, k)
    decreases Remaining(start, videoEnd, stride)
  {
    if start < videoEnd {
      RemainingDecreases(start, videoEnd, stride);
      WindowsFromShape(segs, size, stride, videoEnd, start + stride);
      var m := Members(segs, start, start + size);
      var here := if m == [] then [] else [Window(start, Min(start + size, videoEnd), m)];
      var rest := WindowsFrom(segs, size, stride, videoEnd, start + stride);
      assert WindowsFrom(segs, size, stride, videoEnd, start) == here + rest;
      forall w | w in here + rest
        ensures WellShaped(w, segs, size, videoEnd) && start <= w.start
        ensures exists k: nat :: w.start == StartAt(start, stride, k)
      {
        if w in here {
          assert w.start == StartAt(start, stride, 0);
        } else {
          var k: nat :| w.start == StartAt(start + stride, stride, k);
          assert w.start == StartAt(start, stride, k + 1);
        }
      }
    }
  }

  /** Window starts strictly increase. */
  predicate StartsIncrease(r: seq<Window>) {
    forall i, j :: 0 <= i < j < |r| ==> r[i].start < r[j].start
  }

  /** The windows from any start have strictly increasing starts. */
  lemma {:induction false} WindowsFromOrdered(segs: seq<Segment>, size: real, stride: real, videoEnd: real, start: real)
    requires stride > 0.0
    ensures StartsIncrease(WindowsFrom(segs, size, stride, videoEnd, start))
    decreases Remaining(start, videoEnd, stride)
  {
    if start < videoEnd {
      RemainingDecreases(start, videoEnd, stride);
      WindowsFromOrdered(segs, size, stride, videoEnd, start + stride);
      var m := Members(segs, start, start + size);
      var here := if m == [] then [] else [Window(start, Min(start + size, videoEnd), m)];
      var rest := WindowsFrom(segs, size, stride, videoEnd, start + stride);
      assert forall w | w in rest :: start + stride <= w.start by {
        WindowsFromShape(segs, size, stride, videoEnd, start + stride);
      }
      var r := here + rest;
      assert WindowsFrom(segs, size, stride, videoEnd, start) == r;
      assert StartsIncrease(rest);
      forall i, j | 0 <= i < j < |r| ensures r[i].start < r[j].start {
        if i < |here| {
          assert r[j] == rest[j - |here|] && r[j] in rest;
        } else {
          assert r[i] == rest[i - |here|] && r[j] == rest[j - |here|];
          assert rest[i - |here|].start < rest[j - |here|].start;
        }
      }
    }
  }

  /** A window is omitted only when no segment meets it: every start below `videoEnd` with members yields its window. */
  lemma {:induction false} WindowsFromComplete(segs: seq<Segment>, size: real, stride: real, videoEnd: real, start: real, k: nat)
    requires stride > 0.0
    requires StartAt(start, stride, k) < videoEnd
    requires Members(segs, StartAt(start, stride, k), StartAt(start, stride, k) + size) != []
    ensures var ws := StartAt(start, stride, k);
      Window(ws, Min(ws + size, videoEnd), Members(segs, ws, ws + size)) in WindowsFrom(segs, size, stride, videoEnd, start)
    decreases k
  {
    assert start <= StartAt(start, stride, k);
    var m := Members(segs, start, start + size);
    var here := if m == [] then [] else [Window(start, Min(start + size, videoEnd), m)];
    var rest := WindowsFrom(segs, size, stride, videoEnd, start + stride);
    assert WindowsFrom(segs, size, stride, videoEnd, start) == here + rest;
    if k > 0 {
      assert StartAt(start, stride, k) == StartAt(start + stride, stride, k - 1);
      WindowsFromComplete(segs, size, stride, videoEnd, start + stride, k - 1);
    }
  }

  /** `w` starts a whole number of strides after `first`. */
  ghost predicate OnGrid(w: Window, first: real, stride: real) {
    exists k: nat :: w.start == StartAt(first, stride, k)
  }

  /**
   * The windows of `_create_windows`: starts are the first segment's start
   * plus whole strides, strictly increasing and below the last segment's end;
   * each ends at `min(start + size, video_end)` and holds exactly the
   * segments that meet it, of which there is at least one.
   */
  lemma CreateWindowsShape(segs: seq<Segment>, size: real, overlap: real)
    requires size > overlap && segs != []
    ensures StartsIncrease(CreateWindowsSpec(segs, size, overlap))
    ensures forall w | w in CreateWindowsSpec(segs, size, overlap) ::
      && WellShaped(w, segs, size, segs[|segs| - 1].end)
      && segs[0].start <= w.start
      && OnGrid(w, segs[0].start, size - overlap)
  {
    var first, videoEnd, stride := segs[0].start, segs[|segs| - 1].end, size - overlap;
    assert CreateWindowsSpec(segs, size, overlap) == WindowsFrom(segs, size, stride, videoEnd, first);
    WindowsFromShape(segs, size, stride, videoEnd, first);
    WindowsFromOrdered(segs, size, stride, videoEnd, first);
  }

  /** No window is skipped that meets a segment: the `k`-th start below the video's end yields its window. */
  lemma CreateWindowsComplete(segs: seq<Segment>, size: real, overlap: real, k: nat)
    requires size > overlap && segs != []
    requires StartAt(segs[0].start, size - overlap, k) < segs[|segs| - 1].end
    requires Members(segs, StartAt(segs[0].start, size - overlap, k), StartAt(segs[0].start, size - overlap, k) + size) != []
    ensures var ws := StartAt(segs[0].start, size - overlap, k);
      Window(ws, Min(ws + size, segs[|segs| - 1].end), Members(segs, ws, ws + size)) in CreateWindowsSpec(segs, size, overlap)
  {
    WindowsFromComplete(segs, size, size - overlap, segs[|segs| - 1].end, segs[0].start, k);
  }

  // ---------------------------------------------------------------------------
  // One window's chapter
  // ---------------------------------------------------------------------------

  /** The fields `json.loads` may find in the model's reply; `None` is a missing key. */
  datatype Reply = Reply(
    startTime: Option<real>,
    endTime: Option<real>,
    title: Option<string>,
    description: Option<string>,
    keyConcepts: Option<seq<string>>)

  /** `json.loads`: `None` stands for a `JSONDecodeError`. */
  type Decoder = string -> Option<Reply>

  /** What one call to the model does: it answers with a text, or raises with a message. */
  datatype Outcome = Responded(text: string) | Raised(message: string)

  datatype Chapter = Chapter(
    start: real,
    end: real,
    title: string,
    description: string,
    keyConcepts: seq<string>,
    transcriptText: string)

  function SegmentTexts(segs: seq<Segment>): (r: seq<string>)
    ensures |r| == |segs| && forall i :: 0 <= i < |segs| ==> r[i] == segs[i].text
  {
    seq(|segs|, i requires 0 <= i < |segs| => segs[i].text)
  }

  /** The window's segment texts joined with single spaces. */
  function WindowText(w: Window): string {
    Join(" ", SegmentTexts(w.segments))
  }

  /** Python's `s[a:-3]` for `a <= len(s)`. */
  function SliceDropLast3(s: string, a: nat): (r: string)
    requires a <= |s|
    ensures |r| <= |s| - a
  {
    if a + 3 <= |s| then s[a..|s| - 3] else []
  }

  /** The reply text with a surrounding Markdown code fence removed: 7 and 3 characters for "```json", 3 and 3 for "```". */
  function StripFence(text: string): (r: string)
    ensures |r| <= |text|
    ensures !StartsWith(text, "```") ==> r == text
  {
    if StartsWith(text, "```json") then SliceDropLast3(text, 7)
    else if StartsWith(text, "```") then SliceDropLast3(text, 3)
    else text
  }

  /** A fenced JSON reply loses exactly its fence. */
  lemma FenceRoundTrip(body: string)
    ensures StripFence("```json" + body + "```") == body
    ensures !StartsWith(body, "json") ==> StripFence("```" + body + "```") == body
  {
    var s := "```json" + body + "```";
    assert s[..3] == "```" && s[..7] == "```json";
    assert s[7..|s| - 3] == body;
    var t := "```" + body + "```";
    assert t[..3] == "```";
    assert t[3..|t| - 3] == body;
    if !StartsWith(body, "json") && |t| >= 7 {
      if |body| >= 4 {
        assert t[..7][3..] == body[..4];
      } else {
        var p := 3 + |body|;
        assert t[..7][p] == '`';
      }
    }
  }

  /** `t` if it lies in `[lo, hi]`, else `fallback`. */
  function WithinOr(t: real, lo: real, hi: real, fallback: real): (r: real)
    ensures lo <= t <= hi ==> r == t
    ensures lo <= fallback <= hi ==> lo <= r <= hi
  {
    if t < lo || t > hi then fallback else t
  }

  /** The chapter built from a decoded reply: its times are replaced by the window's bounds when outside them. */
  function ChapterFrom(w: Window, reply: Reply): Chapter {
    Chapter(
      WithinOr(reply.startTime.GetOr(w.start), w.start, w.end, w.start),
      WithinOr(reply.endTime.GetOr(w.end), w.start, w.end, w.end),
      reply.title.GetOr("Untitled Chapter"),
      reply.description.GetOr(""),
      reply.keyConcepts.GetOr([]),
      WindowText(w))
  }

  ghost predicate IsInfix(part: string, whole: string) {
    exists i :: OccursAt(whole, part, i)
  }

  /** The fallback title: the first 80 characters, stripped, and "..." when the text is longer; otherwise the text. */
  function FallbackTitle(text: string): (r: string)
    ensures |text| <= 80 ==> r == text
    ensures |text| > 80 ==> 3 <= |r| <= 83 && r[|r| - 3..] == "..." && IsInfix(r[..|r| - 3], text[..80])
    ensures |text| > 80 ==> r[..|r| - 3] == Strip(text[..80])
  {
    if |text| > 80 then
      var head := Strip(text[..80]);
      assert (head + "...")[..|head|] == head;
      head + "..."
    else text
  }

  /** The chapter built from the raw transcript when the model's quota is exhausted. */
  function FallbackChapter(w: Window): (c: Chapter)
    ensures c.start == w.start && c.end == w.end
    ensures |c.description| <= 1000 && |c.description| <= |WindowText(w)|
    ensures c.description == WindowText(w)[..|c.description|]
    ensures |WindowText(w)| >= 1000 ==> |c.description| == 1000
    ensures |WindowText(w)| < 1000 ==> c.description == WindowText(w)
    ensures c.title == FallbackTitle(WindowText(w)) && c.keyConcepts == []
  {
    var text := WindowText(w);
    Chapter(w.start, w.end, FallbackTitle(text), Take(text, 1000), [], text)
  }

  /** The error text the service treats as an exhausted quota. */
  predicate IsQuotaError(message: string) {
    Contains(message, "429") || Contains(message, "Quota exceeded")
  }

  /**
   * The chapter one attempt yields: a decoded reply gives a chapter, an
   * undecodable one gives none, a quota error gives the fallback chapter and
   * any other error gives none.
   */
  function ChapterFor(w: Window, outcome: Outcome, decode: Decoder): Option<Chapter> {
    match outcome
    case Responded(text) =>
      (match decode(StripFence(Strip(text)))
       case None => None
       case Some(reply) => Some(ChapterFrom(w, reply)))
    case Raised(message) =>
      if IsQuotaError(message) then Some(FallbackChapter(w)) else None
  }

  /** A chapter of a well-formed window lies inside it, and carries the window's text. */
  lemma ChapterWithin(w: Window, outcome: Outcome, decode: Decoder)
    requires w.start <= w.end
    ensures var c := ChapterFor(w, outcome, decode);
      c.Some? ==>
        && w.start <= c.value.start <= w.end
        && w.start <= c.value.end <= w.end
        && c.value.transcriptText == WindowText(w)
  {
  }

  /**
   * The retry loop for one window: `respond(j)` is what attempt `j` does.
   * Every path through the loop body ends in `break` (written here as
   * setting `done`), so exactly one attempt is made and only its outcome
   * matters; the retry counter is never advanced.
   */
  method AttemptWindow(w: Window, respond: nat -> Outcome, decode: Decoder) returns (chapter: Option<Chapter>, attempts: nat)
    ensures attempts == 1
    ensures chapter == ChapterFor(w, respond(0), decode)
  {
    var maxRetries := 3;
    var retryCount := 0;
    var done := false;
    chapter, attempts := None, 0;
    while retryCount < maxRetries && !done
      invariant retryCount == 0
      invariant attempts == if done then 1 else 0
      invariant done ==> chapter == ChapterFor(w, respond(0), decode)
      decreases if done then 0 else 1
    {
      attempts := attempts + 1;
      chapter := ChapterFor(w, respond(retryCount), decode);
      done := true;
    }
  }

  /** `_refine_chapters`: returns its argument. */
  function RefineChapters(chapters: seq<Chapter>): seq<Chapter> {
    chapters
  }

  /** The chapters of the first `n` windows, `attempt(w, i)` being what window `w` at position `i` yields. */
  function Gather(ws: seq<Window>, attempt: (Window, nat) -> Option<Chapter>, n: nat): (r: seq<Chapter>)
    requires n <= |ws|
    ensures |r| <= n
  {
    if n == 0 then []
    else
      var c := attempt(ws[n - 1], n - 1);
      Gather(ws, attempt, n - 1) + (if c.Some? then [c.value] else [])
  }

  /** The chapters of the first `n` windows, `respond(i, j)` being attempt `j` at window `i`. */
  function ChaptersUpTo(ws: seq<Window>, respond: (nat, nat) -> Outcome, decode: Decoder, n: nat): (r: seq<Chapter>)
    requires n <= |ws|
    ensures |r| <= n
  {
    Gather(ws, (w: Window, i: nat) => ChapterFor(w, respond(i, 0), decode), n)
  }

  /** The chapter lies inside window `w` and carries its transcript text. */
  predicate Inside(c: Chapter, w: Window) {
    w.start <= c.start <= w.end && w.start <= c.end <= w.end && c.transcriptText == WindowText(w)
  }

  /** When each window's chapter lies inside it, so does every gathered chapter inside one of the windows. */
  lemma {:induction false} GatherWithin(ws: seq<Window>, attempt: (Window, nat) -> Option<Chapter>, n: nat)
    requires n <= |ws|
    requires forall i :: 0 <= i < n && attempt(ws[i], i).Some? ==> Inside(attempt(ws[i], i).value, ws[i])
    ensures forall c | c in Gather(ws, attempt, n) :: exists i :: 0 <= i < n && Inside(c, ws[i])
  {
    if n > 0 {
      GatherWithin(ws, attempt, n - 1);
    }
  }

  /** Every chapter produced from the first `n` windows lies inside one of them. */
  lemma ChaptersUpToWithin(ws: seq<Window>, respond: (nat, nat) -> Outcome, decode: Decoder, n: nat)
    requires n <= |ws|
    requires forall w | w in ws :: w.start <= w.end
    ensures forall c | c in ChaptersUpTo(ws, respond, decode, n) :: exists i :: 0 <= i < n && Inside(c, ws[i])
  {
    var attempt := (w: Window, i: nat) => ChapterFor(w, respond(i, 0), decode);
    forall i | 0 <= i < n && attempt(ws[i], i).Some?
      ensures Inside(attempt(ws[i], i).value, ws[i])
    {
      assert ws[i] in ws;
      ChapterWithin(ws[i], respond(i, 0), decode);
    }
    GatherWithin(ws, attempt, n);
  }

  /**
   * `generate_chapters` without its printing and pauses: five-minute windows
   * overlapping by one minute, one attempt per window, and the chapters
   * passed through `_refine_chapters`. `attempts[i]` counts the calls made
   * for window `i`.
   */
  method GenerateChapters(segments: seq<Segment>, respond: (nat, nat) -> Outcome, decode: Decoder)
    returns (chapters: seq<Chapter>, attempts: seq<nat>)
    ensures var ws := CreateWindowsSpec(segments, WindowSizeSeconds, OverlapSeconds);
      && chapters == RefineChapters(ChaptersUpTo(ws, respond, decode, |ws|))
      && |attempts| == |ws| && forall i :: 0 <= i < |attempts| ==> attempts[i] == 1
  {
    var windows := CreateWindows(segments, WindowSizeSeconds, OverlapSeconds);
    var found;
    found, attempts := ChaptersOf(windows, respond, decode);
    chapters := RefineChapters(found);
  }

  /** The loop of `generate_chapters` over the windows: one attempt each, keeping the chapters obtained. */
  method ChaptersOf(windows: seq<Window>, respond: (nat, nat) -> Outcome, decode: Decoder)
    returns (found: seq<Chapter>, attempts: seq<nat>)
    ensures found == ChaptersUpTo(windows, respond, decode, |windows|)
    ensures |attempts| == |windows| && forall i :: 0 <= i < |attempts| ==> attempts[i] == 1
  {
    found, attempts := [], [];
    for i := 0 to |windows|
      invariant found == ChaptersUpTo(windows, respond, decode, i)
      invariant |attempts| == i && forall k :: 0 <= k < i ==> attempts[k] == 1
    {
      var attempt := (j: nat) => respond(i, j);
      var chapter, tries := AttemptWindow(windows[i], attempt, decode);
      assert attempt(0) == respond(i, 0);
      assert chapter == ChapterFor(windows[i], respond(i, 0), decode);
      assert ChaptersUpTo(windows, respond, decode, i + 1)
          == ChaptersUpTo(windows, respond, decode, i) + (if chapter.Some? then [chapter.value] else []);
      if chapter.Some? {
        found := found + [chapter.value];
      }
      attempts := attempts + [tries];
    }
  }

  /** Every generated chapter lies inside one window and carries that window's transcript text. */
  lemma GeneratedChaptersWithin(segments: seq<Segment>, respond: (nat, nat) -> Outcome, decode: Decoder)
    ensures var ws := CreateWindowsSpec(segments, WindowSizeSeconds, OverlapSeconds);
      forall c | c in RefineChapters(ChaptersUpTo(ws, respond, decode, |ws|)) :: exists w | w in ws :: Inside(c, w)
  {
    var ws := CreateWindowsSpec(segments, WindowSizeSeconds, OverlapSeconds);
    if segments != [] {
      WindowsFromShape(segments, WindowSizeSeconds, WindowSizeSeconds - OverlapSeconds, segments[|segments| - 1].end, segments[0].start);
    }
    assert forall w | w in ws :: w.start <= w.end;
    ChaptersUpToWithin(ws, respond, decode, |ws|);
    forall c | c in ChaptersUpTo(ws, respond, decode, |ws|)
      ensures exists w | w in ws :: Inside(c, w)
    {
      var i :| 0 <= i < |ws| && Inside(c, ws[i]);
      assert ws[i] in ws;
    }
  }
}
