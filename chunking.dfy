/**
 * Transcript chunking (backend/embedding_service.py): each transcript
 * segment becomes one or more overlapping text chunks with interpolated
 * times, ready for embedding. A segment of at most `ChunkSize` characters
 * is kept whole; a longer one is cut into runs of words that are flushed as
 * soon as their length, counted as the sum of (word length + 1), reaches
 * `ChunkSize`, each next chunk starting with the last words of the one
 * before.
 */
module Chunking {
  import opened Wrappers
  import opened Text
  import YouTubeScraper

  /** backend/config.py: the chunk length in characters and the overlap in characters. */
  const ChunkSize: nat := 500
  const ChunkOverlap: nat := 100

  /** The number of words carried from one chunk into the next: `int(CHUNK_OVERLAP / 10)`. */
  const OverlapWords: nat := ChunkOverlap / 10

  /** The video keys a segment may carry; `None` for a missing key (`segment.get`). */
  datatype Origin = Origin(videoId: Option<string>, title: Option<string>, url: Option<string>)

  /** A transcript segment with the video keys `create_chunks` copies into its chunks. */
  datatype Passage = Passage(text: string, start: real, end: real, origin: Origin)

  /** One chunk handed to the embedding model and the vector store. */
  datatype Chunk = Chunk(text: string, start: real, end: real, origin: Origin)

  // ---------------------------------------------------------------------------
  // Grouping the words of a long segment
  // ---------------------------------------------------------------------------

  /** `sum(len(w) + 1 for w in ws)`: the length the loop charges for a list of words. */
  function Cost(ws: seq<string>): (n: nat)
    ensures n >= |ws|
  {
    if ws == [] then 0 else Cost(ws[..|ws| - 1]) + |ws[|ws| - 1]| + 1
  }

  /** The cost of the words `lo..hi` (exclusive), counted along the indices. */
  function RunCost(words: seq<string>, lo: nat, hi: nat): nat
    requires lo <= hi <= |words|
    decreases hi
  {
    if hi == lo then 0 else RunCost(words, lo, hi - 1) + |words[hi - 1]| + 1
  }

  /** The words kept after a flush: `ws[-OverlapWords:]`, or none when the overlap is zero. */
  function Carry(ws: seq<string>): seq<string> {
    if OverlapWords > 0 then (if |ws| >= OverlapWords then ws[|ws| - OverlapWords..] else ws) else []
  }

  /** Where the carried words begin when the words `lo..hi` (exclusive) are flushed. */
  function CarryFrom(lo: int, hi: int): int {
    if OverlapWords == 0 then hi else if hi - lo >= OverlapWords then hi - OverlapWords else lo
  }

  /** The words a flush carries over are the last words of the run it flushed. */
  lemma CarrySlice(words: seq<string>, lo: nat, hi: nat)
    requires lo <= hi <= |words|
    ensures lo <= CarryFrom(lo, hi) <= hi
    ensures Carry(words[lo..hi]) == words[CarryFrom(lo, hi)..hi]
  {
    if OverlapWords > 0 && hi - lo >= OverlapWords {
      assert words[lo..hi][hi - lo - OverlapWords..] == words[hi - OverlapWords..hi];
    }
  }

  /**
   * A flushed chunk as a run of the segment's words: it holds the words
   * `lo` to `last`, both included, and word `last` is the one whose
   * addition flushed it.
   */
  datatype Span = Span(lo: nat, last: nat)

  /**
   * The loop state after some words: the chunks flushed so far, where
   * `current_chunk` begins (it runs up to the last word read) and
   * `current_length`.
   */
  datatype Grouping = Grouping(flushed: seq<Span>, lo: nat, length: int)

  /** One iteration of the word loop, for word `i`. */
  function Step(words: seq<string>, g: Grouping, i: nat): (r: Grouping)
    requires g.lo <= i < |words|
    ensures r.lo <= i + 1
  {
    var len := g.length + |words[i]| + 1;
    if len >= ChunkSize then
      var lo := CarryFrom(g.lo, i + 1);
      Grouping(g.flushed + [Span(g.lo, i)], lo, RunCost(words, lo, i + 1))
    else Grouping(g.flushed, g.lo, len)
  }

  /** The loop state after the first `k` words. */
  function Group(words: seq<string>, k: nat): (g: Grouping)
    requires k <= |words|
    ensures g.lo <= k
  {
    if k == 0 then Grouping([], 0, 0) else Step(words, Group(words, k - 1), k - 1)
  }

  /** The index of the word that closed the chunk before chunk `j`, or -1 for the first chunk. */
  function Boundary(fs: seq<Span>, j: nat): int
    requires j <= |fs|
  {
    if j == 0 then -1 else fs[j - 1].last
  }

  /** Where chunk `j` begins: at the first word, or at the words carried from the chunk before. */
  function StartLo(fs: seq<Span>, j: nat): int
    requires j <= |fs|
  {
    if j == 0 then 0 else CarryFrom(fs[j - 1].lo, fs[j - 1].last + 1)
  }

  /**
   * Where a flushed chunk `f` after boundary `b` lies, when it should begin
   * at `lo`: it begins there, at or before the word after the boundary, so
   * it holds the carried words and then the words after the boundary up to
   * the one that closed it.
   */
  predicate FlushBounds(words: seq<string>, b: int, lo: int, f: Span) {
    -1 <= b < f.last < |words| && f.lo == lo && f.lo <= b + 1
  }

  /**
   * How full a flushed chunk `f` after boundary `b` is: it reached
   * `ChunkSize`, and did so only with its last word unless that word is its
   * only new one.
   */
  predicate FlushFull(words: seq<string>, b: int, f: Span) {
    f.lo <= f.last < |words| &&
    RunCost(words, f.lo, f.last + 1) >= ChunkSize &&
    (f.last == b + 1 || RunCost(words, f.lo, f.last) < ChunkSize)
  }

  /** Every flushed chunk lies where it should. */
  predicate AllBounded(words: seq<string>, fs: seq<Span>) {
    fs == [] ||
    (AllBounded(words, fs[..|fs| - 1]) && FlushBounds(words, Boundary(fs, |fs| - 1), StartLo(fs, |fs| - 1), fs[|fs| - 1]))
  }

  /** Every flushed chunk is full. */
  predicate AllFull(words: seq<string>, fs: seq<Span>) {
    fs == [] || (AllFull(words, fs[..|fs| - 1]) && FlushFull(words, Boundary(fs, |fs| - 1), fs[|fs| - 1]))
  }

  /** The words that closed the flushed chunks come later and later. */
  predicate Increasing(fs: seq<Span>) {
    forall i, j :: 0 <= i < j < |fs| ==> fs[i].last < fs[j].last
  }

  /**
   * Where the current chunk lies after `k` words: it begins with the words
   * carried from the last flushed chunk and runs to word `k - 1`.
   */
  predicate CurrentBounds(words: seq<string>, k: nat, g: Grouping) {
    var n := |g.flushed|;
    var b := Boundary(g.flushed, n);
    k <= |words| && -1 <= b < k && g.lo == StartLo(g.flushed, n) && g.lo <= b + 1
  }

  /**
   * How full the current chunk is after `k` words: `current_length` is its
   * cost, which is below `ChunkSize` unless no word has been read since the
   * last flush.
   */
  predicate CurrentCost(words: seq<string>, k: nat, g: Grouping) {
    g.lo <= k <= |words| && g.length == RunCost(words, g.lo, k) &&
    (Boundary(g.flushed, |g.flushed|) + 1 == k || g.length < ChunkSize)
  }

  /** Flush `j` of a list of flushes that all lie where they should does too. */
  lemma {:induction false} BoundedAt(words: seq<string>, fs: seq<Span>, j: nat)
    requires AllBounded(words, fs) && j < |fs|
    ensures FlushBounds(words, Boundary(fs, j), StartLo(fs, j), fs[j])
  {
    var init := fs[..|fs| - 1];
    if j < |init| {
      BoundedAt(words, init, j);
      assert init[j] == fs[j];
      assert Boundary(init, j) == Boundary(fs, j) && StartLo(init, j) == StartLo(fs, j);
    }
  }

  /** Flush `j` of a list of full flushes is full. */
  lemma {:induction false} FullAt(words: seq<string>, fs: seq<Span>, j: nat)
    requires AllFull(words, fs) && j < |fs|
    ensures FlushFull(words, Boundary(fs, j), fs[j])
  {
    var init := fs[..|fs| - 1];
    if j < |init| {
      FullAt(words, init, j);
      assert init[j] == fs[j];
      assert Boundary(init, j) == Boundary(fs, j);
    }
  }

  lemma {:induction false} BoundedIncreasing(words: seq<string>, fs: seq<Span>)
    requires AllBounded(words, fs)
    ensures Increasing(fs)
  {
    if fs != [] {
      var n := |fs| - 1;
      var init := fs[..n];
      BoundedIncreasing(words, init);
      forall i, j | 0 <= i < j < |fs|
        ensures fs[i].last < fs[j].last
      {
        assert init[i] == fs[i];
        if j < n {
          assert init[j] == fs[j];
        } else if i < n - 1 {
          assert init[n - 1] == fs[n - 1];
        }
      }
    }
  }

  /** The cost of a run of the words, counted along the indices, is the cost of its words. */
  lemma {:induction false} CostRun(words: seq<string>, lo: nat, hi: nat)
    requires lo <= hi <= |words|
    ensures Cost(words[lo..hi]) == RunCost(words, lo, hi)
  {
    if hi > lo {
      CostRun(words, lo, hi - 1);
      assert words[lo..hi][..hi - 1 - lo] == words[lo..hi - 1];
    }
  }

  /** Reading word `k` extends the run that ends before it. */
  lemma RunSnoc(words: seq<string>, lo: nat, k: nat)
    requires lo <= k < |words|
    ensures words[lo..k] + [words[k]] == words[lo..k + 1]
  {
  }

  /** The boundary and start of the chunk after a newly appended flush `f`. */
  lemma SnocEnds(fs: seq<Span>, f: Span)
    ensures Boundary(fs + [f], |fs| + 1) == f.last
    ensures StartLo(fs + [f], |fs| + 1) == CarryFrom(f.lo, f.last + 1)
    ensures (fs + [f])[..|fs|] == fs
    ensures Boundary(fs + [f], |fs|) == Boundary(fs, |fs|) && StartLo(fs + [f], |fs|) == StartLo(fs, |fs|)
  {
    var fs' := fs + [f];
    assert fs'[|fs|] == f;
    assert fs'[..|fs|] == fs;
    if fs != [] {
      assert fs'[|fs| - 1] == fs[|fs| - 1];
    }
  }

  /** Reading word `k` keeps the current and the flushed chunks where they should lie. */
  lemma StepBounds(words: seq<string>, k: nat)
    requires k < |words|
    requires CurrentBounds(words, k, Group(words, k)) && AllBounded(words, Group(words, k).flushed)
    ensures CurrentBounds(words, k + 1, Group(words, k + 1)) && AllBounded(words, Group(words, k + 1).flushed)
  {
    var g := Group(words, k);
    SnocEnds(g.flushed, Span(g.lo, k));
  }

  /** After every prefix of the words, the current and the flushed chunks lie where they should. */
  lemma {:induction false} GroupBounds(words: seq<string>, k: nat)
    requires k <= |words|
    ensures CurrentBounds(words, k, Group(words, k)) && AllBounded(words, Group(words, k).flushed)
  {
    if k > 0 {
      GroupBounds(words, k - 1);
      StepBounds(words, k - 1);
    }
  }

  /** Reading word `k` keeps the current chunk's length and the flushed chunks full. */
  lemma StepCosts(words: seq<string>, k: nat)
    requires k < |words|
    requires CurrentCost(words, k, Group(words, k)) && AllFull(words, Group(words, k).flushed)
    ensures CurrentCost(words, k + 1, Group(words, k + 1)) && AllFull(words, Group(words, k + 1).flushed)
  {
    var g := Group(words, k);
    if g.length + |words[k]| + 1 >= ChunkSize {
      SnocEnds(g.flushed, Span(g.lo, k));
    }
  }

  /** After every prefix of the words, `current_length` is the current chunk's cost and every flushed chunk is full. */
  lemma {:induction false} GroupCosts(words: seq<string>, k: nat)
    requires k <= |words|
    ensures CurrentCost(words, k, Group(words, k)) && AllFull(words, Group(words, k).flushed)
  {
    if k == 0 {
      assert words[0..0] == [];
    } else {
      GroupCosts(words, k - 1);
      StepCosts(words, k - 1);
    }
  }

  /** Once a word has been read, the current chunk is never empty: a flush always carries some words. */
  lemma CurrentNonEmpty(words: seq<string>, k: nat)
    requires 0 < k <= |words|
    ensures Group(words, k).lo < k
  {
    GroupBounds(words, k);
    var g := Group(words, k);
    var n := |g.flushed|;
    if Boundary(g.flushed, n) + 1 == k {
      BoundedAt(words, g.flushed, n - 1);
    }
  }

  /** A word up to boundary `j` lies among the new words of one of the first `j` flushed chunks. */
  lemma {:induction false} WordPlaced(fs: seq<Span>, j: nat, i: nat)
    requires j <= |fs| && Increasing(fs)
    requires i <= Boundary(fs, j)
    ensures exists m :: 0 <= m < j && Boundary(fs, m) < i <= fs[m].last
  {
    if j >= 2 {
      assert fs[j - 2].last < fs[j - 1].last;
    }
    if i > Boundary(fs, j - 1) {
      assert Boundary(fs, j - 1) < i <= fs[j - 1].last;
    } else {
      WordPlaced(fs, j - 1, i);
    }
  }

  /**
   * Every word of a long segment lands in a chunk: in the run of one
   * flushed chunk, or in the remaining words after the last flush.
   */
  lemma WordsCovered(words: seq<string>, i: nat)
    requires i < |words|
    ensures var g := Group(words, |words|);
      (exists m :: 0 <= m < |g.flushed| && g.flushed[m].lo <= i <= g.flushed[m].last) || g.lo <= i
  {
    var g := Group(words, |words|);
    GroupBounds(words, |words|);
    BoundedIncreasing(words, g.flushed);
    if i <= Boundary(g.flushed, |g.flushed|) {
      WordPlaced(g.flushed, |g.flushed|, i);
      var m :| 0 <= m < |g.flushed| && Boundary(g.flushed, m) < i <= g.flushed[m].last;
      BoundedAt(words, g.flushed, m);
    }
  }

  /** The words of a run of the segment, or none for a run out of range. */
  function SpanWords(words: seq<string>, s: Span): (r: seq<string>)
    ensures s.lo <= s.last < |words| ==> |r| == s.last + 1 - s.lo
  {
    if s.lo <= s.last < |words| then words[s.lo..s.last + 1] else []
  }

  /** A run of the words that ends earlier is a prefix of the run from the same word that ends later. */
  lemma RunPrefix(words: seq<string>, c: nat, m: nat, e: nat)
    requires c <= m <= e <= |words|
    ensures words[c..e][..m - c] == words[c..m]
  {
  }

  /** Flushed chunk `j` of a segment's words is full. */
  lemma FullFlushAt(words: seq<string>, j: nat)
    requires j < |Group(words, |words|).flushed|
    ensures var fs := Group(words, |words|).flushed; FlushFull(words, Boundary(fs, j), fs[j])
  {
    GroupCosts(words, |words|);
    FullAt(words, Group(words, |words|).flushed, j);
  }

  /**
   * Every flushed chunk reached `ChunkSize`, and was flushed by the first
   * word that made it do so: without its last word it was below
   * `ChunkSize`, unless that word was the only one read since the flush
   * before.
   */
  lemma FlushedAtThreshold(words: seq<string>, j: nat)
    requires j < |Group(words, |words|).flushed|
    ensures var fs := Group(words, |words|).flushed;
      var w := SpanWords(words, fs[j]);
      |w| > 0 && Cost(w) >= ChunkSize &&
      (fs[j].last == Boundary(fs, j) + 1 || Cost(w[..|w| - 1]) < ChunkSize)
  {
    var fs := Group(words, |words|).flushed;
    FullFlushAt(words, j);
    var f := fs[j];
    var w := SpanWords(words, f);
    assert w == words[f.lo..f.last + 1];
    RunPrefix(words, f.lo, f.last, f.last + 1);
    assert w[..|w| - 1] == words[f.lo..f.last];
    CostRun(words, f.lo, f.last + 1);
    CostRun(words, f.lo, f.last);
  }

  /** Where consecutive flushed chunks lie: chunk `j + 1` begins at the words chunk `j` carried over. */
  lemma FlushedLink(words: seq<string>, j: nat)
    requires j + 1 < |Group(words, |words|).flushed|
    ensures var fs := Group(words, |words|).flushed;
      fs[j].lo <= fs[j].last < fs[j + 1].last < |words| &&
      fs[j + 1].lo == CarryFrom(fs[j].lo, fs[j].last + 1)
  {
    var fs := Group(words, |words|).flushed;
    GroupBounds(words, |words|);
    BoundedAt(words, fs, j);
    BoundedAt(words, fs, j + 1);
  }

  /** Where the remaining words lie: they begin at the words the last flush carried over. */
  lemma RemainderLink(words: seq<string>)
    requires Group(words, |words|).flushed != []
    ensures var g := Group(words, |words|);
      var f := g.flushed[|g.flushed| - 1];
      f.lo <= f.last < |words| && g.lo == CarryFrom(f.lo, f.last + 1)
  {
    var g := Group(words, |words|);
    GroupBounds(words, |words|);
    BoundedAt(words, g.flushed, |g.flushed| - 1);
  }

  /**
   * The words a flush of run `lo..last` carries over begin every run that
   * starts where the carried words start and ends after `last`.
   */
  lemma RunOverlap(words: seq<string>, lo: nat, last: nat, e: nat)
    requires lo <= last < e <= |words|
    ensures var c := CarryFrom(lo, last + 1);
      var carried := Carry(SpanWords(words, Span(lo, last)));
      lo <= c <= last + 1 && |carried| <= e - c && words[c..e][..|carried|] == carried
  {
    CarrySlice(words, lo, last + 1);
    RunPrefix(words, CarryFrom(lo, last + 1), last + 1, e);
  }

  /**
   * Each flushed chunk after the first begins with the words the flush
   * before it carried over: the last `OverlapWords` words of the chunk
   * before (all of them when it is shorter).
   */
  lemma FlushedOverlap(words: seq<string>, j: nat)
    requires j + 1 < |Group(words, |words|).flushed|
    ensures var fs := Group(words, |words|).flushed;
      var carried := Carry(SpanWords(words, fs[j]));
      var next := SpanWords(words, fs[j + 1]);
      |carried| <= |next| && next[..|carried|] == carried
  {
    var fs := Group(words, |words|).flushed;
    FlushedLink(words, j);
    var f, f' := fs[j], fs[j + 1];
    RunOverlap(words, f.lo, f.last, f'.last + 1);
    assert SpanWords(words, f') == words[f'.lo..f'.last + 1];
  }

  /** The words from `lo`, where the words carried from run `f` begin, up to the end begin with those carried words. */
  lemma RestOverlap(words: seq<string>, f: Span, lo: nat)
    requires f.lo <= f.last < |words| && lo == CarryFrom(f.lo, f.last + 1)
    ensures var carried := Carry(SpanWords(words, f));
      |carried| <= |words| - lo && words[lo..|words|][..|carried|] == carried
  {
    RunOverlap(words, f.lo, f.last, |words|);
  }

  /** The words left after the last flush likewise begin with the words it carried over. */
  lemma RemainderOverlap(words: seq<string>)
    requires Group(words, |words|).flushed != []
    ensures var g := Group(words, |words|);
      var carried := Carry(SpanWords(words, g.flushed[|g.flushed| - 1]));
      var rest := words[g.lo..|words|];
      |carried| <= |rest| && rest[..|carried|] == carried
  {
    var g := Group(words, |words|);
    RemainderLink(words);
    var f := g.flushed[|g.flushed| - 1];
    RestOverlap(words, f, g.lo);
  }

  // ---------------------------------------------------------------------------
  // Times
  // ---------------------------------------------------------------------------

  /** `start + (end - start) * (i + 1) / len(words)`: the estimated end of a chunk closed by word `i`. */
  function EndAt(p: Passage, i: nat, n: nat): real
    requires n > 0
  {
    p.start + (p.end - p.start) * ((i + 1) as real) / (n as real)
  }

  /** Scaling a non-negative length by a fraction `a / b` that grows with `a`. */
  lemma ScaleMono(d: real, a: real, a': real, b: real)
    requires 0.0 <= d && a <= a' && 0.0 < b
    ensures d * a / b <= d * a' / b
  {
    assert d * a <= d * a';
  }

  /** Scaling a non-negative length by a fraction in `(0, 1]` keeps it between zero and itself. */
  lemma ScaleWithin(d: real, a: real, b: real)
    requires 0.0 <= d && 0.0 < a <= b
    ensures 0.0 <= d * a / b <= d
  {
    assert 0.0 <= d * a;
    ScaleMono(d, a, b, b);
    assert d * b / b == d;
  }

  /** The interpolated end of word `i` lies within the segment and grows with `i`. */
  lemma EndAtBounds(p: Passage, i: nat, i': nat, n: nat)
    requires i <= i' < n && p.start <= p.end
    ensures p.start <= EndAt(p, i, n) <= EndAt(p, i', n) <= p.end
  {
    var d := p.end - p.start;
    var a, a', b := (i + 1) as real, (i' + 1) as real, n as real;
    ScaleWithin(d, a, b);
    ScaleWithin(d, a', b);
    ScaleMono(d, a, a', b);
  }

  /** The start of flushed chunk `j`: the segment start, then the end of the chunk before. */
  function StartOf(p: Passage, n: nat, fs: seq<Span>, j: nat): real
    requires j <= |fs| && (j == 0 || n > 0)
  {
    if j == 0 then p.start else EndAt(p, fs[j - 1].last, n)
  }

  /** The chunks flushed by the word loop, in order. */
  function FlushChunks(p: Passage, words: seq<string>, fs: seq<Span>): (r: seq<Chunk>)
    requires |words| > 0 || fs == []
    ensures |r| == |fs|
  {
    if fs == [] then []
    else
      var k := |fs| - 1;
      FlushChunks(p, words, fs[..k])
        + [Chunk(Join(" ", SpanWords(words, fs[k])), StartOf(p, |words|, fs, k), EndAt(p, fs[k].last, |words|), p.origin)]
  }

  /** Flushed chunk `j` joins the words of run `j` and runs from its start to the interpolated end of its last word. */
  lemma {:induction false} FlushChunkAt(p: Passage, words: seq<string>, fs: seq<Span>, j: nat)
    requires |words| > 0 && j < |fs|
    ensures FlushChunks(p, words, fs)[j] ==
      Chunk(Join(" ", SpanWords(words, fs[j])), StartOf(p, |words|, fs, j), EndAt(p, fs[j].last, |words|), p.origin)
  {
    var k := |fs| - 1;
    if j < k {
      var init := fs[..k];
      FlushChunkAt(p, words, init, j);
      assert init[j] == fs[j];
      assert StartOf(p, |words|, init, j) == StartOf(p, |words|, fs, j);
    }
  }

  /** Appending a flush appends its chunk, and the next chunk starts where it ended. */
  lemma FlushChunksSnoc(p: Passage, words: seq<string>, fs: seq<Span>, f: Span)
    requires |words| > 0
    ensures FlushChunks(p, words, fs + [f]) ==
      FlushChunks(p, words, fs) + [Chunk(Join(" ", SpanWords(words, f)), StartOf(p, |words|, fs, |fs|), EndAt(p, f.last, |words|), p.origin)]
    ensures StartOf(p, |words|, fs + [f], |fs| + 1) == EndAt(p, f.last, |words|)
  {
    var fs' := fs + [f];
    assert fs'[..|fs|] == fs;
    assert fs'[|fs|] == f;
    if fs != [] {
      assert fs'[|fs| - 1] == fs[|fs| - 1];
    }
  }

  // ---------------------------------------------------------------------------
  // Chunks
  // ---------------------------------------------------------------------------

  /** The chunks of a segment longer than `ChunkSize`: the flushed ones, then the remaining words. */
  function LongChunks(p: Passage): seq<Chunk> {
    var words := SplitWhitespace(p.text);
    if words == [] then []
    else
      var g := Group(words, |words|);
      FlushChunks(p, words, g.flushed)
        + (if g.lo < |words| then [Chunk(Join(" ", words[g.lo..|words|]), StartOf(p, |words|, g.flushed, |g.flushed|), p.end, p.origin)] else [])
  }

  /** The chunks of one segment. */
  function SegmentChunks(p: Passage): seq<Chunk> {
    if |p.text| <= ChunkSize then [Chunk(p.text, p.start, p.end, p.origin)] else LongChunks(p)
  }

  /** The lists `f` gives for every element, one after another. */
  function FlatMap<T, U>(f: T -> seq<U>, xs: seq<T>): seq<U> {
    if xs == [] then [] else FlatMap(f, xs[..|xs| - 1]) + f(xs[|xs| - 1])
  }

  lemma {:induction false} FlatMapAppend<T, U>(f: T -> seq<U>, a: seq<T>, b: seq<T>)
    ensures FlatMap(f, a + b) == FlatMap(f, a) + FlatMap(f, b)
  {
    if b == [] {
      assert a + b == a;
    } else {
      var b' := b[..|b| - 1];
      FlatMapAppend(f, a, b');
      assert (a + b)[..|a + b| - 1] == a + b';
      assert (a + b)[|a + b| - 1] == b[|b| - 1];
    }
  }

  /** `create_chunks`: the chunks of every segment, segment after segment. */
  function ChunksSpec(ps: seq<Passage>): seq<Chunk> {
    FlatMap(SegmentChunks, ps)
  }

  /**
   * The state of the word loop after `i` words: `current_chunk`,
   * `current_length`, the chunks appended so far and `chunk_start`, as the
   * loop over the words computes them.
   */
  predicate Looped(p: Passage, words: seq<string>, i: nat, cur: seq<string>, len: int, chunks: seq<Chunk>, start: real) {
    i <= |words| &&
    var g := Group(words, i);
    cur == words[g.lo..i] && len == g.length && chunks == FlushChunks(p, words, g.flushed) &&
    start == (if |words| > 0 then StartOf(p, |words|, g.flushed, |g.flushed|) else p.start)
  }

  /** Before the first word nothing is flushed and the chunk starts at the segment start. */
  lemma LoopStarts(p: Passage, words: seq<string>)
    ensures Looped(p, words, 0, [], 0, [], p.start)
  {
    assert words[0..0] == [];
  }

  /** The chunks of one more segment follow the chunks of the segments before it. */
  lemma ChunksSpecSnoc(ps: seq<Passage>, s: nat)
    requires s < |ps|
    ensures ChunksSpec(ps[..s + 1]) == ChunksSpec(ps[..s]) + SegmentChunks(ps[s])
  {
    assert ps[..s + 1][..s] == ps[..s];
  }

  /** A word that reaches `ChunkSize` flushes the current chunk with it and keeps the carried words. */
  lemma WordFlushes(p: Passage, words: seq<string>, i: nat, cur: seq<string>, len: int, chunks: seq<Chunk>, start: real)
    requires i < |words| && Looped(p, words, i, cur, len, chunks, start)
    requires len + |words[i]| + 1 >= ChunkSize
    ensures var cur', end := cur + [words[i]], EndAt(p, i, |words|);
      Looped(p, words, i + 1, Carry(cur'), Cost(Carry(cur')), chunks + [Chunk(Join(" ", cur'), start, end, p.origin)], end)
  {
    var g := Group(words, i);
    var f := Span(g.lo, i);
    RunSnoc(words, g.lo, i);
    CarrySlice(words, g.lo, i + 1);
    CostRun(words, CarryFrom(g.lo, i + 1), i + 1);
    assert Group(words, i + 1).flushed == g.flushed + [f];
    assert SpanWords(words, f) == words[g.lo..i + 1];
    FlushChunksSnoc(p, words, g.flushed, f);
  }

  /** A word below `ChunkSize` only extends the current chunk. */
  lemma WordKept(p: Passage, words: seq<string>, i: nat, cur: seq<string>, len: int, chunks: seq<Chunk>, start: real)
    requires i < |words| && Looped(p, words, i, cur, len, chunks, start)
    requires len + |words[i]| + 1 < ChunkSize
    ensures Looped(p, words, i + 1, cur + [words[i]], len + |words[i]| + 1, chunks, start)
  {
    RunSnoc(words, Group(words, i).lo, i);
  }

  /** After the last word, the remaining words, if any, make the last chunk. */
  lemma LoopEnds(p: Passage, words: seq<string>, cur: seq<string>, len: int, chunks: seq<Chunk>, start: real)
    requires words == SplitWhitespace(p.text)
    requires Looped(p, words, |words|, cur, len, chunks, start)
    ensures chunks + (if cur != [] then [Chunk(Join(" ", cur), start, p.end, p.origin)] else []) == LongChunks(p)
  {
  }

  /** The word loop of `create_chunks` for one segment longer than `ChunkSize`. */
  method ChunkLongSegment(segment: Passage) returns (chunks: seq<Chunk>)
    ensures chunks == LongChunks(segment)
  {
    var start, end := segment.start, segment.end;
    var words := SplitWhitespace(segment.text);
    chunks := [];
    var currentChunk: seq<string> := [];
    var currentLength := 0;
    var chunkStart := start;
    LoopStarts(segment, words);
    for i := 0 to |words|
      invariant Looped(segment, words, i, currentChunk, currentLength, chunks, chunkStart)
    {
      var word := words[i];
      ghost var cur0, len0 := currentChunk, currentLength;
      currentChunk := currentChunk + [word];
      currentLength := currentLength + |word| + 1;
      if currentLength >= ChunkSize {
        WordFlushes(segment, words, i, cur0, len0, chunks, chunkStart);
        var chunkText := Join(" ", currentChunk);
        var chunkEnd := EndAt(segment, i, |words|);
        chunks := chunks + [Chunk(chunkText, chunkStart, chunkEnd, segment.origin)];
        currentChunk := Carry(currentChunk);
        currentLength := Cost(currentChunk);
        chunkStart := chunkEnd;
      } else {
        WordKept(segment, words, i, cur0, len0, chunks, chunkStart);
      }
    }
    LoopEnds(segment, words, currentChunk, currentLength, chunks, chunkStart);
    if currentChunk != [] {
      chunks := chunks + [Chunk(Join(" ", currentChunk), chunkStart, end, segment.origin)];
    }
  }

  /** `create_chunks`. */
  method CreateChunks(segments: seq<Passage>) returns (chunks: seq<Chunk>)
    ensures chunks == ChunksSpec(segments)
  {
    chunks := [];
    var s := 0;
    while s < |segments|
      invariant 0 <= s <= |segments|
      invariant chunks == ChunksSpec(segments[..s])
    {
      var segment := segments[s];
      ChunksSpecSnoc(segments, s);
      var text, start, end := segment.text, segment.start, segment.end;
      if |text| <= ChunkSize {
        chunks := chunks + [Chunk(text, start, end, segment.origin)];
      } else {
        var long := ChunkLongSegment(segment);
        chunks := chunks + long;
      }
      s := s + 1;
    }
    assert segments[..|segments|] == segments;
  }

  // ---------------------------------------------------------------------------
  // What the chunks of a segment promise
  // ---------------------------------------------------------------------------

  /**
   * The flushed chunks followed by a last chunk that starts where the
   * flushed ones stop: the first starts at the segment start and each next
   * one starts where the one before ended.
   */
  lemma FlushChunksChained(p: Passage, words: seq<string>, fs: seq<Span>, last: Chunk)
    requires |words| > 0 && last.start == StartOf(p, |words|, fs, |fs|)
    ensures var r := FlushChunks(p, words, fs) + [last];
      r[0].start == p.start && forall j :: 0 <= j < |r| - 1 ==> r[j + 1].start == r[j].end
  {
    var r := FlushChunks(p, words, fs) + [last];
    forall j | 0 <= j < |r| - 1
      ensures r[j + 1].start == r[j].end
    {
      FlushChunkAt(p, words, fs, j);
      if j + 1 < |fs| {
        FlushChunkAt(p, words, fs, j + 1);
      }
    }
    if fs != [] {
      FlushChunkAt(p, words, fs, 0);
    }
  }

  /**
   * A segment with at least one word yields one chunk per flush plus the
   * remaining words; the chunks tile the segment's time span in order: the
   * first starts at the segment start, each next one starts where the one
   * before ended, and the last ends at the segment end.
   */
  lemma LongChunksChained(p: Passage)
    requires SplitWhitespace(p.text) != []
    ensures var words := SplitWhitespace(p.text);
      var r := LongChunks(p);
      |r| == |Group(words, |words|).flushed| + 1 &&
      r[0].start == p.start && r[|r| - 1].end == p.end &&
      forall j :: 0 <= j < |r| - 1 ==> r[j + 1].start == r[j].end
  {
    var words := SplitWhitespace(p.text);
    var n := |words|;
    var g := Group(words, n);
    CurrentNonEmpty(words, n);
    var last := Chunk(Join(" ", words[g.lo..n]), StartOf(p, n, g.flushed, |g.flushed|), p.end, p.origin);
    assert LongChunks(p) == FlushChunks(p, words, g.flushed) + [last];
    FlushChunksChained(p, words, g.flushed, last);
  }

  /** Chunk `j` of a segment with words lies within the segment's time span and does not end before it starts. */
  lemma LongChunkWithin(p: Passage, j: nat)
    requires p.start <= p.end && j < |LongChunks(p)|
    ensures var c := LongChunks(p)[j]; p.start <= c.start <= c.end <= p.end
  {
    var words := SplitWhitespace(p.text);
    var n := |words|;
    var g := Group(words, n);
    var fs := g.flushed;
    GroupBounds(words, n);
    if j < |fs| {
      FlushChunkAt(p, words, fs, j);
      BoundedAt(words, fs, j);
      if j == 0 {
        EndAtBounds(p, fs[j].last, fs[j].last, n);
      } else {
        BoundedAt(words, fs, j - 1);
        EndAtBounds(p, fs[j - 1].last, fs[j].last, n);
      }
    } else if fs != [] {
      BoundedAt(words, fs, |fs| - 1);
      EndAtBounds(p, fs[|fs| - 1].last, fs[|fs| - 1].last, n);
    }
  }

  /** Every chunk of a segment whose end is not before its start lies within the segment's time span. */
  lemma SegmentChunksWithin(p: Passage)
    requires p.start <= p.end
    ensures forall c | c in SegmentChunks(p) :: p.start <= c.start <= c.end <= p.end
  {
    if |p.text| > ChunkSize {
      forall c | c in LongChunks(p)
        ensures p.start <= c.start <= c.end <= p.end
      {
        var j :| 0 <= j < |LongChunks(p)| && LongChunks(p)[j] == c;
        LongChunkWithin(p, j);
      }
    }
  }

  /** The flushed chunks carry the segment's video keys. */
  lemma {:induction false} FlushChunksOrigin(p: Passage, words: seq<string>, fs: seq<Span>)
    requires |words| > 0 || fs == []
    ensures forall c | c in FlushChunks(p, words, fs) :: c.origin == p.origin
  {
    if fs != [] {
      FlushChunksOrigin(p, words, fs[..|fs| - 1]);
    }
  }

  /** Every chunk of a segment carries the segment's video keys. */
  lemma SegmentChunksOrigin(p: Passage)
    ensures forall c | c in SegmentChunks(p) :: c.origin == p.origin
  {
    var words := SplitWhitespace(p.text);
    if words != [] {
      FlushChunksOrigin(p, words, Group(words, |words|).flushed);
    }
  }

  /** Chunking segments one list after another chunks each list on its own and keeps the order. */
  lemma ChunksSpecAppend(a: seq<Passage>, b: seq<Passage>)
    ensures ChunksSpec(a + b) == ChunksSpec(a) + ChunksSpec(b)
  {
    FlatMapAppend(SegmentChunks, a, b);
  }

  /** When every segment carries the same video keys, so does every chunk. */
  lemma {:induction false} ChunksSpecOrigin(ps: seq<Passage>, o: Origin)
    requires forall p | p in ps :: p.origin == o
    ensures forall c | c in ChunksSpec(ps) :: c.origin == o
  {
    if ps != [] {
      var init := ps[..|ps| - 1];
      assert forall p | p in init :: p in ps;
      ChunksSpecOrigin(init, o);
      SegmentChunksOrigin(ps[|ps| - 1]);
    }
  }

  // ---------------------------------------------------------------------------
  // prepare_transcript_for_embedding
  // ---------------------------------------------------------------------------

  /** The video keys `prepare_transcript_for_embedding` attaches to every segment of a video. */
  function VideoOrigin(video: YouTubeScraper.VideoData): Origin {
    Origin(video.videoId, video.title, Some(video.url))
  }

  /** A transcript segment with the video keys attached. */
  function Tag(o: Origin, s: YouTubeScraper.Segment): Passage {
    Passage(s.text, s.start, s.end, o)
  }

  /** The segments of a video's transcript, each with the video keys attached. */
  function Tagged(video: YouTubeScraper.VideoData): (r: seq<Passage>)
    ensures |r| == |video.transcript|
    ensures forall k :: 0 <= k < |r| ==> r[k] == Tag(VideoOrigin(video), video.transcript[k])
  {
    var t := video.transcript;
    seq(|t|, k requires 0 <= k < |t| => Tag(VideoOrigin(video), t[k]))
  }

  /**
   * `prepare_transcript_for_embedding`: attach the video keys to every
   * segment, then chunk; every chunk carries the video's keys.
   */
  method PrepareTranscript(video: YouTubeScraper.VideoData) returns (chunks: seq<Chunk>)
    ensures chunks == ChunksSpec(Tagged(video))
    ensures forall c | c in chunks :: c.origin == VideoOrigin(video)
  {
    var o := Origin(video.videoId, video.title, Some(video.url));
    var segments: seq<Passage> := [];
    for i := 0 to |video.transcript|
      invariant segments == Tagged(video)[..i]
    {
      var segment := video.transcript[i];
      segments := segments + [Passage(segment.text, segment.start, segment.end, o)];
    }
    assert segments == Tagged(video);
    chunks := CreateChunks(segments);
    ChunksSpecOrigin(segments, o);
  }
}
