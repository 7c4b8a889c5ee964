/**
 * Hybrid search (backend/hybrid_search_service.py): keyword hits and vector
 * hits are min-max normalised, fused by a weighted sum under a per-fragment
 * key, boosted by metadata matches with the query, sorted, merged into clips
 * and cut to the requested number.
 */
module HybridSearch {
  import opened Wrappers
  import opened Text
  import opened Sorting
  import opened Records
  import Bm25
  import QueryPreprocessor
  import ClipMerger

  // ----- Weights (`__init__`) -----

  datatype Weights = Weights(bm25: real, semantic: real)

  /** Scale the two weights to sum to 1; fall back to an even split when their sum is not positive. */
  function NormalizeWeights(bm25: real, semantic: real): (w: Weights)
    ensures bm25 + semantic > 0.0 ==> w.bm25 + w.semantic == 1.0 && w.bm25 * semantic == w.semantic * bm25
    ensures bm25 + semantic > 0.0 && bm25 >= 0.0 && semantic >= 0.0 ==> 0.0 <= w.bm25 <= 1.0 && 0.0 <= w.semantic <= 1.0
    ensures bm25 + semantic <= 0.0 ==> w == Weights(0.5, 0.5)
  {
    var total := bm25 + semantic;
    if total > 0.0 then Weights(bm25 / total, semantic / total) else Weights(0.5, 0.5)
  }

  /** Weights the fused scores can be bounded with. */
  predicate Proper(w: Weights) {
    0.0 <= w.bm25 && 0.0 <= w.semantic && w.bm25 + w.semantic == 1.0
  }

  lemma NormalizedWeightsProper(bm25: real, semantic: real)
    requires bm25 >= 0.0 && semantic >= 0.0
    ensures Proper(NormalizeWeights(bm25, semantic))
  {
  }

  // ----- Result keys (`_get_result_key`) -----

  /** Python's `round` to an integer: to the nearest, halves to the even neighbour. */
  function RoundHalfEven(y: real): int {
    var f := y.Floor;
    var frac := y - f as real;
    if frac > 0.5 then f + 1 else if frac < 0.5 then f else if f % 2 == 0 then f else f + 1
  }

  /** `round(x, 2)` */
  function Round2(x: real): real {
    RoundHalfEven(x * 100.0) as real / 100.0
  }

  lemma Round2Close(x: real)
    ensures -0.005 <= Round2(x) - x <= 0.005
  {
    var y := x * 100.0;
    var r := RoundHalfEven(y);
    assert -0.5 <= r as real - y <= 0.5;
    assert Round2(x) - x == (r as real - y) / 100.0;
  }

  datatype ResultKey = ById(id: string) | ByPosition(videoId: string, start: real, end: real)

  /** The chunk id when it is truthy, else the video id with start and end rounded to hundredths. */
  function KeyOf(h: Hit): ResultKey {
    var m := Resolved(h);
    if h.chunkId != [] then ById(h.chunkId) else ByPosition(m.videoId, Round2(m.start), Round2(m.end))
  }

  /**
   * Two hits share a key exactly when they have the same chunk id, or, both
   * without one, the same video and bounds equal to the hundredth; hits
   * sharing a position key start and end within 0.01 s of each other.
   */
  lemma KeyIdentifies(a: Hit, b: Hit)
    ensures a.chunkId != [] && a.chunkId == b.chunkId ==> KeyOf(a) == KeyOf(b)
    ensures KeyOf(a) == KeyOf(b) ==> a.chunkId == b.chunkId
    ensures KeyOf(a) == KeyOf(b) && a.chunkId == [] ==>
      Resolved(a).videoId == Resolved(b).videoId &&
      -0.01 <= Resolved(a).start - Resolved(b).start <= 0.01 &&
      -0.01 <= Resolved(a).end - Resolved(b).end <= 0.01
  {
    Round2Close(Resolved(a).start);
    Round2Close(Resolved(b).start);
    Round2Close(Resolved(a).end);
    Round2Close(Resolved(b).end);
  }

  // ----- Min-max normalisation -----

  function MinScore(hits: seq<Hit>): (m: real)
    requires hits != []
    ensures forall i :: 0 <= i < |hits| ==> m <= hits[i].score
    ensures exists i :: 0 <= i < |hits| && hits[i].score == m
  {
    if |hits| == 1 then hits[0].score
    else var p := MinScore(hits[..|hits| - 1]); var x := hits[|hits| - 1].score; if x < p then x else p
  }

  function MaxScore(hits: seq<Hit>): (m: real)
    requires hits != []
    ensures forall i :: 0 <= i < |hits| ==> hits[i].score <= m
    ensures exists i :: 0 <= i < |hits| && hits[i].score == m
  {
    if |hits| == 1 then hits[0].score
    else var p := MaxScore(hits[..|hits| - 1]); var x := hits[|hits| - 1].score; if x > p then x else p
  }

  /** The minimum and the range of a list of scores; the range is 1 when all scores are equal. */
  datatype Scale = Scale(lo: real, range: real)

  function ScaleOf(hits: seq<Hit>): Scale {
    if hits == [] then Scale(0.0, 1.0)
    else
      var lo := MinScore(hits);
      var hi := MaxScore(hits);
      Scale(lo, if hi > lo then hi - lo else 1.0)
  }

  function Normalize(sc: Scale, x: real): real
    requires sc.range > 0.0
  {
    (x - sc.lo) / sc.range
  }

  /** Every hit's score normalises into [0, 1]. */
  predicate Fits(sc: Scale, hits: seq<Hit>) {
    sc.range > 0.0 && forall i :: 0 <= i < |hits| ==> 0.0 <= Normalize(sc, hits[i].score) <= 1.0
  }

  lemma SelfQuotient(a: real)
    requires a > 0.0
    ensures a / a == 1.0
  {
  }

  lemma QuotientInUnit(a: real, b: real)
    requires 0.0 <= a <= b && b > 0.0
    ensures 0.0 <= a / b <= 1.0
  {
  }

  lemma NormalizeInUnit(sc: Scale, x: real)
    requires sc.range > 0.0 && sc.lo <= x <= sc.lo + sc.range
    ensures 0.0 <= Normalize(sc, x) <= 1.0
  {
    QuotientInUnit(x - sc.lo, sc.range);
  }

  /** Normalised scores lie in [0, 1]. */
  lemma ScaleFits(hits: seq<Hit>)
    ensures Fits(ScaleOf(hits), hits)
  {
    if hits != [] {
      var sc := ScaleOf(hits);
      var lo, hi := MinScore(hits), MaxScore(hits);
      forall i | 0 <= i < |hits| ensures 0.0 <= Normalize(sc, hits[i].score) <= 1.0 {
        NormalizeInUnit(sc, hits[i].score);
      }
    }
  }

  /**
   * The lowest score maps to 0, and the highest to 1 unless all scores are
   * equal, when every score maps to 0.
   */
  lemma ScaleEnds(hits: seq<Hit>)
    requires hits != []
    ensures Normalize(ScaleOf(hits), MinScore(hits)) == 0.0
    ensures MaxScore(hits) > MinScore(hits) ==> Normalize(ScaleOf(hits), MaxScore(hits)) == 1.0
    ensures MaxScore(hits) == MinScore(hits) ==>
      forall i :: 0 <= i < |hits| ==> Normalize(ScaleOf(hits), hits[i].score) == 0.0
  {
    var sc := ScaleOf(hits);
    var lo, hi := MinScore(hits), MaxScore(hits);
    assert sc == Scale(lo, if hi > lo then hi - lo else 1.0);
    ZeroQuotient(sc.range);
    if hi > lo {
      SelfQuotient(hi - lo);
    }
    if hi == lo {
      forall i | 0 <= i < |hits| ensures Normalize(sc, hits[i].score) == 0.0 {
        assert lo <= hits[i].score <= hi;
      }
    }
  }

  lemma ZeroQuotient(a: real)
    requires a > 0.0
    ensures 0.0 / a == 0.0
  {
  }

  // ----- The result map of `_merge_results` -----

  /** A value of the result map: its scores and the metadata read from it. */
  datatype Entry = Entry(chunkId: string, bm25Score: real, semanticScore: real, combined: real, meta: Meta)

  /** An insertion-ordered dictionary: keys in order of first insertion, and the current values. */
  datatype Table = Table(order: seq<ResultKey>, entries: map<ResultKey, Entry>)

  const EmptyTable := Table([], map[])

  predicate WellKept(t: Table) {
    (forall i, j :: 0 <= i < j < |t.order| ==> t.order[i] != t.order[j]) &&
    t.entries.Keys == set k | k in t.order
  }

  /** `d[k] = e`: a new key goes last, an existing key keeps its place. */
  function Put(t: Table, k: ResultKey, e: Entry): Table {
    Table(if k in t.entries then t.order else t.order + [k], t.entries[k := e])
  }

  lemma PutWellKept(t: Table, k: ResultKey, e: Entry)
    requires WellKept(t)
    ensures WellKept(Put(t, k, e))
  {
  }

  /** A keyword hit's entry, replacing any earlier one under its key. */
  function Bm25Entry(h: Hit, norm: real, w: Weights): Entry {
    Entry(h.chunkId, norm, 0.0, norm * w.bm25, Resolved(h))
  }

  /**
   * A vector hit's entry: under an existing key it sets the semantic score,
   * recombines with the keyword score and overlays its metadata; otherwise it
   * is new with a keyword score of 0.
   */
  function SemanticEntry(t: Table, h: Hit, norm: real, w: Weights): Entry {
    var k := KeyOf(h);
    if k in t.entries then
      var e := t.entries[k];
      Entry(e.chunkId, e.bm25Score, norm, e.bm25Score * w.bm25 + norm * w.semantic, Overlay(h, e.meta))
    else
      Entry(h.chunkId, 0.0, norm, norm * w.semantic, Resolved(h))
  }

  function FoldBm25(t: Table, hits: seq<Hit>, sc: Scale, w: Weights): Table
    requires sc.range > 0.0
  {
    if hits == [] then t
    else
      var h := hits[|hits| - 1];
      Put(FoldBm25(t, hits[..|hits| - 1], sc, w), KeyOf(h), Bm25Entry(h, Normalize(sc, h.score), w))
  }

  function FoldSemantic(t: Table, hits: seq<Hit>, sc: Scale, w: Weights): Table
    requires sc.range > 0.0
  {
    if hits == [] then t
    else
      var h := hits[|hits| - 1];
      var p := FoldSemantic(t, hits[..|hits| - 1], sc, w);
      Put(p, KeyOf(h), SemanticEntry(p, h, Normalize(sc, h.score), w))
  }

  /** The keyword-hit loop of `_merge_results`. */
  method AddBm25Hits(t: Table, hits: seq<Hit>, w: Weights) returns (r: Table)
    ensures r == FoldBm25(t, hits, ScaleOf(hits), w)
  {
    var sc := ScaleOf(hits);
    r := t;
    for i := 0 to |hits|
      invariant r == FoldBm25(t, hits[..i], sc, w)
    {
      var h := hits[i];
      assert hits[..i + 1][..i] == hits[..i];
      var normalized := Normalize(sc, h.score);
      r := Put(r, KeyOf(h), Bm25Entry(h, normalized, w));
    }
    assert hits[..|hits|] == hits;
  }

  /** The vector-hit loop of `_merge_results`. */
  method AddSemanticHits(t: Table, hits: seq<Hit>, w: Weights) returns (r: Table)
    ensures r == FoldSemantic(t, hits, ScaleOf(hits), w)
  {
    var sc := ScaleOf(hits);
    r := t;
    for i := 0 to |hits|
      invariant r == FoldSemantic(t, hits[..i], sc, w)
    {
      var h := hits[i];
      assert hits[..i + 1][..i] == hits[..i];
      var normalized := Normalize(sc, h.score);
      r := Put(r, KeyOf(h), SemanticEntry(r, h, normalized, w));
    }
    assert hits[..|hits|] == hits;
  }

  // ----- Metadata boost -----

  /** How many of the query terms occur in `field`. */
  function Matches(terms: set<string>, field: string): (n: nat)
    ensures n <= |terms|
  {
    var m := set t | t in terms && Contains(field, t);
    assert m <= terms;
    SubsetCard(m, terms);
    |m|
  }

  lemma SubsetCard<T>(a: set<T>, b: set<T>)
    requires a <= b
    ensures |a| <= |b|
  {
    assert b == a + (b - a);
  }

  /** The first ten whitespace-separated words of `text`, joined by single spaces. */
  function TextStart(text: string): string {
    Lower(Join(" ", Take(SplitWhitespace(text), 10)))
  }

  /**
   * 1, plus 0.20 per query term in the title, 0.10 per term in the
   * description, 0.08 per term in the start of the text, and up to 0.05 by
   * view count relative to the most viewed result.
   */
  function Boost(terms: set<string>, m: Meta, maxViews: int): real
    requires maxViews >= 1
  {
    var views := if m.viewCount > 0 then 0.05 * ClipMerger.Min(m.viewCount as real / maxViews as real, 1.0) else 0.0;
    1.0 + 0.20 * Matches(terms, Lower(m.title) ) as real
        + 0.10 * Matches(terms, Lower(m.description)) as real
        + 0.08 * Matches(terms, TextStart(Lower(m.text))) as real
        + views
  }

  lemma BoostBounds(terms: set<string>, m: Meta, maxViews: int)
    requires maxViews >= 1
    ensures 1.0 <= Boost(terms, m, maxViews) <= MaxBoost(|terms|)
  {
    var a := Matches(terms, Lower(m.title));
    var b := Matches(terms, Lower(m.description));
    var c := Matches(terms, TextStart(Lower(m.text)));
    assert 0.20 * a as real + 0.10 * b as real + 0.08 * c as real <= 0.38 * |terms| as real;
    if m.viewCount > 0 {
      assert m.viewCount as real / maxViews as real > 0.0;
    }
  }

  /** The largest boost a result can get with `n` query terms. */
  function MaxBoost(n: nat): real { 1.05 + 0.38 * n as real }

  /** The query terms: the distinct word tokens of the lowercased query. */
  function QueryTerms(query: string): set<string> {
    set x | x in Tokenize(Lower(query))
  }

  /** The largest positive view count among the entries, or 1 when none is positive. */
  function MaxViews(entries: map<ResultKey, Entry>, order: seq<ResultKey>): (m: int)
    requires forall k | k in order :: k in entries
    ensures m >= 1
    ensures forall k | k in order :: entries[k].meta.viewCount <= m
  {
    if order == [] then 1
    else
      var p := MaxViews(entries, order[..|order| - 1]);
      var v := entries[order[|order| - 1]].meta.viewCount;
      if v > p then v else p
  }

  /** The result an entry becomes under `boost`: its combined score scaled, `combined_score` renamed to `score`. */
  function Fuse(e: Entry, boost: real): Fused {
    Fused(e.chunkId, e.combined * boost, e.bm25Score, e.semanticScore, e.meta)
  }

  /** The boosted values of the result map, in its order, with `combined_score` renamed to `score`. */
  function Boosted(entries: map<ResultKey, Entry>, order: seq<ResultKey>, terms: set<string>, maxViews: int): (r: seq<Fused>)
    requires forall k | k in order :: k in entries
    requires maxViews >= 1
    ensures |r| == |order|
  {
    if order == [] then []
    else
      var e := entries[order[|order| - 1]];
      Boosted(entries, order[..|order| - 1], terms, maxViews) + [Fuse(e, Boost(terms, e.meta, maxViews))]
  }

  /** The boosting loop of `_merge_results`. */
  method BoostAll(t: Table, terms: set<string>) returns (r: seq<Fused>)
    requires WellKept(t)
    ensures r == Boosted(t.entries, t.order, terms, MaxViews(t.entries, t.order))
  {
    var maxViews := MaxViews(t.entries, t.order);
    r := [];
    for i := 0 to |t.order|
      invariant r == Boosted(t.entries, t.order[..i], terms, maxViews)
    {
      assert t.order[..i + 1][..i] == t.order[..i];
      var e := t.entries[t.order[i]];
      r := r + [Fuse(e, Boost(terms, e.meta, maxViews))];
    }
    assert t.order[..|t.order|] == t.order;
  }

  function FusedScore(f: Fused): real { f.score }

  /** The table after both loops. */
  function MergedTable(bm25Hits: seq<Hit>, semanticHits: seq<Hit>, w: Weights): Table {
    var t := FoldBm25(EmptyTable, bm25Hits, ScaleOf(bm25Hits), w);
    FoldSemantic(t, semanticHits, ScaleOf(semanticHits), w)
  }

  /** What `_merge_results` returns. */
  function MergeResultsSpec(bm25Hits: seq<Hit>, semanticHits: seq<Hit>, query: string, w: Weights): seq<Fused> {
    var t := MergedTable(bm25Hits, semanticHits, w);
    MergedKept(bm25Hits, semanticHits, w);
    SortDesc(Boosted(t.entries, t.order, QueryTerms(query), MaxViews(t.entries, t.order)), FusedScore)
  }

  /** `_merge_results`: fuse, boost, sort by score. */
  method MergeResults(bm25Hits: seq<Hit>, semanticHits: seq<Hit>, query: string, w: Weights) returns (merged: seq<Fused>)
    ensures merged == MergeResultsSpec(bm25Hits, semanticHits, query, w)
    ensures SortedDesc(merged, FusedScore)
  {
    var t := AddBm25Hits(EmptyTable, bm25Hits, w);
    t := AddSemanticHits(t, semanticHits, w);
    MergedKept(bm25Hits, semanticHits, w);
    var boosted := BoostAll(t, QueryTerms(query));
    merged := SortDesc(boosted, FusedScore);
    SortDescFacts(boosted, FusedScore);
  }

  // ----- What `_merge_results` promises -----

  function KeysOf(hits: seq<Hit>): set<ResultKey> {
    set h | h in hits :: KeyOf(h)
  }

  /** An entry whose combined score is the weighted sum of its two normalised scores, each in [0, 1]. */
  predicate Sound(e: Entry, w: Weights) {
    e.combined == w.bm25 * e.bm25Score + w.semantic * e.semanticScore &&
    0.0 <= e.bm25Score <= 1.0 && 0.0 <= e.semanticScore <= 1.0
  }

  predicate AllSound(t: Table, w: Weights) {
    forall k | k in t.entries :: Sound(t.entries[k], w)
  }

  lemma Bm25EntrySound(h: Hit, norm: real, w: Weights)
    requires 0.0 <= norm <= 1.0
    ensures Sound(Bm25Entry(h, norm, w), w)
  {
  }

  lemma SemanticEntrySound(t: Table, h: Hit, norm: real, w: Weights)
    requires 0.0 <= norm <= 1.0 && AllSound(t, w)
    ensures Sound(SemanticEntry(t, h, norm, w), w)
  {
  }

  lemma KeysStep(hits: seq<Hit>)
    requires hits != []
    ensures KeysOf(hits) == KeysOf(hits[..|hits| - 1]) + {KeyOf(hits[|hits| - 1])}
  {
    assert hits == hits[..|hits| - 1] + [hits[|hits| - 1]];
  }

  lemma {:induction false} FoldBm25Facts(t: Table, hits: seq<Hit>, sc: Scale, w: Weights)
    requires WellKept(t) && AllSound(t, w) && Fits(sc, hits)
    ensures WellKept(FoldBm25(t, hits, sc, w))
    ensures AllSound(FoldBm25(t, hits, sc, w), w)
    ensures FoldBm25(t, hits, sc, w).entries.Keys == t.entries.Keys + KeysOf(hits)
  {
    if hits != [] {
      var n := |hits| - 1;
      var h := hits[n];
      assert Fits(sc, hits[..n]);
      FoldBm25Facts(t, hits[..n], sc, w);
      var p := FoldBm25(t, hits[..n], sc, w);
      var norm := Normalize(sc, h.score);
      PutWellKept(p, KeyOf(h), Bm25Entry(h, norm, w));
      Bm25EntrySound(h, norm, w);
      KeysStep(hits);
    }
  }

  lemma {:induction false} FoldSemanticFacts(t: Table, hits: seq<Hit>, sc: Scale, w: Weights)
    requires WellKept(t) && AllSound(t, w) && Fits(sc, hits)
    ensures WellKept(FoldSemantic(t, hits, sc, w))
    ensures AllSound(FoldSemantic(t, hits, sc, w), w)
    ensures FoldSemantic(t, hits, sc, w).entries.Keys == t.entries.Keys + KeysOf(hits)
  {
    if hits != [] {
      var n := |hits| - 1;
      var h := hits[n];
      assert Fits(sc, hits[..n]);
      FoldSemanticFacts(t, hits[..n], sc, w);
      var p := FoldSemantic(t, hits[..n], sc, w);
      var norm := Normalize(sc, h.score);
      PutWellKept(p, KeyOf(h), SemanticEntry(p, h, norm, w));
      SemanticEntrySound(p, h, norm, w);
      KeysStep(hits);
    }
  }

  lemma MergedKept(bm25Hits: seq<Hit>, semanticHits: seq<Hit>, w: Weights)
    ensures var t := MergedTable(bm25Hits, semanticHits, w);
      WellKept(t) && AllSound(t, w) && t.entries.Keys == KeysOf(bm25Hits) + KeysOf(semanticHits)
  {
    ScaleFits(bm25Hits);
    ScaleFits(semanticHits);
    FoldBm25Facts(EmptyTable, bm25Hits, ScaleOf(bm25Hits), w);
    var t := FoldBm25(EmptyTable, bm25Hits, ScaleOf(bm25Hits), w);
    FoldSemanticFacts(t, semanticHits, ScaleOf(semanticHits), w);
  }

  lemma {:induction false} DistinctCard(s: seq<ResultKey>)
    requires forall i, j :: 0 <= i < j < |s| ==> s[i] != s[j]
    ensures |set k | k in s| == |s|
  {
    if s != [] {
      var n := |s| - 1;
      DistinctCard(s[..n]);
      assert (set k | k in s) == (set k | k in s[..n]) + {s[n]};
    }
  }

  /** `_merge_results` returns one result per distinct key among all the hits. */
  lemma MergeResultsCount(bm25Hits: seq<Hit>, semanticHits: seq<Hit>, query: string, w: Weights)
    ensures |MergeResultsSpec(bm25Hits, semanticHits, query, w)| == |KeysOf(bm25Hits) + KeysOf(semanticHits)|
  {
    MergedKept(bm25Hits, semanticHits, w);
    var t := MergedTable(bm25Hits, semanticHits, w);
    DistinctCard(t.order);
    assert (set k | k in t.order) == t.entries.Keys;
  }

  /** Each boosted result of a sound entry scores its weighted sum times its boost. */
  predicate FusedSound(f: Fused, w: Weights, terms: set<string>, maxViews: int)
    requires maxViews >= 1
  {
    ScoredAs(f, w, Boost(terms, f.meta, maxViews)) && 0.0 <= f.bm25Score <= 1.0 && 0.0 <= f.semanticScore <= 1.0
  }

  /** The score is the weighted sum of the two normalised scores times `boost`. */
  predicate ScoredAs(f: Fused, w: Weights, boost: real) {
    f.score == (w.bm25 * f.bm25Score + w.semantic * f.semanticScore) * boost
  }

  /** A sound entry fuses to its weighted sum times the boost, keeping its metadata and scores. */
  lemma FuseSound(e: Entry, w: Weights, boost: real)
    requires Sound(e, w)
    ensures var f := Fuse(e, boost);
      ScoredAs(f, w, boost) && f.meta == e.meta && 0.0 <= f.bm25Score <= 1.0 && 0.0 <= f.semanticScore <= 1.0
  {
    ScaledSum(Fuse(e, boost), w, e.combined, boost);
  }

  lemma ScaledSum(f: Fused, w: Weights, combined: real, boost: real)
    requires combined == w.bm25 * f.bm25Score + w.semantic * f.semanticScore && f.score == combined * boost
    ensures ScoredAs(f, w, boost)
  {
  }

  lemma {:induction false} BoostedSound(entries: map<ResultKey, Entry>, order: seq<ResultKey>, terms: set<string>,
                                        maxViews: int, w: Weights)
    requires forall k | k in order :: k in entries && Sound(entries[k], w)
    requires maxViews >= 1
    ensures forall i :: 0 <= i < |Boosted(entries, order, terms, maxViews)| ==>
                          FusedSound(Boosted(entries, order, terms, maxViews)[i], w, terms, maxViews)
  {
    if order != [] {
      var n := |order| - 1;
      BoostedSound(entries, order[..n], terms, maxViews, w);
      var r := Boosted(entries, order, terms, maxViews);
      assert r[..n] == Boosted(entries, order[..n], terms, maxViews);
      var e := entries[order[n]];
      FuseSound(e, w, Boost(terms, e.meta, maxViews));
    }
  }

  /**
   * Every fused result scores (bm25 weight * its normalised keyword score +
   * semantic weight * its normalised vector score) times its metadata boost,
   * with both normalised scores in [0, 1].
   */
  lemma MergeResultsScores(bm25Hits: seq<Hit>, semanticHits: seq<Hit>, query: string, w: Weights)
    ensures var t := MergedTable(bm25Hits, semanticHits, w);
      WellKept(t) &&
      forall f | f in MergeResultsSpec(bm25Hits, semanticHits, query, w) ::
        FusedSound(f, w, QueryTerms(query), MaxViews(t.entries, t.order))
  {
    MergedKept(bm25Hits, semanticHits, w);
    var t := MergedTable(bm25Hits, semanticHits, w);
    var terms := QueryTerms(query);
    var mv := MaxViews(t.entries, t.order);
    BoostedSound(t.entries, t.order, terms, mv, w);
    var b := Boosted(t.entries, t.order, terms, mv);
    SortedSound(b, w, terms, mv);
  }

  /** Sorting keeps every result sound. */
  lemma SortedSound(b: seq<Fused>, w: Weights, terms: set<string>, mv: int)
    requires mv >= 1
    requires forall i :: 0 <= i < |b| ==> FusedSound(b[i], w, terms, mv)
    ensures forall f | f in SortDesc(b, FusedScore) :: FusedSound(f, w, terms, mv)
  {
    var sound := (f: Fused) => FusedSound(f, w, terms, mv);
    SortDescKeeps(b, FusedScore, sound);
  }

  /** With proper weights every fused score lies in [0, MaxBoost(number of query terms)]. */
  lemma MergeResultsBounded(bm25Hits: seq<Hit>, semanticHits: seq<Hit>, query: string, w: Weights)
    requires Proper(w)
    ensures ClipMerger.FragmentsWithin(MergeResultsSpec(bm25Hits, semanticHits, query, w), 0.0, MaxBoost(|QueryTerms(query)|))
  {
    MergeResultsScores(bm25Hits, semanticHits, query, w);
    var t := MergedTable(bm25Hits, semanticHits, w);
    var terms := QueryTerms(query);
    var mv := MaxViews(t.entries, t.order);
    var r := MergeResultsSpec(bm25Hits, semanticHits, query, w);
    forall i | 0 <= i < |r| ensures 0.0 <= r[i].score <= MaxBoost(|terms|) {
      assert r[i] in r;
      FusedBounded(r[i], w, terms, mv);
    }
  }

  lemma ProductBounds(c: real, b: real, m: real)
    requires 0.0 <= c <= 1.0 && 1.0 <= b <= m
    ensures 0.0 <= c * b <= m
  {
    assert c * b <= 1.0 * b;
  }

  lemma ScaledUnit(x: real, a: real) returns (p: real)
    requires 0.0 <= x <= 1.0 && 0.0 <= a
    ensures p == a * x && 0.0 <= p <= a
  {
    p := a * x;
    assert a * x <= a * 1.0;
  }

  lemma WeightedBounded(f: Fused, w: Weights, boost: real, m: real)
    requires Proper(w) && 0.0 <= f.bm25Score <= 1.0 && 0.0 <= f.semanticScore <= 1.0 && 1.0 <= boost <= m
    requires ScoredAs(f, w, boost)
    ensures 0.0 <= f.score <= m
  {
    var x := ScaledUnit(f.bm25Score, w.bm25);
    var y := ScaledUnit(f.semanticScore, w.semantic);
    assert 0.0 <= x + y <= 1.0;
    ProductBounds(x + y, boost, m);
  }

  lemma FusedBounded(f: Fused, w: Weights, terms: set<string>, maxViews: int)
    requires Proper(w) && maxViews >= 1 && FusedSound(f, w, terms, maxViews)
    ensures 0.0 <= f.score <= MaxBoost(|terms|)
  {
    BoostBounds(terms, f.meta, maxViews);
    WeightedBounded(f, w, Boost(terms, f.meta, maxViews), MaxBoost(|terms|));
  }

  /**
   * Keyword hits always carry their chunk id and so are keyed by it; vector
   * hits carry none and are keyed by position. Under those conditions the two
   * sources never share a key: no fused result has both scores non-zero.
   */
  predicate Apart(t: Table) {
    forall k | k in t.entries ::
      (k.ById? ==> t.entries[k].semanticScore == 0.0) && (k.ByPosition? ==> t.entries[k].bm25Score == 0.0)
  }

  lemma {:induction false} FoldBm25Apart(t: Table, hits: seq<Hit>, sc: Scale, w: Weights)
    requires sc.range > 0.0 && Apart(t)
    requires forall i :: 0 <= i < |hits| ==> hits[i].chunkId != []
    ensures Apart(FoldBm25(t, hits, sc, w))
  {
    if hits != [] {
      FoldBm25Apart(t, hits[..|hits| - 1], sc, w);
    }
  }

  lemma {:induction false} FoldSemanticApart(t: Table, hits: seq<Hit>, sc: Scale, w: Weights)
    requires sc.range > 0.0 && Apart(t)
    requires forall i :: 0 <= i < |hits| ==> hits[i].chunkId == []
    ensures Apart(FoldSemantic(t, hits, sc, w))
  {
    if hits != [] {
      FoldSemanticApart(t, hits[..|hits| - 1], sc, w);
    }
  }

  lemma {:induction false} BoostedApart(entries: map<ResultKey, Entry>, order: seq<ResultKey>, terms: set<string>, maxViews: int)
    requires forall k | k in order :: k in entries
    requires Apart(Table(order, entries))
    requires maxViews >= 1
    ensures forall f | f in Boosted(entries, order, terms, maxViews) :: f.bm25Score == 0.0 || f.semanticScore == 0.0
  {
    if order != [] {
      BoostedApart(entries, order[..|order| - 1], terms, maxViews);
    }
  }

  lemma SourcesNeverMeet(bm25Hits: seq<Hit>, semanticHits: seq<Hit>, query: string, w: Weights)
    requires forall i :: 0 <= i < |bm25Hits| ==> bm25Hits[i].chunkId != []
    requires forall i :: 0 <= i < |semanticHits| ==> semanticHits[i].chunkId == []
    ensures forall f | f in MergeResultsSpec(bm25Hits, semanticHits, query, w) :: f.bm25Score == 0.0 || f.semanticScore == 0.0
  {
    ScaleFits(bm25Hits);
    ScaleFits(semanticHits);
    FoldBm25Apart(EmptyTable, bm25Hits, ScaleOf(bm25Hits), w);
    var t0 := FoldBm25(EmptyTable, bm25Hits, ScaleOf(bm25Hits), w);
    FoldSemanticApart(t0, semanticHits, ScaleOf(semanticHits), w);
    MergedKept(bm25Hits, semanticHits, w);
    var t := MergedTable(bm25Hits, semanticHits, w);
    var mv := MaxViews(t.entries, t.order);
    BoostedApart(t.entries, t.order, QueryTerms(query), mv);
    var b := Boosted(t.entries, t.order, QueryTerms(query), mv);
    SortDescFacts(b, FusedScore);
    forall f | f in MergeResultsSpec(bm25Hits, semanticHits, query, w) ensures f.bm25Score == 0.0 || f.semanticScore == 0.0 {
      assert f in multiset(b);
    }
  }

  // ----- search -----

  /** `max(top_k * candidate_multiplier, 20)` with a multiplier of 3. */
  function CandidateK(topK: int): (k: nat)
    ensures k >= 20 && k >= 3 * topK
  {
    if topK * 3 > 20 then topK * 3 else 20
  }

  /** `s[:k]`, including Python's meaning of a negative `k`. */
  function PrefixTo<T>(s: seq<T>, k: int): (r: seq<T>)
    ensures k >= 0 ==> |r| == if k < |s| then k else |s|
    ensures k < 0 ==> |r| == if |s| + k > 0 then |s| + k else 0
    ensures r == s[..|r|]
  {
    if k >= 0 then Take(s, k) else s[..if |s| + k > 0 then |s| + k else 0]
  }

  /** The `video_durations` dictionary: the positive duration of each non-empty video id, the last one seen winning. */
  function Durations(merged: seq<Fused>): (d: map<string, real>)
    ensures forall v | v in d :: v != [] && d[v] > 0.0
  {
    if merged == [] then map[]
    else
      var f := merged[|merged| - 1];
      var d := Durations(merged[..|merged| - 1]);
      if f.meta.videoId != [] && f.meta.duration > 0.0 then d[f.meta.videoId := f.meta.duration] else d
  }

  /** Every video with a known positive duration is in the dictionary, with one of its results' durations. */
  lemma {:induction false} DurationsComplete(merged: seq<Fused>, v: string)
    ensures v in Durations(merged) <==> exists i :: 0 <= i < |merged| && merged[i].meta.videoId == v && v != [] && merged[i].meta.duration > 0.0
    ensures v in Durations(merged) ==> exists i :: 0 <= i < |merged| && merged[i].meta.videoId == v && merged[i].meta.duration == Durations(merged)[v]
  {
    if merged != [] {
      var n := |merged| - 1;
      DurationsComplete(merged[..n], v);
      if v in Durations(merged[..n]) {
        var i :| 0 <= i < n && merged[..n][i].meta.videoId == v && merged[..n][i].meta.duration == Durations(merged[..n])[v];
        assert merged[i] == merged[..n][i];
      }
      if exists i :: 0 <= i < n && merged[i].meta.videoId == v && v != [] && merged[i].meta.duration > 0.0 {
        var i :| 0 <= i < n && merged[i].meta.videoId == v && v != [] && merged[i].meta.duration > 0.0;
        assert merged[..n][i] == merged[i];
      }
    }
  }

  /** The durations loop of `search`. */
  method CollectDurations(merged: seq<Fused>) returns (durations: map<string, real>)
    ensures durations == Durations(merged)
  {
    durations := map[];
    for i := 0 to |merged|
      invariant durations == Durations(merged[..i])
    {
      var result := merged[i];
      assert merged[..i + 1][..i] == merged[..i];
      var videoId := result.meta.videoId;
      var duration := result.meta.duration;
      if videoId != [] && duration > 0.0 {
        durations := durations[videoId := duration];
      }
    }
    assert merged[..|merged|] == merged;
  }

  /**
   * The search service: normalised weights, the query tables, the clip
   * merger's configuration and the keyword index it consults. The embedding
   * model and the vector store are outside the model: their outcome is a
   * parameter of `Search`.
   */
  class HybridSearchService {
    const weights: Weights
    const tables: QueryPreprocessor.Tables
    const merger: ClipMerger.Config
    const index: Bm25.Bm25Index

    constructor (index: Bm25.Bm25Index, bm25Weight: real, semanticWeight: real,
                 tables: QueryPreprocessor.Tables, merger: ClipMerger.Config)
      ensures this.index == index && this.tables == tables && this.merger == merger
      ensures weights == NormalizeWeights(bm25Weight, semanticWeight)
    {
      this.index := index;
      this.tables := tables;
      this.merger := merger;
      weights := NormalizeWeights(bm25Weight, semanticWeight);
    }

    /** The keyword hits `search` obtains: none when the index is not built. */
    function KeywordHits(query: string, topK: int, score: Bm25.Scorer): seq<Hit>
      reads index
      requires index.Valid()
    {
      if index.isIndexed then
        Bm25.SearchSpec(index.bm25.value.corpus, index.chunkIds, index.chunkMetadata,
                        QueryPreprocessor.PreprocessSpec(tables, query), CandidateK(topK), score)
      else []
    }

    /**
     * What `search` returns. `semantic` is the vector store's answer for the
     * embedded query, or None when embedding or querying raised.
     */
    function SearchSpec(query: string, topK: int, semantic: Option<seq<Hit>>, score: Bm25.Scorer): seq<ClipMerger.Clip>
      reads index
      requires index.Valid()
    {
      if IsBlank(query) then []
      else
        var merged := MergeResultsSpec(KeywordHits(query, topK, score), semantic.GetOr([]), query, weights);
        PrefixTo(ClipMerger.MergeClipsSpec(merger, merged, Durations(merged)), topK)
    }

    method Search(query: string, topK: int, semantic: Option<seq<Hit>>, score: Bm25.Scorer)
      returns (clips: seq<ClipMerger.Clip>)
      requires index.Valid()
      ensures clips == SearchSpec(query, topK, semantic, score)
    {
      if IsBlank(query) {
        return [];
      }
      var preprocessed := QueryPreprocessor.Preprocess(tables, query);
      var candidateK := CandidateK(topK);
      var bm25Results: seq<Hit> := [];
      if index.isIndexed {
        var found := index.Search(preprocessed, candidateK, score);
        if found.Ok? {
          bm25Results := found.value;
        }
      }
      var semanticResults := semantic.GetOr([]);
      var merged := MergeResults(bm25Results, semanticResults, query, weights);
      var durations := CollectDurations(merged);
      var mergedClips := ClipMerger.MergeClips(merger, merged, durations);
      clips := PrefixTo(mergedClips, topK);
    }
  }

  /** A blank query finds nothing; otherwise `search` returns at most `top_k` clips (for `top_k` >= 0). */
  lemma SearchShape(s: HybridSearchService, query: string, topK: int, semantic: Option<seq<Hit>>, score: Bm25.Scorer)
    requires s.index.Valid()
    ensures IsBlank(query) ==> s.SearchSpec(query, topK, semantic, score) == []
    ensures topK >= 0 ==> |s.SearchSpec(query, topK, semantic, score)| <= topK
  {
  }

  lemma SearchUnfold(s: HybridSearchService, query: string, topK: int, semantic: Option<seq<Hit>>, score: Bm25.Scorer)
    requires s.index.Valid() && !IsBlank(query)
    ensures var merged := MergeResultsSpec(s.KeywordHits(query, topK, score), semantic.GetOr([]), query, s.weights);
      s.SearchSpec(query, topK, semantic, score) == PrefixTo(ClipMerger.MergeClipsSpec(s.merger, merged, Durations(merged)), topK)
  {
  }

  /** `search` returns its clips by non-increasing score. */
  lemma SearchSorted(s: HybridSearchService, query: string, topK: int, semantic: Option<seq<Hit>>, score: Bm25.Scorer)
    requires s.index.Valid()
    ensures SortedDesc(s.SearchSpec(query, topK, semantic, score), ClipMerger.ClipScore)
  {
    if !IsBlank(query) {
      var kw := s.KeywordHits(query, topK, score);
      var merged := MergeResultsSpec(kw, semantic.GetOr([]), query, s.weights);
      var all := ClipMerger.MergeClipsSpec(s.merger, merged, Durations(merged));
      SearchUnfold(s, query, topK, semantic, score);
      ClipMerger.MergeClipsSorted(s.merger, merged, Durations(merged));
      PrefixKeeps(all, topK, 0.0, 0.0);
    }
  }

  /**
   * With proper weights every clip `search` returns scores within
   * [0, 1.15 * MaxBoost(number of query terms)]: fused scores are at most the
   * largest boost, and clip merging gains at most 15%.
   */
  lemma SearchBounded(s: HybridSearchService, query: string, topK: int, semantic: Option<seq<Hit>>, score: Bm25.Scorer)
    requires s.index.Valid() && Proper(s.weights)
    ensures ClipMerger.ClipsWithin(s.SearchSpec(query, topK, semantic, score), 0.0, 1.15 * MaxBoost(|QueryTerms(query)|))
  {
    if !IsBlank(query) {
      var kw := s.KeywordHits(query, topK, score);
      var merged := MergeResultsSpec(kw, semantic.GetOr([]), query, s.weights);
      var hi := MaxBoost(|QueryTerms(query)|);
      assert ClipMerger.ClipsWithin(PrefixTo(ClipMerger.MergeClipsSpec(s.merger, merged, Durations(merged)), topK), 0.0, 1.15 * hi) by {
        MergeResultsBounded(kw, semantic.GetOr([]), query, s.weights);
        PrefixBounded(s.merger, merged, hi, topK);
      }
      SearchUnfold(s, query, topK, semantic, score);
    } else {
      assert s.SearchSpec(query, topK, semantic, score) == [];
    }
  }

  /** The first `topK` clips merged from fragments scoring in [0, hi] score in [0, 1.15 * hi]. */
  lemma PrefixBounded(merger: ClipMerger.Config, merged: seq<Fused>, hi: real, topK: int)
    requires 0.0 <= hi && ClipMerger.FragmentsWithin(merged, 0.0, hi)
    ensures ClipMerger.ClipsWithin(PrefixTo(ClipMerger.MergeClipsSpec(merger, merged, Durations(merged)), topK), 0.0, 1.15 * hi)
  {
    var all := ClipMerger.MergeClipsSpec(merger, merged, Durations(merged));
    ClipMerger.MergeClipsScores(merger, merged, Durations(merged), hi);
    PrefixKeeps(all, topK, 0.0, 1.15 * hi);
  }

  lemma PrefixKeeps(all: seq<ClipMerger.Clip>, k: int, lo: real, hi: real)
    ensures SortedDesc(all, ClipMerger.ClipScore) ==> SortedDesc(PrefixTo(all, k), ClipMerger.ClipScore)
    ensures ClipMerger.ClipsWithin(all, lo, hi) ==> ClipMerger.ClipsWithin(PrefixTo(all, k), lo, hi)
  {
    var r := PrefixTo(all, k);
    if SortedDesc(all, ClipMerger.ClipScore) {
      SortedTail(all, ClipMerger.ClipScore, |r|);
    }
  }
}
