/**
 * The keyword index (backend/bm25_service.py): a BM25 index over the
 * tokenized chunks, the chunk id at each index position and the metadata
 * stored per chunk id. Searching ranks the documents by BM25 score, keeps the
 * best `top_k` and drops those that do not score above zero.
 */
module Bm25 {
  import opened Wrappers
  import opened Text
  import opened Sorting
  import opened Records

  /** A `BM25Okapi` object, known by the tokenized corpus it was built from. */
  datatype Okapi = Okapi(corpus: seq<seq<string>>)

  /** What `_save_index` pickles to the index file and `_load_index` reads back. */
  datatype Saved = Saved(bm25: Option<Okapi>, chunkIds: seq<string>, chunkMetadata: map<string, Meta>)

  /** What opening the index file yields: no file, a file that cannot be unpickled, or its contents. */
  datatype LoadOutcome = NoFile | Unreadable | Read(data: Saved)

  /**
   * `BM25Okapi.get_scores`: the score of document `i` of a corpus for a list
   * of query tokens. The BM25 formula belongs to the rank_bm25 library and is
   * a parameter here.
   */
  type Scorer = (seq<seq<string>>, nat, seq<string>) -> real

  /** The text indexed for a chunk: its video title, a space and its text, or the text alone when the title is empty. */
  function SearchableText(chunk: Meta): string {
    if chunk.title != [] then chunk.title + " " + chunk.text else chunk.text
  }

  /** The tokenized corpus of `chunks`, one token list per chunk, in order. */
  function Corpus(chunks: seq<Meta>): (c: seq<seq<string>>)
    ensures |c| == |chunks|
  {
    if chunks == [] then []
    else Corpus(chunks[..|chunks| - 1]) + [Tokenize(SearchableText(chunks[|chunks| - 1]))]
  }

  /** `table` after storing `chunks[k]` under `ids[k]` for k = 0, 1, ... in turn. */
  function Stored(table: map<string, Meta>, ids: seq<string>, chunks: seq<Meta>): map<string, Meta>
    requires |ids| == |chunks|
  {
    if ids == [] then table
    else Stored(table, ids[..|ids| - 1], chunks[..|chunks| - 1])[ids[|ids| - 1] := chunks[|chunks| - 1]]
  }

  /**
   * Building adds to the metadata table and never removes from it: an id of
   * the build maps to the chunk at its LAST position in `ids`, and an id not
   * in the build keeps its earlier entry.
   */
  lemma {:induction false} StoredLookup(table: map<string, Meta>, ids: seq<string>, chunks: seq<Meta>, id: string)
    requires |ids| == |chunks|
    ensures id in Stored(table, ids, chunks) <==> id in table || id in ids
    ensures id !in ids && id in table ==> Stored(table, ids, chunks)[id] == table[id]
    ensures id in ids ==> exists j :: 0 <= j < |ids| && ids[j] == id && Stored(table, ids, chunks)[id] == chunks[j]
                                    && forall k :: j < k < |ids| ==> ids[k] != id
  {
    if ids != [] {
      var n := |ids| - 1;
      StoredLookup(table, ids[..n], chunks[..n], id);
      assert ids == ids[..n] + [ids[n]];
      if id in ids && id != ids[n] {
        assert id in ids[..n];
        var j :| 0 <= j < n && ids[..n][j] == id && Stored(table, ids[..n], chunks[..n])[id] == chunks[..n][j]
          && forall k :: j < k < n ==> ids[..n][k] != id;
        assert ids[j] == id;
      }
    }
  }

  /** Every element of `s` is an index below `n`. */
  predicate Indices(s: seq<int>, n: int) {
    forall j :: 0 <= j < |s| ==> 0 <= s[j] < n
  }

  /** Document indices `n - 1, ..., 1, 0`. */
  function Descending(n: nat): (r: seq<int>)
    ensures |r| == n && Indices(r, n)
  {
    seq(n, i requires 0 <= i < n => n - 1 - i)
  }

  /** The score of a document index; 0 outside the corpus. */
  function ScoreOf(scores: seq<real>): int -> real {
    (i: int) => if 0 <= i < |scores| then scores[i] else 0.0
  }

  /** A permutation of document indices is made of document indices. */
  lemma PermutedIndices(s: seq<int>, t: seq<int>, n: int)
    requires multiset(s) == multiset(t) && Indices(t, n)
    ensures Indices(s, n)
  {
    forall j | 0 <= j < |s| ensures 0 <= s[j] < n {
      assert s[j] in multiset(t);
      var k :| 0 <= k < |t| && t[k] == s[j];
    }
  }

  /** All document indices by non-increasing score; equal scores later document first, as reversing an ascending argsort gives. */
  function Ranked(scores: seq<real>): (r: seq<int>)
    ensures |r| == |scores| && Indices(r, |scores|)
    ensures SortedDesc(r, ScoreOf(scores))
    ensures multiset(r) == multiset(Descending(|scores|))
  {
    var r := SortDesc(Descending(|scores|), ScoreOf(scores));
    SortDescFacts(Descending(|scores|), ScoreOf(scores));
    PermutedIndices(r, Descending(|scores|), |scores|);
    r
  }

  /**
   * The index order `search` walks: the ranking, cut to the first `k` unless
   * `k` is 0 or at least the corpus size. With `k == 0` the source's
   * `argpartition(scores, -0)[-0:]` keeps every index.
   */
  function TopIndices(scores: seq<real>, k: nat): (r: seq<int>)
    ensures Indices(r, |scores|) && SortedDesc(r, ScoreOf(scores))
  {
    var all := Ranked(scores);
    if k == 0 || k >= |scores| then all else all[..k]
  }

  /** The indices of `order` whose score is above zero, in order. */
  function Positive(scores: seq<real>, order: seq<int>): (r: seq<int>)
    ensures |r| <= |order|
    ensures Indices(r, |scores|)
    ensures forall j :: 0 <= j < |r| ==> r[j] in order && scores[r[j]] > 0.0
  {
    if order == [] then []
    else
      var i := order[|order| - 1];
      var p := Positive(scores, order[..|order| - 1]);
      if 0 <= i < |scores| && scores[i] > 0.0 then p + [i] else p
  }

  /** The result dictionary for document `idx`; an id without stored metadata reads every field's default. */
  function HitFor(ids: seq<string>, table: map<string, Meta>, scores: seq<real>, idx: int): (h: Hit)
    requires 0 <= idx < |ids| && idx < |scores|
    ensures h.chunkId == ids[idx] && h.score == scores[idx] && h.present == AllFields
  {
    var id := ids[idx];
    Hit(id, scores[idx], if id in table then table[id] else DefaultMeta, AllFields)
  }

  function Hits(ids: seq<string>, table: map<string, Meta>, scores: seq<real>, picked: seq<int>): (r: seq<Hit>)
    requires |ids| == |scores| && Indices(picked, |scores|)
    ensures |r| == |picked|
  {
    if picked == [] then []
    else Hits(ids, table, scores, picked[..|picked| - 1]) + [HitFor(ids, table, scores, picked[|picked| - 1])]
  }

  /** `get_scores(query_tokens)`: one score per document. */
  function ScoresFor(corpus: seq<seq<string>>, tokens: seq<string>, score: Scorer): (s: seq<real>)
    ensures |s| == |corpus|
  {
    seq(|corpus|, i requires 0 <= i < |corpus| => score(corpus, i, tokens))
  }

  /** The documents `search` returns, as indices: the top `k`, then only positive scores. */
  function Picked(scores: seq<real>, k: nat): (r: seq<int>)
    ensures Indices(r, |scores|)
  {
    Positive(scores, TopIndices(scores, k))
  }

  /** What `search` returns on a built index. */
  function SearchSpec(corpus: seq<seq<string>>, ids: seq<string>, table: map<string, Meta>,
                      query: string, topK: nat, score: Scorer): seq<Hit>
    requires |corpus| == |ids|
  {
    if IsBlank(query) then []
    else
      var tokens := Tokenize(query);
      if tokens == [] then []
      else
        var scores := ScoresFor(corpus, tokens, score);
        Hits(ids, table, scores, Picked(scores, topK))
  }

  /** Keeping some elements of a sorted order keeps it sorted. */
  lemma {:induction false} PositiveSorted(scores: seq<real>, order: seq<int>)
    requires SortedDesc(order, ScoreOf(scores))
    ensures SortedDesc(Positive(scores, order), ScoreOf(scores))
  {
    if order != [] {
      var n := |order| - 1;
      var key := ScoreOf(scores);
      SortedTail(order, key, n);
      PositiveSorted(scores, order[..n]);
      var p := Positive(scores, order[..n]);
      forall m | 0 <= m < |p| ensures key(p[m]) >= key(order[n]) {
        var j :| 0 <= j < n && order[..n][j] == p[m];
        assert order[j] == p[m];
      }
    }
  }

  /** Every index appears in `Positive(scores, order)` at most as often as in `order`. */
  lemma {:induction false} PositiveSubMultiset(scores: seq<real>, order: seq<int>)
    ensures multiset(Positive(scores, order)) <= multiset(order)
  {
    if order != [] {
      var n := |order| - 1;
      PositiveSubMultiset(scores, order[..n]);
      assert order == order[..n] + [order[n]];
    }
  }

  /** An index of `order` with a positive score is kept. */
  lemma {:induction false} PositiveKeeps(scores: seq<real>, order: seq<int>, i: int)
    requires i in order && 0 <= i < |scores| && scores[i] > 0.0
    ensures i in Positive(scores, order)
  {
    var n := |order| - 1;
    if order[n] != i {
      assert order == order[..n] + [order[n]];
      PositiveKeeps(scores, order[..n], i);
    }
  }

  /** Each document index occurs once in the ranking. */
  lemma {:induction false} DescendingOnce(n: nat, i: int)
    ensures multiset(Descending(n))[i] == if 0 <= i < n then 1 else 0
  {
    if n > 0 {
      assert Descending(n) == [n - 1] + Descending(n - 1);
      DescendingOnce(n - 1, i);
    }
  }

  /** The returned documents have positive scores, in non-increasing order, and at most `k` of them when `k` is positive. */
  lemma PickedOrdered(scores: seq<real>, k: nat)
    ensures var p := Picked(scores, k);
      (forall j :: 0 <= j < |p| ==> scores[p[j]] > 0.0)
      && SortedDesc(p, ScoreOf(scores))
      && (k > 0 ==> |p| <= k)
  {
    PositiveSorted(scores, TopIndices(scores, k));
  }

  /** No document is returned twice. */
  lemma PickedDistinct(scores: seq<real>, k: nat, i: int)
    ensures multiset(Picked(scores, k))[i] <= 1
  {
    var all := Ranked(scores);
    var top := TopIndices(scores, k);
    PositiveSubMultiset(scores, top);
    DescendingOnce(|scores|, i);
    if top != all {
      assert all == top + all[k..];
    }
  }

  /** With `k` 0 or at least the corpus size, every document with a positive score is returned. */
  lemma PickedComplete(scores: seq<real>, k: nat, i: int)
    requires k == 0 || k >= |scores|
    requires 0 <= i < |scores| && scores[i] > 0.0
    ensures i in Picked(scores, k)
  {
    DescendingOnce(|scores|, i);
    assert i in multiset(Ranked(scores));
    PositiveKeeps(scores, TopIndices(scores, k), i);
  }

  /** A document with a positive score that is left out scores no higher than any document returned. */
  lemma PickedBest(scores: seq<real>, k: nat, i: int, j: int)
    requires 0 <= i < |scores| && scores[i] > 0.0 && i !in Picked(scores, k)
    requires j in Picked(scores, k)
    ensures scores[j] >= scores[i]
  {
    if k == 0 || k >= |scores| {
      PickedComplete(scores, k, i);
    } else {
      var all := Ranked(scores);
      var top := all[..k];
      assert TopIndices(scores, k) == top;
      if i in top {
        PositiveKeeps(scores, top, i);
      }
      RankedSplit(scores, k, i);
      var p := Picked(scores, k);
      var m :| 0 <= m < |p| && p[m] == j;
      TopDominates(scores, k, i, j);
    }
  }

  /** A document outside the first `k` of the ranking is in the rest of it. */
  lemma RankedSplit(scores: seq<real>, k: nat, i: int)
    requires k <= |scores| && 0 <= i < |scores| && i !in Ranked(scores)[..k]
    ensures i in Ranked(scores)[k..]
  {
    var all := Ranked(scores);
    DescendingOnce(|scores|, i);
    assert i in multiset(all);
    assert all == all[..k] + all[k..];
  }

  /** Whatever the first `k` of the ranking holds scores at least as high as anything after. */
  lemma TopDominates(scores: seq<real>, k: nat, i: int, j: int)
    requires k <= |scores| && 0 <= i < |scores|
    requires i in Ranked(scores)[k..] && j in Ranked(scores)[..k]
    ensures scores[j] >= scores[i]
  {
    var all := Ranked(scores);
    PrefixDominates(all, ScoreOf(scores), k, j, i);
    assert j in all;
  }

  lemma CorpusStep(chunks: seq<Meta>, i: nat)
    requires i < |chunks|
    ensures Corpus(chunks[..i + 1]) == Corpus(chunks[..i]) + [Tokenize(SearchableText(chunks[i]))]
  {
    assert chunks[..i + 1][..i] == chunks[..i];
  }

  lemma StoredStep(table: map<string, Meta>, ids: seq<string>, chunks: seq<Meta>, i: nat)
    requires |ids| == |chunks| && i < |ids|
    ensures Stored(table, ids[..i + 1], chunks[..i + 1]) == Stored(table, ids[..i], chunks[..i])[ids[i] := chunks[i]]
  {
    assert chunks[..i + 1][..i] == chunks[..i];
    assert ids[..i + 1][..i] == ids[..i];
  }

  lemma {:induction false} HitsAt(ids: seq<string>, table: map<string, Meta>, scores: seq<real>, picked: seq<int>, j: nat)
    requires |ids| == |scores| && Indices(picked, |scores|) && j < |picked|
    ensures Hits(ids, table, scores, picked)[j] == HitFor(ids, table, scores, picked[j])
  {
    var n := |picked| - 1;
    if j < n {
      HitsAt(ids, table, scores, picked[..n], j);
    }
  }

  lemma PositiveStep(scores: seq<real>, top: seq<int>, j: nat)
    requires j < |top|
    ensures Positive(scores, top[..j + 1]) ==
      Positive(scores, top[..j]) + (if 0 <= top[j] < |scores| && scores[top[j]] > 0.0 then [top[j]] else [])
  {
    assert top[..j + 1][..j] == top[..j];
  }

  lemma HitsAppend(ids: seq<string>, table: map<string, Meta>, scores: seq<real>, p: seq<int>, x: int)
    requires |ids| == |scores| && Indices(p, |scores|) && 0 <= x < |scores|
    ensures Hits(ids, table, scores, p + [x]) == Hits(ids, table, scores, p) + [HitFor(ids, table, scores, x)]
  {
    assert (p + [x])[..|p|] == p;
  }

  /**
   * Every hit `search` returns scores above zero, the hits come in
   * non-increasing score order, and there are at most `top_k` of them when
   * `top_k` is positive.
   */
  lemma SearchRanked(corpus: seq<seq<string>>, ids: seq<string>, table: map<string, Meta>,
                     query: string, topK: nat, score: Scorer)
    requires |corpus| == |ids|
    ensures var r := SearchSpec(corpus, ids, table, query, topK, score);
      (forall j :: 0 <= j < |r| ==> r[j].score > 0.0 && r[j].present == AllFields)
      && (forall i, j :: 0 <= i < j < |r| ==> r[i].score >= r[j].score)
      && (topK > 0 ==> |r| <= topK)
  {
    if !IsBlank(query) && Tokenize(query) != [] {
      var scores := ScoresFor(corpus, Tokenize(query), score);
      var p := Picked(scores, topK);
      assert SearchSpec(corpus, ids, table, query, topK, score) == Hits(ids, table, scores, p);
      PickedOrdered(scores, topK);
      HitsOrdered(ids, table, scores, p);
    }
  }

  /** Hits for positive, ranked indices carry positive, non-increasing scores and every field. */
  lemma HitsOrdered(ids: seq<string>, table: map<string, Meta>, scores: seq<real>, p: seq<int>)
    requires |ids| == |scores| && Indices(p, |scores|)
    requires forall j :: 0 <= j < |p| ==> scores[p[j]] > 0.0
    requires SortedDesc(p, ScoreOf(scores))
    ensures var r := Hits(ids, table, scores, p);
      (forall j :: 0 <= j < |r| ==> r[j].score > 0.0 && r[j].present == AllFields)
      && (forall i, j :: 0 <= i < j < |r| ==> r[i].score >= r[j].score)
  {
    var r := Hits(ids, table, scores, p);
    forall j | 0 <= j < |r| ensures r[j] == HitFor(ids, table, scores, p[j]) {
      HitsAt(ids, table, scores, p, j);
    }
  }

  /** `build_index`'s loop: tokenize every chunk and store its metadata under its id. */
  method IndexChunks(table: map<string, Meta>, ids: seq<string>, chunks: seq<Meta>)
    returns (corpus: seq<seq<string>>, stored: map<string, Meta>)
    requires |ids| == |chunks|
    ensures corpus == Corpus(chunks)
    ensures stored == Stored(table, ids, chunks)
  {
    corpus, stored := [], table;
    var i := 0;
    while i < |chunks|
      invariant 0 <= i <= |chunks|
      invariant corpus == Corpus(chunks[..i])
      invariant stored == Stored(table, ids[..i], chunks[..i])
    {
      corpus := corpus + [Tokenize(SearchableText(chunks[i]))];
      stored := stored[ids[i] := chunks[i]];
      StoredStep(table, ids, chunks, i);
      CorpusStep(chunks, i);
      i := i + 1;
    }
    assert chunks[..i] == chunks && ids[..i] == ids;
  }

  /** `search`'s result loop: walk the top indices and keep the positive ones. */
  method CollectHits(ids: seq<string>, table: map<string, Meta>, scores: seq<real>, top: seq<int>)
    returns (results: seq<Hit>)
    requires |ids| == |scores| && Indices(top, |scores|)
    ensures results == Hits(ids, table, scores, Positive(scores, top))
  {
    results := [];
    ghost var picked: seq<int> := [];
    for j := 0 to |top|
      invariant picked == Positive(scores, top[..j])
      invariant results == Hits(ids, table, scores, picked)
    {
      var idx := top[j];
      PositiveStep(scores, top, j);
      if scores[idx] > 0.0 {
        HitsAppend(ids, table, scores, picked, idx);
        results := results + [HitFor(ids, table, scores, idx)];
        picked := picked + [idx];
      }
    }
    assert top[..|top|] == top;
  }

  /** The keyword index: `BM25Service`, without its file path. */
  class Bm25Index {
    var bm25: Option<Okapi>
    var chunkIds: seq<string>
    var chunkMetadata: map<string, Meta>
    var isIndexed: bool

    /** An index flagged as built has a BM25 object, and every BM25 object has one chunk id per document. */
    predicate Valid()
      reads this
    {
      (isIndexed ==> bm25.Some?) && (bm25.Some? ==> |bm25.value.corpus| == |chunkIds|)
    }

    /** A saved index whose BM25 object, if any, matches its chunk ids, as every file `_save_index` writes is. */
    static predicate Consistent(data: Saved) {
      data.bm25.Some? ==> |data.bm25.value.corpus| == |data.chunkIds|
    }

    /** `__init__`: start empty, then try the index file. */
    constructor (file: LoadOutcome)
      requires file.Read? ==> Consistent(file.data)
      ensures Valid()
      ensures file.Read? ==> Snapshot() == file.data && isIndexed == file.data.bm25.Some?
      ensures !file.Read? ==> bm25 == None && chunkIds == [] && chunkMetadata == map[] && !isIndexed
    {
      bm25 := None;
      chunkIds := [];
      chunkMetadata := map[];
      isIndexed := false;
      new;
      LoadIndex(file);
    }

    /** The three fields `_save_index` writes. */
    function Snapshot(): Saved
      reads this
    {
      Saved(bm25, chunkIds, chunkMetadata)
    }

    /**
     * `build_index`: reject empty or mismatched arguments without touching
     * the index; otherwise index every chunk's title and text, store its
     * metadata under its id, and return what is saved to the index file.
     */
    method BuildIndex(chunks: seq<Meta>, ids: seq<string>) returns (r: Result<Saved>)
      requires Valid()
      modifies this
      ensures Valid()
      ensures chunks == [] || ids == [] ==> r == Err(InvalidInput("Chunks and chunk_ids cannot be empty"))
      ensures chunks != [] && ids != [] && |chunks| != |ids| ==> r == Err(InvalidInput("Chunks and chunk_ids must have the same length"))
      ensures r.Err? ==> Snapshot() == old(Snapshot()) && isIndexed == old(isIndexed)
      ensures r.Ok? <==> chunks != [] && |chunks| == |ids|
      ensures r.Ok? ==>
        bm25 == Some(Okapi(Corpus(chunks))) && chunkIds == ids && isIndexed
        && chunkMetadata == Stored(old(chunkMetadata), ids, chunks)
        && r.value == Snapshot()
    {
      if chunks == [] || ids == [] {
        return Err(InvalidInput("Chunks and chunk_ids cannot be empty"));
      }
      if |chunks| != |ids| {
        return Err(InvalidInput("Chunks and chunk_ids must have the same length"));
      }
      var corpus, stored := IndexChunks(chunkMetadata, ids, chunks);
      chunkMetadata := stored;
      bm25 := Some(Okapi(corpus));
      chunkIds := ids;
      isIndexed := true;
      r := Ok(Snapshot());
    }

    /**
     * `search`: an error before any index exists; nothing for a blank query
     * or one without word tokens; otherwise the hits of `SearchSpec`, built
     * by walking the top indices and skipping scores not above zero.
     */
    method Search(query: string, topK: nat, score: Scorer) returns (r: Result<seq<Hit>>)
      requires Valid()
      ensures !isIndexed ==> r == Err(NotIndexed)
      ensures isIndexed ==> r == Ok(SearchSpec(bm25.value.corpus, chunkIds, chunkMetadata, query, topK, score))
    {
      if !isIndexed || bm25.None? {
        return Err(NotIndexed);
      }
      if IsBlank(query) {
        return Ok([]);
      }
      var tokens := Tokenize(query);
      if tokens == [] {
        return Ok([]);
      }
      var scores := ScoresFor(bm25.value.corpus, tokens, score);
      var top := TopIndices(scores, topK);
      var results := CollectHits(chunkIds, chunkMetadata, scores, top);
      r := Ok(results);
    }

    /** `_save_index`: the data pickled to the index file; the index itself is unchanged. */
    method SaveIndex() returns (data: Saved)
      ensures data == Saved(bm25, chunkIds, chunkMetadata)
    {
      data := Saved(bm25, chunkIds, chunkMetadata);
    }

    /**
     * `_load_index`: no file changes nothing; an unreadable file only clears
     * the built flag; a read file replaces all three fields and the index
     * counts as built when it holds a BM25 object.
     */
    method LoadIndex(file: LoadOutcome)
      requires Valid()
      requires file.Read? ==> Consistent(file.data)
      modifies this
      ensures Valid()
      ensures file.NoFile? ==> Snapshot() == old(Snapshot()) && isIndexed == old(isIndexed)
      ensures file.Unreadable? ==> Snapshot() == old(Snapshot()) && !isIndexed
      ensures file.Read? ==> Snapshot() == file.data && isIndexed == file.data.bm25.Some?
    {
      match file
      case NoFile =>
      case Unreadable =>
        isIndexed := false;
      case Read(data) =>
        bm25 := data.bm25;
        chunkIds := data.chunkIds;
        chunkMetadata := data.chunkMetadata;
        isIndexed := bm25.Some?;
    }

    /** `clear_index`: forget the index (removing the file is not modelled). */
    method ClearIndex()
      modifies this
      ensures Valid()
      ensures bm25 == None && chunkIds == [] && chunkMetadata == map[] && !isIndexed
    {
      bm25 := None;
      chunkIds := [];
      chunkMetadata := map[];
      isIndexed := false;
    }
  }

  /** Loading what was saved restores the saved index, searches included. */
  method SaveLoadRoundTrip(a: Bm25Index, b: Bm25Index)
    requires a.Valid() && b.Valid() && a.isIndexed
    modifies b
    ensures b.Snapshot() == old(a.Snapshot()) && b.isIndexed
  {
    var data := a.SaveIndex();
    b.LoadIndex(Read(data));
  }
}
