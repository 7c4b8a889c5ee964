# Lecture retrieval backend, modelled in Dafny

This project models the retrieval core of a backend that indexes YouTube lecture playlists and searches them. The backend turns each video into transcript segments, then chunks and indexes them. It answers a query with the clips that match best. The model covers:

- **Query expansion** (`QueryPreprocessor`): abbreviations and synonyms, de-duplicated in first-occurrence order.
- **Keyword index** (`Bm25`): the BM25 index object with its fields, validation, id→metadata table, top-k selection with the positive-score filter, and the state effects of saving, loading and clearing.
- **Hybrid fusion** (`HybridSearch`): weight normalisation, min-max score normalisation, the identity key, the insertion-ordered result map, the metadata boost and the sort.
- **Clip merging** (`ClipMerger`): grouping by video, the gap-threshold fold, boundary expansion, text assembly, score averaging and position rescoring.
- **Subtitle parsing** (`YouTubeScraper`): the WebVTT line parser, timestamp conversion, subtitle format choice and playlist entry filtering.
- **Transcript chunking** (`Chunking`): word-based chunks with overlap and interpolated times.
- **Chapter windows** (`ChapterWindows`): the sliding windows the chapter generator feeds to a language model, the timestamp clamp, the fallback chapter, code-fence stripping and the one-attempt-per-window loop.
- **Transcription metrics** (`WhisperMetrics`): the accuracy counters of the Whisper transcription service, held in a class.
- **Knowledge graph** (`KnowledgeGraph`): neighbour selection for similarity relationships, and the fold of query records into graph nodes and edges.

Each imperative routine of the source is a method: a loop with invariants, or a class method over the fields it updates. It is proved equal to a specification function, and the properties the source promises are lemmas about that function. Collaborators the core calls but does not contain take part as parameters:

- the BM25 scorer (`Scorer`);
- the vector search result (`Option<seq<Hit>>`, `None` for a failed call);
- the language model's replies (`respond`) and the JSON decoder (`decode`);
- cosine similarity (`Similarity`);
- the extractor's outcome (`Extraction`) and the transcript fetch (`fetch`);
- the outcome of reading the index file (`LoadOutcome`).

Files:

| file | module | contents |
|---|---|---|
| wrappers.dfy | Wrappers | `Option`, `Result` |
| text.dfy | Text | `lower`, `strip`, `split`, `\w+` runs, `join`, slicing and substring search on strings |
| sorting.dfy | Sorting | stable descending insertion sort, generic over a key |
| records.dfy | Records | the thirteen metadata fields shared by the services; hits with the set of keys they carry |
| query_preprocessor.dfy | QueryPreprocessor | `backend/query_preprocessor.py` |
| bm25.dfy | Bm25 | `backend/bm25_service.py` |
| hybrid_search.dfy | HybridSearch | `backend/hybrid_search_service.py` |
| clip_merger.dfy | ClipMerger | `backend/clip_merger.py` |
| youtube_scraper.dfy | YouTubeScraper | `backend/youtube_scraper.py` |
| chunking.dfy | Chunking | `backend/embedding_service.py` |
| chapter_windows.dfy | ChapterWindows | `backend/llm_service.py` |
| whisper_metrics.dfy | WhisperMetrics | the metrics of `backend/whisper_service.py` |
| knowledge_graph.dfy | KnowledgeGraph | `backend/knowledge_graph_service.py` |

## Model

| member | source | states |
|---|---|---|
| Text.Lower | backend/query_preprocessor.py:86 | `lower()` keeps the length and maps every character to its lowercase form; word characters and whitespace are preserved |
| Text.Strip | backend/query_preprocessor.py:85 | `strip()` is empty exactly for a blank string, otherwise it neither starts nor ends with whitespace, and it is an infix of the input |
| Text.StripTrims | backend/query_preprocessor.py:85 | `strip()` removes only leading and trailing whitespace: everything before and after the kept infix is whitespace |
| Text.StripStable | backend/query_preprocessor.py:134 | a string that neither starts nor ends with whitespace is its own strip (stripping is idempotent on results) |
| Text.Tokenize | backend/bm25_service.py:35-44 | `re.findall(r'\b\w+\b', text.lower())` yields only non-empty lowercase tokens |
| Text.RunsAreInfixes | backend/bm25_service.py:43 | every `\w+` run is an infix of the text it was found in |
| Text.RunsSplitAt | backend/bm25_service.py:43 | a non-word character separates the runs on its two sides: runs of `a + [x] + b` are the runs of `a` then those of `b` |
| Text.SplitJoin | backend/query_preprocessor.py:127-130 | joining non-empty space-free words with single spaces and splitting again gives the words back |
| Text.Take | backend/hybrid_search_service.py:220 | `s[:k]` keeps `min(k, len(s))` elements and is a prefix of `s` |
| Text.Contains | backend/hybrid_search_service.py:210 | `needle in hay` holds exactly when the needle occurs at some index |
| Text.KeepWordChars | backend/query_preprocessor.py:94 | `re.sub(r'[^\w]', '', s)` keeps only word characters and never lengthens the string |
| Sorting.SortDescFacts | backend/hybrid_search_service.py:237 | the stable sort used for `sort(key=..., reverse=True)` returns a permutation of its input in non-increasing key order |
| Sorting.InsertAllFacts | backend/clip_merger.py:68 | inserting a sequence into a sorted one gives a sorted permutation of both |
| Sorting.SortDescKeeps | backend/knowledge_graph_service.py:131 | a property every input element has is had by every sorted element |
| Sorting.PrefixDominates | backend/knowledge_graph_service.py:131-132 | in a sorted sequence everything in the first `k` outranks everything after |
| Sorting.SortDescStable | backend/clip_merger.py:68 | the sort is stable: for each key value, the elements with that key come out in their input order |
| QueryPreprocessor.Preprocess | backend/query_preprocessor.py:77-134 | `preprocess` (expand, add synonyms, de-duplicate, reconstruct) returns `PreprocessSpec` |
| QueryPreprocessor.ExpandAbbreviations | backend/query_preprocessor.py:90-103 | step 1: each word, followed by its expansions when its cleaned form is an abbreviation |
| QueryPreprocessor.CollectSynonyms | backend/query_preprocessor.py:106-110 | step 2: the synonyms of every word that has some, in word order |
| QueryPreprocessor.DropRepeats | backend/query_preprocessor.py:115-121 | step 3: the `seen`-set loop equals `Dedup` |
| QueryPreprocessor.DedupElements | backend/query_preprocessor.py:115-121 | de-duplication keeps exactly the terms of its input |
| QueryPreprocessor.DedupDistinct | backend/query_preprocessor.py:115-121 | de-duplicated terms are pairwise distinct |
| QueryPreprocessor.DedupPrefix | backend/query_preprocessor.py:115-121 | first occurrences win: de-duplicating a prefix gives a prefix of the de-duplicated whole |
| QueryPreprocessor.ExpandedTerms | backend/query_preprocessor.py:92-103 | expansion never drops a word: at least as many terms as words |
| QueryPreprocessor.Novel | backend/query_preprocessor.py:130 | the appended terms are unique terms that are not original words |
| QueryPreprocessor.GetExpandedTerms | backend/query_preprocessor.py:136-142 | `get_expanded_terms` is the whitespace split of the preprocessed query |
| QueryPreprocessor.AbbreviationIsExpanded | backend/query_preprocessor.py:92-147 | with non-empty expansion lists, `is_abbreviation(term)` holds exactly when `preprocess` would expand the lowercased term |
| QueryPreprocessor.PreprocessKeepsQuery | backend/query_preprocessor.py:82-134 | a non-blank query comes back stripped, starting with the stripped query, either alone or followed by a space and more |
| QueryPreprocessor.PreprocessWordsFirst | backend/query_preprocessor.py:125-134 | the terms of the result begin with the words of the stripped query, in their original case |
| QueryPreprocessor.PlainWord | backend/query_preprocessor.py:85-94 | a lowercase word of word characters is its own stripped query, single word and lookup key |
| QueryPreprocessor.PlainWordTwice | backend/query_preprocessor.py:85-90 | `"w w"` is non-blank, its own strip, and has the two words `w`, `w` |
| QueryPreprocessor.SingleExpansionTerms | backend/query_preprocessor.py:92-121 | with one expansion `e` and no synonyms, the unique terms of `w` and of `w w` are both `[w, e]` |
| QueryPreprocessor.RepeatedWordSuppressesExpansion | backend/query_preprocessor.py:125-132 | `preprocess(w)` is `w e`, but `preprocess("w w")` is `w w` unexpanded, because 2 unique terms do not exceed 2 words (the "api api" case) |
| QueryPreprocessor.KeyWithSpaceNeverMatches | backend/query_preprocessor.py:71-109 | a table key with a non-word character, such as "data structure", never equals a cleaned word |
| QueryPreprocessor.DedupOfDistinct | backend/query_preprocessor.py:115-121 | de-duplicating terms that are already distinct changes nothing |
| QueryPreprocessor.ExpansionTerms | backend/query_preprocessor.py:92-130 | a plain word with distinct expansions and no synonyms has the unique terms `[w] + es` and the new terms `es` |
| QueryPreprocessor.PlainWordExpansion | backend/query_preprocessor.py:77-134 | such a word is returned followed by a space and all its expansions joined by spaces, in table order |
| QueryPreprocessor.OopEntry | backend/query_preprocessor.py:13 | the built-in tables list `oop` with its two spellings and give it no synonyms |
| QueryPreprocessor.OopExample | backend/query_preprocessor.py:13-134 | `preprocess("oop")` is `oop object-oriented programming object oriented programming` |
| Bm25.Corpus | backend/bm25_service.py:64-72 | one token list per chunk, in order |
| Bm25.StoredLookup | backend/bm25_service.py:75-89 | after building, an id is in the table iff it was before or is in the build; a built id maps to the chunk at its last position; other ids keep their entry |
| Bm25.Ranked | backend/bm25_service.py:129-130 | the full ranking is a permutation of the document indices in non-increasing score order |
| Bm25.TopIndices | backend/bm25_service.py:128-135 | the walked indices are document indices in non-increasing score order |
| Bm25.Positive | backend/bm25_service.py:139-140 | kept indices come from the order and have positive scores |
| Bm25.HitFor | backend/bm25_service.py:141-159 | a result carries `chunk_ids[idx]`, the document's score and every field |
| Bm25.PickedOrdered | backend/bm25_service.py:128-140 | the returned documents have positive scores, in non-increasing order, at most `k` of them for `k > 0` |
| Bm25.PickedDistinct | backend/bm25_service.py:128-140 | no document is returned twice |
| Bm25.PickedComplete | backend/bm25_service.py:129-140 | with `k` 0 or at least the corpus size, every document with a positive score is returned |
| Bm25.PickedBest | backend/bm25_service.py:128-140 | a positive document left out scores no higher than any document returned |
| Bm25.TopDominates | backend/bm25_service.py:133-135 | everything in the first `k` of the ranking scores at least as high as anything after |
| Bm25.PositiveSorted | backend/bm25_service.py:139-140 | filtering a sorted order keeps it sorted |
| Bm25.PositiveKeeps | backend/bm25_service.py:140 | an index in the order with a positive score is kept |
| Bm25.SearchRanked | backend/bm25_service.py:101-161 | every hit of `search` scores above zero and carries every field, hits come in non-increasing score order, at most `top_k` of them for `top_k > 0` |
| Bm25.HitsOrdered | backend/bm25_service.py:139-159 | results built from positive, ranked indices have positive, non-increasing scores |
| Bm25.IndexChunks | backend/bm25_service.py:64-89 | the build loop yields `Corpus(chunks)` and the table `Stored(old table, ids, chunks)` |
| Bm25.CollectHits | backend/bm25_service.py:137-161 | the result loop yields the hits of the positive top indices, in order |
| Bm25.Bm25Index.constructor | backend/bm25_service.py:17-33 | a read index file sets all three fields and `is_indexed` iff it holds a BM25 object; otherwise the index is empty |
| Bm25.Bm25Index.BuildIndex | backend/bm25_service.py:46-99 | empty arguments and different lengths fail with their messages and change nothing; otherwise BM25 is built over `Corpus(chunks)`, `chunk_ids := ids`, the metadata table is extended, `is_indexed` is set and the saved data is returned |
| Bm25.Bm25Index.Search | backend/bm25_service.py:101-161 | an error when not indexed; otherwise `SearchSpec` (empty for a blank query or no tokens) |
| Bm25.Bm25Index.SaveIndex | backend/bm25_service.py:163-172 | the pickled data is the three fields; the index is unchanged |
| Bm25.Bm25Index.LoadIndex | backend/bm25_service.py:177-191 | no file changes nothing; an unreadable file only clears `is_indexed`; a read file replaces the three fields |
| Bm25.Bm25Index.ClearIndex | backend/bm25_service.py:193-198 | all four fields are reset |
| Bm25.SaveLoadRoundTrip | backend/bm25_service.py:163-191 | loading what was saved restores the saved index, built |
| HybridSearch.NormalizeWeights | backend/hybrid_search_service.py:36-39 | a positive total gives weights summing to 1 in the raw ratio (each in [0, 1] for non-negative input); otherwise both are 0.5 |
| HybridSearch.NormalizedWeightsProper | backend/hybrid_search_service.py:36-39 | non-negative raw weights normalise to weights usable for the score bounds |
| HybridSearch.KeyIdentifies | backend/hybrid_search_service.py:248-261 | equal truthy chunk ids give equal keys; equal keys mean equal chunk ids and, without one, equal video ids and rounded times |
| HybridSearch.Round2Close | backend/hybrid_search_service.py:259-260 | `round(x, 2)` is within 0.005 of `x` |
| HybridSearch.MinScore | backend/hybrid_search_service.py:128 | the minimum is attained and below every score |
| HybridSearch.MaxScore | backend/hybrid_search_service.py:127 | the maximum is attained and above every score |
| HybridSearch.ScaleFits | backend/hybrid_search_service.py:125-154 | every min-max normalised score lies in [0, 1] |
| HybridSearch.ScaleEnds | backend/hybrid_search_service.py:125-134 | the minimum normalises to 0 and, when scores differ, the maximum to 1; when all are equal every score normalises to 0 |
| HybridSearch.PutWellKept | backend/hybrid_search_service.py:136-181 | `d[k] = e` keeps the dictionary's key order distinct and complete |
| HybridSearch.Bm25EntrySound | backend/hybrid_search_service.py:136-141 | a keyword entry's combined score is its normalised score times the keyword weight, semantic part 0 |
| HybridSearch.SemanticEntrySound | backend/hybrid_search_service.py:156-193 | a vector entry's combined score is `n_b·w_bm25 + n_s·w_sem` on an existing key (else `n_s·w_sem`) |
| HybridSearch.AddBm25Hits | backend/hybrid_search_service.py:131-141 | the keyword loop equals `FoldBm25` |
| HybridSearch.AddSemanticHits | backend/hybrid_search_service.py:151-193 | the vector loop equals `FoldSemantic` |
| HybridSearch.FoldBm25Facts | backend/hybrid_search_service.py:131-141 | the keyword loop keeps the map's order, every entry sound, and adds exactly the hits' keys |
| HybridSearch.FoldSemanticFacts | backend/hybrid_search_service.py:151-193 | the vector loop keeps the map's order, every entry sound, and adds exactly the hits' keys |
| HybridSearch.Matches | backend/hybrid_search_service.py:210-222 | at most every query term matches a field |
| HybridSearch.BoostBounds | backend/hybrid_search_service.py:203-231 | the boost lies in [1, 1.05 + 0.38·number of query terms] |
| HybridSearch.MaxViews | backend/hybrid_search_service.py:200-201 | at least 1 and at least every entry's view count |
| HybridSearch.BoostAll | backend/hybrid_search_service.py:196-241 | the boosting loop equals `Boosted` over the map's order |
| HybridSearch.FuseSound | backend/hybrid_search_service.py:233-241 | a sound entry fuses to its weighted sum times the boost, keeping its metadata and normalised scores |
| HybridSearch.BoostedSound | backend/hybrid_search_service.py:203-241 | every boosted result scores its weighted sum times its own boost |
| HybridSearch.MergeResults | backend/hybrid_search_service.py:107-246 | `_merge_results` equals `MergeResultsSpec` and is sorted by non-increasing score |
| HybridSearch.MergeResultsCount | backend/hybrid_search_service.py:122-193 | one result per distinct key among all hits |
| HybridSearch.MergeResultsScores | backend/hybrid_search_service.py:131-241 | every merged result scores its weighted sum of normalised scores times its boost |
| HybridSearch.MergeResultsBounded | backend/hybrid_search_service.py:124-233 | with proper weights every fused score lies in [0, MaxBoost(number of query terms)] |
| HybridSearch.SourcesNeverMeet | backend/hybrid_search_service.py:131-193 | when keyword hits all carry chunk ids and vector hits none, no merged result has both scores non-zero |
| HybridSearch.CandidateK | backend/hybrid_search_service.py:63 | `max(3·top_k, 20)` is at least 20 and at least `3·top_k` |
| HybridSearch.PrefixTo | backend/hybrid_search_service.py:105 | `s[:k]` is a prefix of the length Python gives, negative `k` included |
| HybridSearch.Durations | backend/hybrid_search_service.py:94-99 | only non-empty video ids with positive durations enter the map |
| HybridSearch.DurationsComplete | backend/hybrid_search_service.py:94-99 | a video is in the map iff some result has it with a positive duration, and its value is one of those durations |
| HybridSearch.CollectDurations | backend/hybrid_search_service.py:94-99 | the durations loop equals `Durations` |
| HybridSearch.HybridSearchService.constructor | backend/hybrid_search_service.py:17-42 | the weights are the normalised constructor weights |
| HybridSearch.HybridSearchService.Search | backend/hybrid_search_service.py:44-105 | `search` equals `SearchSpec`: blank query → [], keyword hits only from a built index, a failed vector search read as no hits, merge, durations, clip merge, top-k cut |
| HybridSearch.SearchShape | backend/hybrid_search_service.py:56-105 | a blank query gives [] and at most `top_k` clips come back |
| HybridSearch.SearchSorted | backend/hybrid_search_service.py:102-105 | the returned clips come in non-increasing score order |
| HybridSearch.SearchBounded | backend/hybrid_search_service.py:44-105 | every returned clip scores in [0, 1.15·MaxBoost(number of query terms)] |
| HybridSearch.PrefixBounded | backend/hybrid_search_service.py:102-105 | the first `top_k` clips merged from fragments scoring in [0, hi] score in [0, 1.15·hi] |
| ClipMerger.ExpandWithinVideo | backend/clip_merger.py:134-169 | a finalised clip starts at or after 0 and, with a known duration, ends at or before it |
| ClipMerger.ExpandReachesMinimum | backend/clip_merger.py:147-169 | with an unknown duration and `end ≥ start`, the clip lasts at least the minimum duration |
| ClipMerger.ExpandCovers | backend/clip_merger.py:139-169 | with non-negative context a fragment inside the video stays inside its widened clip |
| ClipMerger.Informative | backend/clip_merger.py:173-179 | kept texts come from the input and are longer than 10 characters once lowercased and stripped |
| ClipMerger.InformativeDistinct | backend/clip_merger.py:173-179 | no two kept texts share a normalised form |
| ClipMerger.KeepInformative | backend/clip_merger.py:173-179 | the `seen`-set loop equals `Informative` |
| ClipMerger.ChosenLongest | backend/clip_merger.py:183-184 | the joined texts are three kept texts, or all when fewer are kept, and none is shorter than a kept text left out |
| ClipMerger.CombineText | backend/clip_merger.py:181-186 | the chosen texts joined by spaces; longer than 500 characters, cut to the first 500 followed by `...`; so at most 503 characters |
| ClipMerger.AverageWithin | backend/clip_merger.py:214 | an average lies between any bounds of its values |
| ClipMerger.AdoptMeta | backend/clip_merger.py:110-113 | adopting metadata never changes text, video id, start, end or duration |
| ClipMerger.Finalize | backend/clip_merger.py:130-229 | a finalised clip keeps its chunk id, video id and every other field but start, end and text; starts at or after 0 and, with a known duration, ends by it; takes the combined text, or the run's own text when that is empty; is a conclusion iff the combined text matches a pattern; scores the average of its run's scores |
| ClipMerger.MergeVideoClips | backend/clip_merger.py:72-128 | the per-video loop equals `MergeVideo` under the chosen merge step: `AsWritten` is the source's, `Intended` the corrected one (see Findings) |
| ClipMerger.MergeStep | backend/clip_merger.py:89-122 | one iteration: within the threshold it stretches the end, adds a new non-empty text, appends the score and, for a higher score, adopts the fragment's truthy metadata (and, in the corrected step, its score); otherwise it finishes the clip and starts one from the fragment; as `Step` |
| ClipMerger.WalkCount | backend/clip_merger.py:89-126 | at most one finished clip per later fragment |
| ClipMerger.WalkBreaks | backend/clip_merger.py:89-122 | the open clip ends at the running end `RunEnd`, and one clip has been finished per break, a fragment starting more than the threshold after that end |
| ClipMerger.MergeVideoCount | backend/clip_merger.py:76-128 | no fragments → no clips; otherwise one clip more than there are breaks, never more clips than fragments |
| ClipMerger.RunStart | backend/clip_merger.py:114-122 | the fragment the open clip started from is the first fragment or a later one |
| ClipMerger.WalkRun | backend/clip_merger.py:89-122 | the open clip is the fragment after the last break with every later fragment absorbed in order |
| ClipMerger.FinalizeWithin | backend/clip_merger.py:214-220 | a finalised score lies within the bounds of its fragments' scores |
| ClipMerger.MergeVideoWithin | backend/clip_merger.py:86-214 | every merged clip's score is an average of never-empty fragment scores, within their bounds |
| ClipMerger.MaxOf | backend/clip_merger.py:108 | the maximum of a non-empty list is attained and above every element |
| ClipMerger.Best | backend/clip_merger.py:108-113 | the first fragment with the top score of a run is one of its fragments and scores at least as high as each |
| ClipMerger.LastAbove | backend/clip_merger.py:108-113 | the last fragment scoring above the run's first one, or the first one |
| ClipMerger.AbsorbedIntended | backend/clip_merger.py:108-113 | with the corrected step, a run scores as its best fragment and carries that fragment's truthy metadata |
| ClipMerger.AbsorbedAsWritten | backend/clip_merger.py:108-113 | as written, a run keeps its first fragment's score and carries the truthy metadata of the last fragment scoring above it |
| ClipMerger.WalkKeepsBestScore | backend/clip_merger.py:104-113 | with the corrected step, the open clip's score is the maximum of the scores it has collected |
| ClipMerger.WalkTracksBest | backend/clip_merger.py:89-122 | with the corrected step, the open clip's score is the maximum of its scores, that of its best fragment, whose truthy metadata it carries |
| ClipMerger.WalkAsWritten | backend/clip_merger.py:89-122 | as written, the open clip keeps the score of the fragment it started from and carries the truthy metadata of the last later fragment scoring above that |
| ClipMerger.AbsorbAsWrittenKeepsWrongMeta | backend/clip_merger.py:108-113 | as written, scores 0.5, 0.8, 0.6 leave the clip with the second-best fragment's title; the corrected step keeps the best's |
| ClipMerger.RescoreBounds | backend/clip_merger.py:231-274 | unchanged for unknown duration; otherwise never negative, at most 1.15×, at most 0.345× for a conclusion, and the late-position penalty applies |
| ClipMerger.RescoreMiddleBoost | backend/clip_merger.py:264-270 | a non-conclusion clip centred between 5% and 75% of the video gains exactly 15% |
| ClipMerger.VideoIds | backend/clip_merger.py:45-53 | the distinct video ids, in first-occurrence order, covering every result |
| ClipMerger.Group | backend/clip_merger.py:45-48 | a group holds results of its video only |
| ClipMerger.GroupSizesTotal | backend/clip_merger.py:45-53 | the groups partition the results |
| ClipMerger.GroupHas | backend/clip_merger.py:45-48 | every result lands in the group of its video |
| ClipMerger.MergeClipsSorted | backend/clip_merger.py:67-68 | `merge_clips` returns clips by non-increasing score |
| ClipMerger.MergeClipsCount | backend/clip_merger.py:41-59 | no results → no clips, otherwise some; never more clips than results |
| ClipMerger.MergeClipsScores | backend/clip_merger.py:58-65 | fragments scoring in [0, hi] give clips scoring in [0, 1.15·hi] |
| ClipMerger.GroupByVideo | backend/clip_merger.py:45-48 | the `defaultdict(list)` loop yields `VideoIds` and each video's `Group` |
| ClipMerger.MergeGroups | backend/clip_merger.py:53-59 | the per-video merge loop equals `Assemble` |
| ClipMerger.RescoreAll | backend/clip_merger.py:62-65 | the rescoring loop equals `Rescored` |
| ClipMerger.MergeClips | backend/clip_merger.py:30-70 | `merge_clips` equals `MergeClipsSpec` and is sorted by non-increasing score |
| YouTubeScraper.Seconds | backend/youtube_scraper.py:242-244 | `_vtt_time_to_seconds` is non-negative and exactly the total milliseconds over 1000 |
| YouTubeScraper.SecondsOrder | backend/youtube_scraper.py:242-244 | converted times order and equate timestamps as their millisecond counts do |
| YouTubeScraper.StampRoundTrip | backend/youtube_scraper.py:208 | a written `HH:MM:SS.mmm` timestamp is matched and read back, whatever follows |
| YouTubeScraper.StampReadBack | backend/youtube_scraper.py:208 | a matched timestamp is in range and rewrites to exactly the matched text |
| YouTubeScraper.ArrowRoundTrip | backend/youtube_scraper.py:208 | `\s*-->\s*` and a written timestamp read back as that timestamp; trailing settings are ignored |
| YouTubeScraper.TimingRoundTrip | backend/youtube_scraper.py:208 | a written timing line with any whitespace gaps and trailing settings parses as its two timestamps |
| YouTubeScraper.TimingShape | backend/youtube_scraper.py:208 | every line that parses is two written timestamps around an arrow with whitespace gaps, followed by anything |
| YouTubeScraper.RemoveTagsFrom | backend/youtube_scraper.py:231 | removing tags only drops characters |
| YouTubeScraper.RemoveTagsTagFree | backend/youtube_scraper.py:231 | no `<[^>]+>` tag is left |
| YouTubeScraper.TagFreeFixed | backend/youtube_scraper.py:231 | a tag-free line is unchanged |
| YouTubeScraper.RemoveTagsIdempotent | backend/youtube_scraper.py:231 | removing tags twice removes nothing more |
| YouTubeScraper.SplitLines | backend/youtube_scraper.py:199 | `split('\n')` gives at least one piece and no piece holds a newline |
| YouTubeScraper.SplitLinesJoin | backend/youtube_scraper.py:199 | joining the pieces with newlines gives the text back |
| YouTubeScraper.JoinSplitLines | backend/youtube_scraper.py:199 | splitting newline-joined newline-free lines gives the lines back |
| YouTubeScraper.Classify | backend/youtube_scraper.py:205-233 | a line opens a cue iff its strip parses as a timing; a text line carries non-empty text |
| YouTubeScraper.ParseVtt | backend/youtube_scraper.py:194-240 | `_parse_vtt` equals `ParseVttSpec` |
| YouTubeScraper.FeedLine | backend/youtube_scraper.py:205-233 | one pass of the line loop, as `Feed` |
| YouTubeScraper.SegmentCount | backend/youtube_scraper.py:209-238 | no more segments than timing lines |
| YouTubeScraper.SegmentsHaveText | backend/youtube_scraper.py:210-238 | a cue is emitted only with text |
| YouTubeScraper.SegmentTimes | backend/youtube_scraper.py:214-227 | every segment's start and end are the converted times of a timing line of the file |
| YouTubeScraper.PreambleSkipped | backend/youtube_scraper.py:229 | lines before the first timing line do not contribute |
| YouTubeScraper.ClassifyHeader | backend/youtube_scraper.py:229 | the `WEBVTT` header and blank lines are ignored |
| YouTubeScraper.RenderParse | backend/youtube_scraper.py:194-240 | parsing a WebVTT file written from cues gives back the cues' segments |
| YouTubeScraper.FirstVtt | backend/youtube_scraper.py:153-158 | the first `vtt` entry, none before it |
| YouTubeScraper.LastPreferred | backend/youtube_scraper.py:153-158 | the last entry with a preferred extension, none after it |
| YouTubeScraper.SelectSubtitleUrl | backend/youtube_scraper.py:151-158 | the format loop equals `SubtitleUrlSpec` |
| YouTubeScraper.VttWins | backend/youtube_scraper.py:157-158 | a `vtt` entry decides the choice, whatever follows it |
| YouTubeScraper.NoVttLastPreferred | backend/youtube_scraper.py:154-156 | without a `vtt` entry the url is that of the last preferred entry |
| YouTubeScraper.NothingPreferred | backend/youtube_scraper.py:155 | no preferred entry → no url |
| YouTubeScraper.EntryVideo | backend/youtube_scraper.py:51-67 | an entry yields a video iff it is present with a truthy id; its url is the watch prefix and the id |
| YouTubeScraper.KeptEntries | backend/youtube_scraper.py:51-67 | kept videos have non-empty ids and watch urls, no more than the entries |
| YouTubeScraper.CollectEntries | backend/youtube_scraper.py:51-67 | the entry loop equals `KeptEntries` |
| YouTubeScraper.KeptEntriesAppend | backend/youtube_scraper.py:51-67 | filtering keeps the playlist order |
| YouTubeScraper.KeptEntriesExactly | backend/youtube_scraper.py:51-67 | a video is kept exactly when some entry contributes it |
| YouTubeScraper.GetPlaylistVideos | backend/youtube_scraper.py:33-100 | an error exactly when the extraction failed, with its message for other failures |
| YouTubeScraper.DownloadError | backend/youtube_scraper.py:83-93 | the generic download failure carries the extractor's message |
| YouTubeScraper.WithTranscripts | backend/youtube_scraper.py:260-275 | only videos with non-empty transcripts are kept |
| YouTubeScraper.PlaylistWithTranscripts | backend/youtube_scraper.py:246-275 | the transcript loop equals `PlaylistWithTranscriptsSpec` |
| YouTubeScraper.EmptyPlaylistRaises | backend/youtube_scraper.py:250-257 | an empty video list raises |
| YouTubeScraper.WithTranscriptsSound | backend/youtube_scraper.py:262-268 | every kept item is the fetched data of a listed video, with a transcript |
| YouTubeScraper.WithTranscriptsComplete | backend/youtube_scraper.py:262-268 | every listed video whose fetch has a non-empty transcript is kept |
| Chunking.Cost | backend/embedding_service.py:46-65 | the charged length is at least one per word |
| Chunking.CarrySlice | backend/embedding_service.py:63-64 | the words a flush carries are the last words of the run it flushed |
| Chunking.GroupBounds | backend/embedding_service.py:44-66 | after every prefix, the open and the flushed chunks lie where the loop puts them |
| Chunking.GroupCosts | backend/embedding_service.py:46-65 | `current_length` is the open chunk's cost and every flushed chunk reached `CHUNK_SIZE` |
| Chunking.CurrentNonEmpty | backend/embedding_service.py:63-64 | once a word is read the open chunk is never empty |
| Chunking.WordsCovered | backend/embedding_service.py:44-77 | every word of a long segment lies in a flushed chunk or the remainder |
| Chunking.FlushedAtThreshold | backend/embedding_service.py:48 | a chunk is flushed as soon as its cost reaches `CHUNK_SIZE`, not before |
| Chunking.FlushedOverlap | backend/embedding_service.py:63-64 | each chunk after a flush begins with the 10 carried words |
| Chunking.RemainderOverlap | backend/embedding_service.py:63-71 | the remaining words begin with the words the last flush carried |
| Chunking.EndAtBounds | backend/embedding_service.py:51 | interpolated ends lie in the segment's span and grow with the word index |
| Chunking.ChunkLongSegment | backend/embedding_service.py:38-77 | the word loop equals `LongChunks` |
| Chunking.CreateChunks | backend/embedding_service.py:16-79 | `create_chunks` equals `ChunksSpec` |
| Chunking.LongChunksChained | backend/embedding_service.py:42-73 | the first chunk starts at the segment start, each next chunk where the last ended, the last at the segment end |
| Chunking.SegmentChunksWithin | backend/embedding_service.py:28-77 | every chunk of a segment lies within its time span |
| Chunking.SegmentChunksOrigin | backend/embedding_service.py:33-76 | every chunk carries its segment's video keys |
| Chunking.ChunksSpecAppend | backend/embedding_service.py:22 | chunking keeps segment order |
| Chunking.ChunksSpecOrigin | backend/embedding_service.py:22-77 | segments with the same video keys give chunks with those keys |
| Chunking.Tagged | backend/embedding_service.py:93-100 | each segment, in order, with the video keys attached |
| Chunking.PrepareTranscript | backend/embedding_service.py:88-103 | `prepare_transcript_for_embedding` equals the chunks of the tagged segments, all carrying the video's keys |
| ChapterWindows.Members | backend/llm_service.py:137-142 | a segment joins a window iff it starts inside, ends inside, or covers it |
| ChapterWindows.CollectMembers | backend/llm_service.py:136-142 | the inner loop equals `Members` |
| ChapterWindows.CreateWindows | backend/llm_service.py:124-153 | `_create_windows` equals `CreateWindowsSpec` |
| ChapterWindows.AddWindow | backend/llm_service.py:132-151 | one outer pass appends the window at the current start exactly when it has members |
| ChapterWindows.CreateWindowsShape | backend/llm_service.py:126-151 | window starts strictly increase, are the first start plus whole strides, are below the video end; each window ends at `min(start + size, video end)` and holds its `Members` |
| ChapterWindows.CreateWindowsComplete | backend/llm_service.py:132-149 | a window is omitted only when no segment meets it |
| ChapterWindows.StripFence | backend/llm_service.py:60-65 | an unfenced reply is unchanged; the result is never longer |
| ChapterWindows.FenceRoundTrip | backend/llm_service.py:62-65 | a "```json" fence and a plain "```" fence are removed exactly |
| ChapterWindows.WithinOr | backend/llm_service.py:74-77 | a time inside the window bounds is kept, otherwise the bound replaces it |
| ChapterWindows.FallbackTitle | backend/llm_service.py:103 | up to 80 characters: the text; longer: exactly `Strip` of the first 80, then "..." |
| ChapterWindows.FallbackChapter | backend/llm_service.py:105-112 | the window's bounds, the first min(1000, length) characters of its text as description, the fallback title and no key concepts |
| ChapterWindows.ChapterWithin | backend/llm_service.py:67-112 | any chapter of a well-formed window lies inside it and carries its text |
| ChapterWindows.AttemptWindow | backend/llm_service.py:34-116 | every path of the retry loop breaks: one attempt, its chapter is `ChapterFor` of the first reply |
| ChapterWindows.GatherWithin | backend/llm_service.py:30-116 | chapters gathered from windows whose chapters lie inside them lie inside one of those windows |
| ChapterWindows.ChaptersUpToWithin | backend/llm_service.py:30-116 | every chapter from the first `n` windows lies inside one of them |
| ChapterWindows.ChaptersOf | backend/llm_service.py:30-120 | the window loop yields `ChaptersUpTo` with exactly one attempt per window |
| ChapterWindows.GenerateChapters | backend/llm_service.py:18-122 | windows of 300 s with 60 s overlap, their chapters, passed through `_refine_chapters` unchanged |
| ChapterWindows.GeneratedChaptersWithin | backend/llm_service.py:18-161 | every generated chapter lies inside a window and carries that window's transcript |
| WhisperMetrics.ModelName | backend/whisper_service.py:60-68 | a known size names itself; any other size gives "tiny" |
| WhisperMetrics.ModelNameIdempotent | backend/whisper_service.py:60-68 | resolving a resolved name changes nothing |
| WhisperMetrics.RunningMean | backend/whisper_service.py:304-308 | the running-mean update equals the mean of the extended list |
| WhisperMetrics.ReportOf | backend/whisper_service.py:313-333 | a copy of the counters; success rate 0 for no videos, in [0, 100], 100 when all succeeded; per-minute time 0 without audio, else `avg·60/audio` |
| WhisperMetrics.WhisperService.constructor | backend/whisper_service.py:25-43 | zeroed counters; the model name resolved from the size |
| WhisperMetrics.WhisperService.UpdateAccuracyMetrics | backend/whisper_service.py:298-311 | total +1; a success adds one success, its time to the running mean and its duration to the total; a failure adds one failure and nothing else; `total = successful + failed` is kept |
| WhisperMetrics.WhisperService.GetAccuracyMetrics | backend/whisper_service.py:313-333 | returns `ReportOf` the counters without changing them, success rate in [0, 100], total = successful + failed |
| WhisperMetrics.WhisperService.ResetMetrics | backend/whisper_service.py:335-343 | every counter back to zero |
| WhisperMetrics.AccuracyScenario | tests/test_whisper_service.py:83-85 | successes of 30 s and 45 s and one failure: total 3, successful 2, failed 1, average 37.5, success rate 200/3, 3 s per audio minute |
| KnowledgeGraph.RelTypeFor | backend/knowledge_graph_service.py:137 | SIMILAR_TO iff the similarity exceeds 0.85, else RELATES_TO |
| KnowledgeGraph.CandidatesUpToExact | backend/knowledge_graph_service.py:107-128 | the candidates are exactly the chapters of other videos, not itself, with similarity ≥ threshold, with their similarities |
| KnowledgeGraph.CollectCandidates | backend/knowledge_graph_service.py:108-128 | the inner loop equals `Candidates` |
| KnowledgeGraph.SliceToPrefix | backend/knowledge_graph_service.py:132 | `s[:n]` is a prefix of `min(n, len)` elements for `n ≥ 0` |
| KnowledgeGraph.TopSimilarBest | backend/knowledge_graph_service.py:130-132 | at most `max_connections` neighbours, drawn from the candidates, and every kept one is at least as similar as every dropped one |
| KnowledgeGraph.LinksOf | backend/knowledge_graph_service.py:135-145 | one typed relationship from the chapter to each kept neighbour, in order |
| KnowledgeGraph.IssueLinks | backend/knowledge_graph_service.py:135-147 | the relationship loop issues one typed relationship per kept neighbour |
| KnowledgeGraph.ConcatLength | backend/knowledge_graph_service.py:104-147 | parts of given lengths concatenate to their total length |
| KnowledgeGraph.LinksUpToSnoc | backend/knowledge_graph_service.py:107-147 | the relationships of one more chapter follow those of the chapters before |
| KnowledgeGraph.CreateSimilarityRelationships | backend/knowledge_graph_service.py:99-152 | the pass issues `SimilarityLinks` and returns their number |
| KnowledgeGraph.LinksUpToSound | backend/knowledge_graph_service.py:110-137 | each relationship joins chapters of different videos with similarity ≥ threshold, typed by its similarity |
| KnowledgeGraph.LinksForCount | backend/knowledge_graph_service.py:130-147 | each chapter contributes `min(max_connections, candidates)` relationships |
| KnowledgeGraph.RelationshipCount | backend/knowledge_graph_service.py:104-152 | the returned count is the sum over chapters of `min(max_connections, candidates)` |
| KnowledgeGraph.DefaultGraph | backend/knowledge_graph_service.py:22-66 | with the default arguments 0.75 and 3, every relationship has similarity ≥ 0.75, is typed by it, and there are at most three times as many relationships as chapters |
| KnowledgeGraph.BuildKnowledgeGraph | backend/knowledge_graph_service.py:22-66 | fewer than 2 chapters stop the build; otherwise the similarity pass's relationships |
| KnowledgeGraph.FirstByIdIds | backend/knowledge_graph_service.py:237-265 | every mentioned id has a node and no other id does |
| KnowledgeGraph.FirstByIdDistinct | backend/knowledge_graph_service.py:238-254 | one node per id |
| KnowledgeGraph.FirstByIdFirst | backend/knowledge_graph_service.py:238-265 | each node is the first mention of its id |
| KnowledgeGraph.FoldRecords | backend/knowledge_graph_service.py:226-276 | the record loop yields the first-mention nodes and one edge per linked record |
| KnowledgeGraph.AddRecord | backend/knowledge_graph_service.py:229-274 | one record adds its unseen chapters and, when linked, its edge |
| KnowledgeGraph.AddNode | backend/knowledge_graph_service.py:238-249 | a node is added only under an unseen id |
| KnowledgeGraph.AddClusterInfo | backend/knowledge_graph_service.py:290-317 | every node gets group 0 and nothing else changes |
| KnowledgeGraph.GetKnowledgeGraph | backend/knowledge_graph_service.py:226-288 | the nodes are the first-mention nodes in group 0, the edges those of the linked records, and the stats their counts |
| KnowledgeGraph.EdgesOfCount | backend/knowledge_graph_service.py:252-274 | one edge per record with both a relationship and a second chapter |
| KnowledgeGraph.EdgesOfEndpoints | backend/knowledge_graph_service.py:237-274 | both ends of every edge are ids of returned nodes |

## Left out

- Network and external services are parameters or absent: yt_dlp extraction, `requests` downloads, Pinecone, Neo4j and its Cypher queries, Gemini calls and `time.sleep`. This includes the NEXT_TOPIC and PREREQUISITE_OF queries, `_get_all_chapters` and the learning-path, graph-status and auto-build helpers of the knowledge graph service.
- Library internals are abstract parameters: the BM25Okapi formula, sentence embeddings, Whisper transcription and model loading, and cosine similarity.
- Persistence is modelled only by its effect on the index fields: pickling, file existence and removal. A failed save is the same as a successful one for the in-memory index, since only the file is affected.
- The FastAPI layer, the stub RAG service, the debug/test/setup scripts, and logging and printing are not part of this model.
- Floating point: times and scores are exact reals. `round(x, 2)` is modelled as round-half-even on reals, not on binary floats.
- Unicode: `\w`, whitespace and `lower()` are modelled on ASCII. Whitespace is the ASCII set Python recognises (space, `\t` to `\r`, and `\x1c` to `\x1f`); non-ASCII whitespace such as `\x85` and `\xa0`, and non-ASCII letters, are not modelled.
- Python dictionaries are records with the defaults already resolved. A Neo4j node or relationship counts as "truthy" when it is present.
- QueryPreprocessor: the literal abbreviation and synonym tables are a parameter; `Builtin` holds the source's entries, and `OopExample` evaluates `preprocess("oop")` on them. Other table entries are not evaluated one by one.
- ChapterWindows.CreateWindows: requires a window size larger than the overlap. The source loops forever otherwise, and with its constants (300 s, 60 s) it always is larger.
- ChapterWindows.GenerateChapters: the prompt text is not modelled; `key_concepts` (like title and description) is taken as the JSON decoder gives it, typed as a list of strings, so a value of another JSON type is not modelled.
- HybridSearch.MergeResultsScores: states the score of every result; its non-increasing order is stated by `HybridSearch.MergeResults`.
- ClipMerger.MergeVideoClips: callers in the pipeline pass `Intended`, the corrected merge step. `AsWritten` is the source's step, and `ClipMerger.WalkAsWritten` and `ClipMerger.AbsorbedAsWritten` state what it does; the two differ only in which fragment's metadata a run adopts when its fragments carry different metadata (see Findings).
- ClipMerger.MergeStep: the same choice; the pipeline runs it with `Intended`.
- ClipMerger.MergeGroups: runs the per-video merge with `Intended`, so an adopted title or url can differ from the source's for runs like scores 0.5, 0.8, 0.6 (see Findings).
- ClipMerger.MergeClips: the same; its scores, boundaries, texts and order do not depend on the choice, only adopted metadata does.
- Bm25.Ranked: equal scores are ordered later document first, as reversing a stable ascending argsort gives. `np.argsort` is not stable by default and `np.argpartition` picks arbitrarily among equal scores at the cut, so the source's order among ties is unspecified; what the `Bm25.Picked*` lemmas state does not depend on the order among ties.
- HybridSearch.HybridSearchService.Search: an exception from the keyword index while it is built is not modelled, since the modelled index search cannot fail once built. A vector search failure is the `None` parameter. Its clip merging runs the corrected merge step, as `ClipMerger.MergeClips` does.
- The per-language loop of `get_video_transcript` that fetches each subtitle url is the `fetch` parameter; only the format choice within one language is modelled.

## Findings

| source | as written | input that shows it | evidently intended | confidence | as-written member | corrected member |
|---|---|---|---|---|---|---|
| backend/clip_merger.py:108-113 | a joining fragment's metadata is adopted when its score beats `current_clip['score']`, which is never updated and stays the first fragment's score | fragments scoring 0.5, 0.8, 0.6 in one run: the third (0.6 > 0.5) overwrites the metadata adopted from the second (0.8), the best | adopt metadata from the best-scoring fragment so far | medium, not executed | ClipMerger.AbsorbAsWritten, ClipMerger.AbsorbedAsWritten, ClipMerger.WalkAsWritten, ClipMerger.AbsorbAsWrittenKeepsWrongMeta | ClipMerger.Absorb, ClipMerger.AbsorbedIntended, ClipMerger.WalkTracksBest |
