/**
 * The knowledge graph over video chapters (backend/knowledge_graph_service.py):
 * choosing each chapter's most similar chapters of other videos, and folding
 * the graph database's records into the node and edge lists shown to the
 * user. The Cypher queries and the cosine similarity of embeddings are
 * outside the model; the similarity is a parameter.
 */
module KnowledgeGraph {
  import opened Wrappers
  import opened Sorting

  // ---------------------------------------------------------------------------
  // _create_similarity_relationships
  // ---------------------------------------------------------------------------

  /** A chapter as `_get_all_chapters` returns it, reduced to what the similarity pass reads. */
  datatype ChapterRow = ChapterRow(chapterId: int, videoId: string, embedding: seq<real>)

  /** `1 - cosine(emb1, emb2)` of two chapters' embeddings. */
  type Similarity = (ChapterRow, ChapterRow) -> real

  /** An entry of the `similarities` list. */
  datatype Candidate = Candidate(chapter2Id: int, similarity: real)

  datatype RelType = SimilarTo | RelatesTo

  /** A `MERGE (c1)-[r:TYPE]->(c2) SET r.similarity = ...` the pass issues. */
  datatype Link = Link(from: int, to: int, relType: RelType, similarity: real)

  /** The default arguments of `build_knowledge_graph`. */
  const DefaultThreshold: real := 0.75
  const DefaultMaxConnections: nat := 3

  /** A similarity above 0.85 makes a SIMILAR_TO relationship, anything else RELATES_TO. */
  function RelTypeFor(similarity: real): (t: RelType)
    ensures t == SimilarTo <==> similarity > 0.85
  {
    if similarity > 0.85 then SimilarTo else RelatesTo
  }

  /** Chapter `j` is a neighbour candidate of chapter `i`: another video's chapter, similar enough. */
  predicate Qualifies(chs: seq<ChapterRow>, i: nat, j: nat, sim: Similarity, threshold: real)
    requires i < |chs| && j < |chs|
  {
    i != j && chs[i].videoId != chs[j].videoId && sim(chs[i], chs[j]) >= threshold
  }

  /** The candidates of chapter `i` among the first `n` chapters, in chapter order. */
  function CandidatesUpTo(chs: seq<ChapterRow>, i: nat, sim: Similarity, threshold: real, n: nat): (r: seq<Candidate>)
    requires i < |chs| && n <= |chs|
    ensures |r| <= n
  {
    if n == 0 then []
    else
      var j := n - 1;
      var init := CandidatesUpTo(chs, i, sim, threshold, j);
      if j == i || chs[i].videoId == chs[j].videoId then init
      else if sim(chs[i], chs[j]) >= threshold then init + [Candidate(chs[j].chapterId, sim(chs[i], chs[j]))]
      else init
  }

  /** The candidates are exactly the qualifying chapters among the first `n`, with their similarities. */
  lemma {:induction false} CandidatesUpToExact(chs: seq<ChapterRow>, i: nat, sim: Similarity, threshold: real, n: nat)
    requires i < |chs| && n <= |chs|
    ensures forall c | c in CandidatesUpTo(chs, i, sim, threshold, n) :: exists j :: (0 <= j < n && Qualifies(chs, i, j, sim, threshold)
      && c == Candidate(chs[j].chapterId, sim(chs[i], chs[j])))
    ensures forall j :: 0 <= j < n && Qualifies(chs, i, j, sim, threshold) ==>
      Candidate(chs[j].chapterId, sim(chs[i], chs[j])) in CandidatesUpTo(chs, i, sim, threshold, n)
  {
    if n > 0 {
      CandidatesUpToExact(chs, i, sim, threshold, n - 1);
    }
  }

  function Candidates(chs: seq<ChapterRow>, i: nat, sim: Similarity, threshold: real): seq<Candidate>
    requires i < |chs|
  {
    CandidatesUpTo(chs, i, sim, threshold, |chs|)
  }

  function SimilarityOf(c: Candidate): real { c.similarity }

  /** Python's `s[:n]`, a negative `n` counting from the end. */
  function SliceTo<T>(s: seq<T>, n: int): seq<T> {
    if n >= 0 then (if n < |s| then s[..n] else s)
    else if -n < |s| then s[..|s| + n]
    else []
  }

  /** The slice is a prefix; a non-negative bound keeps that many elements, or all of them. */
  lemma SliceToPrefix<T>(s: seq<T>, n: int)
    ensures var r := SliceTo(s, n);
      && |r| <= |s| && r == s[..|r|]
      && (n >= 0 ==> |r| == if n < |s| then n else |s|)
  {
  }

  /** `similarities[:max_connections]` after sorting by similarity, highest first. */
  function TopSimilar(chs: seq<ChapterRow>, i: nat, sim: Similarity, threshold: real, maxConnections: int): seq<Candidate>
    requires i < |chs|
  {
    SliceTo(SortDesc(Candidates(chs, i, sim, threshold), SimilarityOf), maxConnections)
  }

  /** The relationships issued for chapter `i`. */
  function LinksFor(chs: seq<ChapterRow>, i: nat, sim: Similarity, threshold: real, maxConnections: int): (r: seq<Link>)
    requires i < |chs|
    ensures |r| == |TopSimilar(chs, i, sim, threshold, maxConnections)|
  {
    LinksOf(chs[i].chapterId, TopSimilar(chs, i, sim, threshold, maxConnections))
  }

  /** One typed relationship from `from` to each kept neighbour, in order. */
  function LinksOf(from: int, top: seq<Candidate>): (r: seq<Link>)
    ensures |r| == |top|
    ensures forall k :: 0 <= k < |top| ==>
      r[k] == Link(from, top[k].chapter2Id, RelTypeFor(top[k].similarity), top[k].similarity)
  {
    seq(|top|, k requires 0 <= k < |top| => Link(from, top[k].chapter2Id, RelTypeFor(top[k].similarity), top[k].similarity))
  }

  /** `part(0) + ... + part(n - 1)`. */
  function Concat<T>(part: nat -> seq<T>, n: nat): seq<T> {
    if n == 0 then [] else Concat(part, n - 1) + part(n - 1)
  }

  /** `count(0) + ... + count(n - 1)`. */
  function SumTo(count: nat -> nat, n: nat): nat {
    if n == 0 then 0 else SumTo(count, n - 1) + count(n - 1)
  }

  /** A sum of `n` counts, each at most `bound`, is at most `bound * n`. */
  lemma {:induction false} SumBounded(count: nat -> nat, n: nat, bound: nat)
    requires forall i :: 0 <= i < n ==> count(i) <= bound
    ensures SumTo(count, n) <= bound * n
  {
    if n > 0 {
      SumBounded(count, n - 1, bound);
    }
  }

  /** Parts of the given lengths concatenate to their total length. */
  lemma {:induction false} ConcatLength<T>(part: nat -> seq<T>, count: nat -> nat, n: nat)
    requires forall i :: 0 <= i < n ==> |part(i)| == count(i)
    ensures |Concat(part, n)| == SumTo(count, n)
  {
    if n > 0 {
      ConcatLength(part, count, n - 1);
    }
  }

  /** The relationships issued for the first `n` chapters, chapter by chapter. */
  function LinksUpTo(chs: seq<ChapterRow>, sim: Similarity, threshold: real, maxConnections: int, n: nat): seq<Link>
    requires n <= |chs|
  {
    Concat((i: nat) => if i < |chs| then LinksFor(chs, i, sim, threshold, maxConnections) else [], n)
  }

  lemma LinksUpToSnoc(chs: seq<ChapterRow>, sim: Similarity, threshold: real, maxConnections: int, n: nat)
    requires 0 < n <= |chs|
    ensures LinksUpTo(chs, sim, threshold, maxConnections, n)
         == LinksUpTo(chs, sim, threshold, maxConnections, n - 1) + LinksFor(chs, n - 1, sim, threshold, maxConnections)
  {
    var part := (i: nat) => if i < |chs| then LinksFor(chs, i, sim, threshold, maxConnections) else [];
    assert LinksUpTo(chs, sim, threshold, maxConnections, n) == Concat(part, n - 1) + part(n - 1);
  }

  function SimilarityLinks(chs: seq<ChapterRow>, sim: Similarity, threshold: real, maxConnections: int): seq<Link> {
    LinksUpTo(chs, sim, threshold, maxConnections, |chs|)
  }

  /** The inner loop over `j`: the candidates of chapter `i`, in chapter order. */
  method CollectCandidates(chapters: seq<ChapterRow>, i: nat, sim: Similarity, threshold: real)
    returns (similarities: seq<Candidate>)
    requires i < |chapters|
    ensures similarities == Candidates(chapters, i, sim, threshold)
  {
    similarities := [];
    for j := 0 to |chapters|
      invariant similarities == CandidatesUpTo(chapters, i, sim, threshold, j)
    {
      if i == j {
        continue;
      }
      if chapters[i].videoId == chapters[j].videoId {
        continue;
      }
      var similarity := sim(chapters[i], chapters[j]);
      if similarity >= threshold {
        similarities := similarities + [Candidate(chapters[j].chapterId, similarity)];
      }
    }
  }

  /** The loop over the kept neighbours: one typed relationship each. */
  method IssueLinks(from: int, topSimilar: seq<Candidate>) returns (issued: seq<Link>)
    ensures |issued| == |topSimilar|
    ensures forall k :: 0 <= k < |issued| ==>
      issued[k] == Link(from, topSimilar[k].chapter2Id, RelTypeFor(topSimilar[k].similarity), topSimilar[k].similarity)
  {
    issued := [];
    for k := 0 to |topSimilar|
      invariant |issued| == k
      invariant forall m :: 0 <= m < k ==>
        issued[m] == Link(from, topSimilar[m].chapter2Id, RelTypeFor(topSimilar[m].similarity), topSimilar[m].similarity)
    {
      var sim := topSimilar[k];
      var relType := if sim.similarity > 0.85 then SimilarTo else RelatesTo;
      issued := issued + [Link(from, sim.chapter2Id, relType, sim.similarity)];
    }
  }

  /**
   * `_create_similarity_relationships`: for each chapter, collect the
   * similar-enough chapters of other videos, sort them by similarity, keep
   * the first `max_connections` and issue one relationship for each; the
   * count of issued relationships is returned.
   */
  method CreateSimilarityRelationships(chapters: seq<ChapterRow>, sim: Similarity, threshold: real, maxConnections: int)
    returns (links: seq<Link>, relationshipsCreated: nat)
    ensures links == SimilarityLinks(chapters, sim, threshold, maxConnections)
    ensures relationshipsCreated == |links|
  {
    links, relationshipsCreated := [], 0;
    for i := 0 to |chapters|
      invariant links == LinksUpTo(chapters, sim, threshold, maxConnections, i)
      invariant relationshipsCreated == |links|
    {
      var similarities := CollectCandidates(chapters, i, sim, threshold);
      similarities := SortDesc(similarities, SimilarityOf);
      var topSimilar := SliceTo(similarities, maxConnections);
      var issued := IssueLinks(chapters[i].chapterId, topSimilar);
      assert issued == LinksFor(chapters, i, sim, threshold, maxConnections);
      LinksUpToSnoc(chapters, sim, threshold, maxConnections, i + 1);
      links := links + issued;
      relationshipsCreated := relationshipsCreated + |issued|;
    }
  }

  /**
   * The neighbours kept for chapter `i`: drawn from the candidates, at most
   * `max_connections` of them (all of them when there are fewer), in
   * non-increasing similarity, and none outranked by a candidate left out.
   */
  lemma TopSimilarBest(chs: seq<ChapterRow>, i: nat, sim: Similarity, threshold: real, maxConnections: int)
    requires i < |chs| && maxConnections >= 0
    ensures var cands := Candidates(chs, i, sim, threshold);
      var top := TopSimilar(chs, i, sim, threshold, maxConnections);
      && |top| == (if maxConnections < |cands| then maxConnections else |cands|)
      && multiset(top) <= multiset(cands)
      && SortedDesc(top, SimilarityOf)
      && forall c, d :: c in top && d in multiset(cands) - multiset(top) ==> c.similarity >= d.similarity
  {
    var cands := Candidates(chs, i, sim, threshold);
    var sorted := SortDesc(cands, SimilarityOf);
    SortDescFacts(cands, SimilarityOf);
    var top := SliceTo(sorted, maxConnections);
    SliceToPrefix(sorted, maxConnections);
    var k := |top|;
    assert sorted == top + sorted[k..];
    assert multiset(sorted) == multiset(top) + multiset(sorted[k..]);
    SortedTail(sorted, SimilarityOf, k);
    forall c, d | c in top && d in multiset(cands) - multiset(top)
      ensures c.similarity >= d.similarity
    {
      assert d in multiset(sorted[k..]);
      PrefixDominates(sorted, SimilarityOf, k, c, d);
    }
  }

  /** Each relationship joins chapters of different videos, similar enough, typed by its similarity. */
  lemma {:induction false} LinksUpToSound(chs: seq<ChapterRow>, sim: Similarity, threshold: real, maxConnections: int, n: nat)
    requires n <= |chs|
    ensures forall l | l in LinksUpTo(chs, sim, threshold, maxConnections, n) ::
      && (exists i, j :: 0 <= i < n && 0 <= j < |chs| && Qualifies(chs, i, j, sim, threshold)
            && l.from == chs[i].chapterId && l.to == chs[j].chapterId && l.similarity == sim(chs[i], chs[j]))
      && l.similarity >= threshold
      && (l.relType == SimilarTo <==> l.similarity > 0.85)
  {
    if n > 0 {
      LinksUpToSound(chs, sim, threshold, maxConnections, n - 1);
      LinksUpToSnoc(chs, sim, threshold, maxConnections, n);
      var i := n - 1;
      var cands := Candidates(chs, i, sim, threshold);
      var sorted := SortDesc(cands, SimilarityOf);
      SortDescFacts(cands, SimilarityOf);
      var top := TopSimilar(chs, i, sim, threshold, maxConnections);
      SliceToPrefix(sorted, maxConnections);
      CandidatesUpToExact(chs, i, sim, threshold, |chs|);
      forall l | l in LinksFor(chs, i, sim, threshold, maxConnections)
        ensures exists j :: (0 <= j < |chs| && Qualifies(chs, i, j, sim, threshold)
            && l.from == chs[i].chapterId && l.to == chs[j].chapterId && l.similarity == sim(chs[i], chs[j]))
      {
        var k :| 0 <= k < |top| && l == LinksFor(chs, i, sim, threshold, maxConnections)[k];
        assert top[k] in multiset(sorted);
        assert top[k] in cands;
      }
    }
  }

  function Min(a: int, b: int): int { if a <= b then a else b }

  /** Σ over the first `n` chapters of `min(max_connections, number of candidates)`. */
  function ExpectedCount(chs: seq<ChapterRow>, sim: Similarity, threshold: real, maxConnections: nat, n: nat): nat
    requires n <= |chs|
  {
    SumTo((i: nat) => if i < |chs| then Allowance(chs, i, sim, threshold, maxConnections) else 0, n)
  }

  /** `min(max_connections, number of candidates)` for chapter `i`. */
  function Allowance(chs: seq<ChapterRow>, i: nat, sim: Similarity, threshold: real, maxConnections: nat): nat
    requires i < |chs|
  {
    Min(maxConnections, |Candidates(chs, i, sim, threshold)|)
  }

  lemma LinksForCount(chs: seq<ChapterRow>, i: nat, sim: Similarity, threshold: real, maxConnections: nat)
    requires i < |chs|
    ensures |LinksFor(chs, i, sim, threshold, maxConnections)| == Allowance(chs, i, sim, threshold, maxConnections)
  {
    var cands := Candidates(chs, i, sim, threshold);
    assert |SortDesc(cands, SimilarityOf)| == |cands|;
    SliceToPrefix(SortDesc(cands, SimilarityOf), maxConnections);
  }

  /** The returned count is the sum over chapters of `min(max_connections, candidates)`. */
  lemma RelationshipCount(chs: seq<ChapterRow>, sim: Similarity, threshold: real, maxConnections: nat, n: nat)
    requires n <= |chs|
    ensures |LinksUpTo(chs, sim, threshold, maxConnections, n)| == ExpectedCount(chs, sim, threshold, maxConnections, n)
  {
    var part := (i: nat) => if i < |chs| then LinksFor(chs, i, sim, threshold, maxConnections) else [];
    var count := (i: nat) => if i < |chs| then Allowance(chs, i, sim, threshold, maxConnections) else 0;
    forall i | 0 <= i < n
      ensures |part(i)| == count(i)
    {
      LinksForCount(chs, i, sim, threshold, maxConnections);
    }
    ConcatLength(part, count, n);
  }

  /**
   * The similarity pass of `build_knowledge_graph`: with fewer than two
   * chapters it stops before the pass (`None`); otherwise it returns the
   * issued relationships.
   */
  method BuildKnowledgeGraph(chapters: seq<ChapterRow>, sim: Similarity, threshold: real, maxConnections: int)
    returns (r: Option<seq<Link>>)
    ensures |chapters| < 2 <==> r == None
    ensures r.Some? ==> r.value == SimilarityLinks(chapters, sim, threshold, maxConnections)
  {
    if |chapters| < 2 {
      return None;
    }
    var links, _ := CreateSimilarityRelationships(chapters, sim, threshold, maxConnections);
    r := Some(links);
  }

  /**
   * With the default arguments (threshold 0.75, at most 3 connections) every
   * relationship has similarity at least 0.75 and is typed by it, and no
   * chapter contributes more than 3, so there are at most 3 per chapter.
   */
  lemma DefaultGraph(chs: seq<ChapterRow>, sim: Similarity)
    ensures forall l | l in SimilarityLinks(chs, sim, DefaultThreshold, DefaultMaxConnections) ::
      l.similarity >= 0.75 && (l.relType == SimilarTo <==> l.similarity > 0.85)
    ensures |SimilarityLinks(chs, sim, DefaultThreshold, DefaultMaxConnections)| <= 3 * |chs|
  {
    LinksUpToSound(chs, sim, DefaultThreshold, DefaultMaxConnections, |chs|);
    RelationshipCount(chs, sim, DefaultThreshold, DefaultMaxConnections, |chs|);
    var count := (i: nat) => if i < |chs| then Allowance(chs, i, sim, DefaultThreshold, DefaultMaxConnections) else 0;
    SumBounded(count, |chs|, 3);
  }

  // ---------------------------------------------------------------------------
  // get_knowledge_graph: records to nodes and edges
  // ---------------------------------------------------------------------------

  /** A chapter node's properties as a record carries them. */
  datatype ChapterNode = ChapterNode(elementId: string, title: string, description: string, startTime: real, endTime: real)

  datatype VideoNode = VideoNode(id: string, url: string, title: string)

  /** A relationship of a record: its type and its `similarity` property, if any. */
  datatype Relationship = Relationship(relType: string, similarity: Option<real>)

  /** One row of the query: the chapter, an optional relationship and neighbour, and their videos. */
  datatype Record = Record(c: ChapterNode, r: Option<Relationship>, c2: Option<ChapterNode>, v: Option<VideoNode>, v2: Option<VideoNode>)

  /** A node of the returned graph; `group` is set by `_add_cluster_info`. */
  datatype GraphNode = GraphNode(
    id: string,
    nodeLabel: string,   // 'label'
    title: string,
    description: string,
    startTime: real,
    endTime: real,
    videoId: Option<string>,
    videoUrl: Option<string>,
    videoTitle: Option<string>,
    group: Option<int>)

  datatype Edge = Edge(from: string, to: string, relType: string, similarity: real)

  datatype Graph = Graph(nodes: seq<GraphNode>, edges: seq<Edge>, totalNodes: nat, totalEdges: nat)

  /** The node dictionary built for a chapter and its (optional) video. */
  function NodeOf(c: ChapterNode, v: Option<VideoNode>): GraphNode {
    GraphNode(c.elementId, c.title, c.title, c.description, c.startTime, c.endTime,
      if v.Some? then Some(v.value.id) else None,
      if v.Some? then Some(v.value.url) else None,
      if v.Some? then Some(v.value.title) else None,
      None)
  }

  /** A record yields an edge when it has both a relationship and a second chapter. */
  predicate Linked(rec: Record) {
    rec.r.Some? && rec.c2.Some?
  }

  /** The chapters a record mentions, in order: its chapter, then its neighbour when linked. */
  function Mentions(rec: Record): seq<GraphNode> {
    [NodeOf(rec.c, rec.v)] + (if Linked(rec) then [NodeOf(rec.c2.value, rec.v2)] else [])
  }

  function AllMentions(records: seq<Record>): seq<GraphNode> {
    if records == [] then [] else AllMentions(records[..|records| - 1]) + Mentions(records[|records| - 1])
  }

  /** A missing or zero similarity becomes 0.0. */
  function EdgeOf(rec: Record): Edge
    requires Linked(rec)
  {
    Edge(rec.c.elementId, rec.c2.value.elementId, rec.r.value.relType, rec.r.value.similarity.GetOr(0.0))
  }

  function EdgesOf(records: seq<Record>): seq<Edge> {
    if records == [] then []
    else
      var last := records[|records| - 1];
      EdgesOf(records[..|records| - 1]) + (if Linked(last) then [EdgeOf(last)] else [])
  }

  function Ids(ns: seq<GraphNode>): set<string> {
    set n | n in ns :: n.id
  }

  /** The nodes in order of first mention, one per id, each as first mentioned. */
  function FirstById(ns: seq<GraphNode>): seq<GraphNode> {
    if ns == [] then []
    else
      var init := FirstById(ns[..|ns| - 1]);
      var n := ns[|ns| - 1];
      if n.id in Ids(init) then init else init + [n]
  }

  lemma FirstByIdSnoc(ns: seq<GraphNode>, n: GraphNode)
    ensures FirstById(ns + [n]) == if n.id in Ids(FirstById(ns)) then FirstById(ns) else FirstById(ns) + [n]
  {
    assert (ns + [n])[..|ns|] == ns;
  }

  lemma IdsSnoc(ns: seq<GraphNode>, n: GraphNode)
    ensures Ids(ns + [n]) == Ids(ns) + {n.id}
  {
    forall x | x in Ids(ns + [n]) ensures x in Ids(ns) + {n.id} {
      var m :| m in ns + [n] && m.id == x;
      if m != n { assert m in ns; }
    }
    forall x | x in Ids(ns) ensures x in Ids(ns + [n]) {
      var m :| m in ns && m.id == x;
      assert m in ns + [n];
    }
  }

  lemma AllMentionsSnoc(records: seq<Record>, i: nat)
    requires i < |records|
    ensures AllMentions(records[..i + 1]) == AllMentions(records[..i]) + Mentions(records[i])
    ensures EdgesOf(records[..i + 1]) == EdgesOf(records[..i]) + (if Linked(records[i]) then [EdgeOf(records[i])] else [])
  {
    assert records[..i + 1][..i] == records[..i];
  }

  predicate DistinctIds(ns: seq<GraphNode>) {
    forall a, b :: 0 <= a < b < |ns| ==> ns[a].id != ns[b].id
  }

  /** `n` is the first element of `ns` with its id. */
  predicate FirstOfId(ns: seq<GraphNode>, n: GraphNode) {
    exists j :: 0 <= j < |ns| && ns[j] == n && forall k :: 0 <= k < j ==> ns[k].id != n.id
  }

  /** Every mentioned id has a node, and no other id does. */
  lemma {:induction false} FirstByIdIds(ns: seq<GraphNode>)
    ensures Ids(FirstById(ns)) == Ids(ns)
  {
    if ns != [] {
      var pre := ns[..|ns| - 1];
      var n := ns[|ns| - 1];
      FirstByIdIds(pre);
      var init := FirstById(pre);
      assert ns == pre + [n];
      IdsSnoc(pre, n);
      IdsSnoc(init, n);
    }
  }

  /** One node per distinct id. */
  lemma {:induction false} FirstByIdDistinct(ns: seq<GraphNode>)
    ensures DistinctIds(FirstById(ns))
  {
    if ns != [] {
      var pre := ns[..|ns| - 1];
      var n := ns[|ns| - 1];
      FirstByIdDistinct(pre);
      var init := FirstById(pre);
      if n.id !in Ids(init) {
        var r := init + [n];
        forall a, b | 0 <= a < b < |r| ensures r[a].id != r[b].id {
          if b == |init| {
            assert r[a] in init;
          }
        }
      }
    }
  }

  /** Each node is the first mention of its id. */
  lemma {:induction false} FirstByIdFirst(ns: seq<GraphNode>)
    ensures forall n | n in FirstById(ns) :: FirstOfId(ns, n)
  {
    if ns != [] {
      var pre := ns[..|ns| - 1];
      var n := ns[|ns| - 1];
      FirstByIdFirst(pre);
      var init := FirstById(pre);
      assert ns == pre + [n];
      forall m | m in FirstById(ns) ensures FirstOfId(ns, m) {
        if m in init {
          assert FirstOfId(pre, m);
          var j :| 0 <= j < |pre| && pre[j] == m && forall k :: 0 <= k < j ==> pre[k].id != m.id;
          assert ns[j] == m;
        } else {
          FirstByIdIds(pre);
          assert m == n && n.id !in Ids(pre);
          forall k | 0 <= k < |pre| ensures ns[k].id != n.id {
            assert pre[k] in pre;
          }
          assert ns[|pre|] == m;
        }
      }
    }
  }

  /**
   * The record loop of `get_knowledge_graph`: the node dictionary (kept here
   * as its insertion-ordered values and its key set) gains each chapter the
   * first time its id is seen; each linked record adds one edge.
   */
  method FoldRecords(records: seq<Record>) returns (nodes: seq<GraphNode>, edges: seq<Edge>)
    ensures nodes == FirstById(AllMentions(records))
    ensures edges == EdgesOf(records)
  {
    nodes, edges := [], [];
    var ids: set<string> := {};
    for i := 0 to |records|
      invariant nodes == FirstById(AllMentions(records[..i]))
      invariant ids == Ids(nodes)
      invariant edges == EdgesOf(records[..i])
    {
      AllMentionsSnoc(records, i);
      nodes, ids, edges := AddRecord(records[i], nodes, ids, edges, AllMentions(records[..i]));
    }
    assert records[..|records|] == records;
  }

  /** One pass of the record loop. */
  method AddRecord(rec: Record, nodes: seq<GraphNode>, ids: set<string>, edges: seq<Edge>, ghost before: seq<GraphNode>)
    returns (nodes': seq<GraphNode>, ids': set<string>, edges': seq<Edge>)
    requires nodes == FirstById(before) && ids == Ids(nodes)
    ensures nodes' == FirstById(before + Mentions(rec)) && ids' == Ids(nodes')
    ensures edges' == edges + if Linked(rec) then [EdgeOf(rec)] else []
  {
    var node := NodeOf(rec.c, rec.v);
    nodes', ids' := AddNode(node, nodes, ids, before);
    edges' := edges;
    if rec.r.Some? && rec.c2.Some? {
      var node2 := NodeOf(rec.c2.value, rec.v2);
      nodes', ids' := AddNode(node2, nodes', ids', before + [node]);
      assert before + Mentions(rec) == (before + [node]) + [node2];
      edges' := edges' + [EdgeOf(rec)];
    } else {
      assert before + Mentions(rec) == before + [node];
    }
  }

  /** `if id not in nodes_dict: nodes_dict[id] = node`. */
  method AddNode(node: GraphNode, nodes: seq<GraphNode>, ids: set<string>, ghost before: seq<GraphNode>)
    returns (nodes': seq<GraphNode>, ids': set<string>)
    requires nodes == FirstById(before) && ids == Ids(nodes)
    ensures nodes' == FirstById(before + [node]) && ids' == Ids(nodes')
  {
    FirstByIdSnoc(before, node);
    nodes', ids' := nodes, ids;
    if node.id !in ids {
      IdsSnoc(nodes, node);
      nodes' := nodes + [node];
      ids' := ids + {node.id};
    }
  }

  /** `_add_cluster_info`: every node is put in cluster 0, nothing else changes. */
  method AddClusterInfo(nodes: seq<GraphNode>) returns (r: seq<GraphNode>)
    ensures |r| == |nodes|
    ensures forall k :: 0 <= k < |r| ==> r[k] == nodes[k].(group := Some(0))
  {
    r := nodes;
    for k := 0 to |r|
      invariant |r| == |nodes|
      invariant forall m :: 0 <= m < k ==> r[m] == nodes[m].(group := Some(0))
      invariant forall m :: k <= m < |r| ==> r[m] == nodes[m]
    {
      r := r[k := r[k].(group := Some(0))];
    }
  }

  /**
   * `get_knowledge_graph` after its query: fold the records, assign the
   * cluster, and count nodes and edges.
   */
  method GetKnowledgeGraph(records: seq<Record>) returns (g: Graph)
    ensures |g.nodes| == |FirstById(AllMentions(records))|
    ensures forall k :: 0 <= k < |g.nodes| ==> g.nodes[k] == FirstById(AllMentions(records))[k].(group := Some(0))
    ensures g.edges == EdgesOf(records)
    ensures g.totalNodes == |g.nodes| && g.totalEdges == |g.edges|
  {
    var nodes, edges := FoldRecords(records);
    nodes := AddClusterInfo(nodes);
    g := Graph(nodes, edges, |nodes|, |edges|);
  }

  /** One edge per linked record. */
  lemma {:induction false} EdgesOfCount(records: seq<Record>)
    ensures |EdgesOf(records)| == |set k | 0 <= k < |records| && Linked(records[k])|
  {
    if records != [] {
      var pre := records[..|records| - 1];
      var last := records[|records| - 1];
      EdgesOfCount(pre);
      var s := set k | 0 <= k < |pre| && Linked(pre[k]);
      var t := set k | 0 <= k < |records| && Linked(records[k]);
      assert t == s + (if Linked(last) then {|pre|} else {}) by {
        forall k | k in t ensures k in s + (if Linked(last) then {|pre|} else {}) {
          if k < |pre| { assert pre[k] == records[k]; }
        }
        forall k | k in s ensures k in t { assert pre[k] == records[k]; }
      }
    }
  }

  /** Both ends of every edge are ids of nodes the records mention. */
  lemma {:induction false} EdgesOfEndpoints(records: seq<Record>)
    ensures forall e | e in EdgesOf(records) :: e.from in Ids(AllMentions(records)) && e.to in Ids(AllMentions(records))
  {
    if records != [] {
      var pre := records[..|records| - 1];
      var last := records[|records| - 1];
      EdgesOfEndpoints(pre);
      var mentions := AllMentions(records);
      assert mentions == AllMentions(pre) + Mentions(last);
      assert Ids(mentions) == Ids(AllMentions(pre)) + Ids(Mentions(last));
      if Linked(last) {
        assert Mentions(last)[0].id == last.c.elementId && Mentions(last)[1].id == last.c2.value.elementId;
        assert Mentions(last)[0] in Mentions(last) && Mentions(last)[1] in Mentions(last);
      }
    }
  }
}
