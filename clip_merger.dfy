/**
 * Clip merging (backend/clip_merger.py): fused search results are grouped by
 * video, sorted by start time, and neighbouring fragments whose gap is within
 * the merge threshold become one clip. Each clip is widened by some context,
 * stretched to a minimum duration, given a combined text and the average
 * score of its fragments, and rescored by its position in the video.
 */
module ClipMerger {
  import opened Text
  import opened Sorting
  import opened Records

  /** The four tuning values of `ClipMerger.__init__`, in seconds. */
  datatype Config = Config(mergeThreshold: real, minClipDuration: real, contextBefore: real, contextAfter: real)

  /**
   * A merged clip: the dictionary of the fused result it grew from, with new
   * bounds, text and score, and the `_is_conclusion` flag.
   */
  datatype Clip = Clip(chunkId: string, score: real, bm25Score: real, semanticScore: real, meta: Meta, isConclusion: bool)

  function Max(a: real, b: real): real { if a >= b then a else b }
  function Min(a: real, b: real): real { if a <= b then a else b }

  // ----- Boundaries (`_finalize_clip`, first half) -----

  datatype Bounds = Bounds(start: real, end: real)

  /** `end + extra`, capped at the video's end when its duration is known. */
  function Forward(end: real, extra: real, duration: real): real {
    if duration > 0.0 then Min(duration, end + extra) else end + extra
  }

  /**
   * Add context on both sides; if the clip is still shorter than the minimum,
   * widen it (1.2 times half the shortfall backward, 0.8 times forward), and
   * if the start is then pinned at 0, push the end out by what is missing.
   */
  function Expand(cfg: Config, start: real, end: real, duration: real): Bounds {
    var s1 := Max(0.0, start - cfg.contextBefore);
    var e1 := Forward(end, cfg.contextAfter, duration);
    if e1 - s1 < cfg.minClipDuration then
      var need := (cfg.minClipDuration - (e1 - s1)) / 2.0;
      var s2 := Max(0.0, s1 - need * 1.2);
      var e2 := Forward(e1, need * 0.8, duration);
      if s2 == 0.0 && e2 - s2 < cfg.minClipDuration then
        Bounds(s2, Forward(e2, cfg.minClipDuration - (e2 - s2), duration))
      else Bounds(s2, e2)
    else Bounds(s1, e1)
  }

  /** A clip never starts before 0 and, when the video's duration is known, never ends after it. */
  lemma ExpandWithinVideo(cfg: Config, start: real, end: real, duration: real)
    ensures Expand(cfg, start, end, duration).start >= 0.0
    ensures duration > 0.0 ==> Expand(cfg, start, end, duration).end <= duration
  {
  }

  /** When the duration is unknown a clip lasts at least the minimum duration. */
  lemma ExpandReachesMinimum(cfg: Config, start: real, end: real, duration: real)
    requires duration <= 0.0
    ensures var b := Expand(cfg, start, end, duration); b.end - b.start >= cfg.minClipDuration
  {
  }

  /** With non-negative context, a fragment inside the video stays inside its widened clip. */
  lemma ExpandCovers(cfg: Config, start: real, end: real, duration: real)
    requires cfg.contextBefore >= 0.0 && cfg.contextAfter >= 0.0
    requires 0.0 <= start <= end && (duration > 0.0 ==> end <= duration)
    ensures var b := Expand(cfg, start, end, duration); b.start <= start && end <= b.end
  {
  }

  // ----- Text (`_finalize_clip`, second half) -----

  /** `text.lower().strip()` */
  function Normal(t: string): string {
    Strip(Lower(t))
  }

  /** The normalised forms of `texts`. */
  function Normals(texts: seq<string>): set<string> {
    set t | t in texts :: Normal(t)
  }

  /**
   * The texts the `seen` loop keeps, in order: those whose normalised form has
   * more than 10 characters and differs from that of every text kept before.
   */
  function Informative(texts: seq<string>): (r: seq<string>)
    ensures forall t | t in r :: t in texts && |Normal(t)| > 10
  {
    if texts == [] then []
    else
      var p := Informative(texts[..|texts| - 1]);
      var t := texts[|texts| - 1];
      if |Normal(t)| > 10 && Normal(t) !in Normals(p) then p + [t] else p
  }

  predicate DistinctNormals(r: seq<string>) {
    forall i, j :: 0 <= i < j < |r| ==> Normal(r[i]) != Normal(r[j])
  }

  /** No two kept texts share a normalised form. */
  lemma {:induction false} InformativeDistinct(texts: seq<string>)
    ensures DistinctNormals(Informative(texts))
  {
    if texts != [] {
      var p := Informative(texts[..|texts| - 1]);
      InformativeDistinct(texts[..|texts| - 1]);
      var t := texts[|texts| - 1];
      if |Normal(t)| > 10 && Normal(t) !in Normals(p) {
        var r := p + [t];
        assert Informative(texts) == r;
        forall i, j | 0 <= i < j < |r| ensures Normal(r[i]) != Normal(r[j]) {
          if j == |p| {
            assert r[i] == p[i] && p[i] in p;
            assert Normal(p[i]) in Normals(p);
          } else {
            assert r[i] == p[i] && r[j] == p[j];
          }
        }
      }
    }
  }

  lemma InformativeSnoc(texts: seq<string>, i: nat)
    requires i < |texts|
    ensures var p, t := Informative(texts[..i]), texts[i];
      Informative(texts[..i + 1]) == if |Normal(t)| > 10 && Normal(t) !in Normals(p) then p + [t] else p
  {
    assert texts[..i + 1][..i] == texts[..i];
  }

  lemma NormalsSnoc(p: seq<string>, t: string)
    ensures Normals(p + [t]) == Normals(p) + {Normal(t)}
  {
  }

  /** The `seen`-set loop of `_finalize_clip`. */
  method KeepInformative(texts: seq<string>) returns (unique: seq<string>)
    ensures unique == Informative(texts)
  {
    var seen: set<string> := {};
    unique := [];
    for i := 0 to |texts|
      invariant unique == Informative(texts[..i])
      invariant seen == Normals(unique)
    {
      var textLower := Normal(texts[i]);
      InformativeSnoc(texts, i);
      if textLower != [] && textLower !in seen && |textLower| > 10 {
        NormalsSnoc(unique, texts[i]);
        seen := seen + {textLower};
        unique := unique + [texts[i]];
      }
    }
    assert texts[..|texts|] == texts;
  }

  function LengthKey(t: string): real { |t| as real }

  /** The texts the combined text is made of: the (at most) three longest kept texts, longest first. */
  function Chosen(texts: seq<string>): seq<string> {
    Take(SortDesc(Informative(texts), LengthKey), 3)
  }

  /**
   * The chosen texts are three of the kept texts, or all of them when fewer
   * are kept, and none is shorter than a kept text left out.
   */
  lemma ChosenLongest(texts: seq<string>)
    ensures var kept, c := Informative(texts), Chosen(texts);
      |c| == (if |kept| < 3 then |kept| else 3) && (forall t | t in c :: t in kept)
      && forall t, u | t in c && u in kept && u !in c :: |t| >= |u|
  {
    var kept := Informative(texts);
    var sorted := SortDesc(kept, LengthKey);
    var c := Chosen(texts);
    SortDescFacts(kept, LengthKey);
    forall t | t in c ensures t in kept {
      assert t in sorted;
      assert t in multiset(sorted);
    }
    forall t, u | t in c && u in kept && u !in c ensures |t| >= |u| {
      assert u in multiset(sorted);
      var j :| 0 <= j < |sorted| && sorted[j] == u;
      assert |c| == 3 && u in sorted[3..];
      PrefixDominates(sorted, LengthKey, 3, t, u);
    }
  }

  /** `' '.join(unique_texts[:3])`, cut to 500 characters followed by "..." when longer than 500. */
  function CombineText(texts: seq<string>): (r: string)
    ensures |r| <= 503
    ensures var j := Join(" ", Chosen(texts)); (|j| <= 500 ==> r == j) && (|j| > 500 ==> r == j[..500] + "...")
  {
    var joined := Join(" ", Chosen(texts));
    if |joined| > 500 then joined[..500] + "..." else joined
  }

  const ConclusionPatterns: seq<string> := [
    "hope you have understood", "hope you understood", "that's all", "thank you for watching",
    "see you in the next", "in the next video", "subscribe", "like and subscribe", "this is how",
    "this is the end", "conclusion", "summary", "wrap up", "wrap-up"
  ]

  /** The combined text, lowercased, contains one of the conclusion phrases. */
  predicate LooksLikeConclusion(text: string) {
    exists i :: 0 <= i < |ConclusionPatterns| && Contains(Lower(text), ConclusionPatterns[i])
  }

  // ----- Scores -----

  function Sum(s: seq<real>): real {
    if s == [] then 0.0 else Sum(s[..|s| - 1]) + s[|s| - 1]
  }

  lemma {:induction false} SumBounds(s: seq<real>, lo: real, hi: real)
    requires forall i :: 0 <= i < |s| ==> lo <= s[i] <= hi
    ensures lo * |s| as real <= Sum(s) <= hi * |s| as real
  {
    if s != [] {
      SumBounds(s[..|s| - 1], lo, hi);
    }
  }

  /** `sum(scores) / len(scores) if scores else clip['score']` */
  function AverageOr(scores: seq<real>, fallback: real): real {
    if scores == [] then fallback else Sum(scores) / |scores| as real
  }

  /** An average lies between any bounds of the values averaged. */
  lemma AverageWithin(scores: seq<real>, lo: real, hi: real)
    requires scores != []
    requires forall i :: 0 <= i < |scores| ==> lo <= scores[i] <= hi
    ensures lo <= AverageOr(scores, 0.0) <= hi
  {
    SumBounds(scores, lo, hi);
    var n := |scores| as real;
    assert Sum(scores) / n >= lo by {
      assert Sum(scores) >= lo * n;
    }
    assert Sum(scores) / n <= hi by {
      assert Sum(scores) <= hi * n;
    }
  }

  // ----- A run of fragments being merged (`_merge_video_clips`) -----

  /** The clip being grown, the texts and the scores of its fragments. */
  datatype Run = Run(current: Fused, texts: seq<string>, scores: seq<real>)

  function StartRun(c: Fused): Run {
    Run(c, [c.meta.text], [c.score])
  }

  function Truthy(s: string, otherwise: string): string { if s != [] then s else otherwise }
  function TruthyInt(n: int, otherwise: int): int { if n != 0 then n else otherwise }

  /** Copy the eight listed metadata keys from `next` wherever its value is truthy. */
  function AdoptMeta(cur: Meta, next: Meta): (m: Meta)
    ensures m.text == cur.text && m.videoId == cur.videoId && m.start == cur.start
    ensures m.end == cur.end && m.duration == cur.duration
  {
    cur.(title := Truthy(next.title, cur.title), url := Truthy(next.url, cur.url),
         description := Truthy(next.description, cur.description), channel := Truthy(next.channel, cur.channel),
         thumbnail := Truthy(next.thumbnail, cur.thumbnail), viewCount := TruthyInt(next.viewCount, cur.viewCount),
         likeCount := TruthyInt(next.likeCount, cur.likeCount), channelId := Truthy(next.channelId, cur.channelId))
  }

  /**
   * The merge step as the source writes it: the end grows to cover `next`,
   * its text and score are recorded, and its metadata is adopted when its
   * score beats `current`'s. `current`'s score is never updated, so the
   * comparison is always against the FIRST fragment of the run.
   */
  function AbsorbAsWritten(r: Run, next: Fused): Run {
    var cur := r.current;
    var texts := if next.meta.text != [] && next.meta.text !in r.texts then r.texts + [next.meta.text] else r.texts;
    var grown := cur.meta.(end := Max(cur.meta.end, next.meta.end));
    var meta := if next.score > cur.score then AdoptMeta(grown, next.meta) else grown;
    Run(cur.(meta := meta), texts, r.scores + [next.score])
  }

  /**
   * The merge step as evidently intended: as `AbsorbAsWritten`, but the run
   * also records the score of the fragment whose metadata it adopted, so the
   * metadata always comes from the best-scoring fragment so far.
   */
  function Absorb(r: Run, next: Fused): Run {
    var cur := r.current;
    var texts := if next.meta.text != [] && next.meta.text !in r.texts then r.texts + [next.meta.text] else r.texts;
    var grown := cur.meta.(end := Max(cur.meta.end, next.meta.end));
    if next.score > cur.score then
      Run(cur.(meta := AdoptMeta(grown, next.meta), score := next.score), texts, r.scores + [next.score])
    else
      Run(cur.(meta := grown), texts, r.scores + [next.score])
  }

  /** Which merge step a walk takes: the source's, or the evidently intended one. */
  datatype MergeRule = AsWritten | Intended

  function AbsorbBy(rule: MergeRule, r: Run, next: Fused): Run {
    match rule
    case AsWritten => AbsorbAsWritten(r, next)
    case Intended => Absorb(r, next)
  }

  /**
   * `_finalize_clip`: widen, combine the texts, flag conclusions, average the
   * scores. An empty combined text keeps the clip's own text, and nothing
   * else of the metadata changes.
   */
  function Finalize(cfg: Config, r: Run, duration: real): (c: Clip)
    ensures c.chunkId == r.current.chunkId && c.meta.videoId == r.current.meta.videoId
    ensures c.meta.start >= 0.0 && (duration > 0.0 ==> c.meta.end <= duration)
    ensures var combined := CombineText(r.texts);
      c.meta.text == (if combined != [] then combined else r.current.meta.text)
      && c.isConclusion == LooksLikeConclusion(combined)
    ensures c.score == AverageOr(r.scores, r.current.score)
    ensures c.meta.(start := r.current.meta.start, end := r.current.meta.end, text := r.current.meta.text) == r.current.meta
  {
    ExpandWithinVideo(cfg, r.current.meta.start, r.current.meta.end, duration);
    var cur := r.current;
    var b := Expand(cfg, cur.meta.start, cur.meta.end, duration);
    var combined := CombineText(r.texts);
    Clip(cur.chunkId, AverageOr(r.scores, cur.score), cur.bm25Score, cur.semanticScore,
         cur.meta.(start := b.start, end := b.end, text := if combined != [] then combined else cur.meta.text),
         LooksLikeConclusion(combined))
  }

  /** Clips finished so far and the run in progress. */
  datatype Progress = Progress(merged: seq<Clip>, run: Run)

  /** One iteration of the loop over `clips[1:]`. */
  function Step(cfg: Config, duration: real, rule: MergeRule, p: Progress, next: Fused): Progress {
    if next.meta.start - p.run.current.meta.end <= cfg.mergeThreshold then Progress(p.merged, AbsorbBy(rule, p.run, next))
    else Progress(p.merged + [Finalize(cfg, p.run, duration)], StartRun(next))
  }

  function Walk(cfg: Config, duration: real, rule: MergeRule, first: Fused, rest: seq<Fused>): Progress {
    if rest == [] then Progress([], StartRun(first))
    else Step(cfg, duration, rule, Walk(cfg, duration, rule, first, rest[..|rest| - 1]), rest[|rest| - 1])
  }

  /** The clips `_merge_video_clips` returns for one video's fragments, sorted by start. */
  function MergeVideo(cfg: Config, rule: MergeRule, clips: seq<Fused>, duration: real): seq<Clip> {
    if clips == [] then []
    else
      var p := Walk(cfg, duration, rule, clips[0], clips[1..]);
      p.merged + [Finalize(cfg, p.run, duration)]
  }

  /**
   * `_merge_video_clips`, as a loop over the fragments after the first;
   * `AsWritten` takes the source's merge step, `Intended` the corrected one.
   */
  method MergeVideoClips(cfg: Config, rule: MergeRule, clips: seq<Fused>, duration: real) returns (merged: seq<Clip>)
    ensures merged == MergeVideo(cfg, rule, clips, duration)
  {
    if clips == [] {
      return [];
    }
    merged := [];
    var current := clips[0];
    var texts := [current.meta.text];
    var scores := [current.score];
    for i := 1 to |clips|
      invariant Progress(merged, Run(current, texts, scores)) == Walk(cfg, duration, rule, clips[0], clips[1..i])
    {
      merged, current, texts, scores := MergeStep(cfg, duration, rule, merged, current, texts, scores, clips[i]);
      WalkPrefix(cfg, duration, rule, clips, i);
    }
    assert clips[1..|clips|] == clips[1..];
    merged := merged + [Finalize(cfg, Run(current, texts, scores), duration)];
  }

  /**
   * One iteration of `_merge_video_clips`' loop: extend the open clip or
   * finish it and start another. Extending stretches the end, records a new
   * text and the score, and adopts the metadata of a better fragment; only
   * the `Intended` step also records that fragment's score.
   */
  method MergeStep(cfg: Config, duration: real, rule: MergeRule, merged0: seq<Clip>, current0: Fused,
                   texts0: seq<string>, scores0: seq<real>, next: Fused)
    returns (merged: seq<Clip>, current: Fused, texts: seq<string>, scores: seq<real>)
    ensures Progress(merged, Run(current, texts, scores))
         == Step(cfg, duration, rule, Progress(merged0, Run(current0, texts0, scores0)), next)
  {
    merged, current, texts, scores := merged0, current0, texts0, scores0;
    if next.meta.start - current.meta.end <= cfg.mergeThreshold {
      var meta := current.meta.(end := Max(current.meta.end, next.meta.end));
      if next.meta.text != [] && next.meta.text !in texts {
        texts := texts + [next.meta.text];
      }
      scores := scores + [next.score];
      if next.score > current.score {
        meta := AdoptMeta(meta, next.meta);
        if rule == Intended {
          current := current.(score := next.score);
        }
      }
      current := current.(meta := meta);
    } else {
      merged := merged + [Finalize(cfg, Run(current, texts, scores), duration)];
      current := next;
      texts := [next.meta.text];
      scores := [next.score];
    }
  }

  lemma WalkPrefix(cfg: Config, duration: real, rule: MergeRule, clips: seq<Fused>, i: nat)
    requires 1 <= i < |clips|
    ensures Walk(cfg, duration, rule, clips[0], clips[1..i + 1])
         == Step(cfg, duration, rule, Walk(cfg, duration, rule, clips[0], clips[1..i]), clips[i])
  {
    assert clips[1..i + 1] == clips[1..i] + [clips[i]];
  }

  /** Merging never creates clips: at most one finished clip per later fragment. */
  lemma {:induction false} WalkCount(cfg: Config, duration: real, rule: MergeRule, first: Fused, rest: seq<Fused>)
    ensures |Walk(cfg, duration, rule, first, rest).merged| <= |rest|
  {
    if rest != [] {
      WalkCount(cfg, duration, rule, first, rest[..|rest| - 1]);
    }
  }

  // ----- Breaks: where one clip ends and the next begins -----

  /**
   * The end of the clip being grown after `first` and `rest`: a fragment
   * within the threshold of it stretches it, any other starts a new clip.
   */
  function RunEnd(cfg: Config, first: Fused, rest: seq<Fused>): real {
    if rest == [] then first.meta.end
    else
      var e := RunEnd(cfg, first, rest[..|rest| - 1]);
      var next := rest[|rest| - 1];
      if next.meta.start - e <= cfg.mergeThreshold then Max(e, next.meta.end) else next.meta.end
  }

  /** A fragment starting more than the threshold after the running end breaks the run. */
  predicate BreaksAt(cfg: Config, first: Fused, rest: seq<Fused>, i: nat)
    requires i < |rest|
  {
    rest[i].meta.start - RunEnd(cfg, first, rest[..i]) > cfg.mergeThreshold
  }

  /** The number of breaks among `rest`. */
  function Breaks(cfg: Config, first: Fused, rest: seq<Fused>): nat {
    if rest == [] then 0
    else Breaks(cfg, first, rest[..|rest| - 1]) + (if BreaksAt(cfg, first, rest, |rest| - 1) then 1 else 0)
  }

  /** The position in `[first] + rest` of the fragment the current clip started from. */
  function RunStart(cfg: Config, first: Fused, rest: seq<Fused>): (s: nat)
    ensures s <= |rest|
  {
    if rest == [] then 0
    else if BreaksAt(cfg, first, rest, |rest| - 1) then |rest|
    else RunStart(cfg, first, rest[..|rest| - 1])
  }

  lemma BreaksAtLast(cfg: Config, first: Fused, rest: seq<Fused>)
    requires rest != []
    ensures var n := |rest| - 1;
      BreaksAt(cfg, first, rest, n) <==> rest[n].meta.start - RunEnd(cfg, first, rest[..n]) > cfg.mergeThreshold
  {
  }

  /** The walk's open clip ends at the running end, and it has finished one clip per break. */
  lemma {:induction false} WalkBreaks(cfg: Config, duration: real, rule: MergeRule, first: Fused, rest: seq<Fused>)
    ensures var p := Walk(cfg, duration, rule, first, rest);
      p.run.current.meta.end == RunEnd(cfg, first, rest) && |p.merged| == Breaks(cfg, first, rest)
  {
    if rest != [] {
      WalkBreaks(cfg, duration, rule, first, rest[..|rest| - 1]);
      BreaksAtLast(cfg, first, rest);
    }
  }

  /**
   * `_merge_video_clips` returns nothing for no fragments, and otherwise one
   * clip more than there are breaks, never more clips than fragments.
   */
  lemma MergeVideoCount(cfg: Config, rule: MergeRule, clips: seq<Fused>, duration: real)
    ensures clips == [] <==> MergeVideo(cfg, rule, clips, duration) == []
    ensures clips != [] ==> |MergeVideo(cfg, rule, clips, duration)| == 1 + Breaks(cfg, clips[0], clips[1..])
    ensures |MergeVideo(cfg, rule, clips, duration)| <= |clips|
  {
    if clips != [] {
      WalkCount(cfg, duration, rule, clips[0], clips[1..]);
      WalkBreaks(cfg, duration, rule, clips[0], clips[1..]);
    }
  }

  predicate ScoresWithin(s: seq<real>, lo: real, hi: real) {
    forall i :: 0 <= i < |s| ==> lo <= s[i] <= hi
  }

  predicate ClipsWithin(cs: seq<Clip>, lo: real, hi: real) {
    forall i :: 0 <= i < |cs| ==> lo <= cs[i].score <= hi
  }

  predicate FragmentsWithin(fs: seq<Fused>, lo: real, hi: real) {
    forall i :: 0 <= i < |fs| ==> lo <= fs[i].score <= hi
  }

  lemma FinalizeWithin(cfg: Config, r: Run, duration: real, lo: real, hi: real)
    requires r.scores != [] && ScoresWithin(r.scores, lo, hi)
    ensures lo <= Finalize(cfg, r, duration).score <= hi
  {
    AverageWithin(r.scores, lo, hi);
  }

  lemma {:induction false} WalkWithin(cfg: Config, duration: real, rule: MergeRule, first: Fused, rest: seq<Fused>,
                                      lo: real, hi: real)
    requires lo <= first.score <= hi && FragmentsWithin(rest, lo, hi)
    ensures var p := Walk(cfg, duration, rule, first, rest);
      ClipsWithin(p.merged, lo, hi) && p.run.scores != [] && ScoresWithin(p.run.scores, lo, hi)
  {
    if rest != [] {
      var n := |rest| - 1;
      WalkWithin(cfg, duration, rule, first, rest[..n], lo, hi);
      StepWithin(cfg, duration, rule, Walk(cfg, duration, rule, first, rest[..n]), rest[n], lo, hi);
    }
  }

  /** One step of the walk keeps every score, finished or collected, within the bounds. */
  lemma StepWithin(cfg: Config, duration: real, rule: MergeRule, p: Progress, next: Fused, lo: real, hi: real)
    requires ClipsWithin(p.merged, lo, hi) && p.run.scores != [] && ScoresWithin(p.run.scores, lo, hi)
    requires lo <= next.score <= hi
    ensures var q := Step(cfg, duration, rule, p, next);
      ClipsWithin(q.merged, lo, hi) && q.run.scores != [] && ScoresWithin(q.run.scores, lo, hi)
  {
    if next.meta.start - p.run.current.meta.end <= cfg.mergeThreshold {
      assert AbsorbBy(rule, p.run, next).scores == p.run.scores + [next.score];
    } else {
      FinalizeWithin(cfg, p.run, duration, lo, hi);
    }
  }

  /** A merged clip's score is the average of its fragments' scores, so it stays within their bounds. */
  lemma MergeVideoWithin(cfg: Config, rule: MergeRule, clips: seq<Fused>, duration: real, lo: real, hi: real)
    requires FragmentsWithin(clips, lo, hi)
    ensures ClipsWithin(MergeVideo(cfg, rule, clips, duration), lo, hi)
  {
    if clips != [] {
      WalkWithin(cfg, duration, rule, clips[0], clips[1..], lo, hi);
      var p := Walk(cfg, duration, rule, clips[0], clips[1..]);
      FinalizeWithin(cfg, p.run, duration, lo, hi);
    }
  }

  // ----- Whose metadata a clip carries -----

  /** The maximum of a non-empty list of scores. */
  function MaxOf(s: seq<real>): (m: real)
    requires s != []
    ensures forall i :: 0 <= i < |s| ==> s[i] <= m
    ensures exists i :: 0 <= i < |s| && s[i] == m
  {
    if |s| == 1 then s[0] else Max(MaxOf(s[..|s| - 1]), s[|s| - 1])
  }

  /** The run grown from `r` by absorbing `fs` one after another. */
  function Absorbed(rule: MergeRule, r: Run, fs: seq<Fused>): Run {
    if fs == [] then r else AbsorbBy(rule, Absorbed(rule, r, fs[..|fs| - 1]), fs[|fs| - 1])
  }

  lemma AbsorbedSnoc(rule: MergeRule, r: Run, fs: seq<Fused>, next: Fused)
    ensures Absorbed(rule, r, fs + [next]) == AbsorbBy(rule, Absorbed(rule, r, fs), next)
  {
    assert (fs + [next])[..|fs|] == fs;
  }

  /** The run grown from the fragment after the last break, with every later fragment absorbed in order. */
  function OpenRun(cfg: Config, rule: MergeRule, first: Fused, rest: seq<Fused>): Run {
    var all, s := [first] + rest, RunStart(cfg, first, rest);
    Absorbed(rule, StartRun(all[s]), all[s + 1..])
  }

  /** The run the walk has open is its last starting fragment with the later fragments absorbed. */
  lemma {:induction false} WalkRun(cfg: Config, duration: real, rule: MergeRule, first: Fused, rest: seq<Fused>)
    ensures Walk(cfg, duration, rule, first, rest).run == OpenRun(cfg, rule, first, rest)
  {
    if rest == [] {
      assert ([first] + rest)[1..] == [];
    } else {
      WalkRun(cfg, duration, rule, first, rest[..|rest| - 1]);
      WalkRunStep(cfg, duration, rule, first, rest);
    }
  }

  lemma WalkRunStep(cfg: Config, duration: real, rule: MergeRule, first: Fused, rest: seq<Fused>)
    requires rest != []
    requires Walk(cfg, duration, rule, first, rest[..|rest| - 1]).run == OpenRun(cfg, rule, first, rest[..|rest| - 1])
    ensures Walk(cfg, duration, rule, first, rest).run == OpenRun(cfg, rule, first, rest)
  {
    var pre := rest[..|rest| - 1];
    WalkBreaks(cfg, duration, rule, first, pre);
    StepRun(cfg, duration, rule, first, rest, Walk(cfg, duration, rule, first, pre));
  }

  /** One step of the walk keeps the open run. */
  lemma StepRun(cfg: Config, duration: real, rule: MergeRule, first: Fused, rest: seq<Fused>, p: Progress)
    requires rest != []
    requires var pre := rest[..|rest| - 1]; p.run == OpenRun(cfg, rule, first, pre) && p.run.current.meta.end == RunEnd(cfg, first, pre)
    ensures Step(cfg, duration, rule, p, rest[|rest| - 1]).run == OpenRun(cfg, rule, first, rest)
  {
    var n := |rest| - 1;
    BreaksAtLast(cfg, first, rest);
    if BreaksAt(cfg, first, rest, n) {
      var all := [first] + rest;
      assert RunStart(cfg, first, rest) == |rest|;
      assert all[|rest|] == rest[n] && all[|rest| + 1..] == [];
    } else {
      RunExtends(cfg, rule, first, rest, p.run);
    }
  }

  /** A fragment that does not break the run leaves the run's start where it was. */
  lemma RunStartKept(cfg: Config, first: Fused, rest: seq<Fused>)
    requires rest != [] && !BreaksAt(cfg, first, rest, |rest| - 1)
    ensures RunStart(cfg, first, rest) == RunStart(cfg, first, rest[..|rest| - 1])
  {
  }

  /** Cutting `[first] + rest` after position `s` is cutting `[first] + pre` there and adding the last fragment. */
  lemma SnocSlices(first: Fused, rest: seq<Fused>, s: nat)
    requires rest != [] && s < |rest|
    ensures var all, allp := [first] + rest, [first] + rest[..|rest| - 1];
      all[s] == allp[s] && all[s + 1..] == allp[s + 1..] + [rest[|rest| - 1]]
  {
  }

  /** Absorbing a fragment that does not break the run extends the run by that fragment. */
  lemma RunExtends(cfg: Config, rule: MergeRule, first: Fused, rest: seq<Fused>, prev: Run)
    requires rest != [] && !BreaksAt(cfg, first, rest, |rest| - 1)
    requires prev == OpenRun(cfg, rule, first, rest[..|rest| - 1])
    ensures AbsorbBy(rule, prev, rest[|rest| - 1]) == OpenRun(cfg, rule, first, rest)
  {
    var pre := rest[..|rest| - 1];
    var s := RunStart(cfg, first, pre);
    RunStartKept(cfg, first, rest);
    SnocSlices(first, rest, s);
    var allp := [first] + pre;
    AbsorbedSnoc(rule, StartRun(allp[s]), allp[s + 1..], rest[|rest| - 1]);
  }

  /** The first fragment with the highest score among `first` and `fs`. */
  function Best(first: Fused, fs: seq<Fused>): (b: Fused)
    ensures b == first || b in fs
    ensures b.score >= first.score && forall f | f in fs :: b.score >= f.score
  {
    if fs == [] then first
    else
      var b := Best(first, fs[..|fs| - 1]);
      var next := fs[|fs| - 1];
      assert forall f | f in fs :: f in fs[..|fs| - 1] || f == next;
      if next.score > b.score then next else b
  }

  /** The last fragment of `fs` that scores above `first`, or `first` when none does. */
  function LastAbove(first: Fused, fs: seq<Fused>): (l: Fused)
    ensures l == first || (l in fs && l.score > first.score)
  {
    if fs == [] then first
    else if fs[|fs| - 1].score > first.score then fs[|fs| - 1]
    else LastAbove(first, fs[..|fs| - 1])
  }

  /** `m` already carries every listed metadata value that is truthy in `source`. */
  predicate Carries(m: Meta, source: Meta) {
    AdoptMeta(m, source) == m
  }

  /**
   * With the intended step, a run scores like its best fragment and carries
   * that fragment's metadata.
   */
  lemma {:induction false} AbsorbedIntended(first: Fused, fs: seq<Fused>)
    ensures var r, b := Absorbed(Intended, StartRun(first), fs), Best(first, fs);
      r.current.score == b.score && Carries(r.current.meta, b.meta)
  {
    if fs != [] {
      AbsorbedIntended(first, fs[..|fs| - 1]);
    }
  }

  /**
   * As written, a run keeps its first fragment's score and carries the
   * metadata of the last fragment that scored above it.
   */
  lemma {:induction false} AbsorbedAsWritten(first: Fused, fs: seq<Fused>)
    ensures var r, l := Absorbed(AsWritten, StartRun(first), fs), LastAbove(first, fs);
      r.current.score == first.score && Carries(r.current.meta, l.meta)
  {
    if fs != [] {
      AbsorbedAsWritten(first, fs[..|fs| - 1]);
    }
  }

  /** With the intended step, one step of the walk keeps the open run's score the maximum of its scores. */
  lemma StepKeepsBestScore(cfg: Config, duration: real, p: Progress, next: Fused)
    requires p.run.scores != [] && p.run.current.score == MaxOf(p.run.scores)
    ensures var r := Step(cfg, duration, Intended, p, next).run; r.scores != [] && r.current.score == MaxOf(r.scores)
  {
    if next.meta.start - p.run.current.meta.end <= cfg.mergeThreshold {
      var s := p.run.scores + [next.score];
      assert s[..|s| - 1] == p.run.scores;
      assert MaxOf(s) == Max(MaxOf(p.run.scores), next.score);
      assert Step(cfg, duration, Intended, p, next).run == Absorb(p.run, next);
    } else {
      assert Step(cfg, duration, Intended, p, next).run == StartRun(next);
    }
  }

  lemma {:induction false} WalkKeepsBestScore(cfg: Config, duration: real, first: Fused, rest: seq<Fused>)
    ensures var r := Walk(cfg, duration, Intended, first, rest).run; r.scores != [] && r.current.score == MaxOf(r.scores)
  {
    if rest != [] {
      WalkKeepsBestScore(cfg, duration, first, rest[..|rest| - 1]);
      StepKeepsBestScore(cfg, duration, Walk(cfg, duration, Intended, first, rest[..|rest| - 1]), rest[|rest| - 1]);
    }
  }

  /** With the intended step, the open run scores like its best fragment and carries that fragment's metadata. */
  lemma OpenRunIntended(cfg: Config, first: Fused, rest: seq<Fused>)
    ensures var all, s := [first] + rest, RunStart(cfg, first, rest);
      var r, b := OpenRun(cfg, Intended, first, rest), Best(all[s], all[s + 1..]);
      r.current.score == b.score && Carries(r.current.meta, b.meta)
  {
    var all, s := [first] + rest, RunStart(cfg, first, rest);
    AbsorbedIntended(all[s], all[s + 1..]);
  }

  /** As written, the open run keeps its first fragment's score and carries the metadata of the last fragment above it. */
  lemma OpenRunAsWritten(cfg: Config, first: Fused, rest: seq<Fused>)
    ensures var all, s := [first] + rest, RunStart(cfg, first, rest);
      var r, l := OpenRun(cfg, AsWritten, first, rest), LastAbove(all[s], all[s + 1..]);
      r.current.score == all[s].score && Carries(r.current.meta, l.meta)
  {
    var all, s := [first] + rest, RunStart(cfg, first, rest);
    AbsorbedAsWritten(all[s], all[s + 1..]);
  }

  /**
   * With the intended step, the clip a walk has open scores the best score of
   * its fragments and carries the metadata of its best fragment.
   */
  lemma WalkTracksBest(cfg: Config, duration: real, first: Fused, rest: seq<Fused>)
    ensures var all, s := [first] + rest, RunStart(cfg, first, rest);
      var r, b := Walk(cfg, duration, Intended, first, rest).run, Best(all[s], all[s + 1..]);
      r.scores != [] && r.current.score == MaxOf(r.scores) && r.current.score == b.score && Carries(r.current.meta, b.meta)
  {
    WalkKeepsBestScore(cfg, duration, first, rest);
    WalkRun(cfg, duration, Intended, first, rest);
    OpenRunIntended(cfg, first, rest);
  }

  /**
   * As written, the clip a walk has open keeps the score of the fragment it
   * started from and carries the metadata of the last later fragment that
   * scored above that one.
   */
  lemma WalkAsWritten(cfg: Config, duration: real, first: Fused, rest: seq<Fused>)
    ensures var all, s := [first] + rest, RunStart(cfg, first, rest);
      var r, l := Walk(cfg, duration, AsWritten, first, rest).run, LastAbove(all[s], all[s + 1..]);
      r.current.score == all[s].score && Carries(r.current.meta, l.meta)
  {
    WalkRun(cfg, duration, AsWritten, first, rest);
    OpenRunAsWritten(cfg, first, rest);
  }

  lemma AbsorbedTwo(rule: MergeRule, r: Run, b: Fused, c: Fused)
    ensures Absorbed(rule, r, [b, c]) == AbsorbBy(rule, AbsorbBy(rule, r, b), c)
  {
    assert [b, c][..1] == [b] && [b][..0] == [];
    assert Absorbed(rule, r, [b]) == AbsorbBy(rule, r, b);
  }

  lemma AsWrittenTitles(a: Fused, b: Fused, c: Fused)
    requires a.score == 0.5 && b.score == 0.8 && c.score == 0.6
    requires b.meta.title == "best" && c.meta.title == "second"
    ensures AbsorbAsWritten(AbsorbAsWritten(StartRun(a), b), c).current.meta.title == "second"
  {
    var w1 := AbsorbAsWritten(StartRun(a), b);
    assert w1.current.score == 0.5;
  }

  lemma IntendedTitles(a: Fused, b: Fused, c: Fused)
    requires a.score == 0.5 && b.score == 0.8 && c.score == 0.6
    requires b.meta.title == "best"
    ensures Absorb(Absorb(StartRun(a), b), c).current.meta.title == "best"
  {
    var i1 := Absorb(StartRun(a), b);
    assert i1.current.meta.title == "best" && i1.current.score == 0.8;
  }

  /**
   * As written, a run of three fragments scored 0.5, 0.8 and 0.6 ends up with
   * the metadata of the fragment scored 0.6, not of the best one, because
   * each fragment is compared with the first; the intended step keeps the
   * best's.
   */
  lemma AbsorbAsWrittenKeepsWrongMeta(a: Fused, b: Fused, c: Fused)
    requires a.score == 0.5 && b.score == 0.8 && c.score == 0.6
    requires b.meta.title == "best" && c.meta.title == "second"
    ensures LastAbove(a, [b, c]) == c && Best(a, [b, c]) == b
    ensures Absorbed(AsWritten, StartRun(a), [b, c]).current.meta.title == "second"
    ensures Absorbed(Intended, StartRun(a), [b, c]).current.meta.title == "best"
  {
    assert [b, c][..1] == [b];
    AbsorbedTwo(AsWritten, StartRun(a), b, c);
    AbsorbedTwo(Intended, StartRun(a), b, c);
    AsWrittenTitles(a, b, c);
    IntendedTitles(a, b, c);
  }

  // ----- Position rescoring (`_adjust_score_for_position`) -----

  /** The score after the position adjustment; unchanged when the duration is unknown. */
  function Rescore(c: Clip, duration: real): real {
    if duration <= 0.0 then c.score
    else
      var ratio := (c.meta.start + c.meta.end) / 2.0 / duration;
      var s := if c.isConclusion then c.score * 0.3 else c.score;
      var adjusted :=
        if ratio > 0.85 then s * (1.0 - 0.6)
        else if ratio > 0.75 then s * (1.0 - 0.3)
        else if ratio < 0.05 then s * (1.0 - 0.15)
        else s * (1.0 + 0.15);
      Max(0.0, adjusted)
  }

  /**
   * With a known duration the adjusted score is never negative and never
   * above 1.15 times the score; a conclusion keeps at most 0.345 of it, a
   * clip centred in the last 15% at most 0.4 of it.
   */
  lemma RescoreBounds(c: Clip, duration: real)
    ensures duration <= 0.0 ==> Rescore(c, duration) == c.score
    ensures duration > 0.0 ==> Rescore(c, duration) >= 0.0
    ensures duration > 0.0 && c.score >= 0.0 ==> Rescore(c, duration) <= 1.15 * c.score
    ensures duration > 0.0 && c.score >= 0.0 && c.isConclusion ==> Rescore(c, duration) <= 0.345 * c.score
    ensures duration > 0.0 && c.score >= 0.0 && (c.meta.start + c.meta.end) / 2.0 / duration > 0.85
      ==> Rescore(c, duration) <= 0.4 * c.score
  {
  }

  /** A clip centred between 5% and 75% of the video, not a conclusion, gains 15%. */
  lemma RescoreMiddleBoost(c: Clip, duration: real)
    requires duration > 0.0 && c.score >= 0.0 && !c.isConclusion
    requires 0.05 <= (c.meta.start + c.meta.end) / 2.0 / duration <= 0.75
    ensures Rescore(c, duration) == 1.15 * c.score
  {
  }

  // ----- merge_clips -----

  function DurationOf(durations: map<string, real>, videoId: string): real {
    if videoId in durations then durations[videoId] else 0.0
  }

  /** The distinct video ids of `results`, in order of first occurrence. */
  function VideoIds(results: seq<Fused>): (r: seq<string>)
    ensures forall i :: 0 <= i < |results| ==> results[i].meta.videoId in r
    ensures forall v | v in r :: exists i :: 0 <= i < |results| && results[i].meta.videoId == v
    ensures forall i, j :: 0 <= i < j < |r| ==> r[i] != r[j]
  {
    if results == [] then []
    else
      var p := VideoIds(results[..|results| - 1]);
      var v := results[|results| - 1].meta.videoId;
      if v in p then p else p + [v]
  }

  /** The results of one video, in their original order. */
  function Group(results: seq<Fused>, videoId: string): (g: seq<Fused>)
    ensures |g| <= |results|
    ensures forall f | f in g :: f in results && f.meta.videoId == videoId
  {
    if results == [] then []
    else
      var p := Group(results[..|results| - 1], videoId);
      var f := results[|results| - 1];
      if f.meta.videoId == videoId then p + [f] else p
  }

  function NegStart(f: Fused): real { -f.meta.start }

  /** `clips.sort(key=lambda x: x.get('start', 0))`: stable, by increasing start. */
  function ByStart(clips: seq<Fused>): seq<Fused> {
    SortDesc(clips, NegStart)
  }

  /** The clips of each video, merged, one video after another. */
  function Assemble(cfg: Config, results: seq<Fused>, durations: map<string, real>, ids: seq<string>): seq<Clip> {
    if ids == [] then []
    else
      var v := ids[|ids| - 1];
      Assemble(cfg, results, durations, ids[..|ids| - 1]) + MergeVideo(cfg, Intended, ByStart(Group(results, v)), DurationOf(durations, v))
  }

  function Rescored(cs: seq<Clip>, durations: map<string, real>): (r: seq<Clip>)
    ensures |r| == |cs|
  {
    if cs == [] then []
    else
      var c := cs[|cs| - 1];
      Rescored(cs[..|cs| - 1], durations) + [c.(score := Rescore(c, DurationOf(durations, c.meta.videoId)))]
  }

  function ClipScore(c: Clip): real { c.score }

  /** What `merge_clips` returns. */
  function MergeClipsSpec(cfg: Config, results: seq<Fused>, durations: map<string, real>): seq<Clip> {
    if results == [] then []
    else SortDesc(Rescored(Assemble(cfg, results, durations, VideoIds(results)), durations), ClipScore)
  }

  /** `merge_clips` returns its clips by non-increasing score. */
  lemma MergeClipsSorted(cfg: Config, results: seq<Fused>, durations: map<string, real>)
    ensures SortedDesc(MergeClipsSpec(cfg, results, durations), ClipScore)
  {
    if results != [] {
      SortDescFacts(Rescored(Assemble(cfg, results, durations, VideoIds(results)), durations), ClipScore);
    }
  }

  lemma GroupStep(results: seq<Fused>, i: nat)
    requires i < |results|
    ensures var v := results[i].meta.videoId; var ids := VideoIds(results[..i]);
      VideoIds(results[..i + 1]) == if v in ids then ids else ids + [v]
    ensures forall w :: Group(results[..i + 1], w) ==
                        if w == results[i].meta.videoId then Group(results[..i], w) + [results[i]] else Group(results[..i], w)
  {
    assert results[..i + 1][..i] == results[..i];
  }

  /** A video with no result has an empty group. */
  lemma GroupOfAbsent(results: seq<Fused>, v: string)
    requires v !in VideoIds(results)
    ensures Group(results, v) == []
  {
  }

  // ----- What merge_clips promises -----

  /** The total size of the groups of `ids`. */
  function GroupSizes(results: seq<Fused>, ids: seq<string>): nat {
    if ids == [] then 0 else GroupSizes(results, ids[..|ids| - 1]) + |Group(results, ids[|ids| - 1])|
  }

  lemma AppendResult(results: seq<Fused>, r: Fused)
    ensures var v := r.meta.videoId; var ids := VideoIds(results);
      VideoIds(results + [r]) == if v in ids then ids else ids + [v]
    ensures forall w :: Group(results + [r], w) == if w == r.meta.videoId then Group(results, w) + [r] else Group(results, w)
  {
    assert (results + [r])[..|results|] == results;
  }

  lemma GroupAppend(results: seq<Fused>, r: Fused, w: string)
    ensures Group(results + [r], w) == if w == r.meta.videoId then Group(results, w) + [r] else Group(results, w)
  {
    assert (results + [r])[..|results|] == results;
  }

  /** One more result adds one to the group of its video, once per occurrence of that video in `ids`. */
  lemma {:induction false} SizesAppend(results: seq<Fused>, r: Fused, ids: seq<string>)
    ensures GroupSizes(results + [r], ids) == GroupSizes(results, ids) + multiset(ids)[r.meta.videoId]
  {
    if ids != [] {
      var n := |ids| - 1;
      GroupAppend(results, r, ids[n]);
      SizesAppend(results, r, ids[..n]);
      CountSnoc(ids, r.meta.videoId);
    }
  }

  lemma CountSnoc(ids: seq<string>, v: string)
    requires ids != []
    ensures var n := |ids| - 1; multiset(ids)[v] == multiset(ids[..n])[v] + (if ids[n] == v then 1 else 0)
  {
    var n := |ids| - 1;
    assert ids == ids[..n] + [ids[n]];
  }

  lemma DistinctCount(ids: seq<string>, v: string)
    requires forall i, j :: 0 <= i < j < |ids| ==> ids[i] != ids[j]
    ensures multiset(ids)[v] == if v in ids then 1 else 0
  {
    if ids != [] {
      var n := |ids| - 1;
      DistinctCount(ids[..n], v);
      assert ids == ids[..n] + [ids[n]];
    }
  }

  /** The groups partition the results. */
  lemma {:induction false} GroupSizesTotal(results: seq<Fused>)
    ensures GroupSizes(results, VideoIds(results)) == |results|
  {
    if results != [] {
      var n := |results| - 1;
      var s, r := results[..n], results[n];
      assert results == s + [r];
      GroupSizesTotal(s);
      AppendResult(s, r);
      var ids := VideoIds(s);
      SizesAppend(s, r, ids);
      DistinctCount(ids, r.meta.videoId);
      if r.meta.videoId !in ids {
        GroupOfAbsent(s, r.meta.videoId);
        assert (ids + [r.meta.videoId])[..|ids|] == ids;
      }
    }
  }

  lemma {:induction false} AssembleCount(cfg: Config, results: seq<Fused>, durations: map<string, real>, ids: seq<string>)
    ensures |Assemble(cfg, results, durations, ids)| <= GroupSizes(results, ids)
  {
    if ids != [] {
      var v := ids[|ids| - 1];
      AssembleCount(cfg, results, durations, ids[..|ids| - 1]);
      MergeVideoCount(cfg, Intended, ByStart(Group(results, v)), DurationOf(durations, v));
    }
  }

  /** Every result lands in the group of its video. */
  lemma {:induction false} GroupHas(results: seq<Fused>, i: nat)
    requires i < |results|
    ensures results[i] in Group(results, results[i].meta.videoId)
  {
    var n := |results| - 1;
    if i < n {
      GroupHas(results[..n], i);
    }
  }

  /** `merge_clips` returns nothing exactly for no results, and never more clips than results. */
  lemma MergeClipsCount(cfg: Config, results: seq<Fused>, durations: map<string, real>)
    ensures results == [] <==> MergeClipsSpec(cfg, results, durations) == []
    ensures |MergeClipsSpec(cfg, results, durations)| <= |results|
  {
    if results != [] {
      var ids := VideoIds(results);
      var assembled := Assemble(cfg, results, durations, ids);
      AssembleCount(cfg, results, durations, ids);
      GroupSizesTotal(results);
      assert results[0].meta.videoId in ids;
      var v := ids[|ids| - 1];
      assert v in ids;
      var i :| 0 <= i < |results| && results[i].meta.videoId == v;
      GroupHas(results, i);
      var g := Group(results, v);
      assert |ByStart(g)| == |g| > 0;
      MergeVideoCount(cfg, Intended, ByStart(g), DurationOf(durations, v));
      assert |assembled| > 0;
      assert |Rescored(assembled, durations)| == |assembled|;
    }
  }

  lemma FragmentsWithinSubset(a: seq<Fused>, b: seq<Fused>, lo: real, hi: real)
    requires forall f | f in a :: f in b
    requires FragmentsWithin(b, lo, hi)
    ensures FragmentsWithin(a, lo, hi)
  {
    forall i | 0 <= i < |a| ensures lo <= a[i].score <= hi {
      assert a[i] in b;
    }
  }

  lemma {:induction false} AssembleWithin(cfg: Config, results: seq<Fused>, durations: map<string, real>, ids: seq<string>,
                                          lo: real, hi: real)
    requires FragmentsWithin(results, lo, hi)
    ensures ClipsWithin(Assemble(cfg, results, durations, ids), lo, hi)
  {
    if ids != [] {
      var v := ids[|ids| - 1];
      AssembleWithin(cfg, results, durations, ids[..|ids| - 1], lo, hi);
      var g := Group(results, v);
      var sorted := ByStart(g);
      SortDescFacts(g, NegStart);
      forall f | f in sorted ensures f in results {
        assert f in multiset(g);
      }
      FragmentsWithinSubset(sorted, results, lo, hi);
      MergeVideoWithin(cfg, Intended, sorted, DurationOf(durations, v), lo, hi);
    }
  }

  lemma {:induction false} RescoredWithin(cs: seq<Clip>, durations: map<string, real>, hi: real)
    requires 0.0 <= hi && ClipsWithin(cs, 0.0, hi)
    ensures ClipsWithin(Rescored(cs, durations), 0.0, 1.15 * hi)
  {
    if cs != [] {
      var c := cs[|cs| - 1];
      RescoredWithin(cs[..|cs| - 1], durations, hi);
      RescoreBounds(c, DurationOf(durations, c.meta.videoId));
    }
  }

  /**
   * With fused scores in [0, hi], every clip `merge_clips` returns scores in
   * [0, 1.15 * hi]: averaging stays within the fragments' bounds and the
   * position adjustment gains at most 15% and never goes below 0.
   */
  lemma MergeClipsScores(cfg: Config, results: seq<Fused>, durations: map<string, real>, hi: real)
    requires 0.0 <= hi && FragmentsWithin(results, 0.0, hi)
    ensures ClipsWithin(MergeClipsSpec(cfg, results, durations), 0.0, 1.15 * hi)
  {
    if results != [] {
      var assembled := Assemble(cfg, results, durations, VideoIds(results));
      AssembleWithin(cfg, results, durations, VideoIds(results), 0.0, hi);
      var rescored := Rescored(assembled, durations);
      RescoredWithin(assembled, durations, hi);
      var r := SortDesc(rescored, ClipScore);
      SortDescFacts(rescored, ClipScore);
      forall i | 0 <= i < |r| ensures 0.0 <= r[i].score <= 1.15 * hi {
        assert r[i] in multiset(rescored);
      }
    }
  }

  /** The `defaultdict(list)` grouping loop of `merge_clips`. */
  method GroupByVideo(results: seq<Fused>) returns (order: seq<string>, groups: map<string, seq<Fused>>)
    ensures order == VideoIds(results)
    ensures forall v :: v in groups <==> v in order
    ensures forall v | v in groups :: groups[v] == Group(results, v)
  {
    order := [];
    groups := map[];
    for i := 0 to |results|
      invariant order == VideoIds(results[..i])
      invariant forall v :: v in groups <==> v in order
      invariant forall v | v in groups :: groups[v] == Group(results[..i], v)
    {
      var r := results[i];
      GroupStep(results, i);
      var v := r.meta.videoId;
      // `video_groups[video_id]` of a `defaultdict(list)`: an absent video starts with an empty list.
      var g := if v in groups then groups[v] else [];
      if v !in groups {
        GroupOfAbsent(results[..i], v);
        order := order + [v];
      }
      assert g == Group(results[..i], v);
      groups := groups[v := g + [r]];
    }
    assert results[..|results|] == results;
  }

  /** The loop merging each video's clips, in order of first occurrence. */
  method MergeGroups(cfg: Config, results: seq<Fused>, durations: map<string, real>, order: seq<string>,
                     groups: map<string, seq<Fused>>) returns (merged: seq<Clip>)
    requires forall v | v in order :: v in groups && groups[v] == Group(results, v)
    ensures merged == Assemble(cfg, results, durations, order)
  {
    merged := [];
    for j := 0 to |order|
      invariant merged == Assemble(cfg, results, durations, order[..j])
    {
      var v := order[j];
      assert order[..j + 1][..j] == order[..j];
      var videoMerged := MergeVideoClips(cfg, Intended, ByStart(groups[v]), DurationOf(durations, v));
      merged := merged + videoMerged;
    }
    assert order[..|order|] == order;
  }

  /** The rescoring loop of `merge_clips`. */
  method RescoreAll(merged: seq<Clip>, durations: map<string, real>) returns (rescored: seq<Clip>)
    ensures rescored == Rescored(merged, durations)
  {
    rescored := [];
    for k := 0 to |merged|
      invariant rescored == Rescored(merged[..k], durations)
    {
      var c := merged[k];
      assert merged[..k + 1][..k] == merged[..k];
      rescored := rescored + [c.(score := Rescore(c, DurationOf(durations, c.meta.videoId)))];
    }
    assert merged[..|merged|] == merged;
  }

  /** `merge_clips`: group by video, merge each video's clips, rescore, sort by score. */
  method MergeClips(cfg: Config, results: seq<Fused>, durations: map<string, real>) returns (clips: seq<Clip>)
    ensures clips == MergeClipsSpec(cfg, results, durations)
    ensures SortedDesc(clips, ClipScore)
  {
    if results == [] {
      return [];
    }
    var order, groups := GroupByVideo(results);
    var merged := MergeGroups(cfg, results, durations, order, groups);
    var rescored := RescoreAll(merged, durations);
    clips := SortDesc(rescored, ClipScore);
    SortDescFacts(rescored, ClipScore);
  }
}
