/**
 * The result dictionaries that flow from the keyword index and the vector
 * store through fusion into the clip merger, as typed records. Every read in
 * the services is `d.get(key, default)`, so a record holds the value read,
 * with the default already substituted for a missing key.
 */
module Records {

  /** The thirteen per-fragment fields the services copy from one dictionary to the next. */
  datatype Meta = Meta(
    text: string,
    videoId: string,
    title: string,         // 'video_title'
    url: string,           // 'video_url'
    start: real,
    end: real,
    description: string,   // 'video_description'
    duration: real,        // 'video_duration'
    viewCount: int,
    channel: string,
    channelId: string,
    thumbnail: string,
    likeCount: int)

  /** What `.get(key, default)` yields for every key when the dictionary has none of them. */
  const DefaultMeta := Meta("", "", "", "", 0.0, 0.0, "", 0.0, 0, "", "", "", 0)

  /** The keys of `Meta`, to say which of them a collaborator's dictionary carries. */
  datatype Field =
    | Text | VideoId | Title | Url | Start | End | Description
    | Duration | ViewCount | Channel | ChannelId | Thumbnail | LikeCount

  const AllFields: set<Field> :=
    {Text, VideoId, Title, Url, Start, End, Description, Duration, ViewCount, Channel, ChannelId, Thumbnail, LikeCount}

  /**
   * A hit as a retrieval source returns it. `present` is the set of metadata
   * keys its dictionary carries: the keyword index emits all of them, the
   * vector store only text, start, end, video id, title and url.
   * `chunkId` is "" when the dictionary has no (or a falsy) `chunk_id`.
   */
  datatype Hit = Hit(chunkId: string, score: real, meta: Meta, present: set<Field>)

  /** Field by field: the hit's value where its dictionary has the key, else `base`'s. */
  function Overlay(h: Hit, base: Meta): Meta {
    var hm := h.meta;
    Meta(
      if Text in h.present then hm.text else base.text,
      if VideoId in h.present then hm.videoId else base.videoId,
      if Title in h.present then hm.title else base.title,
      if Url in h.present then hm.url else base.url,
      if Start in h.present then hm.start else base.start,
      if End in h.present then hm.end else base.end,
      if Description in h.present then hm.description else base.description,
      if Duration in h.present then hm.duration else base.duration,
      if ViewCount in h.present then hm.viewCount else base.viewCount,
      if Channel in h.present then hm.channel else base.channel,
      if ChannelId in h.present then hm.channelId else base.channelId,
      if Thumbnail in h.present then hm.thumbnail else base.thumbnail,
      if LikeCount in h.present then hm.likeCount else base.likeCount)
  }

  /** The hit's metadata as later `.get(key, default)` reads see it. */
  function Resolved(h: Hit): Meta {
    Overlay(h, DefaultMeta)
  }

  /**
   * A fused result: the dictionary `_merge_results` returns, with
   * `combined_score` already renamed to `score`.
   */
  datatype Fused = Fused(chunkId: string, score: real, bm25Score: real, semanticScore: real, meta: Meta)
}
