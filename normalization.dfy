/** Reshaping of the first provider record into the fixed result shape the
    handler returns (app.py:156-170). Every field is one `post_data.get(key,
    default)`: a key that is present is copied through as it is, whatever its
    JSON type (including `null`); a key that is absent gets its default. */
module Normalization {
  import opened JsonValue

  /** The `data` object of a successful response. */
  datatype NormalizedResult = NormalizedResult(
    caption: Json,
    url: Json,
    username: Json,
    timestamp: Json,
    likes: Json,
    comments: Json,
    views: Json,
    hashtags: Json,
    mentions: Json,
    location: Json)

  /** The provider keys the normalised fields are read from. */
  const SourceKeys: set<string> := {"caption", "url", "ownerUsername", "timestamp",
    "likesCount", "commentsCount", "videoViewCount", "hashtags", "mentions", "locationName"}

  /** `post` and `other` agree on key `k`: both lack it, or both hold the same value. */
  predicate SameAt(post: map<string, Json>, other: map<string, Json>, k: string)
  {
    (k in post <==> k in other) && (k in post ==> post[k] == other[k])
  }

  /** The provider record `post`, normalised for a request about `inputUrl`. */
  function Normalize(inputUrl: string, post: map<string, Json>): (r: NormalizedResult)
    ensures "caption" in post ==> r.caption == post["caption"]
    ensures "caption" !in post ==> r.caption == JStr("")
    ensures "url" in post ==> r.url == post["url"]
    ensures "url" !in post ==> r.url == JStr(inputUrl)
    ensures "ownerUsername" in post ==> r.username == post["ownerUsername"]
    ensures "ownerUsername" !in post ==> r.username == JStr("Unknown")
    ensures "timestamp" in post ==> r.timestamp == post["timestamp"]
    ensures "timestamp" !in post ==> r.timestamp == JStr("")
    ensures "likesCount" in post ==> r.likes == post["likesCount"]
    ensures "likesCount" !in post ==> r.likes == JInt(0)
    ensures "commentsCount" in post ==> r.comments == post["commentsCount"]
    ensures "commentsCount" !in post ==> r.comments == JInt(0)
    ensures "videoViewCount" in post ==> r.views == post["videoViewCount"]
    ensures "videoViewCount" !in post ==> r.views == JInt(0)
    ensures "hashtags" in post ==> r.hashtags == post["hashtags"]
    ensures "hashtags" !in post ==> r.hashtags == JArr([])
    ensures "mentions" in post ==> r.mentions == post["mentions"]
    ensures "mentions" !in post ==> r.mentions == JArr([])
    ensures "locationName" in post ==> r.location == post["locationName"]
    ensures "locationName" !in post ==> r.location == JNull
  {
    NormalizedResult(
      caption := Get(post, "caption", JStr("")),
      url := Get(post, "url", JStr(inputUrl)),
      username := Get(post, "ownerUsername", JStr("Unknown")),
      timestamp := Get(post, "timestamp", JStr("")),
      likes := Get(post, "likesCount", JInt(0)),
      comments := Get(post, "commentsCount", JInt(0)),
      views := Get(post, "videoViewCount", JInt(0)),
      hashtags := Get(post, "hashtags", JArr([])),
      mentions := Get(post, "mentions", JArr([])),
      location := Get(post, "locationName", JNull))
  }

  /** The provider record that carries every field of `n` under its source key. */
  function Denormalize(n: NormalizedResult): (post: map<string, Json>)
    ensures post.Keys == SourceKeys
  {
    map["caption" := n.caption, "url" := n.url, "ownerUsername" := n.username,
        "timestamp" := n.timestamp, "likesCount" := n.likes, "commentsCount" := n.comments,
        "videoViewCount" := n.views, "hashtags" := n.hashtags, "mentions" := n.mentions,
        "locationName" := n.location]
  }

  /** Normalisation inverts Denormalize: every field of a result can be
      produced, and a complete record never falls back to a default (so the
      input URL plays no part). */
  lemma NormalizeDenormalize(inputUrl: string, n: NormalizedResult)
    ensures Normalize(inputUrl, Denormalize(n)) == n
  {
  }

  /** Normalising an already normalised record changes nothing. */
  lemma NormalizeIdempotent(inputUrl: string, otherUrl: string, post: map<string, Json>)
    ensures Normalize(otherUrl, Denormalize(Normalize(inputUrl, post))) == Normalize(inputUrl, post)
  {
  }

  /** The result depends only on the ten source keys: two records that agree
      on them (presence and value) normalise identically, whatever else they
      hold. */
  lemma NormalizeOnlyReadsSourceKeys(inputUrl: string, post: map<string, Json>, other: map<string, Json>)
    requires forall k :: k in SourceKeys ==> SameAt(post, other, k)
    ensures Normalize(inputUrl, post) == Normalize(inputUrl, other)
  {
  }

  /** A record with none of the source keys normalises to all defaults, with
      the request's own URL as `url`. */
  lemma NormalizeDefaults(inputUrl: string, post: map<string, Json>)
    requires post.Keys !! SourceKeys
    ensures Normalize(inputUrl, post) == NormalizedResult(JStr(""), JStr(inputUrl), JStr("Unknown"),
      JStr(""), JInt(0), JInt(0), JInt(0), JArr([]), JArr([]), JNull)
  {
  }
}
