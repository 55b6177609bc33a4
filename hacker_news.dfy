/**
 * The Hacker News API client: the ranked id list cut to a limit, and the
 * normalisation of one raw item into the record the ingestion run stores.
 * The HTTP round trip is an input: a `Response` is either a request failure
 * (connection error, timeout or non-2xx status) or the decoded JSON body.
 * Host extraction from a URL is an uninterpreted `netloc` function.
 */
module HackerNews {
  import opened Wrappers

  /** The default `limit` of the top-stories call. */
  const TOP_STORIES_LIMIT: int := 50

  datatype Response<T> = RequestFailed | Body(body: T)

  /**
   * A raw item as the API returns it. `None` is a key the JSON object does
   * not have; the id is always present.
   */
  datatype RawItem = RawItem(
    id: int,
    title: Option<string>,
    url: Option<string>,
    score: Option<int>,
    descendants: Option<int>,
    postedBy: Option<string>,  // the API's "by" key
    time: Option<int>)

  /** The normalised record; `timestamp` is the item's Unix time. */
  datatype Details = Details(
    id: int,
    title: string,
    url: string,
    domain: Option<string>,
    score: int,
    commentsCount: int,
    author: string,
    timestamp: int)

  /** Where a Python slice `xs[:limit]` ends in a list of length `n`. */
  function SliceEnd(n: nat, limit: int): (e: nat)
    ensures e <= n
  {
    if 0 <= limit then (if limit < n then limit else n)
    else if n + limit < 0 then 0 else n + limit
  }

  /** `get_top_stories(limit)`: the leading ids of the ranking, or none when the request fails. */
  function GetTopStories(response: Response<seq<int>>, limit: int): (r: seq<int>)
    ensures response.RequestFailed? ==> r == []
    ensures response.Body? ==> |r| <= |response.body| && r == response.body[..|r|]
    ensures response.Body? && 0 <= limit ==>
      |r| == if limit < |response.body| then limit else |response.body|
  {
    match response
    case RequestFailed => []
    case Body(ids) => ids[..SliceEnd(|ids|, limit)]
  }

  /** With the default limit at most fifty ids are fetched, the top ones first. */
  lemma TopStoriesDefault(ids: seq<int>)
    ensures var r := GetTopStories(Body(ids), TOP_STORIES_LIMIT);
      |r| <= 50 && (|ids| <= 50 ==> r == ids) && (|ids| >= 50 ==> |r| == 50)
  {
  }

  /** The host of a URL, when the item has a URL that is not empty. */
  function DomainOf(url: Option<string>, netloc: string -> string): (d: Option<string>)
    ensures d.Some? <==> url.Some? && url.value != ""
    ensures d.Some? ==> d.value == netloc(url.value)
  {
    if url.Some? && url.value != "" then Some(netloc(url.value)) else None
  }

  /**
   * `get_story_details`: `None` for a failed request, a null or empty body, or
   * an item without a title; otherwise the record with the API's field names
   * mapped to the stored ones and missing fields defaulted.
   */
  function GetStoryDetails(response: Response<Option<RawItem>>, netloc: string -> string): (r: Option<Details>)
    ensures r.None? <==>
      response.RequestFailed? || response.body.None? || response.body.value.title.None?
    ensures r.Some? ==>
      var item := response.body.value;
      && r.value.id == item.id
      && r.value.title == item.title.value
      && r.value.url == item.url.GetOr("")
      && r.value.domain == DomainOf(item.url, netloc)
      && r.value.score == item.score.GetOr(0)
      && r.value.commentsCount == item.descendants.GetOr(0)
      && r.value.author == item.postedBy.GetOr("")
      && r.value.timestamp == item.time.GetOr(0)
  {
    match response
    case RequestFailed => None
    case Body(None) => None
    case Body(Some(item)) =>
      if item.title.None? then None
      else Some(Details(
        item.id,
        item.title.value,
        item.url.GetOr(""),
        DomainOf(item.url, netloc),
        item.score.GetOr(0),
        item.descendants.GetOr(0),
        item.postedBy.GetOr(""),
        item.time.GetOr(0)))
  }

  /** The raw item that carries every field of a record. */
  function RawOf(d: Details): (item: RawItem)
    ensures item.id == d.id && item.title == Some(d.title)
  {
    RawItem(d.id, Some(d.title), Some(d.url), Some(d.score), Some(d.commentsCount), Some(d.author), Some(d.timestamp))
  }

  /** The domain a record must carry to be the normalisation of its own URL. */
  ghost predicate DomainConsistent(d: Details, netloc: string -> string) {
    d.domain == if d.url == "" then None else Some(netloc(d.url))
  }

  /** Normalising a full item loses nothing: every consistent record comes back unchanged. */
  lemma NormaliseRoundTrip(d: Details, netloc: string -> string)
    requires DomainConsistent(d, netloc)
    ensures GetStoryDetails(Body(Some(RawOf(d))), netloc) == Some(d)
  {
  }

  /** Every record the client produces is consistent with its own URL. */
  lemma DetailsAreConsistent(response: Response<Option<RawItem>>, netloc: string -> string)
    requires GetStoryDetails(response, netloc).Some?
    ensures DomainConsistent(GetStoryDetails(response, netloc).value, netloc)
  {
  }

  /** An item without a URL is stored with the empty URL and no domain. */
  lemma NoUrlNoDomain(item: RawItem, netloc: string -> string)
    requires item.title.Some? && item.url.None?
    ensures var r := GetStoryDetails(Body(Some(item)), netloc);
      r.Some? && r.value.url == "" && r.value.domain.None?
  {
  }
}
