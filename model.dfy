/**
  The records shared by the whole program: categories, the one channel
  record, the per-category bucket, and the conversion of a channel response
  into a channel record (`TryFrom<Response<ChannelResponseItem>> for Channel`).
 */
module Model {
  import opened Wrappers
  import opened Numeric
  import opened YouTube

  /** A channel needs at least this many subscribers to be listed. */
  const MinSubscribers: int := 10
  /** A channel needs at least this many videos to be listed. */
  const MinVideos: int := 5

  const ChannelLinkBase: string := "https://www.youtube.com/channel/"

  /** A configured category; `totalSubscribers` is filled in by the ranking. */
  datatype Category = Category(id: string, title: string, totalSubscribers: int)

  /** The one channel record; `name` and `category` are never set by either conversion. */
  datatype Channel = Channel(
    id: string,
    name: string,
    category: string,
    title: string,
    description: string,
    thumbnail: string,
    link: string,
    subscriberCount: int,
    videoCount: int,
    createdAt: Option<Timestamp>,
    updatedAt: Option<Timestamp>)

  /** The bucket of one category: its channels in absorption order and their running total. */
  datatype CategoryListItem = CategoryListItem(channels: seq<Channel>, totalSubscribers: int)

  /** `Category::default()`. */
  function DefaultCategory(): (c: Category)
    ensures c.id == [] && c.title == [] && c.totalSubscribers == 0
  {
    Category("", "", 0)
  }

  /** `Channel::default()`: empty strings, zero counts, no timestamps. */
  function DefaultChannel(): (c: Channel)
    ensures c.id == c.name == c.category == c.title == c.description == c.thumbnail == c.link == []
    ensures c.subscriberCount == c.videoCount == 0
    ensures c.createdAt.None? && c.updatedAt.None?
  {
    Channel("", "", "", "", "", "", "", 0, 0, None, None)
  }

  /** The public page of a channel: the fixed base followed by the id, verbatim. */
  function ChannelLink(id: string): (l: string)
    ensures |l| == |ChannelLinkBase| + |id|
    ensures l[..|ChannelLinkBase|] == ChannelLinkBase && l[|ChannelLinkBase|..] == id
  {
    ChannelLinkBase + id
  }

  /** The eligibility gate shared by both conversions: rejected below either threshold. */
  predicate Eligible(subscriberCount: int, videoCount: int) {
    !(subscriberCount < MinSubscribers || videoCount < MinVideos)
  }

  /** The thresholds are inclusive and the gate is monotone in both counts. */
  lemma EligibleBoundary(subscriberCount: int, videoCount: int)
    ensures Eligible(MinSubscribers, MinVideos)
    ensures subscriberCount < MinSubscribers ==> !Eligible(subscriberCount, videoCount)
    ensures videoCount < MinVideos ==> !Eligible(subscriberCount, videoCount)
    ensures Eligible(subscriberCount, videoCount) ==>
      forall s, v :: s >= subscriberCount && v >= videoCount ==> Eligible(s, v)
  {
  }

  /**
    What `try_from` needs to run without panicking: a first item to index, and
    two count strings that parse (they are `unwrap`ped).
   */
  predicate Convertible(res: Response<ChannelResponseItem>) {
    && |res.items| > 0
    && ParseI32(res.items[0].statistics.subscriberCount).Some?
    && ParseI32(res.items[0].statistics.videoCount).Some?
  }

  function ParsedSubscribers(res: Response<ChannelResponseItem>): int
    requires Convertible(res)
  {
    ParseI32(res.items[0].statistics.subscriberCount).value
  }

  function ParsedVideos(res: Response<ChannelResponseItem>): int
    requires Convertible(res)
  {
    ParseI32(res.items[0].statistics.videoCount).value
  }

  /**
    `Channel::try_from`: rejects a channel below either threshold, otherwise
    fills a default record from the first item of the response.
   */
  function TryFromResponse(res: Response<ChannelResponseItem>): (r: Result<Channel, ()>)
    requires Convertible(res)
    ensures r.Err? <==> ParsedSubscribers(res) < MinSubscribers || ParsedVideos(res) < MinVideos
    ensures r.Ok? ==>
      var item, c := res.items[0], r.value;
      && c.id == item.id
      && c.link == ChannelLink(item.id)
      && c.title == item.snippet.title
      && c.description == item.snippet.description
      && c.thumbnail == item.snippet.thumbnail.url
      && c.createdAt == Some(item.snippet.publishedAt)
      && c.subscriberCount == ParsedSubscribers(res) && c.videoCount == ParsedVideos(res)
    ensures r.Ok? ==>
      && MinSubscribers <= r.value.subscriberCount <= I32Max
      && MinVideos <= r.value.videoCount <= I32Max
    ensures r.Ok? ==> r.value.updatedAt.None? && r.value.name == [] && r.value.category == []
  {
    var item := res.items[0];
    var subscriberCount := ParsedSubscribers(res);
    var videoCount := ParsedVideos(res);
    if subscriberCount < MinSubscribers || videoCount < MinVideos then Err(())
    else
      Ok(DefaultChannel().(
        id := item.id,
        title := item.snippet.title,
        description := item.snippet.description,
        thumbnail := item.snippet.thumbnail.url,
        link := ChannelLink(item.id),
        subscriberCount := subscriberCount,
        videoCount := videoCount,
        createdAt := Some(item.snippet.publishedAt)))
  }

  /**
    The shape of record that `try_from` produces: eligible i32 counts, a link
    derived from the id, a creation time and nothing it never assigns.
   */
  predicate FromResponseShape(c: Channel) {
    && MinSubscribers <= c.subscriberCount <= I32Max
    && MinVideos <= c.videoCount <= I32Max
    && c.link == ChannelLink(c.id)
    && c.createdAt.Some? && c.updatedAt.None?
    && c.name == [] && c.category == []
  }

  /** The response item the API would send for a channel, counts printed in decimal. */
  function AsResponseItem(c: Channel, viewCount: string): ChannelResponseItem
    requires c.subscriberCount >= 0 && c.videoCount >= 0 && c.createdAt.Some?
  {
    ChannelResponseItem(
      c.id,
      ChannelSnippet(c.title, c.description, Thumbnail(c.thumbnail), c.createdAt.value),
      ChannelStatistics(DecimalString(c.subscriberCount), DecimalString(c.videoCount), viewCount))
  }

  /** Every record of that shape comes back unchanged from its own response. */
  lemma TryFromRoundTrip(c: Channel, viewCount: string)
    requires FromResponseShape(c)
    ensures Convertible(Response([AsResponseItem(c, viewCount)]))
    ensures TryFromResponse(Response([AsResponseItem(c, viewCount)])) == Ok(c)
  {
    ParseDecimalRoundTrip(c.subscriberCount);
    ParseDecimalRoundTrip(c.videoCount);
  }

  /** Whatever `try_from` accepts has that shape. */
  lemma TryFromShape(res: Response<ChannelResponseItem>)
    requires Convertible(res) && TryFromResponse(res).Ok?
    ensures FromResponseShape(TryFromResponse(res).value)
  {
  }

  /** Items after the first are ignored. */
  lemma TryFromReadsFirstItemOnly(res: Response<ChannelResponseItem>, more: seq<ChannelResponseItem>)
    requires Convertible(res)
    ensures Convertible(Response(res.items[..1] + more))
    ensures TryFromResponse(Response(res.items[..1] + more)) == TryFromResponse(res)
  {
  }
}
