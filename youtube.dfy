/**
  The shapes of the video API's responses, the request descriptor and the two
  deterministic URL builders. The HTTP fetches themselves are not modelled:
  a response is an input value whose `items` may be empty.
 */
module YouTube {

  /** An instant as the API reports it (`publishedAt`); only compared, never inspected. */
  type Timestamp = int

  datatype Response<T> = Response(items: seq<T>)

  datatype Thumbnail = Thumbnail(url: string)

  datatype ChannelSnippet = ChannelSnippet(
    title: string,
    description: string,
    thumbnail: Thumbnail,
    publishedAt: Timestamp)

  /** The statistics arrive as decimal strings that the caller must parse. */
  datatype ChannelStatistics = ChannelStatistics(
    subscriberCount: string,
    videoCount: string,
    viewCount: string)

  datatype ChannelResponseItem = ChannelResponseItem(
    id: string,
    snippet: ChannelSnippet,
    statistics: ChannelStatistics)

  datatype ActivitiesSnippet = ActivitiesSnippet(publishedAt: Timestamp)

  datatype ActivitiesResponseItem = ActivitiesResponseItem(
    id: string,
    snippet: ActivitiesSnippet)

  datatype Request = Request(urlPrefix: string, id: string, key: string)

  const ApiBase: string := "https://www.googleapis.com/youtube/v3"

  const ChannelPath: string := "/channels?part=snippet,statistics&id="
  const ActivitiesPath: string := "/activities?part=snippet&channelId="
  const KeyParam: string := "&key="
  const MaxResultsParam: string := "&maxResults=1"

  /** `Request::new`: the fixed API base, the channel id and the API key. */
  function NewRequest(id: string, key: string): (r: Request)
    ensures r.urlPrefix == ApiBase
    ensures r.id == id && r.key == key
  {
    Request(ApiBase, id, key)
  }

  /** `ChannelRequest::get_url`: snippet and statistics of one channel. */
  function ChannelUrl(req: Request): (u: string)
    ensures |u| == |req.urlPrefix| + |ChannelPath| + |req.id| + |KeyParam| + |req.key|
  {
    req.urlPrefix + ChannelPath + req.id + KeyParam + req.key
  }

  /** `ActivitiesRequest::get_url`: the single most recent activity of one channel. */
  function ActivitiesUrl(req: Request): (u: string)
    ensures |u| == |req.urlPrefix| + |ActivitiesPath| + |req.id| + |MaxResultsParam| + |KeyParam| + |req.key|
  {
    req.urlPrefix + ActivitiesPath + req.id + MaxResultsParam + KeyParam + req.key
  }

  /**
    The channel URL starts with the prefix and the channel path, carries the
    id verbatim right after them and ends with the key parameter.
   */
  lemma ChannelUrlLayout(req: Request)
    ensures var u, p := ChannelUrl(req), |req.urlPrefix| + |ChannelPath|;
      && u[..|req.urlPrefix|] == req.urlPrefix
      && u[|req.urlPrefix|..p] == ChannelPath
      && u[p..p + |req.id|] == req.id
      && u[p + |req.id|..] == KeyParam + req.key
  {
    var u, p := ChannelUrl(req), |req.urlPrefix| + |ChannelPath|;
    assert u == (req.urlPrefix + ChannelPath) + req.id + (KeyParam + req.key);
  }

  /**
    The activities URL starts with the prefix and the activities path, carries
    the id verbatim right after them, limits the result to one item and ends
    with the key parameter.
   */
  lemma ActivitiesUrlLayout(req: Request)
    ensures var u, p := ActivitiesUrl(req), |req.urlPrefix| + |ActivitiesPath|;
      && u[..|req.urlPrefix|] == req.urlPrefix
      && u[|req.urlPrefix|..p] == ActivitiesPath
      && u[p..p + |req.id|] == req.id
      && u[p + |req.id|..] == MaxResultsParam + KeyParam + req.key
  {
    var u, p := ActivitiesUrl(req), |req.urlPrefix| + |ActivitiesPath|;
    assert u == (req.urlPrefix + ActivitiesPath) + req.id + (MaxResultsParam + KeyParam + req.key);
  }

  /**
    The two builders share the prefix and the trailing key parameter and
    never coincide: they differ in the path right after the prefix.
   */
  lemma UrlsDifferOnlyInPath(req: Request)
    ensures ChannelUrl(req)[..|req.urlPrefix|] == ActivitiesUrl(req)[..|req.urlPrefix|] == req.urlPrefix
    ensures ChannelUrl(req) != ActivitiesUrl(req)
  {
    ChannelUrlLayout(req);
    ActivitiesUrlLayout(req);
    var n := |req.urlPrefix|;
    assert ChannelUrl(req)[n + 1] == 'c' != 'a' == ActivitiesUrl(req)[n + 1];
  }

  /**
    Given the layout, the id and key are recoverable from a channel URL built
    on the same prefix when the id holds no `&`: distinct requests give
    distinct URLs.
   */
  lemma {:induction false} ChannelUrlInjective(id1: string, key1: string, id2: string, key2: string)
    requires forall i :: 0 <= i < |id1| ==> id1[i] != '&'
    requires forall i :: 0 <= i < |id2| ==> id2[i] != '&'
    requires ChannelUrl(NewRequest(id1, key1)) == ChannelUrl(NewRequest(id2, key2))
    ensures id1 == id2 && key1 == key2
  {
    var head := ApiBase + ChannelPath;
    var t1, t2 := id1 + KeyParam + key1, id2 + KeyParam + key2;
    assert ChannelUrl(NewRequest(id1, key1)) == head + t1;
    assert ChannelUrl(NewRequest(id2, key2)) == head + t2;
    assert t1 == (head + t1)[|head|..];
    assert t2 == (head + t2)[|head|..];
    FirstAmpersand(id1, key1, id2, key2);
  }

  /** The first `&` after the id marks where the id ends. */
  lemma {:induction false} FirstAmpersand(id1: string, key1: string, id2: string, key2: string)
    requires forall i :: 0 <= i < |id1| ==> id1[i] != '&'
    requires forall i :: 0 <= i < |id2| ==> id2[i] != '&'
    requires id1 + KeyParam + key1 == id2 + KeyParam + key2
    ensures id1 == id2 && key1 == key2
  {
    var t := id1 + KeyParam + key1;
    assert |id1| == |id2| by {
      assert t[|id1|] == '&' && t[|id2|] == '&';
    }
    assert id1 == t[..|id1|] == id2;
    assert key1 == t[|id1| + |KeyParam|..] == key2;
  }
}
