/**
  The README generator's channel pipeline: the per-channel gate, the
  aggregation of admitted channels into per-category buckets, the copy of
  bucket totals onto the categories, the two rankings and the table of
  contents. Remote responses are inputs; nothing here fetches.
 */
module Pipeline {
  import opened Wrappers
  import opened Numeric
  import opened YouTube
  import opened Model
  import opened Sorting
  import opened Markdown

  /** An entry of the channel list: the channel id, a display name and its category id. */
  datatype ChannelConfig = ChannelConfig(id: string, name: string, category: string)

  /** One configured channel with what the API answers for it. */
  datatype Fetched = Fetched(
    config: ChannelConfig,
    channelRes: Response<ChannelResponseItem>,
    activityRes: Response<ActivitiesResponseItem>)

  /** Why a channel was skipped, or the record built for it. */
  datatype Verdict = NoChannelItems | BelowThreshold | NoActivityItems | Admitted(record: Channel)

  /** A populated category of the README with its channels in display order. */
  datatype Section = Section(category: Category, channels: seq<Channel>)

  type Buckets = map<string, CategoryListItem>

  /**
    The loop body panics unless, when the channel response has an item, both
    count strings parse.
   */
  predicate Parsable(f: Fetched) {
    |f.channelRes.items| > 0 ==> Convertible(f.channelRes)
  }

  predicate AllParsable(fs: seq<Fetched>) {
    forall i :: 0 <= i < |fs| ==> Parsable(fs[i])
  }

  function SubscriberKey(c: Channel): int {
    c.subscriberCount
  }

  function CategoryKey(c: Category): int {
    c.totalSubscribers
  }

  // ---------------------------------------------------------------------------
  // The gate and the record

  /** The URLs the loop body requests for one channel, in order. */
  function Requests(key: string, f: Fetched): (urls: seq<string>)
    requires Parsable(f)
    ensures 1 <= |urls| <= 2
    ensures urls[0] == ChannelUrl(NewRequest(f.config.id, key))
    ensures |urls| == 2 <==>
      |f.channelRes.items| > 0 && Eligible(ParsedSubscribers(f.channelRes), ParsedVideos(f.channelRes))
    ensures |urls| == 2 ==> urls[1] == ActivitiesUrl(NewRequest(f.config.id, key))
  {
    var request := NewRequest(f.config.id, key);
    if |f.channelRes.items| == 0 then [ChannelUrl(request)]
    else if ParsedSubscribers(f.channelRes) < MinSubscribers || ParsedVideos(f.channelRes) < MinVideos
    then [ChannelUrl(request)]
    else [ChannelUrl(request), ActivitiesUrl(request)]
  }

  /**
    The record the loop builds: identity and link from the configured id,
    descriptive fields and creation time from the channel item, last
    activity from the activity item.
   */
  function BuildRecord(
    config: ChannelConfig, item: ChannelResponseItem, activity: ActivitiesResponseItem,
    subscriberCount: int, videoCount: int): Channel
  {
    DefaultChannel().(
      id := config.id,
      title := item.snippet.title,
      description := item.snippet.description,
      thumbnail := item.snippet.thumbnail.url,
      link := ChannelLink(config.id),
      subscriberCount := subscriberCount,
      videoCount := videoCount,
      createdAt := Some(item.snippet.publishedAt),
      updatedAt := Some(activity.snippet.publishedAt))
  }

  /** The decision the loop body takes for one channel. */
  function Examine(f: Fetched): (v: Verdict)
    requires Parsable(f)
    ensures v.NoChannelItems? <==> |f.channelRes.items| == 0
    ensures v.BelowThreshold? <==>
      |f.channelRes.items| > 0 && !Eligible(ParsedSubscribers(f.channelRes), ParsedVideos(f.channelRes))
    ensures v.Admitted? <==>
      && |f.channelRes.items| > 0 && |f.activityRes.items| > 0
      && ParsedSubscribers(f.channelRes) >= MinSubscribers
      && ParsedVideos(f.channelRes) >= MinVideos
    ensures v.Admitted? ==>
      var r, item, activity := v.record, f.channelRes.items[0], f.activityRes.items[0];
      && r.id == f.config.id && r.link == ChannelLink(f.config.id)
      && r.subscriberCount == ParsedSubscribers(f.channelRes)
      && r.videoCount == ParsedVideos(f.channelRes)
      && r.title == item.snippet.title && r.description == item.snippet.description
      && r.thumbnail == item.snippet.thumbnail.url
      && r.createdAt == Some(item.snippet.publishedAt)
      && r.updatedAt == Some(activity.snippet.publishedAt)
  {
    if |f.channelRes.items| == 0 then NoChannelItems
    else
      var subscriberCount := ParsedSubscribers(f.channelRes);
      var videoCount := ParsedVideos(f.channelRes);
      if subscriberCount < MinSubscribers || videoCount < MinVideos then BelowThreshold
      else if |f.activityRes.items| == 0 then NoActivityItems
      else Admitted(BuildRecord(f.config, f.channelRes.items[0], f.activityRes.items[0], subscriberCount, videoCount))
  }

  /**
    The loop body and `Channel::try_from` admit the same channels; their
    records differ only in where the id comes from (the configured id here,
    the response item's id there) and in the activity time that only the
    loop fills in.
   */
  lemma ExamineAgreesWithTryFrom(f: Fetched)
    requires Parsable(f) && |f.channelRes.items| > 0
    ensures TryFromResponse(f.channelRes).Err? ==> !Examine(f).Admitted?
    ensures TryFromResponse(f.channelRes).Ok? && |f.activityRes.items| > 0 ==>
      Examine(f) == Admitted(TryFromResponse(f.channelRes).value.(
        id := f.config.id,
        link := ChannelLink(f.config.id),
        updatedAt := Some(f.activityRes.items[0].snippet.publishedAt)))
  {
  }

  // ---------------------------------------------------------------------------
  // Aggregation

  function SumSubscribers(s: seq<Channel>): int {
    if |s| == 0 then 0 else s[0].subscriberCount + SumSubscribers(s[1..])
  }

  /** Every bucket holds at least one channel and its total is the sum of its channels' subscribers. */
  ghost predicate Consistent(m: Buckets) {
    forall c :: c in m ==> |m[c].channels| > 0 && m[c].totalSubscribers == SumSubscribers(m[c].channels)
  }

  /** The buckets after `record` is absorbed into category `category`. */
  function Absorbed(m: Buckets, category: string, record: Channel): (m': Buckets)
    ensures m'.Keys == m.Keys + {category}
    ensures forall c :: c in m && c != category ==> m'[c] == m[c]
    ensures m'[category].channels == (if category in m then m[category].channels else []) + [record]
    ensures m'[category].totalSubscribers ==
      (if category in m then m[category].totalSubscribers else 0) + record.subscriberCount
  {
    if category in m then
      var item := m[category];
      m[category := CategoryListItem(item.channels + [record], item.totalSubscribers + record.subscriberCount)]
    else
      m[category := CategoryListItem([record], record.subscriberCount)]
  }

  /** The effect of one iteration of the channel loop. */
  function Step(m: Buckets, f: Fetched): Buckets
    requires Parsable(f)
  {
    match Examine(f)
    case Admitted(record) => Absorbed(m, f.config.category, record)
    case _ => m
  }

  /** The buckets after the channel loop has run over `fs`. */
  function AggregateAll(m: Buckets, fs: seq<Fetched>): Buckets
    requires AllParsable(fs)
  {
    if |fs| == 0 then m
    else Step(AggregateAll(m, fs[..|fs| - 1]), fs[|fs| - 1])
  }

  /** The records admitted for category `c`, in channel-list order. */
  function AdmittedIn(fs: seq<Fetched>, c: string): seq<Channel>
    requires AllParsable(fs)
  {
    if |fs| == 0 then []
    else
      var f := fs[|fs| - 1];
      AdmittedIn(fs[..|fs| - 1], c) +
        (if Examine(f).Admitted? && f.config.category == c then [Examine(f).record] else [])
  }

  lemma {:induction false} SumAppend(s: seq<Channel>, r: Channel)
    ensures SumSubscribers(s + [r]) == SumSubscribers(s) + r.subscriberCount
  {
    SumConcat(s, [r]);
  }

  lemma {:induction false} SumConcat(a: seq<Channel>, b: seq<Channel>)
    ensures SumSubscribers(a + b) == SumSubscribers(a) + SumSubscribers(b)
    decreases |a|
  {
    if |a| == 0 {
      assert a + b == b;
    } else {
      assert (a + b)[1..] == a[1..] + b;
      SumConcat(a[1..], b);
    }
  }

  lemma SumRemove(t: seq<Channel>, j: nat)
    requires j < |t|
    ensures SumSubscribers(t) == t[j].subscriberCount + SumSubscribers(t[..j] + t[j + 1..])
  {
    var front, back := t[..j], t[j + 1..];
    var rest := t[j..];
    assert t == front + rest;
    assert rest == [t[j]] + back;
    SumConcat(front, rest);
    assert rest[0] == t[j] && rest[1..] == back;
    SumConcat(front, back);
  }

  lemma MultisetRemove(s: seq<Channel>, t: seq<Channel>, j: nat)
    requires |s| > 0 && j < |t| && t[j] == s[0]
    requires multiset(s) == multiset(t)
    ensures multiset(s[1..]) == multiset(t[..j] + t[j + 1..])
  {
    var front, back := t[..j], t[j + 1..];
    assert t == front + [t[j]] + back;
    assert s == [s[0]] + s[1..];
    assert multiset(t) == multiset(front) + multiset{t[j]} + multiset(back);
    assert multiset(s) == multiset{s[0]} + multiset(s[1..]);
    assert multiset(front + back) == multiset(front) + multiset(back);
    assert multiset(s[1..]) == multiset(s) - multiset{s[0]};
  }

  /** Reordering the channels of a bucket does not change their total. */
  lemma {:induction false} SumPermutation(s: seq<Channel>, t: seq<Channel>)
    requires multiset(s) == multiset(t)
    ensures SumSubscribers(s) == SumSubscribers(t)
    decreases |s|
  {
    if |s| == 0 {
      assert |t| == |multiset(t)| == 0;
    } else {
      assert s[0] in multiset(t);
      var j :| 0 <= j < |t| && t[j] == s[0];
      MultisetRemove(s, t, j);
      SumPermutation(s[1..], t[..j] + t[j + 1..]);
      SumRemove(t, j);
    }
  }

  /** Absorbing a record keeps every bucket's total equal to the sum of its channels. */
  lemma AbsorbKeepsConsistent(m: Buckets, category: string, record: Channel)
    requires Consistent(m)
    ensures Consistent(Absorbed(m, category, record))
  {
    if category in m {
      SumAppend(m[category].channels, record);
    }
  }

  /**
    The bucket of category `c` in `m` is exactly what the channels of `fs`
    admitted for it: absent when none was, else those records in order and
    their subscriber sum.
   */
  ghost predicate BucketOf(m: Buckets, fs: seq<Fetched>, c: string)
    requires AllParsable(fs)
  {
    && (c in m <==> |AdmittedIn(fs, c)| > 0)
    && (c in m ==>
          m[c].channels == AdmittedIn(fs, c) && m[c].totalSubscribers == SumSubscribers(AdmittedIn(fs, c)))
  }

  /** `m` holds, for every category, exactly the records admitted for it in `fs` and their sum. */
  ghost predicate BucketsOf(m: Buckets, fs: seq<Fetched>)
    requires AllParsable(fs)
  {
    forall c :: BucketOf(m, fs, c)
  }

  lemma AdmittedInAppend(fs: seq<Fetched>, f: Fetched, c: string)
    requires AllParsable(fs) && Parsable(f) && AllParsable(fs + [f])
    ensures AdmittedIn(fs + [f], c) ==
      AdmittedIn(fs, c) + (if Examine(f).Admitted? && f.config.category == c then [Examine(f).record] else [])
  {
    assert (fs + [f])[..|fs|] == fs;
  }

  lemma BucketsOfStep(m: Buckets, fs: seq<Fetched>, f: Fetched)
    requires AllParsable(fs) && Parsable(f) && BucketsOf(m, fs)
    ensures AllParsable(fs + [f]) && BucketsOf(Step(m, f), fs + [f])
  {
    AggregateAppend(map[], fs, f);
    var all, m' := fs + [f], Step(m, f);
    var v := Examine(f);
    forall c
      ensures BucketOf(m', all, c)
    {
      AdmittedInAppend(fs, f, c);
      assert BucketOf(m, fs, c);
      if v.Admitted? && c == f.config.category {
        assert m' == Absorbed(m, c, v.record);
        if c in m {
          SumAppend(m[c].channels, v.record);
        }
      } else if v.Admitted? {
        assert m' == Absorbed(m, f.config.category, v.record);
      } else {
        assert m' == m;
      }
    }
  }

  /**
    Starting from no buckets, a category has a bucket exactly when some of its
    channels were admitted; the bucket then lists those records in
    channel-list order and its total is their subscriber sum.
   */
  lemma {:induction false} AggregateBuckets(fs: seq<Fetched>)
    requires AllParsable(fs)
    ensures BucketsOf(AggregateAll(map[], fs), fs)
    decreases |fs|
  {
    if |fs| > 0 {
      var init, f := fs[..|fs| - 1], fs[|fs| - 1];
      assert init + [f] == fs;
      AggregateBuckets(init);
      AggregateAppend(map[], init, f);
      BucketsOfStep(AggregateAll(map[], init), init, f);
    }
  }

  /** The loop keeps the bucket invariant. */
  lemma {:induction false} AggregateConsistent(m: Buckets, fs: seq<Fetched>)
    requires AllParsable(fs) && Consistent(m)
    ensures Consistent(AggregateAll(m, fs))
    decreases |fs|
  {
    if |fs| > 0 {
      var init, f := fs[..|fs| - 1], fs[|fs| - 1];
      assert AllParsable(init);
      AggregateConsistent(m, init);
      if Examine(f).Admitted? {
        AbsorbKeepsConsistent(AggregateAll(m, init), f.config.category, Examine(f).record);
      }
    }
  }

  /** Only records that passed both thresholds, with a link built from their id, are ever admitted. */
  lemma {:induction false} AdmittedAreEligible(fs: seq<Fetched>, c: string)
    requires AllParsable(fs)
    ensures forall r :: r in AdmittedIn(fs, c) ==>
      && r.subscriberCount >= MinSubscribers && r.videoCount >= MinVideos
      && r.link == ChannelLink(r.id) && r.updatedAt.Some?
    decreases |fs|
  {
    if |fs| > 0 {
      assert AllParsable(fs[..|fs| - 1]);
      AdmittedAreEligible(fs[..|fs| - 1], c);
    }
  }

  /**
    A channel the gate skips leaves no trace: running the loop with or
    without it gives the same buckets.
   */
  lemma {:induction false} SkippedChannelInvisible(m: Buckets, before: seq<Fetched>, f: Fetched, after: seq<Fetched>)
    requires AllParsable(before) && Parsable(f) && AllParsable(after)
    requires !Examine(f).Admitted?
    ensures AllParsable(before + [f] + after) && AllParsable(before + after)
    ensures AggregateAll(m, before + [f] + after) == AggregateAll(m, before + after)
    decreases |after|
  {
    assert AllParsable([f]);
    AllParsableConcat(before, [f]);
    AllParsableConcat(before + [f], after);
    AllParsableConcat(before, after);
    if |after| == 0 {
      assert before + [f] + after == before + [f];
      assert before + after == before;
      AggregateAppend(m, before, f);
    } else {
      var init, last := after[..|after| - 1], after[|after| - 1];
      assert AllParsable(init);
      SkippedChannelInvisible(m, before, f, init);
      AllParsableConcat(before + [f], init);
      AllParsableConcat(before, init);
      SplitLast(before + [f], after);
      SplitLast(before, after);
      AggregateAppend(m, before + [f] + init, last);
      AggregateAppend(m, before + init, last);
    }
  }

  lemma SplitLast<T>(a: seq<T>, b: seq<T>)
    requires |b| > 0
    ensures a + b == (a + b[..|b| - 1]) + [b[|b| - 1]]
  {
  }

  lemma AggregateAppend(m: Buckets, fs: seq<Fetched>, f: Fetched)
    requires AllParsable(fs) && Parsable(f)
    ensures AllParsable(fs + [f])
    ensures AggregateAll(m, fs + [f]) == Step(AggregateAll(m, fs), f)
  {
    assert AllParsable([f]);
    AllParsableConcat(fs, [f]);
    assert (fs + [f])[..|fs|] == fs;
  }

  /** One more channel of the list is one more step of the loop. */
  lemma AggregatePrefix(m: Buckets, fs: seq<Fetched>, i: nat)
    requires AllParsable(fs) && i < |fs|
    ensures AllParsable(fs[..i]) && AllParsable(fs[..i + 1])
    ensures AggregateAll(m, fs[..i + 1]) == Step(AggregateAll(m, fs[..i]), fs[i])
  {
    assert fs[..i + 1][..i] == fs[..i];
  }

  lemma AllParsableConcat(a: seq<Fetched>, b: seq<Fetched>)
    requires AllParsable(a) && AllParsable(b)
    ensures AllParsable(a + b)
  {
    forall i | 0 <= i < |a + b| ensures Parsable((a + b)[i]) {
      if i >= |a| {
        assert (a + b)[i] == b[i - |a|];
      }
    }
  }

  /**
    A channel whose channel response or activity response has no items
    contributes to no bucket and no total.
   */
  lemma EmptyResponseInvisible(m: Buckets, before: seq<Fetched>, f: Fetched, after: seq<Fetched>)
    requires AllParsable(before) && Parsable(f) && AllParsable(after)
    requires |f.channelRes.items| == 0 || |f.activityRes.items| == 0
    ensures AllParsable(before + [f] + after) && AllParsable(before + after)
    ensures AggregateAll(m, before + [f] + after) == AggregateAll(m, before + after)
  {
    SkippedChannelInvisible(m, before, f, after);
  }

  // ---------------------------------------------------------------------------
  // Ranking and contents

  /** A category carries its bucket's total when it has a bucket, and is unchanged otherwise. */
  function WithTotal(c: Category, m: Buckets): Category {
    if c.id in m then c.(totalSubscribers := m[c.id].totalSubscribers) else c
  }

  function WithTotals(cats: seq<Category>, m: Buckets): (r: seq<Category>)
    ensures |r| == |cats|
  {
    seq(|cats|, i requires 0 <= i < |cats| => WithTotal(cats[i], m))
  }

  /** The categories after the totals are copied and the list is sorted. */
  function Ranked(cats: seq<Category>, m: Buckets): seq<Category> {
    StableSortDesc(WithTotals(cats, m), CategoryKey)
  }

  /** The table of contents: one line per category that has a bucket, in list order. */
  function Toc(cats: seq<Category>, m: Buckets): string {
    if |cats| == 0 then ""
    else
      var c := cats[|cats| - 1];
      Toc(cats[..|cats| - 1], m) + (if c.id in m then TocLine(c.title, AnchorKey(c.title)) else "")
  }

  /** The README sections: one per category that has a bucket, channels ranked by subscribers. */
  function Sections(cats: seq<Category>, m: Buckets): seq<Section> {
    if |cats| == 0 then []
    else
      var c := cats[|cats| - 1];
      Sections(cats[..|cats| - 1], m) +
        (if c.id in m then [Section(c, StableSortDesc(m[c.id].channels, SubscriberKey))] else [])
  }

  /** The contents lines of a list of sections, one per section, in order. */
  function TocOf(sections: seq<Section>): string {
    if |sections| == 0 then ""
    else
      var title := sections[|sections| - 1].category.title;
      TocOf(sections[..|sections| - 1]) + TocLine(title, AnchorKey(title))
  }

  /**
    The contents and the sections cover the same categories in the same
    order: the contents are exactly one line per section.
   */
  lemma {:induction false} TocMatchesSections(cats: seq<Category>, m: Buckets)
    ensures Toc(cats, m) == TocOf(Sections(cats, m))
    decreases |cats|
  {
    if |cats| > 0 {
      var init, c := cats[..|cats| - 1], cats[|cats| - 1];
      TocMatchesSections(init, m);
      if c.id in m {
        var before := Sections(init, m);
        var sec := Section(c, StableSortDesc(m[c.id].channels, SubscriberKey));
        assert Sections(cats, m) == before + [sec];
        assert Toc(cats, m) == Toc(init, m) + TocLine(c.title, AnchorKey(c.title));
        assert (before + [sec])[..|before|] == before;
        assert TocOf(before + [sec]) == TocOf(before) + TocLine(c.title, AnchorKey(c.title));
      } else {
        assert Sections(cats, m) == Sections(init, m) + [] == Sections(init, m);
        assert Toc(cats, m) == Toc(init, m) + "" == Toc(init, m);
      }
    }
  }

  /** The buckets after the contents loop has ranked, in turn, the bucket of each listed category. */
  function SortBuckets(m: Buckets, cats: seq<Category>): (m': Buckets)
    ensures m'.Keys == m.Keys
  {
    if |cats| == 0 then m
    else
      var p, c := SortBuckets(m, cats[..|cats| - 1]), cats[|cats| - 1];
      if c.id in p then p[c.id := p[c.id].(channels := StableSortDesc(p[c.id].channels, SubscriberKey))]
      else p
  }

  function Ids(cats: seq<Category>): set<string> {
    set i | 0 <= i < |cats| :: cats[i].id
  }

  /**
    After the contents loop, the bucket of every listed category has its
    channels ranked (once or several times, with the same result) and every
    other bucket is untouched.
   */
  lemma {:induction false} SortBucketsRanksListed(m: Buckets, cats: seq<Category>)
    ensures forall c :: c in m ==>
      SortBuckets(m, cats)[c] ==
        if c in Ids(cats) then m[c].(channels := StableSortDesc(m[c].channels, SubscriberKey)) else m[c]
    decreases |cats|
  {
    if |cats| > 0 {
      var init, last := cats[..|cats| - 1], cats[|cats| - 1];
      SortBucketsRanksListed(m, init);
      assert Ids(cats) == Ids(init) + {last.id} by {
        assert forall k :: 0 <= k < |init| ==> cats[k] == init[k];
      }
      if last.id in m {
        StableSortIdempotent(m[last.id].channels, SubscriberKey);
      }
    }
  }

  /** What one more iteration of the contents loop adds, in terms of the buckets it started from. */
  lemma ContentsStep(m: Buckets, cats: seq<Category>, i: nat)
    requires i < |cats|
    ensures var c, p := cats[i], SortBuckets(m, cats[..i]);
      && cats[..i + 1][..i] == cats[..i] && cats[..i + 1][i] == c
      && (c.id in p <==> c.id in m)
      && (c.id in m ==> StableSortDesc(p[c.id].channels, SubscriberKey) == StableSortDesc(m[c.id].channels, SubscriberKey))
  {
    var c := cats[i];
    SortBucketsRanksListed(m, cats[..i]);
    if c.id in m {
      StableSortIdempotent(m[c.id].channels, SubscriberKey);
    }
  }

  /** Ranking a bucket's channels keeps the bucket invariant. */
  lemma RankKeepsConsistent(m: Buckets, c: string)
    requires Consistent(m) && c in m
    ensures Consistent(m[c := m[c].(channels := StableSortDesc(m[c].channels, SubscriberKey))])
  {
    var item := m[c];
    StableSortPermutation(item.channels, SubscriberKey);
    SumPermutation(StableSortDesc(item.channels, SubscriberKey), item.channels);
  }

  /**
    The category ranking is ordered by non-increasing total, is a
    permutation of the categories, and keeps categories of equal total in
    list order.
   */
  lemma RankedIsStableDescending(cats: seq<Category>, m: Buckets)
    ensures SortedDesc(Ranked(cats, m), CategoryKey)
    ensures multiset(Ranked(cats, m)) == multiset(WithTotals(cats, m))
    ensures SameTies(Ranked(cats, m), WithTotals(cats, m), CategoryKey)
  {
    StableSortSorted(WithTotals(cats, m), CategoryKey);
    StableSortPermutation(WithTotals(cats, m), CategoryKey);
    StableSortKeepsTies(WithTotals(cats, m), CategoryKey);
  }

  /**
    After the copy, a category with admitted channels carries their
    subscriber sum; any other keeps the total it was read with, which is 0
    when the configuration leaves it out.
   */
  lemma TotalsFromAdmitted(cats: seq<Category>, fs: seq<Fetched>, i: nat)
    requires AllParsable(fs) && i < |cats|
    ensures var c := WithTotals(cats, AggregateAll(map[], fs))[i];
      && c.id == cats[i].id && c.title == cats[i].title
      && (|AdmittedIn(fs, cats[i].id)| > 0 ==> c.totalSubscribers == SumSubscribers(AdmittedIn(fs, cats[i].id)))
      && (|AdmittedIn(fs, cats[i].id)| == 0 ==> c.totalSubscribers == cats[i].totalSubscribers)
  {
    AggregateBuckets(fs);
    assert BucketOf(AggregateAll(map[], fs), fs, cats[i].id);
  }

  /**
    The sections are exactly the categories with a bucket, in list order
    (each category of the list with a bucket yields one), each with its
    bucket's channels ranked by non-increasing subscriber count, as a
    permutation that keeps equal counts in absorption order.
   */
  lemma {:induction false} SectionsArePopulated(cats: seq<Category>, m: Buckets)
    ensures forall s :: s in Sections(cats, m) ==>
      && s.category in cats && s.category.id in m
      && s.channels == StableSortDesc(m[s.category.id].channels, SubscriberKey)
    ensures forall c :: c in cats && c.id in m ==> exists s :: s in Sections(cats, m) && s.category == c
    ensures |Sections(cats, m)| <= |cats|
    decreases |cats|
  {
    if |cats| > 0 {
      var init, last := cats[..|cats| - 1], cats[|cats| - 1];
      SectionsArePopulated(init, m);
      assert cats == init + [last];
      forall c | c in cats && c.id in m ensures exists s :: s in Sections(cats, m) && s.category == c {
        if c in init {
          var s :| s in Sections(init, m) && s.category == c;
          assert s in Sections(cats, m);
        } else {
          assert c == last;
          assert Section(c, StableSortDesc(m[c.id].channels, SubscriberKey)) in Sections(cats, m);
        }
      }
    }
  }

  /** A section's channels are ranked: sorted, a permutation of the bucket, ties in absorption order. */
  lemma SectionChannelsRanked(cats: seq<Category>, m: Buckets, s: Section)
    requires s in Sections(cats, m)
    ensures s.category.id in m
    ensures SortedDesc(s.channels, SubscriberKey)
    ensures multiset(s.channels) == multiset(m[s.category.id].channels)
    ensures SameTies(s.channels, m[s.category.id].channels, SubscriberKey)
  {
    SectionsArePopulated(cats, m);
    StableSortSorted(m[s.category.id].channels, SubscriberKey);
    StableSortPermutation(m[s.category.id].channels, SubscriberKey);
    StableSortKeepsTies(m[s.category.id].channels, SubscriberKey);
  }

  /**
    End to end: every section of the README belongs to a category with at
    least one admitted channel; its category carries the subscriber sum of
    exactly those channels, and it lists exactly those channels, ranked,
    each of them past both thresholds.
   */
  lemma ReportSections(cats: seq<Category>, fs: seq<Fetched>, s: Section)
    requires AllParsable(fs)
    requires s in Sections(Ranked(cats, AggregateAll(map[], fs)), AggregateAll(map[], fs))
    ensures var admitted := AdmittedIn(fs, s.category.id);
      && |admitted| > 0
      && s.category.totalSubscribers == SumSubscribers(admitted)
      && s.channels == StableSortDesc(admitted, SubscriberKey)
      && forall r :: r in s.channels ==> r.subscriberCount >= MinSubscribers && r.videoCount >= MinVideos
  {
    var m := AggregateAll(map[], fs);
    var ranked := Ranked(cats, m);
    SectionsArePopulated(ranked, m);
    AggregateBuckets(fs);
    assert BucketOf(m, fs, s.category.id);
    RankedCategoryTotal(cats, m, s.category);
    RankedChannelsEligible(fs, s.category.id);
  }

  /** A category of the ranking whose id has a bucket carries that bucket's total. */
  lemma RankedCategoryTotal(cats: seq<Category>, m: Buckets, c: Category)
    requires c in Ranked(cats, m) && c.id in m
    ensures c.totalSubscribers == m[c.id].totalSubscribers
  {
    RankedIsStableDescending(cats, m);
    assert c in multiset(Ranked(cats, m));
    assert c in multiset(WithTotals(cats, m));
    var i :| 0 <= i < |cats| && WithTotals(cats, m)[i] == c;
  }

  lemma RankedChannelsEligible(fs: seq<Fetched>, c: string)
    requires AllParsable(fs)
    ensures forall r :: r in StableSortDesc(AdmittedIn(fs, c), SubscriberKey) ==>
      r.subscriberCount >= MinSubscribers && r.videoCount >= MinVideos
  {
    var admitted := AdmittedIn(fs, c);
    StableSortPermutation(admitted, SubscriberKey);
    AdmittedAreEligible(fs, c);
    forall r | r in StableSortDesc(admitted, SubscriberKey)
      ensures r.subscriberCount >= MinSubscribers && r.videoCount >= MinVideos
    {
      assert r in multiset(StableSortDesc(admitted, SubscriberKey));
    }
  }

  /** A channel of category "c1" with ten videos, recently active, as the API would report it. */
  function ExampleFetched(id: string, subscribers: nat, published: Timestamp): Fetched {
    Fetched(
      ChannelConfig(id, id, "c1"),
      Response([ChannelResponseItem(id,
        ChannelSnippet(id, "", Thumbnail(""), published),
        ChannelStatistics(DecimalString(subscribers), DecimalString(10), "0"))]),
      Response([ActivitiesResponseItem(id, ActivitiesSnippet(published))]))
  }

  lemma ExampleAdmitted(id: string, subscribers: nat, published: Timestamp)
    requires MinSubscribers <= subscribers <= I32Max
    ensures Parsable(ExampleFetched(id, subscribers, published))
    ensures var v := Examine(ExampleFetched(id, subscribers, published));
      v.Admitted? && v.record.id == id && v.record.subscriberCount == subscribers
  {
    ParseDecimalRoundTrip(subscribers);
    ParseDecimalRoundTrip(10);
  }

  /** Two admitted channels of one category share one bucket, in loop order. */
  lemma SameCategoryBucket(b: Fetched, a: Fetched)
    requires Parsable(b) && Parsable(a) && Examine(b).Admitted? && Examine(a).Admitted?
    requires b.config.category == a.config.category
    ensures AllParsable([b, a])
    ensures var rb, ra := Examine(b).record, Examine(a).record;
      AggregateAll(map[], [b, a]) ==
        map[b.config.category := CategoryListItem([rb, ra], rb.subscriberCount + ra.subscriberCount)]
  {
    var k, rb, ra := b.config.category, Examine(b).record, Examine(a).record;
    AggregateAppend(map[], [], b);
    assert [] + [b] == [b];
    StepAdmitted(map[], b);
    AggregateAppend(map[], [b], a);
    assert [b] + [a] == [b, a];
    StepAdmitted(AggregateAll(map[], [b]), a);
    AbsorbTwice(k, rb, ra);
  }

  lemma StepAdmitted(m: Buckets, f: Fetched)
    requires Parsable(f) && Examine(f).Admitted?
    ensures Step(m, f) == Absorbed(m, f.config.category, Examine(f).record)
  {
  }

  lemma AbsorbTwice(k: string, rb: Channel, ra: Channel)
    ensures Absorbed(Absorbed(map[], k, rb), k, ra)
      == map[k := CategoryListItem([rb, ra], rb.subscriberCount + ra.subscriberCount)]
  {
    assert [rb] + [ra] == [rb, ra];
  }

  /** Two elements out of order swap places. */
  lemma SortTwo<T>(x: T, y: T, key: T -> int)
    requires key(x) < key(y)
    ensures StableSortDesc([x, y], key) == [y, x]
  {
    assert [x, y][..1] == [x] && [x][..0] == [];
    assert StableSortDesc([x], key) == InsertDesc([], x, key) == [x];
    assert InsertDesc([x], y, key) == InsertDesc([], y, key) + [x] by {
      assert [x][..0] == [];
    }
  }

  /**
    Two active channels "b" and "a" of category "c1", listed in that order,
    with "a" having more subscribers (say 100 against 50): the bucket totals
    their sum and the README section lists "a" before "b".
   */
  lemma ExampleTwoChannels(sb: nat, sa: nat)
    requires MinSubscribers <= sb < sa <= I32Max
    ensures var fs := [ExampleFetched("b", sb, 1), ExampleFetched("a", sa, 2)];
      AllParsable(fs) &&
      var m := AggregateAll(map[], fs);
      && "c1" in m && m["c1"].totalSubscribers == sb + sa
      && |m["c1"].channels| == 2
      && m["c1"].channels[0].id == "b" && m["c1"].channels[1].id == "a"
      && Sections([Category("c1", "Tech", 0)], m)
           == [Section(Category("c1", "Tech", 0), [m["c1"].channels[1], m["c1"].channels[0]])]
  {
    var b, a := ExampleFetched("b", sb, 1), ExampleFetched("a", sa, 2);
    ExampleAdmitted("b", sb, 1);
    ExampleAdmitted("a", sa, 2);
    SameCategoryBucket(b, a);
    var rb, ra := Examine(b).record, Examine(a).record;
    SortTwo(rb, ra, SubscriberKey);
    var cats := [Category("c1", "Tech", 0)];
    assert cats[..0] == [];
  }

  // ---------------------------------------------------------------------------
  // The in-place state of the run

  /** The map from category id to bucket that the run fills and ranks in place. */
  class Aggregator {
    var categoryList: Buckets

    ghost predicate Valid()
      reads this
    {
      Consistent(categoryList)
    }

    constructor ()
      ensures Valid() && categoryList == map[]
    {
      categoryList := map[];
    }

    /** Appends `record` to the bucket of `category`, creating the bucket if absent. */
    method Absorb(category: string, record: Channel)
      requires Valid()
      modifies this
      ensures Valid()
      ensures categoryList == Absorbed(old(categoryList), category, record)
    {
      AbsorbKeepsConsistent(categoryList, category, record);
      if category in categoryList {
        var item := categoryList[category];
        categoryList := categoryList[category :=
          CategoryListItem(item.channels + [record], item.totalSubscribers + record.subscriberCount)];
      } else {
        categoryList := categoryList[category := CategoryListItem([record], record.subscriberCount)];
      }
    }

    /** The channel loop: each channel is examined and, if admitted, absorbed into its category. */
    method Run(fetched: seq<Fetched>)
      requires Valid() && AllParsable(fetched)
      modifies this
      ensures Valid()
      ensures categoryList == AggregateAll(old(categoryList), fetched)
    {
      for i := 0 to |fetched|
        invariant Valid()
        invariant categoryList == AggregateAll(old(categoryList), fetched[..i])
      {
        var f := fetched[i];
        AggregatePrefix(old(categoryList), fetched, i);
        if |f.channelRes.items| == 0 {
          continue;
        }
        var item := f.channelRes.items[0];
        var subscriberCount := ParseI32(item.statistics.subscriberCount).value;
        var videoCount := ParseI32(item.statistics.videoCount).value;
        if subscriberCount < MinSubscribers || videoCount < MinVideos {
          continue;
        }
        if |f.activityRes.items| == 0 {
          continue;
        }
        var record := BuildRecord(f.config, item, f.activityRes.items[0], subscriberCount, videoCount);
        Absorb(f.config.category, record);
      }
      assert fetched[..|fetched|] == fetched;
    }

    /** Copies each bucket's total onto the category with the same id. */
    method CopyTotals(categories: array<Category>)
      modifies categories
      ensures categories[..] == WithTotals(old(categories[..]), categoryList)
    {
      for i := 0 to categories.Length
        invariant forall k :: 0 <= k < i ==> categories[k] == WithTotal(old(categories[k]), categoryList)
        invariant forall k :: i <= k < categories.Length ==> categories[k] == old(categories[k])
      {
        var c := categories[i];
        if c.id in categoryList {
          categories[i] := c.(totalSubscribers := categoryList[c.id].totalSubscribers);
        }
      }
    }

    /**
      The contents loop: for each category with a bucket, in list order, a
      contents line and a section, after ranking the bucket's channels in place.
     */
    method RenderContents(categories: seq<Category>) returns (toc: string, sections: seq<Section>)
      requires Valid()
      modifies this
      ensures Valid()
      ensures toc == Toc(categories, old(categoryList))
      ensures sections == Sections(categories, old(categoryList))
      ensures categoryList == SortBuckets(old(categoryList), categories)
    {
      toc, sections := "", [];
      ghost var m0 := categoryList;
      for i := 0 to |categories|
        invariant toc == Toc(categories[..i], m0)
        invariant sections == Sections(categories[..i], m0)
        invariant categoryList == SortBuckets(m0, categories[..i])
        invariant Valid()
      {
        var c := categories[i];
        ContentsStep(m0, categories, i);
        if c.id in categoryList {
          RankKeepsConsistent(categoryList, c.id);
          var key := AnchorKey(c.title);
          toc := toc + TocLine(c.title, key);
          var item := categoryList[c.id];
          var channels := RankChannels(item.channels);
          categoryList := categoryList[c.id := item.(channels := channels)];
          sections := sections + [Section(c, channels)];
        }
      }
      assert categories[..|categories|] == categories;
    }
  }

  /** A bucket's channels ranked by non-increasing subscriber count, sorted in a scratch array. */
  method RankChannels(channels: seq<Channel>) returns (ranked: seq<Channel>)
    ensures ranked == StableSortDesc(channels, SubscriberKey)
  {
    var a := new Channel[|channels|](i requires 0 <= i < |channels| => channels[i]);
    assert a[..] == channels;
    SortDescBy(a, SubscriberKey);
    ranked := a[..];
  }

  /**
    The whole run: aggregate the channels, copy the totals onto the
    categories, rank the categories in place, then produce the contents and
    the sections.
   */
  method Generate(fetched: seq<Fetched>, categories: array<Category>) returns (toc: string, sections: seq<Section>)
    requires AllParsable(fetched)
    modifies categories
    ensures var m := AggregateAll(map[], fetched);
      && categories[..] == Ranked(old(categories[..]), m)
      && toc == Toc(categories[..], m)
      && sections == Sections(categories[..], m)
  {
    var aggregator := new Aggregator();
    aggregator.Run(fetched);
    aggregator.CopyTotals(categories);
    SortDescBy(categories, CategoryKey);
    toc, sections := aggregator.RenderContents(categories[..]);
  }
}
