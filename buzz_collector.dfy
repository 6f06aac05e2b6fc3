/**
 * Trend aggregation (backend/app/services/buzz_collector.py).
 *
 * The three trend sources (Google Trends, RSS news feeds, X recent search)
 * are network calls; here each is an input: what the fetch produced, or
 * that it failed. Everything done with the fetched data is modelled: the
 * per-source item shapes and scores, the per-feed and total caps, the
 * fallback sample lists, the stable descending sort of the merged list,
 * the 30-item cut and the keyword extraction.
 */
module BuzzCollector {
  import opened Text

  datatype Source = GoogleTrends | News | XBuzz

  /** One trend item; `category` is present only on news items. */
  datatype TrendItem = TrendItem(
    source: Source,
    title: string,
    description: string,
    score: real,
    url: string,
    category: Option<string>)

  /** What one aggregation call returns. */
  datatype TrendBundle = TrendBundle(
    googleTrends: seq<TrendItem>,
    news: seq<TrendItem>,
    xBuzz: seq<TrendItem>,
    all: seq<TrendItem>,
    topKeywords: seq<string>)

  const GoogleCount: nat := 20
  const RssMaxItems: nat := 15
  const EntriesPerFeed: nat := 3
  const DescriptionCap: nat := 200
  const XMaxResults: nat := 10
  const TweetTitleCap: nat := 60
  const AllCap: nat := 30
  const TopKeywordCount: nat := 10

  // ─── Fallback sample data ──────────────────────────────────────────

  const GoogleDescriptionPrefix := "Google Trendsで急上昇中: "

  function MockGoogleItem(title: string, score: real): TrendItem
  {
    TrendItem(GoogleTrends, title, GoogleDescriptionPrefix + title, score, "", None)
  }

  const MockGoogleTrends: seq<TrendItem> := [
    MockGoogleItem("AI エージェント", 10.0),
    MockGoogleItem("生成AI 最新", 9.0),
    MockGoogleItem("ChatGPT 新機能", 8.0),
    MockGoogleItem("副業 2026", 7.0),
    MockGoogleItem("プログラミング 独学", 6.0)
  ]

  const MockNews: seq<TrendItem> := [
    TrendItem(News, "AI技術の最新動向：2026年の注目ポイント",
      "人工知能技術が急速に進化し、さまざまな産業に影響を与え始めている。", 1.0, "", Some("IT")),
    TrendItem(News, "SNS収益化の新トレンド",
      "個人のSNS発信から収益を上げる新しい方法が注目されている。", 1.0, "", Some("ビジネス")),
    TrendItem(News, "リモートワーク最新事情",
      "働き方改革が進み、リモートワークの形態がさらに多様化している。", 1.0, "", Some("ビジネス"))
  ]

  const MockBuzzPosts: seq<TrendItem> := [
    TrendItem(XBuzz, "【話題】AIの使い方を変えるツールが登場",
      "【話題】AIの使い方を変えるツールが登場！これは本当にすごい。仕事が3倍速になった #AI #効率化 #テック", 150.0, "", None),
    TrendItem(XBuzz, "今日バズってる投稿からわかること",
      "今日バズってる投稿からわかること：結局、共感×具体性×タイミングが全て。#マーケティング #SNS運用", 120.0, "", None),
    TrendItem(XBuzz, "副業で月10万稼ぐリアルな方法",
      "副業で月10万稼ぐリアルな方法をまとめました。実際にやってみた結果を公開 #副業 #収入UP", 100.0, "", None)
  ]

  /** The Google fallback list has five Google items in descending score order. */
  lemma MockGoogleShape()
    ensures |MockGoogleTrends| == 5 && SortedDesc(MockGoogleTrends)
    ensures forall i :: 0 <= i < |MockGoogleTrends| ==> MockGoogleTrends[i].source == GoogleTrends
  {
  }

  /** The news fallback list has three news items, all scored 1.0. */
  lemma MockNewsShape()
    ensures |MockNews| == 3 && SortedDesc(MockNews)
    ensures forall i :: 0 <= i < |MockNews| ==> MockNews[i].source == News && MockNews[i].score == 1.0
  {
  }

  /** The X fallback list has three X items in descending score order. */
  lemma MockBuzzShape()
    ensures |MockBuzzPosts| == 3 && SortedDesc(MockBuzzPosts)
    ensures forall i :: 0 <= i < |MockBuzzPosts| ==> MockBuzzPosts[i].source == XBuzz
  {
  }

  // ─── Google Trends ─────────────────────────────────────────────────

  /** The trending-searches table as fetched (its first column, row by row), or a failure of the import or the fetch. */
  datatype GoogleFetch = Rows(titles: seq<string>) | GoogleFailed

  const GoogleTrendsUrl := "https://trends.google.co.jp/trending?geo=JP"

  /** The item built for row `i` of the first `count` rows: score `count - i`. */
  function GoogleItem(title: string, count: nat, i: nat): TrendItem
  {
    TrendItem(GoogleTrends, title, GoogleDescriptionPrefix + title, (count - i) as real, GoogleTrendsUrl, None)
  }

  /** The items the Google source yields: the first `count` rows ranked by position, or the fallback list. */
  function GoogleTrendItems(fetch: GoogleFetch, count: nat): seq<TrendItem>
  {
    match fetch
    case GoogleFailed => MockGoogleTrends
    case Rows(titles) =>
      var rows := Take(titles, count);
      seq(|rows|, i requires 0 <= i < |rows| => GoogleItem(rows[i], count, i))
  }

  /** Fetched Google items keep the row order, cap at `count`, and score strictly decreasing from `count` down to at least 1. */
  lemma GoogleRanking(titles: seq<string>, count: nat)
    ensures var items := GoogleTrendItems(Rows(titles), count);
      && |items| == (if |titles| <= count then |titles| else count)
      && (forall i :: 0 <= i < |items| ==> items[i].title == titles[i] && items[i].score >= 1.0)
      && (forall i, j :: 0 <= i < j < |items| ==> items[j].score < items[i].score)
  {
  }

  /** The fetch loop: one item per row of the first `count` rows. */
  method CollectGoogleTrends(fetch: GoogleFetch, count: nat) returns (items: seq<TrendItem>)
    ensures items == GoogleTrendItems(fetch, count)
  {
    if fetch.GoogleFailed? {
      return MockGoogleTrends;
    }
    var rows := Take(fetch.titles, count);
    items := [];
    var i := 0;
    while i < |rows|
      invariant 0 <= i <= |rows|
      invariant |items| == i
      invariant forall k :: 0 <= k < i ==> items[k] == GoogleItem(rows[k], count, k)
    {
      items := items + [GoogleItem(rows[i], count, i)];
      i := i + 1;
    }
  }

  // ─── RSS news ──────────────────────────────────────────────────────

  /** One feed entry; each field may be absent. */
  datatype Entry = Entry(title: Option<string>, summary: Option<string>, description: Option<string>, link: Option<string>)

  /** What parsing one feed URL gave: its entries, or an exception. */
  datatype FeedFetch = Parsed(entries: seq<Entry>) | FeedFailed

  /** The fixed feed list: URL and category, polled in this order. */
  const RssFeeds: seq<(string, string)> := [
    ("https://news.yahoo.co.jp/rss/topics/it.xml", "IT・テクノロジー"),
    ("https://news.yahoo.co.jp/rss/topics/business.xml", "ビジネス"),
    ("https://news.yahoo.co.jp/rss/topics/entertainment.xml", "エンタメ"),
    ("https://news.yahoo.co.jp/rss/topics/domestic.xml", "国内"),
    ("https://b.hatena.ne.jp/hotentry/it.rss", "はてブ IT")
  ]

  /** The news item for one entry: the summary (else the description) cut to 200 characters, score 1.0. */
  function NewsItem(e: Entry, category: string): (item: TrendItem)
    ensures item.source == News && item.score == 1.0 && item.category == Some(category)
    ensures |item.description| <= DescriptionCap
    ensures item.description == Take(if e.summary.Some? then e.summary.value else GetOr(e.description, ""), DescriptionCap)
  {
    TrendItem(News, GetOr(e.title, ""), Take(GetOr(e.summary, GetOr(e.description, "")), DescriptionCap),
      1.0, GetOr(e.link, ""), Some(category))
  }

  function NewsItems(entries: seq<Entry>, category: string): seq<TrendItem>
  {
    seq(|entries|, i requires 0 <= i < |entries| => NewsItem(entries[i], category))
  }

  /** One more entry adds exactly its own news item at the end. */
  lemma NewsItemsNext(entries: seq<Entry>, k: nat, category: string)
    requires k < |entries|
    ensures NewsItems(entries[..k + 1], category) == NewsItems(entries[..k], category) + [NewsItem(entries[k], category)]
  {
    var a := NewsItems(entries[..k + 1], category);
    var b := NewsItems(entries[..k], category) + [NewsItem(entries[k], category)];
    assert |a| == |b|;
    forall i | 0 <= i < |a| ensures a[i] == b[i] {}
  }

  /** What one feed adds: its first three entries, or nothing when parsing it failed. */
  function FeedContribution(f: FeedFetch, category: string): (items: seq<TrendItem>)
    ensures |items| <= EntriesPerFeed
    ensures f.FeedFailed? ==> items == []
    ensures f.Parsed? ==> items == NewsItems(Take(f.entries, EntriesPerFeed), category)
  {
    if f.FeedFailed? then [] else NewsItems(Take(f.entries, EntriesPerFeed), category)
  }

  /** All feeds' contributions in feed order, before the total cut. */
  function FeedItems(fetch: string -> FeedFetch, feeds: seq<(string, string)>): seq<TrendItem>
  {
    if feeds == [] then []
    else FeedItems(fetch, feeds[..|feeds| - 1])
         + FeedContribution(fetch(feeds[|feeds| - 1].0), feeds[|feeds| - 1].1)
  }

  /** Every polled news item is a score-1.0 news item of one of the polled categories, with a description of at most 200 characters, and there are at most three per feed. */
  lemma {:induction false} FeedItemsBounds(fetch: string -> FeedFetch, feeds: seq<(string, string)>)
    ensures |FeedItems(fetch, feeds)| <= EntriesPerFeed * |feeds|
    ensures forall it :: it in FeedItems(fetch, feeds) ==>
      && it.source == News && it.score == 1.0 && |it.description| <= DescriptionCap
      && exists f :: f in feeds && it.category == Some(f.1)
  {
    if feeds != [] {
      var init := feeds[..|feeds| - 1];
      var last := feeds[|feeds| - 1];
      FeedItemsBounds(fetch, init);
      forall it | it in FeedItems(fetch, feeds)
        ensures exists f :: f in feeds && it.category == Some(f.1)
      {
        if it in FeedItems(fetch, init) {
          var f :| f in init && it.category == Some(f.1);
          assert f in feeds;
        } else {
          assert last in feeds;
        }
      }
    }
  }

  /** With the five fixed feeds the total cut of 15 never drops anything. */
  lemma FixedFeedsFitCap(fetch: string -> FeedFetch)
    ensures Take(FeedItems(fetch, RssFeeds), RssMaxItems) == FeedItems(fetch, RssFeeds)
  {
    FeedItemsBounds(fetch, RssFeeds);
  }

  /** The feeds polled so far grow by one feed's contribution. */
  lemma FeedItemsNext(fetch: string -> FeedFetch, feeds: seq<(string, string)>, f: nat)
    requires f < |feeds|
    ensures FeedItems(fetch, feeds[..f + 1]) == FeedItems(fetch, feeds[..f]) + FeedContribution(fetch(feeds[f].0), feeds[f].1)
  {
    assert feeds[..f + 1][..f] == feeds[..f];
  }

  /** The entry loop of one feed: one news item per entry, in order. */
  method FeedEntries(entries: seq<Entry>, category: string) returns (items: seq<TrendItem>)
    ensures items == NewsItems(entries, category)
  {
    items := [];
    var e := 0;
    while e < |entries|
      invariant 0 <= e <= |entries|
      invariant items == NewsItems(entries[..e], category)
    {
      NewsItemsNext(entries, e, category);
      items := items + [NewsItem(entries[e], category)];
      e := e + 1;
    }
    assert entries[..e] == entries;
  }

  /** The per-feed loop: skip a feed whose parse fails, take three entries from each other feed. */
  method FetchFeeds(fetch: string -> FeedFetch, feeds: seq<(string, string)>) returns (items: seq<TrendItem>)
    ensures items == FeedItems(fetch, feeds)
  {
    items := [];
    var f := 0;
    while f < |feeds|
      invariant 0 <= f <= |feeds|
      invariant items == FeedItems(fetch, feeds[..f])
    {
      var url, category := feeds[f].0, feeds[f].1;
      var fetched := fetch(url);
      FeedItemsNext(fetch, feeds, f);
      if fetched.Parsed? {
        var added := FeedEntries(Take(fetched.entries, EntriesPerFeed), category);
        items := items + added;
      }
      f := f + 1;
    }
    assert feeds[..f] == feeds;
  }

  /** The fixed feeds polled in order, then the total cut to `maxItems`. */
  method FetchAllFeeds(fetch: string -> FeedFetch, maxItems: nat) returns (items: seq<TrendItem>)
    ensures items == Take(FeedItems(fetch, RssFeeds), maxItems)
  {
    items := FetchFeeds(fetch, RssFeeds);
    items := Take(items, maxItems);
  }

  /** The RSS source: the polled items, or the fallback list when the feed parser is unavailable. */
  method CollectRssNews(parserInstalled: bool, fetch: string -> FeedFetch, maxItems: nat) returns (items: seq<TrendItem>)
    ensures !parserInstalled ==> items == MockNews
    ensures parserInstalled ==> items == Take(FeedItems(fetch, RssFeeds), maxItems)
    ensures parserInstalled ==> |items| <= maxItems && forall it :: it in items ==> it.source == News && |it.description| <= DescriptionCap
  {
    if !parserInstalled {
      return MockNews;
    }
    items := FetchAllFeeds(fetch, maxItems);
    FeedItemsBounds(fetch, RssFeeds);
  }

  // ─── X recent search ───────────────────────────────────────────────

  /** One tweet as returned by the search: its text (if any) and its public metrics. */
  datatype Tweet = Tweet(text: Option<string>, metrics: map<string, int>)

  /** The search request the source issues. */
  datatype XSearch = XSearch(query: string, maxResults: nat)

  /** The search outcome: the `data` list (empty when absent), or any failure of the request. */
  datatype XFetch = Found(tweets: seq<Tweet>) | XFailed

  /** A public metric, 0 when the tweet does not report it. */
  function Metric(m: map<string, int>, key: string): int
  {
    GetOr(Lookup(m, key), 0)
  }

  /** Engagement score: likes count once, retweets twice, replies half. */
  function CalcScore(metrics: map<string, int>): real
  {
    Metric(metrics, "like_count") as real
    + 2.0 * Metric(metrics, "retweet_count") as real
    + 0.5 * Metric(metrics, "reply_count") as real
  }

  /** Missing metrics count as zero, one more like adds 1, one more retweet adds 2, one more reply adds 0.5, and other keys do not matter. */
  lemma CalcScoreWeights(m: map<string, int>, key: string)
    ensures CalcScore(map[]) == 0.0
    ensures "like_count" in m ==> CalcScore(m["like_count" := m["like_count"] + 1]) == CalcScore(m) + 1.0
    ensures "retweet_count" in m ==> CalcScore(m["retweet_count" := m["retweet_count"] + 1]) == CalcScore(m) + 2.0
    ensures "reply_count" in m ==> CalcScore(m["reply_count" := m["reply_count"] + 1]) == CalcScore(m) + 0.5
    ensures key !in {"like_count", "retweet_count", "reply_count"} ==> CalcScore(m - {key}) == CalcScore(m)
  {
  }

  const DefaultQueryKeywords: seq<string> := ["話題", "バズ"]
  const QuerySuffix := " lang:ja -is:retweet"

  /** The search query: the keywords (the defaults when none or empty) joined by " OR ", then the language and no-retweet filters. */
  function BuildQuery(keywords: Option<seq<string>>): (q: string)
  {
    var parts := if keywords.Some? && keywords.value != [] then keywords.value else DefaultQueryKeywords;
    Join(parts, " OR ") + QuerySuffix
  }

  /** The query always ends with the filters and starts with the first given keyword. */
  lemma BuildQueryShape(keywords: Option<seq<string>>)
    ensures var q := BuildQuery(keywords);
      && |q| >= |QuerySuffix| && q[|q| - |QuerySuffix|..] == QuerySuffix
      && (keywords.Some? && keywords.value != [] ==>
            |q| >= |keywords.value[0]| && q[..|keywords.value[0]|] == keywords.value[0])
  {
    var parts := if keywords.Some? && keywords.value != [] then keywords.value else DefaultQueryKeywords;
    var j := Join(parts, " OR ");
    JoinEnds(parts, " OR ");
    var q := j + QuerySuffix;
    assert q[|q| - |QuerySuffix|..] == QuerySuffix;
    assert q[..|parts[0]|] == j[..|parts[0]|];
  }

  /** Without keywords (none or an empty list) the query is the fixed default one. */
  lemma DefaultQuery(keywords: Option<seq<string>>)
    requires keywords.None? || keywords.value == []
    ensures BuildQuery(keywords) == "話題" + " OR " + "バズ" + QuerySuffix
  {
    var parts := DefaultQueryKeywords;
    assert parts[1..] == ["バズ"];
    assert Join(parts[1..], " OR ") == "バズ";
  }

  /** The item for one tweet: title is the text cut to 60 characters, description the whole text. */
  function TweetItem(t: Tweet): (item: TrendItem)
    ensures item.source == XBuzz && |item.title| <= TweetTitleCap
    ensures item.title == Take(item.description, TweetTitleCap)
    ensures item.description == GetOr(t.text, "") && item.score == CalcScore(t.metrics)
  {
    var text := GetOr(t.text, "");
    TrendItem(XBuzz, Take(text, TweetTitleCap), text, CalcScore(t.metrics), "", None)
  }

  /** The X source's items and the search it issued (none when it issued none). */
  datatype XOutcome = XOutcome(items: seq<TrendItem>, request: Option<XSearch>)

  /** The X source: no bearer token means the fallback list and no request; a failed request means the fallback list too. */
  function CollectBuzzFromX(bearerToken: string, keywords: Option<seq<string>>, search: XSearch -> XFetch): (r: XOutcome)
    ensures bearerToken == "" ==> r == XOutcome(MockBuzzPosts, None)
    ensures bearerToken != "" ==> r.request == Some(XSearch(BuildQuery(keywords), XMaxResults))
    ensures bearerToken != "" && search(r.request.value).XFailed? ==> r.items == MockBuzzPosts
    ensures bearerToken != "" && search(r.request.value).Found? ==>
      var tweets := search(r.request.value).tweets;
      |r.items| == |tweets| && forall i :: 0 <= i < |tweets| ==> r.items[i] == TweetItem(tweets[i])
  {
    if bearerToken == "" then XOutcome(MockBuzzPosts, None)
    else
      var req := XSearch(BuildQuery(keywords), XMaxResults);
      match search(req)
      case XFailed => XOutcome(MockBuzzPosts, Some(req))
      case Found(tweets) => XOutcome(seq(|tweets|, i requires 0 <= i < |tweets| => TweetItem(tweets[i])), Some(req))
  }

  // ─── Merge, stable sort, cut ───────────────────────────────────────

  ghost predicate SortedDesc(s: seq<TrendItem>)
  {
    forall i, j :: 0 <= i < j < |s| ==> s[j].score <= s[i].score
  }

  /** The items of `s` whose score is exactly `k`, in their order in `s`. */
  function WithScore(s: seq<TrendItem>, k: real): seq<TrendItem>
  {
    if s == [] then [] else (if s[0].score == k then [s[0]] else []) + WithScore(s[1..], k)
  }

  /** Inserts `x` in front of the first item that does not outscore it. */
  function InsertByScore(x: TrendItem, s: seq<TrendItem>): seq<TrendItem>
  {
    if s == [] || s[0].score <= x.score then [x] + s else [s[0]] + InsertByScore(x, s[1..])
  }

  /** Python's stable `sort(key=score, reverse=True)`. */
  function SortByScore(s: seq<TrendItem>): seq<TrendItem>
  {
    if s == [] then [] else InsertByScore(s[0], SortByScore(s[1..]))
  }

  /** Where `InsertByScore` puts `x`: after every item that outscores it. */
  function InsertPos(x: TrendItem, s: seq<TrendItem>): (p: nat)
    ensures p <= |s|
  {
    if s == [] || s[0].score <= x.score then 0 else InsertPos(x, s[1..]) + 1
  }

  /** `x` lands at `InsertPos`. */
  lemma {:induction false} InsertByScoreShape(x: TrendItem, s: seq<TrendItem>)
    ensures InsertByScore(x, s) == s[..InsertPos(x, s)] + [x] + s[InsertPos(x, s)..]
  {
    if s != [] && x.score < s[0].score {
      var p := InsertPos(x, s[1..]);
      calc {
        InsertByScore(x, s);
        [s[0]] + InsertByScore(x, s[1..]);
      == { InsertByScoreShape(x, s[1..]); }
        [s[0]] + (s[1..][..p] + [x] + s[1..][p..]);
      == { assert s[1..][..p] == s[1..p + 1] && s[1..][p..] == s[p + 1..]; }
        [s[0]] + (s[1..p + 1] + [x] + s[p + 1..]);
      ==
        ([s[0]] + s[1..p + 1]) + [x] + s[p + 1..];
      == { assert [s[0]] + s[1..p + 1] == s[..p + 1]; }
        s[..p + 1] + [x] + s[p + 1..];
      }
    }
  }

  /** Every item before `InsertPos` outscores `x`, and the one at it does not. */
  lemma {:induction false} InsertPosBounds(x: TrendItem, s: seq<TrendItem>)
    ensures forall i :: 0 <= i < InsertPos(x, s) ==> x.score < s[i].score
    ensures InsertPos(x, s) < |s| ==> s[InsertPos(x, s)].score <= x.score
  {
    if s != [] && x.score < s[0].score {
      InsertPosBounds(x, s[1..]);
      forall i | 0 <= i < InsertPos(x, s) ensures x.score < s[i].score {
        if i > 0 {
          assert s[i] == s[1..][i - 1];
        }
      }
    }
  }

  lemma {:induction false} WithScoreAppend(a: seq<TrendItem>, b: seq<TrendItem>, k: real)
    ensures WithScore(a + b, k) == WithScore(a, k) + WithScore(b, k)
  {
    if a == [] {
      assert a + b == b;
    } else {
      var head := if a[0].score == k then [a[0]] else [];
      calc {
        WithScore(a + b, k);
      == { assert (a + b)[0] == a[0] && (a + b)[1..] == a[1..] + b; }
        head + WithScore(a[1..] + b, k);
      == { WithScoreAppend(a[1..], b, k); }
        head + (WithScore(a[1..], k) + WithScore(b, k));
      ==
        (head + WithScore(a[1..], k)) + WithScore(b, k);
      }
    }
  }

  /** Splicing `x` into a sorted list after the items that outscore it and before the rest keeps the list sorted. */
  lemma SortedSplice(s: seq<TrendItem>, p: nat, x: TrendItem)
    requires SortedDesc(s) && p <= |s|
    requires forall i :: 0 <= i < p ==> x.score < s[i].score
    requires p < |s| ==> s[p].score <= x.score
    ensures SortedDesc(s[..p] + [x] + s[p..])
  {
    var r := s[..p] + [x] + s[p..];
    forall i, j | 0 <= i < j < |r| ensures r[j].score <= r[i].score {
      if j < p {
        assert r[i] == s[i] && r[j] == s[j];
      } else if i > p {
        assert r[i] == s[i - 1] && r[j] == s[j - 1];
      } else if i == p {
        assert r[j] == s[j - 1];
      } else if j == p {
        assert r[i] == s[i];
      } else {
        assert r[i] == s[i] && r[j] == s[j - 1];
      }
    }
  }

  /** Splicing `x` in anywhere adds exactly `x`. */
  lemma MultisetSplice(s: seq<TrendItem>, p: nat, x: TrendItem)
    requires p <= |s|
    ensures multiset(s[..p] + [x] + s[p..]) == multiset(s) + multiset{x}
  {
    assert s == s[..p] + s[p..];
  }

  /** Inserting into a sorted list keeps it sorted. */
  lemma InsertByScoreSorted(x: TrendItem, s: seq<TrendItem>)
    requires SortedDesc(s)
    ensures SortedDesc(InsertByScore(x, s))
  {
    InsertByScoreShape(x, s);
    InsertPosBounds(x, s);
    SortedSplice(s, InsertPos(x, s), x);
  }

  /** Inserting adds exactly `x`. */
  lemma InsertByScorePermutes(x: TrendItem, s: seq<TrendItem>)
    ensures multiset(InsertByScore(x, s)) == multiset(s) + multiset{x}
  {
    InsertByScoreShape(x, s);
    MultisetSplice(s, InsertPos(x, s), x);
  }

  lemma WithScoreSingle(x: TrendItem, k: real)
    ensures WithScore([x], k) == if x.score == k then [x] else []
  {
    assert [x][1..] == [];
  }

  /** Splicing `x` in after items that all outscore it adds `x` to the front of its own score's items and changes no other score's items. */
  lemma WithScoreSplice(s: seq<TrendItem>, p: nat, x: TrendItem, k: real)
    requires p <= |s|
    requires forall i :: 0 <= i < p ==> x.score < s[i].score
    ensures WithScore(s[..p] + [x] + s[p..], k) == (if x.score == k then [x] else []) + WithScore(s, k)
  {
    var a, b := s[..p], s[p..];
    var wa, wb := WithScore(a, k), WithScore(b, k);
    var wx := if x.score == k then [x] else [];
    assert WithScore(s, k) == wa + wb by {
      assert a + b == s;
      WithScoreAppend(a, b, k);
    }
    assert WithScore(a + [x] + b, k) == wa + wx + wb by {
      WithScoreAppend(a + [x], b, k);
      WithScoreAppend(a, [x], k);
      WithScoreSingle(x, k);
    }
    if x.score == k {
      assert wa == [] by {
        WithScoreNone(a, k);
      }
    }
  }

  /** Among equal scores `x` lands first: the items of each score keep their order, with `x` in front of its own score's items. */
  lemma InsertByScoreStable(x: TrendItem, s: seq<TrendItem>, k: real)
    ensures WithScore(InsertByScore(x, s), k) == (if x.score == k then [x] else []) + WithScore(s, k)
  {
    InsertByScoreShape(x, s);
    InsertPosBounds(x, s);
    WithScoreSplice(s, InsertPos(x, s), x, k);
  }

  /** No item scores exactly `k` when all of them outscore `k`. */
  lemma {:induction false} WithScoreNone(s: seq<TrendItem>, k: real)
    requires forall i :: 0 <= i < |s| ==> k < s[i].score
    ensures WithScore(s, k) == []
  {
    if s != [] {
      WithScoreNone(s[1..], k);
    }
  }

  /** Sorting yields a list in descending score order. */
  lemma {:induction false} SortByScoreSorted(s: seq<TrendItem>)
    ensures SortedDesc(SortByScore(s))
  {
    if s != [] {
      SortByScoreSorted(s[1..]);
      InsertByScoreSorted(s[0], SortByScore(s[1..]));
    }
  }

  /** Sorting keeps exactly the items it was given. */
  lemma {:induction false} SortByScorePermutes(s: seq<TrendItem>)
    ensures multiset(SortByScore(s)) == multiset(s)
  {
    if s != [] {
      SortByScorePermutes(s[1..]);
      InsertByScorePermutes(s[0], SortByScore(s[1..]));
      assert s == [s[0]] + s[1..];
    }
  }

  /** Sorting is stable: the items of each score keep their relative order. */
  lemma {:induction false} SortByScoreStable(s: seq<TrendItem>, k: real)
    ensures WithScore(SortByScore(s), k) == WithScore(s, k)
  {
    if s != [] {
      SortByScoreStable(s[1..], k);
      InsertByScoreStable(s[0], SortByScore(s[1..]), k);
    }
  }

  /** Python's stable descending sort: ordered by score, a permutation of its input, stable among equal scores. */
  lemma SortByScoreCorrect(s: seq<TrendItem>)
    ensures SortedDesc(SortByScore(s))
    ensures multiset(SortByScore(s)) == multiset(s)
    ensures forall k :: WithScore(SortByScore(s), k) == WithScore(s, k)
  {
    SortByScoreSorted(s);
    SortByScorePermutes(s);
    forall k ensures WithScore(SortByScore(s), k) == WithScore(s, k) {
      SortByScoreStable(s, k);
    }
  }

  // ─── Keyword extraction ────────────────────────────────────────────

  /** Titles longer than one character, in item order (duplicates kept). */
  function Candidates(items: seq<TrendItem>): seq<string>
  {
    if items == [] then []
    else Candidates(items[..|items| - 1])
         + (if |items[|items| - 1].title| > 1 then [items[|items| - 1].title] else [])
  }

  lemma {:induction false} CandidatesMembers(items: seq<TrendItem>)
    ensures forall w :: w in Candidates(items) <==> |w| > 1 && exists i :: 0 <= i < |items| && items[i].title == w
  {
    if items != [] {
      var init := items[..|items| - 1];
      CandidatesMembers(init);
      forall w | |w| > 1 && (exists i :: 0 <= i < |items| && items[i].title == w)
        ensures w in Candidates(items)
      {
        var i :| 0 <= i < |items| && items[i].title == w;
        if i < |items| - 1 {
          assert init[i] == items[i];
        }
      }
      forall w | w in Candidates(items)
        ensures exists i :: 0 <= i < |items| && items[i].title == w
      {
        if w in Candidates(init) {
          var i :| 0 <= i < |init| && init[i].title == w;
          assert items[i] == init[i];
        }
      }
    }
  }

  /** Keeps the first occurrence of each string not already in `seen`. */
  function DedupFrom(s: seq<string>, seen: set<string>): seq<string>
  {
    if s == [] then []
    else if s[0] in seen then DedupFrom(s[1..], seen)
    else [s[0]] + DedupFrom(s[1..], seen + {s[0]})
  }

  ghost predicate Distinct(s: seq<string>)
  {
    forall i, j :: 0 <= i < j < |s| ==> s[i] != s[j]
  }

  /** Position of the first occurrence of `w` in `s`. */
  function FirstIndex(s: seq<string>, w: string): (i: nat)
    requires w in s
    ensures i < |s| && s[i] == w && w !in s[..i]
  {
    if s[0] == w then 0 else FirstIndex(s[1..], w) + 1
  }

  /** Deduplication yields each string of `s` not in `seen` exactly once, ordered by first occurrence in `s`. */
  lemma {:induction false} DedupFacts(s: seq<string>, seen: set<string>)
    ensures forall w :: w in DedupFrom(s, seen) <==> w in s && w !in seen
    ensures Distinct(DedupFrom(s, seen))
    ensures forall i, j :: 0 <= i < j < |DedupFrom(s, seen)| ==>
      FirstIndex(s, DedupFrom(s, seen)[i]) < FirstIndex(s, DedupFrom(s, seen)[j])
  {
    if s != [] {
      var r := DedupFrom(s, seen);
      if s[0] in seen {
        DedupFacts(s[1..], seen);
        assert s == [s[0]] + s[1..];
        forall i | 0 <= i < |r| ensures FirstIndex(s, r[i]) == FirstIndex(s[1..], r[i]) + 1 {
          assert r[i] != s[0];
        }
      } else {
        var t := DedupFrom(s[1..], seen + {s[0]});
        DedupFacts(s[1..], seen + {s[0]});
        assert r == [s[0]] + t;
        assert s == [s[0]] + s[1..];
        forall i | 0 < i < |r| ensures FirstIndex(s, r[i]) == FirstIndex(s[1..], r[i]) + 1 {
          assert r[i] == t[i - 1];
        }
      }
    }
  }

  /** The keyword list specified: distinct qualifying titles in first-seen order, at most `topN`. */
  function Keywords(items: seq<TrendItem>, topN: nat): seq<string>
  {
    Take(DedupFrom(Candidates(items), {}), topN)
  }

  /** At most `topN` keywords, no duplicates, each the title (longer than one character) of some item, in first-seen order; when fewer than `topN` come out, every qualifying title is among them. */
  lemma KeywordsFacts(items: seq<TrendItem>, topN: nat)
    ensures var kws := Keywords(items, topN);
      && |kws| <= topN
      && Distinct(kws)
      && (forall w :: w in kws ==> w in Candidates(items))
      && (forall w :: w in kws ==> |w| > 1 && exists i :: 0 <= i < |items| && items[i].title == w)
      && (forall i, j :: 0 <= i < j < |kws| ==>
            FirstIndex(Candidates(items), kws[i]) < FirstIndex(Candidates(items), kws[j]))
      && (|kws| < topN ==> forall i :: 0 <= i < |items| && |items[i].title| > 1 ==> items[i].title in kws)
  {
    var c := Candidates(items);
    var d := DedupFrom(c, {});
    CandidatesMembers(items);
    DedupFacts(c, {});
    var kws := Keywords(items, topN);
    assert forall w :: w in kws ==> w in d;
    forall i | 0 <= i < |items| && |items[i].title| > 1 && |kws| < topN
      ensures items[i].title in kws
    {
      assert items[i].title in d;
      assert kws == d;
    }
  }

  /** The first extraction loop: every title longer than one character, in item order. */
  method CollectCandidates(items: seq<TrendItem>) returns (keywords: seq<string>)
    ensures keywords == Candidates(items)
  {
    keywords := [];
    var i := 0;
    while i < |items|
      invariant 0 <= i <= |items|
      invariant keywords == Candidates(items[..i])
    {
      assert items[..i + 1][..i] == items[..i];
      var title := items[i].title;
      if |title| > 1 {
        keywords := keywords + [title];
      }
      i := i + 1;
    }
    assert items[..i] == items;
  }

  /** The second extraction loop: drop repeats with a seen-set, keeping first occurrences. */
  method DropRepeats(keywords: seq<string>) returns (unique: seq<string>)
    ensures unique == DedupFrom(keywords, {})
  {
    var seen: set<string> := {};
    unique := [];
    var j := 0;
    while j < |keywords|
      invariant 0 <= j <= |keywords|
      invariant unique + DedupFrom(keywords[j..], seen) == DedupFrom(keywords, {})
    {
      var kw := keywords[j];
      ghost var rest := keywords[j + 1..];
      if kw !in seen {
        assert unique + DedupFrom(keywords[j..], seen) == (unique + [kw]) + DedupFrom(rest, seen + {kw}) by {
          assert keywords[j..] == [kw] + rest;
        }
        seen := seen + {kw};
        unique := unique + [kw];
      } else {
        assert DedupFrom(keywords[j..], seen) == DedupFrom(rest, seen) by {
          assert keywords[j..] == [kw] + rest;
        }
      }
      j := j + 1;
    }
    assert DedupFrom(keywords[j..], seen) == [];
  }

  /** `_extract_keywords`: collect the qualifying titles, drop repeats, keep the first `topN`. */
  method ExtractKeywords(items: seq<TrendItem>, topN: nat) returns (r: seq<string>)
    ensures r == Keywords(items, topN)
  {
    var keywords := CollectCandidates(items);
    var unique := DropRepeats(keywords);
    r := Take(unique, topN);
  }

  // ─── Aggregation ───────────────────────────────────────────────────

  /** What the concurrent gather yields for one source: its list, or an exception it raised. */
  datatype Gathered = Returned(items: seq<TrendItem>) | Raised

  /** A raised exception is replaced by that source's fallback list. */
  function Resolve(g: Gathered, fallback: seq<TrendItem>): (items: seq<TrendItem>)
    ensures g.Raised? ==> items == fallback
    ensures g.Returned? ==> items == g.items
  {
    if g.Raised? then fallback else g.items
  }

  /** The properties every bundle has, whatever the sources returned, relative to the merged list. */
  ghost predicate WellFormedBundle(b: TrendBundle, merged: seq<TrendItem>)
  {
    && SortedDesc(b.all)
    && |b.all| == (if |merged| <= AllCap then |merged| else AllCap)
    && multiset(b.all) <= multiset(merged)
    && (forall it :: it in merged && it !in b.all ==> forall j :: 0 <= j < |b.all| ==> it.score <= b.all[j].score)
    && |b.topKeywords| <= TopKeywordCount
    && Distinct(b.topKeywords)
    && (forall w :: w in b.topKeywords ==> |w| > 1 && exists i :: 0 <= i < |merged| && merged[i].title == w)
  }

  /** Cutting a descending list keeps the highest-scoring items: whatever is cut off scores no more than what is kept. */
  lemma SortedTake(s: seq<TrendItem>, n: nat)
    requires SortedDesc(s)
    ensures SortedDesc(Take(s, n))
    ensures multiset(Take(s, n)) <= multiset(s)
    ensures forall it :: it in s && it !in Take(s, n) ==> forall j :: 0 <= j < |Take(s, n)| ==> it.score <= Take(s, n)[j].score
  {
    var t := Take(s, n);
    assert s == t + s[|t|..];
    forall it | it in s && it !in t
      ensures forall j :: 0 <= j < |t| ==> it.score <= t[j].score
    {
      var k :| 0 <= k < |s| && s[k] == it;
      assert k >= |t|;
    }
  }

  /** The "all" list is the first 30 of the sorted merge: any merged item left out scores no higher than any item kept. */
  lemma SortedCutFacts(merged: seq<TrendItem>)
    ensures var sorted := SortByScore(merged);
      var all := Take(sorted, AllCap);
      && SortedDesc(all)
      && |all| == (if |merged| <= AllCap then |merged| else AllCap)
      && multiset(all) <= multiset(merged)
      && forall it :: it in merged && it !in all ==> forall j :: 0 <= j < |all| ==> it.score <= all[j].score
  {
    var sorted := SortByScore(merged);
    SortByScoreCorrect(merged);
    SortedTake(sorted, AllCap);
    assert |sorted| == |merged| by {
      assert |multiset(sorted)| == |multiset(merged)|;
    }
    forall it | it in merged ensures it in sorted {
      assert it in multiset(sorted);
    }
  }

  /** Every keyword of the sorted merge is the title, longer than one character, of a merged item. */
  lemma MergedKeywordTitles(merged: seq<TrendItem>)
    ensures forall w :: w in Keywords(SortByScore(merged), TopKeywordCount) ==>
      |w| > 1 && exists i :: 0 <= i < |merged| && merged[i].title == w
  {
    var allItems := SortByScore(merged);
    KeywordsFacts(allItems, TopKeywordCount);
    SortByScorePermutes(merged);
    forall w | w in Keywords(allItems, TopKeywordCount) ensures exists i :: 0 <= i < |merged| && merged[i].title == w {
      var i :| 0 <= i < |allItems| && allItems[i].title == w;
      assert allItems[i] in multiset(merged);
      var k :| 0 <= k < |merged| && merged[k] == allItems[i];
    }
  }

  /** Whatever the three lists, the bundle built from their concatenation is well formed. */
  lemma MergedBundleFacts(g: seq<TrendItem>, n: seq<TrendItem>, x: seq<TrendItem>)
    ensures var merged := g + n + x;
      WellFormedBundle(TrendBundle(g, n, x, Take(SortByScore(merged), AllCap), Keywords(SortByScore(merged), TopKeywordCount)), merged)
  {
    var merged := g + n + x;
    SortedCutFacts(merged);
    KeywordsFacts(SortByScore(merged), TopKeywordCount);
    MergedKeywordTitles(merged);
  }

  /** Lines 120-136: fallback for raised sources, merge, stable sort, cut to 30, keywords from the whole sorted list. */
  method MergeTrends(google: Gathered, rss: Gathered, xBuzz: Gathered) returns (b: TrendBundle)
    ensures b.googleTrends == Resolve(google, MockGoogleTrends)
    ensures b.news == Resolve(rss, MockNews)
    ensures b.xBuzz == Resolve(xBuzz, MockBuzzPosts)
    ensures b.all == Take(SortByScore(b.googleTrends + b.news + b.xBuzz), AllCap)
    ensures b.topKeywords == Keywords(SortByScore(b.googleTrends + b.news + b.xBuzz), TopKeywordCount)
    ensures WellFormedBundle(b, b.googleTrends + b.news + b.xBuzz)
  {
    var g := Resolve(google, MockGoogleTrends);
    var n := Resolve(rss, MockNews);
    var x := Resolve(xBuzz, MockBuzzPosts);
    var merged := g + n + x;
    var allItems := SortByScore(merged);
    var kws := ExtractKeywords(allItems, TopKeywordCount);
    b := TrendBundle(g, n, x, Take(allItems, AllCap), kws);
    MergedBundleFacts(g, n, x);
  }

  /** The three sources as this model receives them. */
  datatype SourceEnv = SourceEnv(
    google: GoogleFetch,
    feedParserInstalled: bool,
    fetchFeed: string -> FeedFetch,
    bearerToken: string,
    searchX: XSearch -> XFetch)

  /** One aggregation call: each source with its defaults (20 trends, 15 news items, 10 search results), then the merge. */
  method CollectAllTrends(keywords: Option<seq<string>>, env: SourceEnv) returns (b: TrendBundle)
    ensures b.googleTrends == GoogleTrendItems(env.google, GoogleCount)
    ensures b.news == (if env.feedParserInstalled then FeedItems(env.fetchFeed, RssFeeds) else MockNews)
    ensures b.xBuzz == CollectBuzzFromX(env.bearerToken, keywords, env.searchX).items
    ensures b.all == Take(SortByScore(b.googleTrends + b.news + b.xBuzz), AllCap)
    ensures b.topKeywords == Keywords(SortByScore(b.googleTrends + b.news + b.xBuzz), TopKeywordCount)
    ensures WellFormedBundle(b, b.googleTrends + b.news + b.xBuzz)
  {
    var g := CollectGoogleTrends(env.google, GoogleCount);
    var n := CollectRssNews(env.feedParserInstalled, env.fetchFeed, RssMaxItems);
    FixedFeedsFitCap(env.fetchFeed);
    var x := CollectBuzzFromX(env.bearerToken, keywords, env.searchX).items;
    b := MergeTrends(Returned(g), Returned(n), Returned(x));
  }
}
