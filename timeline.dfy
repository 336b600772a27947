/**
 * The list logic of public/app.js: `filterPinnedPosts` (Reddit lists its
 * pinned posts first although they are older), `getTimelineArticles`
 * (every cached feed of a section merged, pinned posts left out, the last
 * 30 days kept, newest first) and the card order of
 * `sortFeedsByRecencyInGrid`.
 *
 * `new Date(s).getTime()` is the parameter `parse` (`None` for NaN) and
 * the clock reading is the parameter `now`, in milliseconds.
 */
module Timeline {
  import opened Wrappers
  import opened JsText
  import opened DashboardText

  /** An item as the dashboard receives it from the API. */
  datatype Article = Article(title: string, link: string, pubDate: string, text: string)

  /** A feed of a section, as configured. */
  datatype FeedSource = FeedSource(name: string, url: string)

  /** An article on the timeline: the item spread out, plus `sourceName` and `sourceUrl`. */
  datatype TimelineArticle = TimelineArticle(article: Article, sourceName: string, sourceUrl: string)

  // ---------------------------------------------------------------- pinned posts

  /** `feedUrl?.includes('reddit.com') || feedName?.toLowerCase().startsWith('r/')`. */
  predicate IsRedditFeed(feedUrl: string, feedName: string) {
    || Contains(feedUrl, "reddit.com")
    || (|feedName| >= 2 && (feedName[0] == 'r' || feedName[0] == 'R') && feedName[1] == '/')
  }

  /** A feed is a Reddit feed when its URL mentions reddit.com anywhere, or its name starts with 'r/' in either case. */
  lemma RedditFeedByUrlOrName(before: string, after: string, name: string, sub: string)
    ensures IsRedditFeed(before + "reddit.com" + after, name)
    ensures IsRedditFeed("", "r/" + sub) && IsRedditFeed("", "R/" + sub)
  {
    var url := before + "reddit.com" + after;
    assert url[|before|..|before| + 10] == "reddit.com";
    assert OccursAt(url, "reddit.com", |before|);
  }

  /** Items i and i + 1 both carry a valid date, and item i is the older. */
  predicate RisesAt(items: seq<Article>, parse: string -> Option<int>, i: nat)
    requires i + 1 < |items|
  {
    && parse(items[i].pubDate).Some?
    && parse(items[i + 1].pubDate).Some?
    && parse(items[i].pubDate).value < parse(items[i + 1].pubDate).value
  }

  /** How far the scan for pinned posts looks: `Math.min(5, items.length - 1)`. */
  function ScanBound(items: seq<Article>): int {
    Min(5, |items| - 1)
  }

  function PinnedFrom(items: seq<Article>, parse: string -> Option<int>, i: nat): (n: nat)
    requires i <= Max(ScanBound(items), 0)
    ensures i <= n <= Max(ScanBound(items), 0)
    ensures forall k :: i <= k < n ==> RisesAt(items, parse, k)
    ensures n < ScanBound(items) ==> !RisesAt(items, parse, n)
    decreases |items| - i
  {
    if i >= ScanBound(items) then i
    else if RisesAt(items, parse, i) then PinnedFrom(items, parse, i + 1)
    else i
  }

  /**
   * The number of leading items taken to be pinned: the longest run, at
   * most `Math.min(5, items.length - 1)`, of items each older than the next.
   */
  function PinnedCount(items: seq<Article>, parse: string -> Option<int>): (n: nat)
    ensures n <= Max(ScanBound(items), 0)
    ensures forall k :: 0 <= k < n ==> RisesAt(items, parse, k)
    ensures n < ScanBound(items) ==> !RisesAt(items, parse, n)
  {
    PinnedFrom(items, parse, 0)
  }

  /** What `filterPinnedPosts` keeps. */
  function Unpinned(items: seq<Article>, feedUrl: string, feedName: string, parse: string -> Option<int>): (r: seq<Article>)
    ensures !IsRedditFeed(feedUrl, feedName) || |items| <= 2 ==> r == items
    ensures IsRedditFeed(feedUrl, feedName) && |items| > 2 ==> r == items[PinnedCount(items, parse)..]
  {
    if !IsRedditFeed(feedUrl, feedName) || |items| <= 2 then items else items[PinnedCount(items, parse)..]
  }

  /** The scan loop of `filterPinnedPosts`, repeated in `getTimelineArticles`. */
  method CountPinned(items: seq<Article>, parse: string -> Option<int>) returns (pinnedCount: nat)
    ensures pinnedCount == PinnedCount(items, parse)
  {
    pinnedCount := 0;
    var i := 0;
    while i < ScanBound(items)
      invariant 0 <= i <= Max(ScanBound(items), 0)
      invariant pinnedCount == i
      invariant PinnedFrom(items, parse, i) == PinnedCount(items, parse)
    {
      if RisesAt(items, parse, i) {
        pinnedCount := i + 1;
      } else {
        break;
      }
      i := i + 1;
    }
  }

  /** `filterPinnedPosts(items, feedUrl, feedName)`. */
  method FilterPinnedPosts(items: seq<Article>, feedUrl: string, feedName: string, parse: string -> Option<int>)
    returns (r: seq<Article>)
    ensures r == Unpinned(items, feedUrl, feedName, parse)
  {
    if !IsRedditFeed(feedUrl, feedName) || |items| <= 2 {
      return items;
    }
    var pinnedCount := CountPinned(items, parse);
    r := items[pinnedCount..];
  }

  /**
   * The filter drops at most `min(5, n - 1)` leading items, and the dropped
   * items together with the first one kept carry valid, strictly increasing
   * dates.
   */
  lemma UnpinnedDropsRisingPrefix(items: seq<Article>, feedUrl: string, feedName: string, parse: string -> Option<int>)
    requires IsRedditFeed(feedUrl, feedName) && |items| > 2
    ensures var n := |items| - |Unpinned(items, feedUrl, feedName, parse)|;
      && n <= Min(5, |items| - 1)
      && Unpinned(items, feedUrl, feedName, parse) == items[n..]
      && (n > 0 ==> forall k :: 0 <= k <= n ==> parse(items[k].pubDate).Some?)
      && (n > 0 ==> forall j, k :: 0 <= j < k <= n ==> parse(items[j].pubDate).value < parse(items[k].pubDate).value)
  {
    var n := PinnedCount(items, parse);
    if n > 0 {
      RisingRun(items, parse, n);
    }
  }

  lemma {:induction false} RisingRun(items: seq<Article>, parse: string -> Option<int>, n: nat)
    requires 0 < n < |items| && forall k :: 0 <= k < n ==> RisesAt(items, parse, k)
    ensures forall k :: 0 <= k <= n ==> parse(items[k].pubDate).Some?
    ensures forall j, k :: 0 <= j < k <= n ==> parse(items[j].pubDate).value < parse(items[k].pubDate).value
  {
    assert RisesAt(items, parse, n - 1);
    if n > 1 {
      RisingRun(items, parse, n - 1);
    }
  }

  // ---------------------------------------------------------------- newest first

  predicate SortedDesc<T>(s: seq<T>, key: T -> int) {
    forall i, j :: 0 <= i < j < |s| ==> key(s[i]) >= key(s[j])
  }

  /** `x` placed after every element whose key is at least its own. */
  function InsertDesc<T>(x: T, s: seq<T>, key: T -> int): (r: seq<T>)
    ensures |r| == |s| + 1
  {
    if s == [] then [x]
    else if key(s[0]) >= key(x) then [s[0]] + InsertDesc(x, s[1..], key)
    else [x] + s
  }

  /** Inserting adds `x` and keeps every other element. */
  lemma {:induction false} InsertDescPermutes<T>(x: T, s: seq<T>, key: T -> int)
    ensures multiset(InsertDesc(x, s, key)) == multiset(s) + multiset{x}
  {
    if s != [] && key(s[0]) >= key(x) {
      InsertDescPermutes(x, s[1..], key);
      assert s == [s[0]] + s[1..];
    }
  }

  /** Inserting into a list sorted newest first keeps it sorted; the head is `x` or the old head. */
  lemma {:induction false} InsertDescSorted<T>(x: T, s: seq<T>, key: T -> int)
    ensures var r := InsertDesc(x, s, key); key(r[0]) == key(x) || (s != [] && key(r[0]) == key(s[0]))
    ensures SortedDesc(s, key) ==> SortedDesc(InsertDesc(x, s, key), key)
  {
    if s != [] && key(s[0]) >= key(x) {
      var rest := InsertDesc(x, s[1..], key);
      InsertDescSorted(x, s[1..], key);
      if SortedDesc(s, key) {
        assert SortedDesc(s[1..], key);
        assert key(s[0]) >= key(rest[0]);
        var r := [s[0]] + rest;
        forall i, j | 0 <= i < j < |r|
          ensures key(r[i]) >= key(r[j])
        {
          if i > 0 {
            assert r[i] == rest[i - 1] && r[j] == rest[j - 1];
          } else {
            assert r[j] == rest[j - 1];
          }
        }
      }
    }
  }

  /** `Array.prototype.sort` with a comparator that puts larger keys first. */
  function SortDesc<T>(s: seq<T>, key: T -> int): (r: seq<T>)
    ensures multiset(r) == multiset(s)
    ensures SortedDesc(r, key)
    decreases |s|
  {
    if s == [] then []
    else
      var init := SortDesc(s[..|s| - 1], key);
      var last := s[|s| - 1];
      assert s == s[..|s| - 1] + [last];
      assert multiset(InsertDesc(last, init, key)) == multiset(s) && SortedDesc(InsertDesc(last, init, key), key) by {
        InsertDescPermutes(last, init, key);
        InsertDescSorted(last, init, key);
      }
      InsertDesc(last, init, key)
  }

  // ---------------------------------------------------------------- getTimelineArticles

  function Tag(items: seq<Article>, feed: FeedSource): (r: seq<TimelineArticle>)
    ensures |r| == |items|
    ensures forall i :: 0 <= i < |items| ==> r[i] == TimelineArticle(items[i], feed.name, feed.url)
  {
    seq(|items|, i requires 0 <= i < |items| => TimelineArticle(items[i], feed.name, feed.url))
  }

  /** What one feed puts on the timeline before the date filter. */
  function Contribution(feed: FeedSource, cache: map<string, seq<Article>>, parse: string -> Option<int>)
    : seq<TimelineArticle>
  {
    if feed.name in cache then Tag(Unpinned(cache[feed.name], feed.url, feed.name, parse), feed) else []
  }

  /** `allArticles` once every feed has been visited. */
  function Merged(feeds: seq<FeedSource>, cache: map<string, seq<Article>>, parse: string -> Option<int>)
    : seq<TimelineArticle>
    decreases |feeds|
  {
    if feeds == [] then []
    else Merged(feeds[..|feeds| - 1], cache, parse) + Contribution(feeds[|feeds| - 1], cache, parse)
  }

  predicate IsRecent(a: TimelineArticle, parse: string -> Option<int>, cutoff: int) {
    parse(a.article.pubDate).Some? && parse(a.article.pubDate).value >= cutoff
  }

  /** `.filter(...)`: the articles with a valid date not before `cutoff`, in order. */
  function Recent(s: seq<TimelineArticle>, parse: string -> Option<int>, cutoff: int): (r: seq<TimelineArticle>)
    ensures forall i :: 0 <= i < |r| ==> IsRecent(r[i], parse, cutoff)
    ensures multiset(r) <= multiset(s)
    ensures forall i :: 0 <= i < |s| && IsRecent(s[i], parse, cutoff) ==> s[i] in r
    ensures forall x :: multiset(r)[x] == if IsRecent(x, parse, cutoff) then multiset(s)[x] else 0
    decreases |s|
  {
    if s == [] then []
    else
      var last := s[|s| - 1];
      assert s == s[..|s| - 1] + [last];
      assert multiset(s) == multiset(s[..|s| - 1]) + multiset{last};
      var rest := Recent(s[..|s| - 1], parse, cutoff);
      if IsRecent(last, parse, cutoff) then rest + [last] else rest
  }

  /** The sort key of the timeline; every article left after the filter has a valid date. */
  function ArticleTime(parse: string -> Option<int>): TimelineArticle -> int {
    (a: TimelineArticle) => parse(a.article.pubDate).GetOr(0)
  }

  /** The timeline `getTimelineArticles(feeds)` returns. */
  function TimelineOf(feeds: seq<FeedSource>, cache: map<string, seq<Article>>, parse: string -> Option<int>,
                      now: int): seq<TimelineArticle>
  {
    SortDesc(Recent(Merged(feeds, cache, parse), parse, now - 30 * MS_PER_DAY), ArticleTime(parse))
  }

  /** Tagging one more item appends its tagged form. */
  lemma TagExtend(items: seq<Article>, lo: nat, hi: nat, feed: FeedSource)
    requires lo <= hi < |items|
    ensures Tag(items[lo..hi + 1], feed) == Tag(items[lo..hi], feed) + [TimelineArticle(items[hi], feed.name, feed.url)]
  {
    assert items[lo..hi + 1] == items[lo..hi] + [items[hi]];
  }

  /** A cached feed contributes its items after the pinned ones, tagged. */
  lemma ContributionOfCached(feed: FeedSource, cache: map<string, seq<Article>>, parse: string -> Option<int>,
                             pinnedCount: nat)
    requires feed.name in cache
    requires var items := cache[feed.name];
      pinnedCount == (if IsRedditFeed(feed.url, feed.name) && |items| > 2 then PinnedCount(items, parse) else 0)
    ensures pinnedCount <= |cache[feed.name]|
    ensures Contribution(feed, cache, parse) == Tag(cache[feed.name][pinnedCount..], feed)
  {
    assert cache[feed.name][0..] == cache[feed.name];
  }

  /** Visiting one more feed appends its contribution. */
  lemma MergedExtend(feeds: seq<FeedSource>, f: nat, cache: map<string, seq<Article>>, parse: string -> Option<int>)
    requires f < |feeds|
    ensures Merged(feeds[..f + 1], cache, parse) == Merged(feeds[..f], cache, parse) + Contribution(feeds[f], cache, parse)
  {
    assert feeds[..f + 1][..f] == feeds[..f];
  }

  /** The body of the `feeds.forEach` callback: the articles one feed pushes onto `allArticles`. */
  method PushFeedArticles(feed: FeedSource, cache: map<string, seq<Article>>, parse: string -> Option<int>)
    returns (pushed: seq<TimelineArticle>)
    ensures pushed == Contribution(feed, cache, parse)
  {
    pushed := [];
    if feed.name !in cache {
      return;
    }
    var items := cache[feed.name];
    var isRedditFeed := IsRedditFeed(feed.url, feed.name);
    var pinnedCount := 0;
    if isRedditFeed && |items| > 2 {
      pinnedCount := CountPinned(items, parse);
    }
    ContributionOfCached(feed, cache, parse, pinnedCount);
    var index := 0;
    while index < |items|
      invariant 0 <= index <= |items|
      invariant pushed == Tag(items[Min(pinnedCount, index)..index], feed)
    {
      if isRedditFeed && index < pinnedCount {
        assert items[index + 1..index + 1] == [];
      } else {
        TagExtend(items, Min(pinnedCount, index), index, feed);
        pushed := pushed + [TimelineArticle(items[index], feed.name, feed.url)];
      }
      index := index + 1;
    }
  }

  /**
   * `getTimelineArticles(feeds)`; `cache` is `feedDataCache`, from feed
   * name to the items last fetched for it.
   */
  method GetTimelineArticles(feeds: seq<FeedSource>, cache: map<string, seq<Article>>,
                             parse: string -> Option<int>, now: int) returns (r: seq<TimelineArticle>)
    ensures r == TimelineOf(feeds, cache, parse, now)
  {
    var oneMonthAgo := now - 30 * MS_PER_DAY;
    var allArticles: seq<TimelineArticle> := [];
    var f := 0;
    while f < |feeds|
      invariant 0 <= f <= |feeds|
      invariant allArticles == Merged(feeds[..f], cache, parse)
    {
      var pushed := PushFeedArticles(feeds[f], cache, parse);
      MergedExtend(feeds, f, cache, parse);
      allArticles := allArticles + pushed;
      f := f + 1;
    }
    assert feeds[..f] == feeds;
    r := SortDesc(Recent(allArticles, parse, oneMonthAgo), ArticleTime(parse));
  }

  /** Sorting articles that are all recent keeps them recent and orders them by their valid dates. */
  lemma SortedRecentArticles(recent: seq<TimelineArticle>, parse: string -> Option<int>, cutoff: int)
    requires forall i :: 0 <= i < |recent| ==> IsRecent(recent[i], parse, cutoff)
    ensures var r := SortDesc(recent, ArticleTime(parse));
      && (forall i :: 0 <= i < |r| ==> IsRecent(r[i], parse, cutoff))
      && (forall i, j :: 0 <= i < j < |r| ==>
            parse(r[i].article.pubDate).value >= parse(r[j].article.pubDate).value)
  {
    var r := SortDesc(recent, ArticleTime(parse));
    forall i | 0 <= i < |r|
      ensures IsRecent(r[i], parse, cutoff)
    {
      assert r[i] in multiset(recent);
      var k :| 0 <= k < |recent| && recent[k] == r[i];
    }
    forall i, j | 0 <= i < j < |r|
      ensures parse(r[i].article.pubDate).value >= parse(r[j].article.pubDate).value
    {
      assert ArticleTime(parse)(r[i]) >= ArticleTime(parse)(r[j]);
    }
  }

  /**
   * The timeline holds exactly the merged articles dated within the last
   * 30 days, each once per occurrence, newest first.
   */
  lemma TimelineShape(feeds: seq<FeedSource>, cache: map<string, seq<Article>>, parse: string -> Option<int>, now: int)
    ensures var r := TimelineOf(feeds, cache, parse, now);
      var cutoff := now - 30 * MS_PER_DAY;
      && (forall i :: 0 <= i < |r| ==> IsRecent(r[i], parse, cutoff))
      && (forall i, j :: 0 <= i < j < |r| ==>
            parse(r[i].article.pubDate).value >= parse(r[j].article.pubDate).value)
      && multiset(r) == multiset(Recent(Merged(feeds, cache, parse), parse, cutoff))
  {
    var cutoff := now - 30 * MS_PER_DAY;
    var recent := Recent(Merged(feeds, cache, parse), parse, cutoff);
    SortedRecentArticles(recent, parse, cutoff);
    assert TimelineOf(feeds, cache, parse, now) == SortDesc(recent, ArticleTime(parse));
  }

  // ---------------------------------------------------------------- sortFeedsByRecencyInGrid

  /** A card in a section grid: its feed, the date of its newest item ('' if none) and whether it failed. */
  datatype Card = Card(name: string, latestDate: string, isError: bool)

  /** The time a card sorts by: no date and an invalid date both count as 0. */
  function SortTime(date: string, parse: string -> Option<int>): int {
    if date == "" then 0 else parse(date).GetOr(0)
  }

  function CardTime(parse: string -> Option<int>): Card -> int {
    (c: Card) => SortTime(c.latestDate, parse)
  }

  function ErrorCards(grid: seq<Card>): (r: seq<Card>)
    ensures forall i :: 0 <= i < |r| ==> r[i].isError
    decreases |grid|
  {
    if grid == [] then []
    else ErrorCards(grid[..|grid| - 1]) + (if grid[|grid| - 1].isError then [grid[|grid| - 1]] else [])
  }

  function LiveCards(grid: seq<Card>): (r: seq<Card>)
    ensures forall i :: 0 <= i < |r| ==> !r[i].isError
    decreases |grid|
  {
    if grid == [] then []
    else LiveCards(grid[..|grid| - 1]) + (if grid[|grid| - 1].isError then [] else [grid[|grid| - 1]])
  }

  lemma {:induction false} CardsPartition(grid: seq<Card>)
    ensures multiset(ErrorCards(grid)) + multiset(LiveCards(grid)) == multiset(grid)
    decreases |grid|
  {
    if grid != [] {
      CardsPartition(grid[..|grid| - 1]);
      assert grid == grid[..|grid| - 1] + [grid[|grid| - 1]];
    }
  }

  /**
   * The grid after `sortFeedsByRecencyInGrid`: every card that is not an
   * error card is re-appended in order of its newest item, so the error
   * cards stay first, in their order.
   */
  function SortGrid(grid: seq<Card>, parse: string -> Option<int>): seq<Card> {
    ErrorCards(grid) + SortDesc(LiveCards(grid), CardTime(parse))
  }

  /** Sorting a grid rearranges its cards: failed cards first, the others newest first. */
  lemma SortGridShape(grid: seq<Card>, parse: string -> Option<int>)
    ensures var r := SortGrid(grid, parse);
      var e := |ErrorCards(grid)|;
      && multiset(r) == multiset(grid)
      && (forall i :: 0 <= i < e ==> r[i].isError)
      && (forall i :: e <= i < |r| ==> !r[i].isError)
      && (forall i, j :: e <= i < j < |r| ==> SortTime(r[i].latestDate, parse) >= SortTime(r[j].latestDate, parse))
  {
    var live := LiveCards(grid);
    var sorted := SortDesc(live, CardTime(parse));
    var r := SortGrid(grid, parse);
    var e := |ErrorCards(grid)|;
    CardsPartition(grid);
    forall i | e <= i < |r|
      ensures !r[i].isError
    {
      assert r[i] == sorted[i - e];
      assert sorted[i - e] in multiset(live);
      var k :| 0 <= k < |live| && live[k] == sorted[i - e];
    }
    forall i, j | e <= i < j < |r|
      ensures SortTime(r[i].latestDate, parse) >= SortTime(r[j].latestDate, parse)
    {
      assert CardTime(parse)(sorted[i - e]) >= CardTime(parse)(sorted[j - e]);
    }
  }
}
