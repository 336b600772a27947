# rssWebsite2020 feed reader — a Dafny model

rssWebsite2020 is a personal dashboard of RSS, Atom and RSS 1.0 (RDF)
feeds, grouped into sections (YouTube, blogs, security, subreddits,
Twitch). It has two halves, and both are modelled here.

- **The serverless endpoint `api/rss.js`.**
  - It takes `GET ?feedUrl=…&limit=…` and checks the method and the query.
  - It clamps `limit` to 1..20 and fetches the feed.
  - It recognises the dialect (`rss`, then `feed`, then `rdf:RDF`) and normalises it to `{title, items[]}`.
  - Items are cut to `limit`, with defaults for missing fields.
  - The result is cached for one hour under the key `${feedUrl}:${limit}`.
  - A fetch error becomes a status code (404, 504, 422 or 500).
- **The dashboard `public/app.js`.**
  - It drops Reddit's pinned posts.
  - It merges the feeds of a section into a 30-day timeline, newest first.
  - It orders the cards of a grid by their newest item.
  - It formats ages ("3h ago", recency classes), truncates subtitles and derives a site link per feed.
  - It keeps the current section and each section's view (timeline or cards).
  - It pages the "Load More" modal ten items at a time.

The model starts from an already-parsed XML tree (`XmlTree.Node`: absent,
string, object, array), on which JavaScript truthiness, `||`, `?.` and
the lone-item-to-list wrapping are written out. Runtime services enter as
parameters:

- `new Date(s).getTime()` is `parse: string -> Option<int>` (`None` for NaN).
- `toISOString` completes `FeedParse.DateCodec`.
- `Date.now()` is `now`, in milliseconds.
- `toLocaleDateString` is `localeDate`.
- `new URL(s)` succeeding is `isValidUrl`.
- The network call is a `FeedCache.Reply`: a response (status, status text, parsed body) or a rejection with its error.

Modules:

- `Wrappers`: `Option` and `Result`.
- `JsText`: the string built-ins used (`trim`, `split(/\s+/)`, `join`, `slice`, `includes`, `startsWith`, `parseInt`, integer-to-string).
- `XmlTree`: the parsed tree.
- `Sanitize`: `stripHtml`.
- `FeedParse`: `parseDate`, the three extractors and the dialect detection.
- `FeedCache`: the cache and `fetchFeed`.
- `RssHandler`: the exported handler.
- `DashboardText`: the display helpers.
- `Timeline`: pinned posts, timeline and card order.
- `Navigation`: section state.
- `ModalPager`: the modal.

Behaviours of the code that are easy to misread, and that the model keeps:

- **Atom link.** An Atom entry's link is the first link whose `rel` is `alternate` *or missing* (api/rss.js:96). So a rel-less link listed before the `alternate` one wins (`FeedParse.AtomLinkRelLessBeforeAlternate`). An alternate link is not preferred as such.
- **Cache key.** The cache key is the string `${feedUrl}:${limit}` (api/rss.js:134), not a pair. `FeedCache.CacheKeyInjective` proves that it still separates distinct requests.
- **No request coalescing.** Concurrent misses on one key each fetch (api/rss.js:132-209).
- **Timeout.** The 15-second timer is cleared as soon as the response headers arrive (api/rss.js:145, 156), so reading the body is not bounded by it.
- **Limit 50.** The dashboard requests `limit=50` (public/app.js:9, 167), and the handler clamps that to 20 (api/rss.js:245, `RssHandler.DashboardLimitIsClamped`).

## Model

| member | source | states |
|---|---|---|
| Sanitize.SanitizeHtml | api/rss.js:17-21 | the sanitizer's output contains no markup character `<`, and its only white-space character is the plain space (a tag between two spaces can leave two in a row) |
| Sanitize.TagBetweenSpacesLeavesTwo | api/rss.js:17-21 | white space is collapsed per text chunk, so `'a <br> b'` sanitizes to `'a  b'`, which is not single-spaced |
| Sanitize.StripHtml | api/rss.js:13-24 | falsy input gives `''`; otherwise the result is trimmed plain text |
| Sanitize.StripHtmlKeepsCleanText | api/rss.js:13-24 | text that is already trimmed, single-spaced and free of `<`, `&` and `>` (the characters `sanitize-html` rewrites) passes through `stripHtml` unchanged; used for the 'No title' default |
| JsText.Trim | api/rss.js:23 | `trim()` is a slice of the input with only white space before and after it, and no white space at either end; already trimmed text is unchanged |
| JsText.SplitTrimmedIsWords | public/app.js:1247 | `text.trim().split(/\s+/)` yields only nonempty words without white space |
| JsText.SplitJoin | public/app.js:1247-1249 | splitting words joined by single spaces gives back exactly those words |
| JsText.ParseIntOfIntToString | api/rss.js:245 | `parseInt` reads the decimal form of any integer back as that integer |
| JsText.IntToStringInjective | api/rss.js:134 | distinct integers have distinct decimal forms |
| XmlTree.Or | api/rss.js:52 | JavaScript `a \|\| b`: `a` when truthy, otherwise `b` |
| XmlTree.ListOf | api/rss.js:53-58 | a missing/falsy value is `[]`, an array is itself, a lone item becomes a one-element list |
| FeedParse.ParseDate | api/rss.js:31-40 | absent or empty input gives `''`; an unparsable string is returned unchanged; a parsable one is replaced by its ISO form |
| FeedParse.ParseDateIdempotent | api/rss.js:31-40 | normalising a date twice is normalising it once, for any runtime whose ISO output parses back to the same instant |
| FeedParse.MapSliceInOrder | api/rss.js:60 | `entries.slice(0, limit).map(f)` has at most `limit` items and item i is `f(entries[i])` |
| FeedParse.Rss2Item | api/rss.js:60-65 | title is `stripHtml` of a truthy title, else 'No title'; link is a truthy link, else `''`; text is `stripHtml` of `description`, else of `content:encoded`, else `''`; date normalised; title and text are plain text |
| FeedParse.ParseRss2 | api/rss.js:48-68 | no channel gives `{title:'Unknown Feed', items:[]}`; title falls back to 'Unknown Feed'; at most `limit` items |
| FeedParse.Rss2ItemsInOrder | api/rss.js:53-60 | RSS 2.0 items are the channel's items in source order, cut to `limit`, a lone item counting as a list of one |
| FeedParse.FindAlternate | api/rss.js:96 | the index of the first link whose rel is 'alternate' or absent, and none before it qualifies; none when no link qualifies |
| FeedParse.AtomLink | api/rss.js:90-105 | falsy gives `''`, a string is used verbatim, a single object yields its `@_href` (or `''`), an empty link array gives `''` |
| FeedParse.AtomLinkPicksFirstAlternate | api/rss.js:94-98 | for a link array, the `@_href` of the first alternate-or-rel-less link is chosen when it is truthy |
| FeedParse.AtomLinkFallsBackToFirst | api/rss.js:99-101 | with no alternate-or-rel-less link, the first link's `@_href` is chosen when it is truthy |
| FeedParse.AtomLinkFirstWithoutHref | api/rss.js:99-101 | with no alternate-or-rel-less link and no truthy `@_href` on the first link, the first link object itself is used |
| FeedParse.AtomLinkAlternateWithoutHref | api/rss.js:96-98 | an alternate-or-rel-less link without an `@_href` is itself used as the link |
| FeedParse.AtomLinkRelLessBeforeAlternate | api/rss.js:96 | a rel-less link listed before an `alternate` link is the one chosen |
| FeedParse.AtomText | api/rss.js:108-113 | `content` before `summary`, each by its string or `#text`; `''` when neither is present |
| FeedParse.AtomTitle | api/rss.js:116 | a string title is used as is (even `''`); an object title gives its `#text` when truthy, else 'No title'; any other title 'No title' |
| FeedParse.AtomItem | api/rss.js:88-121 | title is `stripHtml` of `AtomTitle`, so an empty-string title stays `''` while a missing one becomes 'No title'; link by `AtomLink`; text is `stripHtml` of `AtomText`; date from `updated`, else `published` |
| FeedParse.ParseAtom | api/rss.js:76-124 | no `feed` gives `{title:'Unknown Feed', items:[]}`; otherwise the title is `feed.title`, or 'Unknown Feed' when falsy; at most `limit` items |
| FeedParse.AtomItemsInOrder | api/rss.js:81-88 | Atom items are the entries in source order, cut to `limit`, a lone entry counting as a list of one |
| FeedParse.RdfItem | api/rss.js:187-192 | title is `stripHtml` of a truthy title, else 'No title'; link is a truthy link, else `''`; date from `dc:date` before `pubDate`; text from `description` only |
| FeedParse.ParseRdf | api/rss.js:180-193 | title from `channel.title`, else 'Unknown Feed'; at most `limit` items |
| FeedParse.RdfItemsInOrder | api/rss.js:182-187 | RDF items are the items in source order, cut to `limit`, a lone item counting as a list of one |
| FeedParse.ExtractFeed | api/rss.js:173-196 | detection order `rss`, `feed`, `rdf:RDF`; the 'Unknown feed format' error exactly when none is present; at most `limit` items |
| FeedCache.HttpError | api/rss.js:158-160 | a non-ok response throws an Error whose message starts `HTTP <status>: ` |
| FeedCache.CacheKey | api/rss.js:134 | the key is the URL, then ':', then text that holds no ':' and that `parseInt` reads back as the limit |
| FeedCache.Outcome | api/rss.js:147-205 | a rejection keeps its error, a non-2xx status gives the HTTP error, a 2xx body is extracted; never more than `limit` items |
| FeedCache.CacheKeyInjective | api/rss.js:134 | two requests share the key `${feedUrl}:${limit}` only if url and limit are both equal |
| FeedCache.FreshData | api/rss.js:135-136 | a hit exactly when an entry exists under the key and is younger than 3 600 000 ms, yielding its data |
| FeedCache.FetchResult | api/rss.js:132-139 | a fresh entry answers without the network; otherwise the round trip's outcome |
| FeedCache.StoreKeepsOtherRequests | api/rss.js:199-202 | storing one request's result changes no other request's cache answer |
| FeedCache.StoredEntryLifetime | api/rss.js:136 | a stored entry is served exactly until one TTL after its timestamp |
| FeedCache.RepeatedRequestServedFromCache | api/rss.js:134-139 | after a successful miss is stored, the same request within the TTL gets the same feed whatever the network would do |
| FeedCache.Cache.constructor | api/rss.js:5 | the cache starts empty |
| FeedCache.Cache.Get | api/rss.js:135-136 | the lookup returns the fresh entry's data or nothing |
| FeedCache.Cache.Put | api/rss.js:199-202 | only the given key is (over)written, with the given time and data |
| FeedCache.Cache.FetchFeed | api/rss.js:132-209 | result as `FetchResult` on the cache before the call; only a successful miss writes, only its own key, stamped with the completion time; errors and hits leave the cache unchanged |
| RssHandler.ClampLimit | api/rss.js:245 | result in 1..20; unparsable or 0 gives 5; negative gives 1; above 20 gives 20; a parsed value in 1..20 is kept |
| RssHandler.ClampLimitKeepsInRange | api/rss.js:245 | a limit 1..20 written in decimal is kept as it is |
| RssHandler.ClampLimitReadsLeadingDigits | api/rss.js:245 | `parseInt` reads past a sign and leading zeros and stops at the first non-digit: '+07' and '7abc' are served 7 items |
| RssHandler.DashboardLimitIsClamped | api/rss.js:245 | the dashboard's `limit=50` is served as 20 |
| RssHandler.Route | api/rss.js:215-245 | OPTIONS gives 200 with no body; other non-GET 405; missing/empty `feedUrl` 400; invalid URL 400; otherwise a fetch exactly then, of that URL, with `ClampLimit` of the given limit, 5 by default |
| RssHandler.ErrorStatus | api/rss.js:258-266 | tests in order: 'HTTP 404' gives 404, 'timeout' or AbortError 504, 'Unknown feed format' 422, anything else 500 |
| RssHandler.ErrorMessage | api/rss.js:258-266 | each of 404, 504 and 422 has its own message, and every other status gets 'Failed to fetch feed' |
| RssHandler.Complete | api/rss.js:247-267 | success gives 200 with the feed and Cache-Control; an error gives its status and message |
| RssHandler.CacheControlOnlyOnSuccess | api/rss.js:215-253 | every response has the three CORS headers; Cache-Control exactly on success |
| RssHandler.NotFoundIs404 | api/rss.js:258-259 | an upstream 404 becomes 404 'Feed not found' |
| RssHandler.AbortIs504 | api/rss.js:260-261 | the aborted fetch becomes 504 'Feed request timed out' |
| RssHandler.UnknownFormatIs422 | api/rss.js:262-263 | an unknown document becomes 422 'Unable to parse feed format' |
| RssHandler.OtherHttpErrorIs500 | api/rss.js:266 | any other upstream HTTP failure becomes 500 'Failed to fetch feed' |
| RssHandler.Handle | api/rss.js:214-268 | an early answer is the routed response; otherwise the completed fetch through the cache |
| RssHandler.RejectedRequestIgnoresFetch | api/rss.js:221-242 | a request refused before the fetch depends neither on the cache nor on the network |
| RssHandler.Serve | api/rss.js:214-268 | the response is `Handle` on the cache as it was; refused requests and fetches that fail or hit leave the cache alone; a successful miss stores its feed under its own key, stamped with the completion time |
| DashboardText.TruncateText | public/app.js:1245-1250 | empty text is returned as is; at most `maxWords` words returns the text unchanged; otherwise the first `maxWords` words joined by single spaces plus '...' |
| DashboardText.TruncatedKeepsLeadingWords | public/app.js:1245-1250 | a truncated subtitle ends in '...' and splits back into exactly the first `maxWords` words of the text |
| DashboardText.DisplayedSubtitle | public/app.js:1245-1250 | with the default of ten words, a subtitle of at most ten words is shown as it is, a longer one as exactly ten words and '...' |
| DashboardText.GetRecencyClass | public/app.js:1278-1296 | no or invalid date gives old; age in [0,1) day today; future or [1,8) days week; [8,31) days month; 31 days or more old |
| DashboardText.UnitSteps | public/app.js:1224-1228 | the chained floors of seconds, minutes, hours, days and weeks equal one floor by the whole unit |
| DashboardText.FormatRelativeTime | public/app.js:1216-1240 | empty gives `''`, invalid returns the input; under a minute 'just now', then 'Nm ago', 'Nh ago', 'Nd ago', 'Nw ago' with N the whole units of age, from 28 days the locale date |
| DashboardText.FirstChannelMatch | public/app.js:1306 | the leftmost position where `channel_id=` is followed by a character other than '&', or none |
| DashboardText.ChannelId | public/app.js:1306-1307 | an id exactly when `channel_id=` is followed by a character other than '&'; the id is the whole run of characters other than '&' after the leftmost such key |
| DashboardText.SubredditName | public/app.js:1312 | one leading 'r/' or 'R/' is removed, nothing else |
| DashboardText.GetSiteUrl | public/app.js:1301-1323 | youtube with a channel id gives its channel page, else '#'; subreddits the reddit page; twitch the channel; blogs and security the feed URL or '#'; other categories '#' |
| DashboardText.YouTubeChannelRoundTrip | public/app.js:1304-1309 | for a base URL without '_' (so the key cannot already occur in it) and a non-empty id without '&', the feed URL `base + 'channel_id=' + id` links to the channel page of exactly that id |
| DashboardText.SubredditPage | public/app.js:1310-1313 | 'r/x' and 'R/x' both link to the page of x |
| Timeline.IsRedditFeed | public/app.js:214 | a feed is treated as Reddit when its URL contains 'reddit.com' or its name starts with 'r/' in either case (stated by `Timeline.RedditFeedByUrlOrName`) |
| Timeline.RedditFeedByUrlOrName | public/app.js:214 | 'reddit.com' anywhere in the URL, or a name starting 'r/' or 'R/', makes a Reddit feed |
| Timeline.PinnedFrom | public/app.js:222-232 | the scan stops at the first position that is not an older-than-next pair, within `min(5, n-1)` |
| Timeline.PinnedCount | public/app.js:220-232 | the length of the leading run of items each validly dated and older than the next, capped at `min(5, n-1)` |
| Timeline.CountPinned | public/app.js:220-232 | the loop computes `PinnedCount` |
| Timeline.Unpinned | public/app.js:213-235 | non-Reddit feeds and lists of at most 2 items are returned unchanged; otherwise the items after the pinned count |
| Timeline.FilterPinnedPosts | public/app.js:213-235 | the method returns `Unpinned` |
| Timeline.UnpinnedDropsRisingPrefix | public/app.js:220-235 | the result is a suffix with at most `min(5, n-1)` items dropped, and the dropped items plus the next carry valid, strictly increasing dates |
| Timeline.RisingRun | public/app.js:222-232 | a run of older-than-next pairs is strictly increasing across the whole run |
| Timeline.SortDesc | public/app.js:1011 | the sort is a permutation ordered newest first |
| Timeline.InsertDescPermutes | public/app.js:1011 | inserting one article into the sorted list adds exactly that article |
| Timeline.InsertDescSorted | public/app.js:1011 | inserting into a list sorted newest first keeps it sorted newest first |
| Timeline.Tag | public/app.js:996-1000 | each item is kept, with `sourceName` and `sourceUrl` of its feed attached |
| Timeline.Recent | public/app.js:1006-1010 | every recent article is kept as many times as it occurs, every other article is dropped |
| Timeline.TimelineOf | public/app.js:960-1013 | what `getTimelineArticles` returns: the merged feeds' articles from the last 30 days, sorted newest first; its properties are stated by `Timeline.TimelineShape` |
| Timeline.PushFeedArticles | public/app.js:966-1002 | one feed pushes its items minus the Reddit pinned prefix, tagged with its source |
| Timeline.GetTimelineArticles | public/app.js:960-1012 | the method returns `TimelineOf`: merged feeds, last 30 days, newest first |
| Timeline.SortedRecentArticles | public/app.js:1006-1012 | sorting recent articles keeps each one recent and orders their dates newest first |
| Timeline.TimelineShape | public/app.js:1006-1012 | every timeline article is dated within 30 days, they are newest first, and they are exactly the recent merged articles |
| Timeline.ErrorCards | public/app.js:1343 | only failed cards |
| Timeline.LiveCards | public/app.js:1343 | only cards that did not fail |
| Timeline.CardsPartition | public/app.js:1343 | failed and live cards together are the grid's cards |
| Timeline.SortGrid | public/app.js:1341-1358 | the grid after `sortFeedsByRecencyInGrid`: the error cards in their order, then the other cards newest first; its properties are stated by `Timeline.SortGridShape` |
| Timeline.SortGridShape | public/app.js:1341-1358 | the grid keeps its cards, failed cards first, then live cards by newest item (missing or invalid date as 0) |
| Navigation.IndexOf | public/app.js:700-701 | the section's position in youtube, blogs, security, subreddits, twitch |
| Navigation.Previous | public/app.js:699-707 | one tab left, except at the first tab |
| Navigation.Next | public/app.js:711-718 | one tab right, except at the last tab |
| Navigation.NextPreviousInverse | public/app.js:699-718 | away from the ends, next then previous (and previous then next) returns to the tab |
| Navigation.Flip | public/app.js:435 | the view always changes |
| Navigation.Toggled | public/app.js:433-435 | the clicked section's view flips, every other section's view is unchanged |
| Navigation.ToggledTwice | public/app.js:433-435 | toggling twice restores the views |
| Navigation.Dashboard.constructor | public/app.js:14-28 | YouTube is current and every section starts in timeline view |
| Navigation.Dashboard.SwitchSection | public/app.js:723-748 | the section becomes current; views are untouched |
| Navigation.Dashboard.HandleTabClick | public/app.js:431-445 | the current tab flips its own view; another tab becomes current with views untouched |
| Navigation.Dashboard.NavigateToPreviousSection | public/app.js:699-707 | moves to `Previous`, views untouched |
| Navigation.Dashboard.NavigateToNextSection | public/app.js:711-718 | moves to `Next`, views untouched |
| ModalPager.CardItems | public/app.js:311 | a card shows the first `min(initialLimit, n)` items, in order |
| ModalPager.FirstPageAsWritten | public/app.js:1075 | `items.slice(3, 15)`: empty for at most three items, otherwise items 3 up to 15 or the end |
| ModalPager.FirstPage | public/app.js:1051-1088 | the corrected first page: the items after the card's `cardShown`, up to index 15, or none when the card already reaches it |
| ModalPager.AsWrittenRepeatsCardItems | public/app.js:1069-1075 | with a five-item card, the modal's first two items are the card's last two |
| ModalPager.CardThenFirstPage | public/app.js:1069-1075 | the card followed by the corrected first page lists items 0..14 once each, in order |
| ModalPager.ThreeItemCardsAgree | public/app.js:1075 | for three-item cards the corrected first page is the one as written |
| ModalPager.Modal.constructor | public/app.js:1043-1046 | the modal starts empty, idle, offset 0 |
| ModalPager.Modal.OpenAsWritten | public/app.js:1051-1088 | `openModal` as written: offset 15, idle, and the listed items are `items.slice(3, 15)`, whatever the card shows |
| ModalPager.Modal.Open | public/app.js:1051-1088 | corrected `openModal`: offset 15, idle, and the listed items are those after the card's, up to index 15 |
| ModalPager.Modal.LoadMore | public/app.js:1128-1145 | offset becomes min(offset + 10, total) and exactly `items[offset..newOffset]` is appended; the listing stays one contiguous run |
| ModalPager.Modal.HandleScroll | public/app.js:1103-1125 | a load starts exactly when near the bottom, idle and offset < total, and sets the loading flag |
| ModalPager.Modal.FinishLoad | public/app.js:1116-1121 | the timer callback loads the next page and clears the flag; the items, their count and the first listed index are unchanged |

## Left out

- The network: `fetch`, its request headers, and the `AbortController` timer with `setTimeout`/`clearTimeout`. How a round trip ends is an input.
- The XML parser (`fast-xml-parser`): the model starts from its output tree. Its coercion of numeric text to numbers is not modelled; all leaf values are strings.
- Sanitize.SanitizeHtml: the `sanitize-html` library is replaced by a small tag-stripping scanner that collapses whitespace runs within each text chunk, so, as in the library, a tag between two spaces leaves a double space. Only the facts stated about `stripHtml` are claimed of it. Not modelled: the library writes `&` and `>` in text back as `&amp;` and `&gt;`, decodes entities, and parses malformed markup its own way. So `Sanitize.StripHtmlKeepsCleanText` is stated only for text without those characters.
- ModalPager.Modal.Open: it lists the items after the card's (the corrected behaviour of the finding below). The code as written is `ModalPager.Modal.OpenAsWritten`, which lists `items.slice(3, 15)`; for cards of three items the two agree (`ModalPager.ThreeItemCardsAgree`).
- Date parsing, `toISOString` and `toLocaleDateString` are parameters, because they depend on the runtime and the local time zone.
- Timeline.TimelineOf: the cutoff is `now − 30 days` in milliseconds. `setDate(getDate() - 30)` can differ by an hour across a daylight-saving change.
- Timeline.SortDesc: `Array.prototype.sort` is stable, and the model sorts into the same order by key. Stability (the order of equal dates) is not proved.
- The cold-cache race between concurrent requests for one key, and `fetchFeedsWithConcurrency`, because their point is concurrency.
- Logging (`console.log`/`console.error`), because it has no effect on results.
- RssHandler.Route: query parameters given more than once (which arrive as arrays) are not modelled; each parameter is one string.
- RssHandler.OtherHttpErrorIs500: it covers three-digit statuses whose status text does not itself contain 'HTTP 404', 'timeout' or 'Unknown feed format'. Other texts are governed by `ErrorStatus` directly.
- Non-string links and dates on the dashboard: items arrive as JSON, and the model takes link and date to be strings.
- The DOM: rendering of cards, timeline and modal, scroll positions and their restoration, the tab indicator, the mobile menu, touch and keyboard listeners, the theme and the offline section. `escapeHtml`/`decodeHtmlEntities` are left out because they rely on DOM parsing. The `data-index` attributes are not modelled.
- `closeModal`, and the 300 ms load timer outliving a reopened modal. Only the modal's offset and loading flag are modelled.
- `groupArticlesByDay`/`formatDayLabel`, because they use local calendar arithmetic.
- public/feeds.js (configuration data) and main.py (Flask routing) contain no modelled logic.
- `updateFeedCard` beyond the card's item slice and its `latestDate` are not modelled.

## Findings

| source | as written | input that shows it | evidently intended | confidence | as-written member | corrected member |
|---|---|---|---|---|---|---|
| public/app.js:1069-1075 | `openModal` always starts the list at index 3 (`modalItems.slice(3, 15)`), although a card shows `feed.limit` items (public/app.js:179, 311) | a security feed, whose `limit` is 5 (public/feeds.js:26-37), with at least 5 items: items 3 and 4 are on the card and again at the top of the modal, and the button reads 'Load More (n − 5)' | the modal starts after the items the card shows | not executed | ModalPager.AsWrittenRepeatsCardItems | ModalPager.CardThenFirstPage |
