/**
 * The feed normalizer of api/rss.js: `parseDate`, the RSS 2.0 and Atom
 * extractors, the inline RSS 1.0 (RDF) extractor and the dialect check
 * that chooses among them. Each extractor turns a parsed document into a
 * title and a list of items of one shape, filling in defaults for missing
 * fields and keeping at most `limit` items in document order.
 */
module FeedParse {
  import opened Wrappers
  import opened JsText
  import opened XmlTree
  import opened Sanitize

  const UNKNOWN_FEED := "Unknown Feed"
  const NO_TITLE := "No title"
  const UNKNOWN_FORMAT := "Unknown feed format"

  /**
   * The two date operations the normalizer borrows from the runtime:
   * `new Date(s)` read through `getTime()` (`None` for NaN) and
   * `toISOString()`. Neither is defined by the model.
   */
  datatype DateCodec = DateCodec(parse: string -> Option<int>, iso: int -> string)

  /** An ISO timestamp is never empty and reads back as the instant it was made from. */
  ghost predicate IsoReadsBack(dates: DateCodec) {
    forall t :: dates.iso(t) != "" && dates.parse(dates.iso(t)) == Some(t)
  }

  /** One normalized item. `link` and `pubDate` keep whatever value the parser produced. */
  datatype FeedItem = FeedItem(title: string, link: Node, pubDate: Node, text: string)

  /** A normalized feed. The feed title is passed through as parsed. */
  datatype Feed = Feed(title: Node, items: seq<FeedItem>)

  /** A thrown JavaScript `Error`: its `name` and its `message`. */
  datatype JsError = JsError(name: string, message: string)

  function UnknownFormatError(): JsError {
    JsError("Error", UNKNOWN_FORMAT)
  }

  // ---------------------------------------------------------------- dates

  /** `parseDate(dateStr)`: falsy gives '', a parsable date its ISO form, anything else itself. */
  function ParseDate(dateStr: Node, dates: DateCodec): (r: Node)
    ensures !Truthy(dateStr) ==> r == Str("")
    ensures Truthy(dateStr) ==>
      match dates.parse(ToJsString(dateStr))
      case None => r == dateStr
      case Some(t) => r == Str(dates.iso(t))
  {
    if !Truthy(dateStr) then Str("")
    else
      match dates.parse(ToJsString(dateStr))
      case None => dateStr
      case Some(t) => Str(dates.iso(t))
  }

  /** Normalizing a date a second time changes nothing. */
  lemma ParseDateIdempotent(v: Node, dates: DateCodec)
    requires IsoReadsBack(dates)
    ensures ParseDate(ParseDate(v, dates), dates) == ParseDate(v, dates)
  {
    if Truthy(v) {
      match dates.parse(ToJsString(v))
      case None =>
      case Some(t) =>
        assert dates.iso(t) != "" && dates.parse(dates.iso(t)) == Some(t);
    }
  }

  // ---------------------------------------------------------------- shared item helpers

  /** `xs.map(f)`. */
  function MapItems(xs: seq<Node>, f: Node -> FeedItem): (r: seq<FeedItem>)
    ensures |r| == |xs|
    ensures forall i :: 0 <= i < |xs| ==> r[i] == f(xs[i])
  {
    seq(|xs|, i requires 0 <= i < |xs| => f(xs[i]))
  }

  /** Item i of `items` is built from entry i of `entries`, and there are `min(limit, |entries|)` of them. */
  ghost predicate BuiltInOrder(items: seq<FeedItem>, entries: seq<Node>, limit: int, f: Node -> FeedItem) {
    && |items| == Min(limit, |entries|)
    && forall i :: 0 <= i < |items| ==> items[i] == f(entries[i])
  }

  lemma MapSliceInOrder(entries: seq<Node>, limit: int, f: Node -> FeedItem)
    requires 0 <= limit
    ensures BuiltInOrder(MapItems(JsSlice(entries, 0, limit), f), entries, limit, f)
  {
  }

  // ---------------------------------------------------------------- RSS 2.0

  function Rss2Channel(doc: Node): Node {
    Get(Get(doc, "rss"), "channel")
  }

  /** One RSS 2.0 `<item>`. */
  function Rss2Item(item: Node, dates: DateCodec): (r: FeedItem)
    ensures !Truthy(Get(item, "title")) ==> r.title == NO_TITLE
    ensures Truthy(Get(item, "title")) ==> r.title == StripHtml(Get(item, "title"))
    ensures !Truthy(Get(item, "link")) ==> r.link == Str("")
    ensures Truthy(Get(item, "link")) ==> r.link == Get(item, "link")
    ensures Truthy(Get(item, "description")) ==> r.text == StripHtml(Get(item, "description"))
    ensures !Truthy(Get(item, "description")) && Truthy(Get(item, "content:encoded")) ==>
      r.text == StripHtml(Get(item, "content:encoded"))
    ensures !Truthy(Get(item, "description")) && !Truthy(Get(item, "content:encoded")) ==> r.text == ""
    ensures r.pubDate == ParseDate(Get(item, "pubDate"), dates)
    ensures PlainText(r.title) && PlainText(r.text)
  {
    StripHtmlKeepsCleanText(NO_TITLE);
    FeedItem(
      StripHtml(Or(Get(item, "title"), Str(NO_TITLE))),
      Or(Get(item, "link"), Str("")),
      ParseDate(Get(item, "pubDate"), dates),
      StripHtml(Or(Or(Get(item, "description"), Get(item, "content:encoded")), Str(""))))
  }

  /** `parseRss2(feed, limit)`. */
  function ParseRss2(doc: Node, limit: int, dates: DateCodec): (r: Feed)
    ensures 0 <= limit ==> |r.items| <= limit
    ensures !Truthy(Rss2Channel(doc)) ==> r == Feed(Str(UNKNOWN_FEED), [])
    ensures Truthy(Rss2Channel(doc)) ==> r.title == Or(Get(Rss2Channel(doc), "title"), Str(UNKNOWN_FEED))
  {
    var channel := Rss2Channel(doc);
    if !Truthy(channel) then Feed(Str(UNKNOWN_FEED), [])
    else
      var items := JsSlice(ListOf(Get(channel, "item")), 0, limit);
      Feed(Or(Get(channel, "title"), Str(UNKNOWN_FEED)), MapItems(items, item => Rss2Item(item, dates)))
  }

  /** RSS 2.0 items come out in document order, at most `limit`, a lone `<item>` counting as a list of one. */
  lemma Rss2ItemsInOrder(doc: Node, limit: int, dates: DateCodec)
    requires 0 <= limit && Truthy(Rss2Channel(doc))
    ensures BuiltInOrder(ParseRss2(doc, limit, dates).items, ListOf(Get(Rss2Channel(doc), "item")), limit,
                         item => Rss2Item(item, dates))
    ensures Get(Rss2Channel(doc), "item").Obj? ==> ListOf(Get(Rss2Channel(doc), "item")) == [Get(Rss2Channel(doc), "item")]
  {
    MapSliceInOrder(ListOf(Get(Rss2Channel(doc), "item")), limit, item => Rss2Item(item, dates));
  }

  // ---------------------------------------------------------------- Atom (RFC 4287)

  /** The predicate given to `entry.link.find`: `rel` is 'alternate' or missing. */
  predicate IsAlternate(l: Node) {
    Get(l, "@_rel") == Str("alternate") || !Truthy(Get(l, "@_rel"))
  }

  /** `links.find(IsAlternate)`, as the position of the element found. */
  function FindAlternate(links: seq<Node>): (r: Option<nat>)
    ensures r.Some? ==> r.value < |links| && IsAlternate(links[r.value])
    ensures r.Some? ==> forall j :: 0 <= j < r.value ==> !IsAlternate(links[j])
    ensures r.None? ==> forall j :: 0 <= j < |links| ==> !IsAlternate(links[j])
  {
    if links == [] then None
    else if IsAlternate(links[0]) then Some(0)
    else
      match FindAlternate(links[1..])
      case None => None
      case Some(i) => Some(i + 1)
  }

  /** The link of an Atom entry, from its `link` value (api/rss.js:90-105). */
  function AtomLink(link: Node): (r: Node)
    ensures !Truthy(link) ==> r == Str("")
    ensures link.Str? ==> r == link
    ensures link.Obj? ==> r == Or(Get(link, "@_href"), Str(""))
    ensures link == Arr([]) ==> r == Str("")
  {
    if !Truthy(link) then Str("")
    else if link.Str? then link
    else if link.Arr? then
      var links := link.elems;
      var found := FindAlternate(links);
      if found.Some? && Truthy(links[found.value]) then
        Or(Get(links[found.value], "@_href"), links[found.value])
      else if |links| > 0 && Truthy(links[0]) then
        Or(Get(links[0], "@_href"), links[0])
      else Str("")
    else if Truthy(Get(link, "@_href")) then Get(link, "@_href")
    else Str("")
  }

  /** In a list of links, the `href` of the first one whose `rel` is 'alternate' or missing wins. */
  lemma AtomLinkPicksFirstAlternate(links: seq<Node>, i: nat)
    requires i < |links| && IsAlternate(links[i])
    requires forall j :: 0 <= j < i ==> !IsAlternate(links[j])
    requires Truthy(Get(links[i], "@_href"))
    ensures AtomLink(Arr(links)) == Get(links[i], "@_href")
  {
    var found := FindAlternate(links);
    assert found == Some(i);
  }

  /** With no such link, the first link's `href` is used. */
  lemma AtomLinkFallsBackToFirst(links: seq<Node>)
    requires links != [] && forall j :: 0 <= j < |links| ==> !IsAlternate(links[j])
    requires Truthy(Get(links[0], "@_href"))
    ensures AtomLink(Arr(links)) == Get(links[0], "@_href")
  {
  }

  /** With no such link and no `@_href` on the first link, the first link object is itself the link (`entry.link[0]['@_href'] || entry.link[0]`). */
  lemma AtomLinkFirstWithoutHref(links: seq<Node>)
    requires links != [] && forall j :: 0 <= j < |links| ==> !IsAlternate(links[j])
    requires Truthy(links[0]) && !Truthy(Get(links[0], "@_href"))
    ensures AtomLink(Arr(links)) == links[0]
  {
  }

  /** The alternate link found without an `@_href` is itself the link (`alternate['@_href'] || alternate`). */
  lemma AtomLinkAlternateWithoutHref(links: seq<Node>, i: nat)
    requires i < |links| && IsAlternate(links[i]) && Truthy(links[i])
    requires forall j :: 0 <= j < i ==> !IsAlternate(links[j])
    requires !Truthy(Get(links[i], "@_href"))
    ensures AtomLink(Arr(links)) == links[i]
  {
    var found := FindAlternate(links);
    assert found == Some(i);
  }

  /**
   * The rule is "first link that is alternate or has no rel", not "alternate
   * when present": a rel-less link listed before the alternate one wins.
   */
  lemma AtomLinkRelLessBeforeAlternate(b: string, a: string)
    requires b != "" && a != ""
    ensures AtomLink(Arr([Obj(map["@_href" := Str(b)]),
                          Obj(map["@_rel" := Str("alternate"), "@_href" := Str(a)])])) == Str(b)
  {
    var first := Obj(map["@_href" := Str(b)]);
    assert IsAlternate(first);
  }

  /** A `content` or `summary` value: a string itself, otherwise its '#text' or ''. */
  function TextOf(v: Node): Node {
    if v.Str? then v else Or(Get(v, "#text"), Str(""))
  }

  /** The text of an Atom entry: `content` before `summary`. */
  function AtomText(entry: Node): (r: Node)
    ensures Truthy(Get(entry, "content")) ==> r == TextOf(Get(entry, "content"))
    ensures !Truthy(Get(entry, "content")) && Truthy(Get(entry, "summary")) ==> r == TextOf(Get(entry, "summary"))
    ensures !Truthy(Get(entry, "content")) && !Truthy(Get(entry, "summary")) ==> r == Str("")
  {
    var content := Get(entry, "content");
    var summary := Get(entry, "summary");
    if Truthy(content) then TextOf(content)
    else if Truthy(summary) then TextOf(summary)
    else Str("")
  }

  /** The title of an Atom entry: a string as it is (even ''), else its '#text', else 'No title'. */
  function AtomTitle(entry: Node): (r: Node)
    ensures Get(entry, "title").Str? ==> r == Get(entry, "title")
    ensures Get(entry, "title").Obj? ==> r == Or(Get(Get(entry, "title"), "#text"), Str(NO_TITLE))
    ensures !Get(entry, "title").Obj? && !Get(entry, "title").Str? ==> r == Str(NO_TITLE)
  {
    var title := Get(entry, "title");
    if title.Str? then title else Or(Get(title, "#text"), Str(NO_TITLE))
  }

  /** One Atom `<entry>`. */
  function AtomItem(entry: Node, dates: DateCodec): (r: FeedItem)
    ensures r.title == StripHtml(AtomTitle(entry))
    ensures Get(entry, "title") == Str("") ==> r.title == ""
    ensures Get(entry, "title") == Absent ==> r.title == NO_TITLE
    ensures r.link == AtomLink(Get(entry, "link"))
    ensures r.text == StripHtml(AtomText(entry))
    ensures Truthy(Get(entry, "updated")) ==> r.pubDate == ParseDate(Get(entry, "updated"), dates)
    ensures !Truthy(Get(entry, "updated")) ==> r.pubDate == ParseDate(Get(entry, "published"), dates)
    ensures PlainText(r.title) && PlainText(r.text)
  {
    StripHtmlKeepsCleanText(NO_TITLE);
    FeedItem(
      StripHtml(AtomTitle(entry)),
      AtomLink(Get(entry, "link")),
      ParseDate(Or(Get(entry, "updated"), Get(entry, "published")), dates),
      StripHtml(AtomText(entry)))
  }

  /** `parseAtom(feed, limit)`. */
  function ParseAtom(doc: Node, limit: int, dates: DateCodec): (r: Feed)
    ensures 0 <= limit ==> |r.items| <= limit
    ensures !Truthy(Get(doc, "feed")) ==> r == Feed(Str(UNKNOWN_FEED), [])
    ensures Truthy(Get(doc, "feed")) ==> r.title == Or(Get(Get(doc, "feed"), "title"), Str(UNKNOWN_FEED))
  {
    var atomFeed := Get(doc, "feed");
    if !Truthy(atomFeed) then Feed(Str(UNKNOWN_FEED), [])
    else
      var entries := JsSlice(ListOf(Get(atomFeed, "entry")), 0, limit);
      Feed(Or(Get(atomFeed, "title"), Str(UNKNOWN_FEED)), MapItems(entries, entry => AtomItem(entry, dates)))
  }

  lemma AtomItemsInOrder(doc: Node, limit: int, dates: DateCodec)
    requires 0 <= limit && Truthy(Get(doc, "feed"))
    ensures BuiltInOrder(ParseAtom(doc, limit, dates).items, ListOf(Get(Get(doc, "feed"), "entry")), limit,
                         entry => AtomItem(entry, dates))
  {
    MapSliceInOrder(ListOf(Get(Get(doc, "feed"), "entry")), limit, entry => AtomItem(entry, dates));
  }

  // ---------------------------------------------------------------- RSS 1.0 (RDF)

  /** One RSS 1.0 `<item>`: Dublin Core date first, and `description` as the only text. */
  function RdfItem(item: Node, dates: DateCodec): (r: FeedItem)
    ensures !Truthy(Get(item, "title")) ==> r.title == NO_TITLE
    ensures Truthy(Get(item, "title")) ==> r.title == StripHtml(Get(item, "title"))
    ensures !Truthy(Get(item, "link")) ==> r.link == Str("")
    ensures Truthy(Get(item, "link")) ==> r.link == Get(item, "link")
    ensures Truthy(Get(item, "dc:date")) ==> r.pubDate == ParseDate(Get(item, "dc:date"), dates)
    ensures !Truthy(Get(item, "dc:date")) ==> r.pubDate == ParseDate(Get(item, "pubDate"), dates)
    ensures r.text == StripHtml(Get(item, "description"))
    ensures PlainText(r.title) && PlainText(r.text)
  {
    StripHtmlKeepsCleanText(NO_TITLE);
    FeedItem(
      StripHtml(Or(Get(item, "title"), Str(NO_TITLE))),
      Or(Get(item, "link"), Str("")),
      ParseDate(Or(Get(item, "dc:date"), Get(item, "pubDate")), dates),
      StripHtml(Or(Get(item, "description"), Str(""))))
  }

  /** The RDF branch of `fetchFeed` (api/rss.js:178-193), given the `rdf:RDF` value. */
  function ParseRdf(rdf: Node, limit: int, dates: DateCodec): (r: Feed)
    ensures 0 <= limit ==> |r.items| <= limit
    ensures r.title == Or(Get(Get(rdf, "channel"), "title"), Str(UNKNOWN_FEED))
  {
    var items := JsSlice(ListOf(Get(rdf, "item")), 0, limit);
    Feed(Or(Get(Get(rdf, "channel"), "title"), Str(UNKNOWN_FEED)), MapItems(items, item => RdfItem(item, dates)))
  }

  lemma RdfItemsInOrder(rdf: Node, limit: int, dates: DateCodec)
    requires 0 <= limit
    ensures BuiltInOrder(ParseRdf(rdf, limit, dates).items, ListOf(Get(rdf, "item")), limit,
                         item => RdfItem(item, dates))
  {
    MapSliceInOrder(ListOf(Get(rdf, "item")), limit, item => RdfItem(item, dates));
  }

  // ---------------------------------------------------------------- dialect detection

  /** The dialect check of `fetchFeed`: `rss`, then `feed`, then `rdf:RDF`, else an error. */
  function ExtractFeed(doc: Node, limit: int, dates: DateCodec): (r: Result<Feed, JsError>)
    ensures r.Err? <==> !Truthy(Get(doc, "rss")) && !Truthy(Get(doc, "feed")) && !Truthy(Get(doc, "rdf:RDF"))
    ensures r.Err? ==> r.error == UnknownFormatError()
    ensures r.Ok? && 0 <= limit ==> |r.value.items| <= limit
    ensures Truthy(Get(doc, "rss")) ==> r == Ok(ParseRss2(doc, limit, dates))
    ensures !Truthy(Get(doc, "rss")) && Truthy(Get(doc, "feed")) ==> r == Ok(ParseAtom(doc, limit, dates))
    ensures !Truthy(Get(doc, "rss")) && !Truthy(Get(doc, "feed")) && Truthy(Get(doc, "rdf:RDF")) ==>
      r == Ok(ParseRdf(Get(doc, "rdf:RDF"), limit, dates))
  {
    if Truthy(Get(doc, "rss")) then Ok(ParseRss2(doc, limit, dates))
    else if Truthy(Get(doc, "feed")) then Ok(ParseAtom(doc, limit, dates))
    else if Truthy(Get(doc, "rdf:RDF")) then Ok(ParseRdf(Get(doc, "rdf:RDF"), limit, dates))
    else Err(UnknownFormatError())
  }
}
