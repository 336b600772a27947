/**
 * The fetch path of `fetchFeed` in api/rss.js: the module-level cache of
 * normalized feeds, keyed by `${feedUrl}:${limit}` and trusted for one
 * hour, and what one network round trip turns into (an HTTP error, the
 * normalized feed, or the error the extractors raise).
 *
 * The network call itself is an input: `Reply` says how it ended. A
 * round trip that throws before extraction carries the error thrown: the
 * `fetch` call rejecting (a DNS failure, or the 15-second abort firing
 * before the response headers arrive), or, after a 2xx status, reading the
 * body or parsing it as XML failing. All of these reach the handler's
 * `catch` the same way.
 */
module FeedCache {
  import opened Wrappers
  import opened JsText
  import opened XmlTree
  import opened FeedParse

  /** One hour, in milliseconds. */
  const CACHE_TTL := 60 * 60 * 1000

  /** A cached feed and the clock reading when it was stored. */
  datatype Entry = Entry(timestamp: int, data: Feed)

  /**
   * How the round trip ended: a response (status line and parsed body), or
   * the error thrown by `fetch`, by reading a 2xx body, or by the XML parser.
   */
  datatype Reply = Responded(status: int, statusText: string, doc: Node) | Rejected(error: JsError)

  /** The error thrown for a response whose status is not 2xx. */
  function HttpError(status: int, statusText: string): (e: JsError)
    ensures e.name == "Error"
    ensures StartsWith(e.message, "HTTP " + IntToString(status) + ": ")
  {
    JsError("Error", "HTTP " + IntToString(status) + ": " + statusText)
  }

  /** `response.ok`. */
  predicate IsOk(status: int) {
    200 <= status <= 299
  }

  /** What one round trip yields once the cache has missed. */
  function Outcome(reply: Reply, limit: int, dates: DateCodec): (r: Result<Feed, JsError>)
    ensures reply.Rejected? ==> r == Err(reply.error)
    ensures reply.Responded? && !IsOk(reply.status) ==> r == Err(HttpError(reply.status, reply.statusText))
    ensures reply.Responded? && IsOk(reply.status) ==> r == ExtractFeed(reply.doc, limit, dates)
    ensures r.Ok? && 0 <= limit ==> |r.value.items| <= limit
  {
    match reply
    case Rejected(e) => Err(e)
    case Responded(status, statusText, doc) =>
      if !IsOk(status) then Err(HttpError(status, statusText)) else ExtractFeed(doc, limit, dates)
  }

  // ---------------------------------------------------------------- the key

  /** `${feedUrl}:${limit}`. */
  function CacheKey(feedUrl: string, limit: int): (key: string)
    ensures |feedUrl| < |key| && key[..|feedUrl|] == feedUrl && key[|feedUrl|] == ':'
    ensures ':' !in key[|feedUrl| + 1..]
    ensures ParseInt(key[|feedUrl| + 1..]) == Some(limit)
  {
    var digits := IntToString(limit);
    KeyParts(feedUrl, digits);
    ParseIntOfIntToString(limit);
    feedUrl + ":" + digits
  }

  /** The parts of `u + ":" + d`, read back by position. */
  lemma KeyParts(u: string, d: string)
    ensures var key := u + ":" + d;
      && |key| == |u| + 1 + |d| && key[..|u|] == u && key[|u|] == ':' && key[|u| + 1..] == d
  {
    var key := u + ":" + d;
    assert key[|u| + 1..] == d;
  }

  /**
   * Distinct requests never share a cache entry: the key's last ':' ends
   * the URL, because an integer's digits contain no ':', and what follows
   * it reads back as the limit.
   */
  lemma CacheKeyInjective(url1: string, limit1: int, url2: string, limit2: int)
    requires CacheKey(url1, limit1) == CacheKey(url2, limit2)
    ensures url1 == url2 && limit1 == limit2
  {
    var key := CacheKey(url1, limit1);
    NoColonAfter(key, |url1|, |url2|);
    NoColonAfter(key, |url2|, |url1|);
    assert url1 == key[..|url1|] == url2;
  }

  /** A ':' at `n` with none after position `m` puts `n` at or before `m`. */
  lemma NoColonAfter(key: string, n: nat, m: nat)
    requires n < |key| && key[n] == ':' && m < |key| && ':' !in key[m + 1..]
    ensures n <= m
  {
  }

  // ---------------------------------------------------------------- lookups

  /** The cached feed under `key` if its entry is younger than the TTL at `now`. */
  function FreshData(entries: map<string, Entry>, key: string, now: int): (r: Option<Feed>)
    ensures r.Some? <==> key in entries && now - entries[key].timestamp < CACHE_TTL
    ensures r.Some? ==> r.value == entries[key].data
  {
    if key in entries && now - entries[key].timestamp < CACHE_TTL then Some(entries[key].data) else None
  }

  /** What `fetchFeed(feedUrl, limit)` resolves or rejects with, given the cache it starts from. */
  function FetchResult(entries: map<string, Entry>, feedUrl: string, limit: int, now: int,
                       reply: Reply, dates: DateCodec): (r: Result<Feed, JsError>)
    ensures FreshData(entries, CacheKey(feedUrl, limit), now).Some? ==>
      r == Ok(FreshData(entries, CacheKey(feedUrl, limit), now).value)
    ensures FreshData(entries, CacheKey(feedUrl, limit), now).None? ==> r == Outcome(reply, limit, dates)
  {
    match FreshData(entries, CacheKey(feedUrl, limit), now)
    case Some(data) => Ok(data)
    case None => Outcome(reply, limit, dates)
  }

  /** Storing one request's feed leaves every other request's cache answer as it was. */
  lemma StoreKeepsOtherRequests(entries: map<string, Entry>, url: string, limit: int, e: Entry,
                                otherUrl: string, otherLimit: int, now: int)
    requires url != otherUrl || limit != otherLimit
    ensures FreshData(entries[CacheKey(url, limit) := e], CacheKey(otherUrl, otherLimit), now)
         == FreshData(entries, CacheKey(otherUrl, otherLimit), now)
  {
    if CacheKey(url, limit) == CacheKey(otherUrl, otherLimit) {
      CacheKeyInjective(url, limit, otherUrl, otherLimit);
    }
  }

  /** A stored entry is served for exactly one TTL after its timestamp. */
  lemma StoredEntryLifetime(entries: map<string, Entry>, key: string, e: Entry, now: int)
    ensures FreshData(entries[key := e], key, now).Some? <==> now < e.timestamp + CACHE_TTL
    ensures FreshData(entries[key := e], key, now).Some? ==> FreshData(entries[key := e], key, now).value == e.data
  {
  }

  /**
   * After a successful miss is stored, the same request within the TTL is
   * answered from the cache: the same feed, whatever the network would do.
   */
  lemma RepeatedRequestServedFromCache(entries: map<string, Entry>, url: string, limit: int, now: int,
                                       reply: Reply, doneAt: int, later: int, laterReply: Reply, dates: DateCodec)
    requires FreshData(entries, CacheKey(url, limit), now).None?
    requires FetchResult(entries, url, limit, now, reply, dates).Ok?
    requires later < doneAt + CACHE_TTL
    ensures var first := FetchResult(entries, url, limit, now, reply, dates);
      FetchResult(entries[CacheKey(url, limit) := Entry(doneAt, first.value)], url, limit, later, laterReply, dates)
        == first
  {
  }

  // ---------------------------------------------------------------- the cache

  /** The module-level `cache` Map. */
  class Cache {
    var entries: map<string, Entry>

    constructor ()
      ensures entries == map[]
    {
      entries := map[];
    }

    /** `cache.get(key)` with the freshness test of `fetchFeed`. */
    method Get(key: string, now: int) returns (r: Option<Feed>)
      ensures r == FreshData(entries, key, now)
    {
      if key in entries && now - entries[key].timestamp < CACHE_TTL {
        r := Some(entries[key].data);
      } else {
        r := None;
      }
    }

    /** `cache.set(key, {timestamp, data})`. */
    method Put(key: string, timestamp: int, data: Feed)
      modifies this
      ensures entries == old(entries)[key := Entry(timestamp, data)]
    {
      entries := entries[key := Entry(timestamp, data)];
    }

    /**
     * `fetchFeed(feedUrl, limit)` started at `now`; a miss performs the
     * round trip described by `reply`, which completes at `doneAt`.
     * Only a successful miss writes the cache, and only its own key.
     */
    method FetchFeed(feedUrl: string, limit: int, now: int, reply: Reply, doneAt: int, dates: DateCodec)
      returns (r: Result<Feed, JsError>)
      modifies this
      ensures r == FetchResult(old(entries), feedUrl, limit, now, reply, dates)
      ensures r.Ok? && FreshData(old(entries), CacheKey(feedUrl, limit), now).None? ==>
        entries == old(entries)[CacheKey(feedUrl, limit) := Entry(doneAt, r.value)]
      ensures r.Err? || FreshData(old(entries), CacheKey(feedUrl, limit), now).Some? ==>
        entries == old(entries)
    {
      var key := CacheKey(feedUrl, limit);
      var cached := Get(key, now);
      if cached.Some? {
        return Ok(cached.value);
      }
      r := Outcome(reply, limit, dates);
      if r.Ok? {
        Put(key, doneAt, r.value);
      }
    }
  }
}
