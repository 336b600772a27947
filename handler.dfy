/**
 * The serverless handler exported by api/rss.js: the method check, the
 * validation of `feedUrl`, the clamp of `limit`, and the mapping of a
 * fetch error to a status code and message. `Route` is everything decided
 * before the fetch, `Complete` everything after it; `Serve` runs both
 * around the cache.
 *
 * Whether `new URL(feedUrl)` accepts a string is the runtime's business
 * and enters as the parameter `isValidUrl`.
 */
module RssHandler {
  import opened Wrappers
  import opened JsText
  import opened XmlTree
  import opened FeedParse
  import opened FeedCache

  /** An incoming request: its method and its query parameters. */
  datatype Request = Request(httpMethod: string, query: map<string, string>)

  /** The JSON body of a response, if any. */
  datatype Body = NoBody | FeedJson(feed: Feed) | ErrorJson(error: string)

  datatype Response = Response(status: int, headers: seq<(string, string)>, body: Body)

  /** Either a response decided before any fetch, or the fetch to perform. */
  datatype Decision = Respond(response: Response) | Fetch(feedUrl: string, limit: int)

  /** Set on every response. */
  const CORS_HEADERS: seq<(string, string)> := [
    ("Access-Control-Allow-Origin", "*"),
    ("Access-Control-Allow-Methods", "GET, OPTIONS"),
    ("Access-Control-Allow-Headers", "Content-Type")
  ]

  /** Added to successful feed responses only. */
  const CACHE_CONTROL: (string, string) := ("Cache-Control", "public, max-age=300, s-maxage=600")

  const DEFAULT_LIMIT := 5
  const MAX_LIMIT := 20

  /** The message of the `DOMException` an aborted `fetch` rejects with. */
  const ABORT_MESSAGE := "This operation was aborted"

  function ErrorReply(status: int, message: string): Response {
    Response(status, CORS_HEADERS, ErrorJson(message))
  }

  // ---------------------------------------------------------------- before the fetch

  /** `Math.min(Math.max(parseInt(limit, 10) || 5, 1), 20)`. */
  function ClampLimit(limit: string): (n: int)
    ensures 1 <= n <= MAX_LIMIT
    ensures ParseInt(limit).None? || ParseInt(limit) == Some(0) ==> n == DEFAULT_LIMIT
    ensures ParseInt(limit).Some? && ParseInt(limit).value < 0 ==> n == 1
    ensures ParseInt(limit).Some? && ParseInt(limit).value > MAX_LIMIT ==> n == MAX_LIMIT
    ensures ParseInt(limit).Some? && 1 <= ParseInt(limit).value <= MAX_LIMIT ==> n == ParseInt(limit).value
  {
    var parsed := match ParseInt(limit) case Some(v) => v case None => 0;
    var requested := if parsed == 0 then DEFAULT_LIMIT else parsed;
    Min(Max(requested, 1), MAX_LIMIT)
  }

  /** A limit in range, written as the client writes it, is taken as it is. */
  lemma ClampLimitKeepsInRange(n: int)
    requires 1 <= n <= MAX_LIMIT
    ensures ClampLimit(IntToString(n)) == n
  {
    ParseIntOfIntToString(n);
  }

  /** The dashboard asks for 50 items (public/app.js:9, :167) and is given 20. */
  lemma DashboardLimitIsClamped()
    ensures ClampLimit("50") == MAX_LIMIT
  {
    ParseIntOfIntToString(50);
    assert NatToString(50) == NatToString(5) + [DigitChar(0)];
    assert IntToString(50) == "50";
  }

  /** `parseInt` reads only the leading digits, after an optional sign and leading zeros: '+07' and '7abc' both ask for 7. */
  lemma ClampLimitReadsLeadingDigits()
    ensures ClampLimit("+07") == 7 && ClampLimit("7abc") == 7
  {
    SignedZeroPaddedSeven();
    SevenWithTrailingText();
  }

  lemma SignedZeroPaddedSeven()
    ensures ParseInt("+07") == Some(7)
  {
    var d := "07";
    assert d[..2] == d && DigitsValue(d) == 7;
    LeadingDigitsUpTo(d, 2);
    ParseIntOfPlusDigits(d, 7);
    assert "+" + d == "+07";
  }

  lemma SevenWithTrailingText()
    ensures ParseInt("7abc") == Some(7)
  {
    var s := "7abc";
    assert s[..1] == "7" && DigitsValue("7") == 7;
    LeadingDigitsUpTo(s, 1);
    ParseIntOfDigits(s, 7);
  }

  /** The default `limit = '5'` reads as 5. */
  lemma DefaultLimitParses()
    ensures ParseInt("5") == Some(DEFAULT_LIMIT)
  {
    assert DigitsValue("5") == 5;
    ParseIntOfDigits("5", 5);
  }

  /** The handler up to the call of `fetchFeed`. */
  function Route(req: Request, isValidUrl: string -> bool): (r: Decision)
    ensures req.httpMethod == "OPTIONS" ==> r == Respond(Response(200, CORS_HEADERS, NoBody))
    ensures req.httpMethod != "OPTIONS" && req.httpMethod != "GET" ==>
      r == Respond(ErrorReply(405, "Method not allowed"))
    ensures req.httpMethod == "GET" && ("feedUrl" !in req.query || req.query["feedUrl"] == "") ==>
      r == Respond(ErrorReply(400, "Missing feedUrl parameter"))
    ensures req.httpMethod == "GET" && "feedUrl" in req.query && req.query["feedUrl"] != "" &&
            !isValidUrl(req.query["feedUrl"]) ==>
      r == Respond(ErrorReply(400, "Invalid feedUrl format"))
    ensures r.Fetch? <==> req.httpMethod == "GET" && "feedUrl" in req.query && req.query["feedUrl"] != "" &&
                          isValidUrl(req.query["feedUrl"])
    ensures r.Fetch? ==> r.feedUrl == req.query["feedUrl"] && 1 <= r.limit <= MAX_LIMIT
    ensures r.Fetch? && "limit" !in req.query ==> r.limit == DEFAULT_LIMIT
    ensures r.Fetch? && "limit" in req.query ==> r.limit == ClampLimit(req.query["limit"])
  {
    if req.httpMethod == "OPTIONS" then Respond(Response(200, CORS_HEADERS, NoBody))
    else if req.httpMethod != "GET" then Respond(ErrorReply(405, "Method not allowed"))
    else
      var feedUrl := if "feedUrl" in req.query then req.query["feedUrl"] else "";
      if feedUrl == "" then Respond(ErrorReply(400, "Missing feedUrl parameter"))
      else if !isValidUrl(feedUrl) then Respond(ErrorReply(400, "Invalid feedUrl format"))
      else
        var limit := if "limit" in req.query then req.query["limit"] else "5";
        DefaultLimitParses();
        Fetch(feedUrl, ClampLimit(limit))
  }

  // ---------------------------------------------------------------- after the fetch

  /** The status for a fetch error, checked in the handler's order. */
  function ErrorStatus(e: JsError): (status: int)
    ensures Contains(e.message, "HTTP 404") ==> status == 404
    ensures !Contains(e.message, "HTTP 404") && (Contains(e.message, "timeout") || e.name == "AbortError") ==>
      status == 504
    ensures !Contains(e.message, "HTTP 404") && !Contains(e.message, "timeout") && e.name != "AbortError" ==>
      (status == 422 <==> Contains(e.message, UNKNOWN_FORMAT))
    ensures status == 500 <==> !Contains(e.message, "HTTP 404") && !Contains(e.message, "timeout") &&
                               e.name != "AbortError" && !Contains(e.message, UNKNOWN_FORMAT)
  {
    if Contains(e.message, "HTTP 404") then 404
    else if Contains(e.message, "timeout") || e.name == "AbortError" then 504
    else if Contains(e.message, UNKNOWN_FORMAT) then 422
    else 500
  }

  /** The message the client sees for each error status. */
  function ErrorMessage(status: int): (m: string)
    ensures m == "Feed not found" <==> status == 404
    ensures m == "Feed request timed out" <==> status == 504
    ensures m == "Unable to parse feed format" <==> status == 422
    ensures m == "Failed to fetch feed" <==> status != 404 && status != 504 && status != 422
  {
    if status == 404 then "Feed not found"
    else if status == 504 then "Feed request timed out"
    else if status == 422 then "Unable to parse feed format"
    else "Failed to fetch feed"
  }

  /** The handler after `fetchFeed` has resolved or rejected. */
  function Complete(outcome: Result<Feed, JsError>): (r: Response)
    ensures outcome.Ok? ==> r == Response(200, CORS_HEADERS + [CACHE_CONTROL], FeedJson(outcome.value))
    ensures outcome.Err? ==> r == ErrorReply(ErrorStatus(outcome.error), ErrorMessage(ErrorStatus(outcome.error)))
  {
    match outcome
    case Ok(feed) => Response(200, CORS_HEADERS + [CACHE_CONTROL], FeedJson(feed))
    case Err(e) => var status := ErrorStatus(e); ErrorReply(status, ErrorMessage(status))
  }

  /** Every response carries the CORS headers; only a served feed carries Cache-Control. */
  lemma CacheControlOnlyOnSuccess(outcome: Result<Feed, JsError>)
    ensures CORS_HEADERS <= Complete(outcome).headers
    ensures CACHE_CONTROL in Complete(outcome).headers <==> outcome.Ok?
  {
    assert CACHE_CONTROL !in CORS_HEADERS;
  }

  // ---------------------------------------------------------------- substring facts

  /** A pattern cannot straddle into a prefix that lacks its first character. */
  lemma NotContainedAfter(a: string, b: string, p: string)
    requires p != [] && p[0] !in a && !Contains(b, p)
    ensures !Contains(a + b, p)
  {
    var s := a + b;
    forall i: nat | i <= |s|
      ensures !OccursAt(s, p, i)
    {
      if i < |a| {
        assert s[i] == a[i];
        assert s[i] in a;
        if i + |p| <= |s| {
          assert s[i..i + |p|][0] == s[i];
        }
      } else {
        assert !OccursAt(b, p, i - |a|);
        if i + |p| <= |s| {
          assert s[i..i + |p|] == b[i - |a|..i - |a| + |p|];
        }
      }
    }
  }

  /** Same, for a prefix of one character at which the pattern does not start. */
  lemma NotContainedAfterChar(c: char, b: string, p: string)
    requires !Contains(b, p) && !StartsWith([c] + b, p)
    ensures !Contains([c] + b, p)
  {
    var s := [c] + b;
    forall i: nat | i <= |s|
      ensures !OccursAt(s, p, i)
    {
      if i > 0 {
        assert !OccursAt(b, p, i - 1);
        if i + |p| <= |s| {
          assert s[i..i + |p|] == b[i - 1..i - 1 + |p|];
        }
      } else if |p| <= |s| {
        assert s[..|p|] == s[0..|p|];
      }
    }
  }

  lemma ThreeDigits(n: int)
    requires 100 <= n <= 999
    ensures |IntToString(n)| == 3
  {
    var tens := n / 10;
    assert 10 <= tens <= 99;
    var hundreds := tens / 10;
    assert 1 <= hundreds <= 9;
    assert |NatToString(hundreds)| == 1;
    assert |NatToString(tens)| == 2;
    assert |NatToString(n)| == 3;
  }

  lemma FourOhFour()
    ensures IntToString(404) == "404"
  {
    assert NatToString(404) == NatToString(40) + [DigitChar(4)];
    assert NatToString(40) == NatToString(4) + [DigitChar(0)];
  }

  /** A 404 response becomes 404 'Feed not found', whatever its status text. */
  lemma NotFoundIs404(statusText: string)
    ensures Complete(Err(HttpError(404, statusText))) == ErrorReply(404, "Feed not found")
  {
    FourOhFour();
    var m := HttpError(404, statusText).message;
    assert OccursAt(m, "HTTP 404", 0);
  }

  /** The abort of the 15-second timer becomes 504 'Feed request timed out'. */
  lemma AbortIs504()
    ensures Complete(Err(JsError("AbortError", ABORT_MESSAGE))) == ErrorReply(504, "Feed request timed out")
  {
    MissingFirstChar(ABORT_MESSAGE, "HTTP 404");
  }

  /** The extractors' message names neither a 404 nor a timeout, and names itself. */
  lemma UnknownFormatMessageMarks()
    ensures !Contains(UNKNOWN_FORMAT, "HTTP 404") && !Contains(UNKNOWN_FORMAT, "timeout")
    ensures Contains(UNKNOWN_FORMAT, UNKNOWN_FORMAT)
  {
    var m := UNKNOWN_FORMAT;
    MissingFirstChar(m, "HTTP 404");
    assert m == m[..13] + m[13..];
    NotContainedAfter(m[..13], m[13..], "timeout");
    assert OccursAt(m, UNKNOWN_FORMAT, 0);
  }

  /** A document of no known dialect becomes 422 'Unable to parse feed format'. */
  lemma UnknownFormatIs422()
    ensures Complete(Err(UnknownFormatError())) == ErrorReply(422, "Unable to parse feed format")
  {
    UnknownFormatMessageMarks();
    assert ErrorStatus(UnknownFormatError()) == 422;
  }

  /** The fixed part of an HTTP error message for a three-digit status other than 404. */
  lemma HttpErrorHead(status: int)
    requires 100 <= status <= 999 && status != 404
    ensures var head := "HTTP " + IntToString(status) + ": ";
      && |head| == 10 && head[5..8] != "404"
      && 't' !in head && 'U' !in head && 'H' !in head[1..]
  {
    var digits := IntToString(status);
    var head := "HTTP " + digits + ": ";
    ThreeDigits(status);
    assert forall k :: 0 <= k < |digits| ==> IsDigit(digits[k]);
    assert forall k :: 0 <= k < |head| ==> head[k] != 't' && head[k] != 'U';
    assert forall k :: 1 <= k < |head| ==> head[k] != 'H';
    assert forall k :: 0 <= k < |head| - 1 ==> head[1..][k] == head[k + 1];
    assert head[5..8] == digits;
    FourOhFour();
    IntToStringInjectiveForm(status, 404);
  }

  /** "HTTP 404" cannot start inside a head whose only 'H' is its first character and whose code is not 404. */
  lemma NoNotFoundAfterHead(head: string, text: string)
    requires |head| >= 8 && head[5..8] != "404" && 'H' !in head[1..]
    requires !Contains(text, "HTTP 404")
    ensures !Contains(head + text, "HTTP 404")
  {
    var m := head + text;
    var tail := head[1..] + text;
    assert m == [head[0]] + tail;
    NotContainedAfter(head[1..], text, "HTTP 404");
    assert m[..8][5..8] == head[5..8];
    assert "HTTP 404"[5..8] == "404";
    NotContainedAfterChar(head[0], tail, "HTTP 404");
  }

  /** The message of such an HTTP error names none of the other errors. */
  lemma HttpErrorMessageUnmarked(status: int, statusText: string)
    requires 100 <= status <= 999 && status != 404
    requires !Contains(statusText, "HTTP 404") && !Contains(statusText, "timeout")
    requires !Contains(statusText, UNKNOWN_FORMAT)
    ensures var m := HttpError(status, statusText).message;
      !Contains(m, "HTTP 404") && !Contains(m, "timeout") && !Contains(m, UNKNOWN_FORMAT)
  {
    var head := "HTTP " + IntToString(status) + ": ";
    HttpErrorHead(status);
    NotContainedAfter(head, statusText, "timeout");
    NotContainedAfter(head, statusText, UNKNOWN_FORMAT);
    NoNotFoundAfterHead(head, statusText);
    assert HttpError(status, statusText).message == head + statusText;
  }

  /**
   * Any other HTTP failure becomes 500 'Failed to fetch feed', provided its
   * status text does not itself name one of the other errors.
   */
  lemma OtherHttpErrorIs500(status: int, statusText: string)
    requires 100 <= status <= 999 && status != 404
    requires !Contains(statusText, "HTTP 404") && !Contains(statusText, "timeout")
    requires !Contains(statusText, UNKNOWN_FORMAT)
    ensures Complete(Err(HttpError(status, statusText))) == ErrorReply(500, "Failed to fetch feed")
  {
    var e := HttpError(status, statusText);
    HttpErrorMessageUnmarked(status, statusText);
    assert e.name != "AbortError";
    assert ErrorStatus(e) == 500;
  }

  lemma IntToStringInjectiveForm(a: int, b: int)
    ensures IntToString(a) == IntToString(b) ==> a == b
  {
    if IntToString(a) == IntToString(b) {
      IntToStringInjective(a, b);
    }
  }

  // ---------------------------------------------------------------- the whole request

  /** What the handler answers, given the cache it starts from and how the fetch ends. */
  function Handle(entries: map<string, Entry>, req: Request, isValidUrl: string -> bool, now: int,
                  reply: Reply, dates: DateCodec): (r: Response)
    ensures Route(req, isValidUrl).Respond? ==> r == Route(req, isValidUrl).response
    ensures Route(req, isValidUrl).Fetch? ==>
      r == Complete(FetchResult(entries, Route(req, isValidUrl).feedUrl, Route(req, isValidUrl).limit, now, reply, dates))
  {
    match Route(req, isValidUrl)
    case Respond(response) => response
    case Fetch(feedUrl, limit) => Complete(FetchResult(entries, feedUrl, limit, now, reply, dates))
  }

  /** A request that is answered before the fetch never reaches the network or the cache. */
  lemma RejectedRequestIgnoresFetch(entries: map<string, Entry>, req: Request, isValidUrl: string -> bool,
                                    now: int, reply1: Reply, reply2: Reply, dates: DateCodec)
    requires !Route(req, isValidUrl).Fetch?
    ensures Handle(entries, req, isValidUrl, now, reply1, dates) == Handle(map[], req, isValidUrl, now, reply2, dates)
  {
  }

  /** The handler, run against the shared cache. */
  method Serve(cache: Cache, req: Request, isValidUrl: string -> bool, now: int, reply: Reply, doneAt: int,
               dates: DateCodec) returns (res: Response)
    modifies cache
    ensures res == Handle(old(cache.entries), req, isValidUrl, now, reply, dates)
    ensures !Route(req, isValidUrl).Fetch? ==> cache.entries == old(cache.entries)
    ensures Route(req, isValidUrl).Fetch? ==>
      var key := CacheKey(Route(req, isValidUrl).feedUrl, Route(req, isValidUrl).limit);
      var result := FetchResult(old(cache.entries), Route(req, isValidUrl).feedUrl, Route(req, isValidUrl).limit,
                                now, reply, dates);
      if result.Ok? && FreshData(old(cache.entries), key, now).None?
      then cache.entries == old(cache.entries)[key := Entry(doneAt, result.value)]
      else cache.entries == old(cache.entries)
  {
    var route := Route(req, isValidUrl);
    match route
    case Respond(response) =>
      res := response;
    case Fetch(feedUrl, limit) =>
      var outcome := cache.FetchFeed(feedUrl, limit, now, reply, doneAt, dates);
      res := Complete(outcome);
  }
}
