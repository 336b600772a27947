/**
 * The display helpers of public/app.js: `truncateText`,
 * `getRecencyClass`, `formatRelativeTime` and `getSiteUrl`.
 *
 * `new Date(s).getTime()` is the parameter `parse` (`None` for NaN), the
 * clock reading `Date.now()` is the parameter `now`, and
 * `toLocaleDateString` is the parameter `localeDate`; all times are
 * milliseconds.
 */
module DashboardText {
  import opened Wrappers
  import opened JsText

  const MS_PER_DAY := 1000 * 60 * 60 * 24
  const MS_PER_MINUTE := 60 * 1000
  const MS_PER_HOUR := 60 * MS_PER_MINUTE

  // ---------------------------------------------------------------- truncateText

  /** The number of words a subtitle keeps when no count is given. */
  const DEFAULT_MAX_WORDS := 10

  /** `truncateText(text, maxWords)`. */
  function TruncateText(text: string, maxWords: int): (r: string)
    ensures text == "" ==> r == ""
    ensures |SplitWs(Trim(text))| <= maxWords ==> r == text
    ensures text != "" && |SplitWs(Trim(text))| > maxWords >= 0 ==>
      r == Join(SplitWs(Trim(text))[..maxWords], " ") + "..."
  {
    if text == "" then text
    else
      var words := SplitWs(Trim(text));
      if |words| <= maxWords then text else Join(JsSlice(words, 0, maxWords), " ") + "..."
  }

  /** A truncated text is its first `maxWords` words, single-spaced, then '...'. */
  lemma TruncatedKeepsLeadingWords(text: string, maxWords: int)
    requires 1 <= maxWords < |SplitWs(Trim(text))|
    ensures var r := TruncateText(text, maxWords);
      |r| >= 3 && r[|r| - 3..] == "..." && SplitWs(r[..|r| - 3]) == SplitWs(Trim(text))[..maxWords]
  {
    var t := Trim(text);
    assert t != "" by {
      assert SplitWs("") == [""];
    }
    assert text != "";
    SplitTrimmedIsWords(t);
    var kept := SplitWs(t)[..maxWords];
    SplitJoin(kept);
    var r := TruncateText(text, maxWords);
    assert r == Join(kept, " ") + "...";
    assert r[..|r| - 3] == Join(kept, " ");
  }

  /**
   * The subtitles of cards, the timeline and the modal call `truncateText`
   * with its default: they show at most ten words, and '...' marks a cut.
   */
  lemma DisplayedSubtitle(text: string)
    ensures |SplitWs(Trim(text))| <= DEFAULT_MAX_WORDS ==> TruncateText(text, DEFAULT_MAX_WORDS) == text
    ensures |SplitWs(Trim(text))| > DEFAULT_MAX_WORDS ==>
      var r := TruncateText(text, DEFAULT_MAX_WORDS);
      |r| >= 3 && r[|r| - 3..] == "..." && |SplitWs(r[..|r| - 3])| == DEFAULT_MAX_WORDS
  {
    if |SplitWs(Trim(text))| > DEFAULT_MAX_WORDS {
      TruncatedKeepsLeadingWords(text, DEFAULT_MAX_WORDS);
    }
  }

  // ---------------------------------------------------------------- getRecencyClass

  const RECENCY_TODAY := "recency-today"
  const RECENCY_WEEK := "recency-week"
  const RECENCY_MONTH := "recency-month"
  const RECENCY_OLD := "recency-old"

  /**
   * `getRecencyClass(dateStr)`: whole days of age, rounded down, give the
   * class; an age in the future rounds to a negative day count and so is
   * 'recency-week'.
   */
  function GetRecencyClass(dateStr: string, parse: string -> Option<int>, now: int): (r: string)
    ensures dateStr == "" || parse(dateStr).None? ==> r == RECENCY_OLD
    ensures dateStr != "" && parse(dateStr).Some? ==>
      var age := now - parse(dateStr).value;
      && (r == RECENCY_TODAY <==> 0 <= age < MS_PER_DAY)
      && (r == RECENCY_WEEK <==> age < 0 || MS_PER_DAY <= age < 8 * MS_PER_DAY)
      && (r == RECENCY_MONTH <==> 8 * MS_PER_DAY <= age < 31 * MS_PER_DAY)
      && (r == RECENCY_OLD <==> 31 * MS_PER_DAY <= age)
  {
    if dateStr == "" then RECENCY_OLD
    else
      match parse(dateStr)
      case None => RECENCY_OLD
      case Some(t) =>
        var diffDays := (now - t) / MS_PER_DAY;
        if diffDays == 0 then RECENCY_TODAY
        else if diffDays <= 7 then RECENCY_WEEK
        else if diffDays <= 30 then RECENCY_MONTH
        else RECENCY_OLD
  }

  // ---------------------------------------------------------------- formatRelativeTime

  /** Rounding down twice is rounding down once, for each unit step of `formatRelativeTime`. */
  lemma UnitSteps(ms: int)
    ensures (ms / 1000) / 60 == ms / MS_PER_MINUTE
    ensures (ms / MS_PER_MINUTE) / 60 == ms / MS_PER_HOUR
    ensures (ms / MS_PER_HOUR) / 24 == ms / MS_PER_DAY
    ensures (ms / MS_PER_DAY) / 7 == ms / (7 * MS_PER_DAY)
  {
    var secs := ms / 1000;
    assert ms == 1000 * secs + ms % 1000;
    assert secs == 60 * (secs / 60) + secs % 60;
    var mins := ms / MS_PER_MINUTE;
    assert ms == MS_PER_MINUTE * mins + ms % MS_PER_MINUTE;
    assert mins == 60 * (mins / 60) + mins % 60;
    var hours := ms / MS_PER_HOUR;
    assert ms == MS_PER_HOUR * hours + ms % MS_PER_HOUR;
    assert hours == 24 * (hours / 24) + hours % 24;
    var days := ms / MS_PER_DAY;
    assert ms == MS_PER_DAY * days + ms % MS_PER_DAY;
    assert days == 7 * (days / 7) + days % 7;
  }

  /** `formatRelativeTime(dateStr)`; `localeDate` is `toLocaleDateString`. */
  function FormatRelativeTime(dateStr: string, parse: string -> Option<int>, now: int,
                              localeDate: int -> string): (r: string)
    ensures dateStr == "" ==> r == ""
    ensures dateStr != "" && parse(dateStr).None? ==> r == dateStr
    ensures dateStr != "" && parse(dateStr).Some? ==>
      var age := now - parse(dateStr).value;
      && (age < MS_PER_MINUTE ==> r == "just now")
      && (MS_PER_MINUTE <= age < MS_PER_HOUR ==> r == IntToString(age / MS_PER_MINUTE) + "m ago")
      && (MS_PER_HOUR <= age < MS_PER_DAY ==> r == IntToString(age / MS_PER_HOUR) + "h ago")
      && (MS_PER_DAY <= age < 7 * MS_PER_DAY ==> r == IntToString(age / MS_PER_DAY) + "d ago")
      && (7 * MS_PER_DAY <= age < 28 * MS_PER_DAY ==> r == IntToString(age / (7 * MS_PER_DAY)) + "w ago")
      && (28 * MS_PER_DAY <= age ==> r == localeDate(parse(dateStr).value))
  {
    if dateStr == "" then ""
    else
      match parse(dateStr)
      case None => dateStr
      case Some(t) =>
        var diffMs := now - t;
        var diffSecs := diffMs / 1000;
        var diffMins := diffSecs / 60;
        var diffHours := diffMins / 60;
        var diffDays := diffHours / 24;
        var diffWeeks := diffDays / 7;
        UnitSteps(diffMs);
        if diffSecs < 60 then "just now"
        else if diffMins < 60 then IntToString(diffMins) + "m ago"
        else if diffHours < 24 then IntToString(diffHours) + "h ago"
        else if diffDays < 7 then IntToString(diffDays) + "d ago"
        else if diffWeeks < 4 then IntToString(diffWeeks) + "w ago"
        else localeDate(t)
  }

  // ---------------------------------------------------------------- getSiteUrl

  const CHANNEL_KEY := "channel_id="
  const YOUTUBE_CHANNEL := "https://www.youtube.com/channel/"
  const REDDIT_SUBREDDIT := "https://www.reddit.com/r/"
  const TWITCH := "https://www.twitch.tv/"

  /** `/channel_id=([^&]+)/` matches at `i`: the key, then at least one character other than '&'. */
  predicate ChannelMatchAt(s: string, i: nat) {
    OccursAt(s, CHANNEL_KEY, i) && i + |CHANNEL_KEY| < |s| && s[i + |CHANNEL_KEY|] != '&'
  }

  /** The leftmost match at or after `from`. */
  function FirstChannelMatch(s: string, from: nat): (r: Option<nat>)
    requires from <= |s|
    ensures r.Some? ==> from <= r.value < |s| && ChannelMatchAt(s, r.value)
    ensures r.Some? ==> forall j :: from <= j < r.value ==> !ChannelMatchAt(s, j)
    ensures r.None? ==> forall j :: from <= j <= |s| ==> !ChannelMatchAt(s, j)
    decreases |s| - from
  {
    if ChannelMatchAt(s, from) then Some(from)
    else if from == |s| then None
    else FirstChannelMatch(s, from + 1)
  }

  /** The end of the run of characters other than '&' that starts at `from`. */
  function AmpersandFrom(s: string, from: nat): (i: nat)
    requires from <= |s|
    ensures from <= i <= |s|
    ensures forall k :: from <= k < i ==> s[k] != '&'
    ensures i < |s| ==> s[i] == '&'
    decreases |s| - from
  {
    if from == |s| || s[from] == '&' then from else AmpersandFrom(s, from + 1)
  }

  /**
   * The first capture group of `feedUrl.match(/channel_id=([^&]+)/)`: present
   * exactly when there is a match, and then the whole run of characters other
   * than '&' that follows the leftmost match's key.
   */
  function ChannelId(feedUrl: string): (r: Option<string>)
    ensures r.Some? <==> FirstChannelMatch(feedUrl, 0).Some?
    ensures r.Some? ==> r.value != "" && '&' !in r.value
    ensures r.Some? ==>
      var start := FirstChannelMatch(feedUrl, 0).value + |CHANNEL_KEY|;
      var end := start + |r.value|;
      && end <= |feedUrl| && feedUrl[start..end] == r.value
      && (end == |feedUrl| || feedUrl[end] == '&')
  {
    match FirstChannelMatch(feedUrl, 0)
    case None => None
    case Some(i) =>
      var start := i + |CHANNEL_KEY|;
      var id := feedUrl[start..AmpersandFrom(feedUrl, start)];
      assert forall k :: 0 <= k < |id| ==> id[k] != '&';
      Some(id)
  }

  /** `name.replace(/^r\//i, '')`. */
  function SubredditName(name: string): (r: string)
    ensures |name| >= 2 && (name[0] == 'r' || name[0] == 'R') && name[1] == '/' ==> r == name[2..]
    ensures !(|name| >= 2 && (name[0] == 'r' || name[0] == 'R') && name[1] == '/') ==> r == name
  {
    if |name| >= 2 && (name[0] == 'r' || name[0] == 'R') && name[1] == '/' then name[2..] else name
  }

  /** `getSiteUrl(name, category, feedUrl)`. */
  function GetSiteUrl(name: string, category: string, feedUrl: string): (r: string)
    ensures category == "youtube" && ChannelId(feedUrl).Some? ==> r == YOUTUBE_CHANNEL + ChannelId(feedUrl).value
    ensures category == "youtube" && ChannelId(feedUrl).None? ==> r == "#"
    ensures category == "subreddits" ==> r == REDDIT_SUBREDDIT + SubredditName(name)
    ensures category == "twitch" ==> r == TWITCH + name
    ensures category == "blogs" || category == "security" ==> r == (if feedUrl == "" then "#" else feedUrl)
    ensures category !in {"youtube", "subreddits", "twitch", "blogs", "security"} ==> r == "#"
  {
    if category == "youtube" then
      match ChannelId(feedUrl)
      case Some(id) => YOUTUBE_CHANNEL + id
      case None => "#"
    else if category == "subreddits" then REDDIT_SUBREDDIT + SubredditName(name)
    else if category == "twitch" then TWITCH + name
    else if category == "blogs" || category == "security" then (if feedUrl == "" then "#" else feedUrl)
    else "#"
  }

  /** Every match has the key's '_' seven characters in. */
  lemma ChannelMatchUnderscore(s: string, j: nat)
    requires j + 7 < |s|
    ensures ChannelMatchAt(s, j) ==> s[j + 7] == '_'
  {
    if ChannelMatchAt(s, j) {
      assert s[j..j + |CHANNEL_KEY|][7] == s[j + 7];
    }
  }

  /** A match that no earlier position has is the leftmost one. */
  lemma FirstChannelMatchIs(s: string, n: nat)
    requires n < |s| && ChannelMatchAt(s, n)
    requires forall j :: 0 <= j < n ==> !ChannelMatchAt(s, j)
    ensures FirstChannelMatch(s, 0) == Some(n)
  {
  }

  /** No match starts before the key when no '_' comes before it. */
  lemma NoChannelMatchBefore(s: string, n: nat)
    requires n + |CHANNEL_KEY| <= |s| && s[n..n + |CHANNEL_KEY|] == CHANNEL_KEY
    requires forall k :: 0 <= k < n ==> s[k] != '_'
    ensures forall j :: 0 <= j < n ==> !ChannelMatchAt(s, j)
  {
    forall j | 0 <= j < n
      ensures !ChannelMatchAt(s, j)
    {
      if n <= j + 7 {
        assert s[j + 7] == s[n..n + |CHANNEL_KEY|][j + 7 - n];
      }
      ChannelMatchUnderscore(s, j);
    }
  }

  /** The key at `n`, followed by a character other than '&' and preceded by no '_', is the leftmost match. */
  lemma ChannelKeyFoundAt(s: string, n: nat)
    requires n + |CHANNEL_KEY| < |s| && s[n..n + |CHANNEL_KEY|] == CHANNEL_KEY && s[n + |CHANNEL_KEY|] != '&'
    requires forall k :: 0 <= k < n ==> s[k] != '_'
    ensures FirstChannelMatch(s, 0) == Some(n)
  {
    assert ChannelMatchAt(s, n);
    NoChannelMatchBefore(s, n);
    FirstChannelMatchIs(s, n);
  }

  /** When the leftmost match's key is followed by the rest of the URL, free of '&', that rest is the id. */
  lemma ChannelIdIsRest(s: string, n: nat)
    requires FirstChannelMatch(s, 0) == Some(n)
    requires '&' !in s[n + |CHANNEL_KEY|..]
    ensures ChannelId(s) == Some(s[n + |CHANNEL_KEY|..])
  {
    var start := n + |CHANNEL_KEY|;
    var end := AmpersandFrom(s, start);
    assert s[start..end] == s[start..];
  }

  /** The channel id is read back from a feed URL built around it. */
  lemma ChannelIdOfFeedUrl(base: string, id: string)
    requires '_' !in base && id != "" && '&' !in id
    ensures ChannelId(base + CHANNEL_KEY + id) == Some(id)
  {
    var prefix := base + CHANNEL_KEY;
    var s := prefix + id;
    var n := |base|;
    var start := n + |CHANNEL_KEY|;
    assert |prefix| == start;
    assert prefix[n..] == CHANNEL_KEY;
    assert s[n..start] == prefix[n..start];
    assert s[start] == id[0] && id[0] in id;
    forall k | 0 <= k < n
      ensures s[k] != '_'
    {
      assert s[k] == base[k];
      assert base[k] in base;
    }
    ChannelKeyFoundAt(s, n);
    assert s[start..] == id;
    ChannelIdIsRest(s, n);
  }

  /**
   * A channel feed URL gives back its channel page: for a base without '_'
   * (so the key can only start where it was put) and an id without '&'.
   */
  lemma YouTubeChannelRoundTrip(name: string, base: string, id: string)
    requires '_' !in base && id != "" && '&' !in id
    ensures GetSiteUrl(name, "youtube", base + CHANNEL_KEY + id) == YOUTUBE_CHANNEL + id
  {
    ChannelIdOfFeedUrl(base, id);
  }

  /** A subreddit's page drops one leading 'r/' or 'R/' from its name. */
  lemma SubredditPage(sub: string)
    ensures GetSiteUrl("r/" + sub, "subreddits", "") == REDDIT_SUBREDDIT + sub
    ensures GetSiteUrl("R/" + sub, "subreddits", "") == REDDIT_SUBREDDIT + sub
  {
    assert ("r/" + sub)[2..] == sub;
    assert ("R/" + sub)[2..] == sub;
  }
}
