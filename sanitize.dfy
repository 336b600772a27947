/**
 * `stripHtml` of api/rss.js: falsy input gives '', anything else goes
 * through `sanitize-html` with no allowed tags and a text filter that turns
 * every run of white space into one space, and the result is trimmed.
 *
 * `SanitizeHtml` stands in for the library: it drops everything from a
 * '<' to the next '>' and collapses white space inside each run of text
 * between tags. It does not write '&' and '>' back as `&amp;` and `&gt;`
 * the way the library does, so only the facts stated in `StripHtml`'s
 * contract, and `StripHtmlKeepsCleanText` for text free of those two
 * characters, are claimed of it.
 */
module Sanitize {
  import opened JsText
  import opened XmlTree

  /** No markup opener and no white space other than the plain space. */
  predicate PlainText(s: string) {
    forall k :: 0 <= k < |s| ==> s[k] != '<' && (IsSpace(s[k]) ==> s[k] == ' ')
  }

  /**
   * Scans `s`; `inTag` is true inside a tag, `inRun` is true right after a
   * white-space character of the current text run has been emitted.
   */
  function Scan(s: string, inTag: bool, inRun: bool): (r: string)
    ensures PlainText(r)
    decreases |s|
  {
    if s == [] then []
    else if inTag then Scan(s[1..], s[0] != '>', false)
    else if s[0] == '<' then Scan(s[1..], true, false)
    else if IsSpace(s[0]) then (if inRun then [] else [' ']) + Scan(s[1..], false, true)
    else [s[0]] + Scan(s[1..], false, false)
  }

  /** The `sanitize-html` call at api/rss.js:17-21. */
  function SanitizeHtml(html: string): (r: string)
    ensures PlainText(r)
  {
    Scan(html, false, false)
  }

  /** White space is collapsed per run of text, so the spaces on either side of a tag both stay. */
  lemma TagBetweenSpacesLeavesTwo()
    ensures SanitizeHtml("a <br> b") == "a  b"
    ensures !SingleSpaced(SanitizeHtml("a <br> b"))
  {
    var r := SanitizeHtml("a <br> b");
    assert r == "a  b";
    assert r[1] == ' ' && r[2] == ' ';
  }

  lemma PlainTextTrim(s: string)
    requires PlainText(s)
    ensures PlainText(Trim(s))
  {
    var r := Trim(s);
    forall k | 0 <= k < |r|
      ensures r[k] != '<' && (IsSpace(r[k]) ==> r[k] == ' ')
    {
      assert r[k] in r;
    }
  }

  /** `stripHtml(html)`. */
  function StripHtml(html: Node): (r: string)
    ensures !Truthy(html) ==> r == ""
    ensures Trimmed(r) && PlainText(r)
  {
    if !Truthy(html) then ""
    else
      var text := SanitizeHtml(ToJsString(html));
      PlainTextTrim(text);
      Trim(text)
  }

  /** Plain text whose spaces are single. */
  predicate SingleSpaced(s: string) {
    PlainText(s) && forall k :: 0 <= k < |s| - 1 ==> !(s[k] == ' ' && s[k + 1] == ' ')
  }

  lemma {:induction false} ScanKeepsSingleSpaced(s: string, inRun: bool)
    requires SingleSpaced(s)
    requires inRun ==> s == [] || s[0] != ' '
    ensures Scan(s, false, inRun) == s
    decreases |s|
  {
    if s != [] {
      ScanKeepsSingleSpaced(s[1..], s[0] == ' ');
    }
  }

  /**
   * Trimmed, single-spaced text without markup, and without the '&' and '>'
   * that `sanitize-html` writes back as entities, comes out of `stripHtml`
   * unchanged.
   */
  lemma StripHtmlKeepsCleanText(s: string)
    requires s != [] && Trimmed(s) && SingleSpaced(s) && '&' !in s && '>' !in s
    ensures StripHtml(Str(s)) == s
  {
    ScanKeepsSingleSpaced(s, false);
  }
}
