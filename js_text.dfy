/**
 * The JavaScript built-ins the core relies on, stated over `string`
 * (a sequence of characters): white space as `\s` and `trim` see it,
 * `includes`, `startsWith`, `slice`, `split(/\s+/)`, `join`, number to
 * string conversion and `parseInt(s, 10)`.
 */
module JsText {
  import opened Wrappers

  function Min(a: int, b: int): int { if a <= b then a else b }
  function Max(a: int, b: int): int { if a <= b then b else a }

  // ---------------------------------------------------------------- white space

  /** ECMAScript WhiteSpace and LineTerminator: what `\s` matches and `trim` removes. */
  predicate IsSpace(c: char) {
    || c == '\t' || c == '\n' || c == '\U{B}' || c == '\U{C}' || c == '\r' || c == ' '
    || c == '\U{A0}' || c == '\U{1680}' || ('\U{2000}' <= c <= '\U{200A}')
    || c == '\U{2028}' || c == '\U{2029}' || c == '\U{202F}' || c == '\U{205F}'
    || c == '\U{3000}' || c == '\U{FEFF}'
  }

  /** No white space at either end. */
  predicate Trimmed(s: string) {
    s == [] || (!IsSpace(s[0]) && !IsSpace(s[|s| - 1]))
  }

  /** A non-empty run of characters none of which is white space. */
  predicate IsWord(w: string) {
    w != [] && forall k :: 0 <= k < |w| ==> !IsSpace(w[k])
  }

  function TrimStart(s: string): (r: string)
    ensures |r| <= |s| && r == s[|s| - |r|..]
    ensures forall k :: 0 <= k < |s| - |r| ==> IsSpace(s[k])
    ensures r == [] || !IsSpace(r[0])
    ensures s != [] && !IsSpace(s[0]) ==> r == s
    decreases |s|
  {
    if s != [] && IsSpace(s[0]) then TrimStart(s[1..]) else s
  }

  function TrimEnd(s: string): (r: string)
    ensures |r| <= |s| && r == s[..|r|]
    ensures forall k :: |r| <= k < |s| ==> IsSpace(s[k])
    ensures r == [] || !IsSpace(r[|r| - 1])
    ensures s != [] && !IsSpace(s[|s| - 1]) ==> r == s
    decreases |s|
  {
    if s != [] && IsSpace(s[|s| - 1]) then TrimEnd(s[..|s| - 1]) else s
  }

  /** Everything in `s` before `i` and from `j` on is white space. */
  predicate SpaceOutside(s: string, i: nat, j: nat)
    requires i <= j <= |s|
  {
    (forall k :: 0 <= k < i ==> IsSpace(s[k])) && (forall k :: j <= k < |s| ==> IsSpace(s[k]))
  }

  /** Trimming both ends keeps one slice of `s` with only white space around it. */
  lemma TrimStartEndSlice(s: string)
    ensures var t := TrimStart(s); var r := TrimEnd(t); var i := |s| - |t|;
      i + |r| <= |s| && r == s[i..i + |r|] && SpaceOutside(s, i, i + |r|)
  {
    var t := TrimStart(s);
    var r := TrimEnd(t);
    var i := |s| - |t|;
    assert t == s[i..];
    assert r == t[..|r|];
    forall k | i + |r| <= k < |s|
      ensures IsSpace(s[k])
    {
      assert s[k] == t[k - i];
    }
  }

  /** `String.prototype.trim`: `s` without its leading and trailing white space. */
  function Trim(s: string): (r: string)
    ensures Trimmed(r)
    ensures exists i, j :: 0 <= i <= j <= |s| && r == s[i..j] && SpaceOutside(s, i, j)
    ensures forall c :: c in r ==> c in s
    ensures Trimmed(s) ==> r == s
  {
    var t := TrimStart(s);
    var r := TrimEnd(t);
    var i := |s| - |t|;
    assert r == [] || r[0] == t[0];
    assert forall c :: c in r ==> c in t;
    TrimStartEndSlice(s);
    r
  }

  // ---------------------------------------------------------------- searching

  predicate OccursAt(s: string, p: string, i: nat) {
    i + |p| <= |s| && s[i..i + |p|] == p
  }

  /** `s.includes(p)`. */
  predicate Contains(s: string, p: string) {
    exists i: nat | i <= |s| :: OccursAt(s, p, i)
  }

  /** `s.startsWith(p)`. */
  predicate StartsWith(s: string, p: string) {
    |p| <= |s| && s[..|p|] == p
  }

  /** A string cannot contain a pattern whose first character it lacks. */
  lemma MissingFirstChar(s: string, p: string)
    requires p != [] && p[0] !in s
    ensures !Contains(s, p)
  {
    forall i: nat | i <= |s|
      ensures !OccursAt(s, p, i)
    {
      if i + |p| <= |s| {
        assert s[i..i + |p|][0] == s[i];
        assert s[i] in s;
      }
    }
  }

  // ---------------------------------------------------------------- slice

  /** How `Array.prototype.slice` reads one of its bounds. */
  function RelativeIndex(k: int, len: nat): (i: nat)
    ensures i <= len
    ensures 0 <= k ==> i == Min(k, len)
  {
    if k < 0 then Max(len + k, 0) else Min(k, len)
  }

  /** `s.slice(start, end)`: negative bounds count from the end, bounds are clamped. */
  function JsSlice<T>(s: seq<T>, start: int, end: int): (r: seq<T>)
    ensures 0 <= start <= end ==> r == s[Min(start, |s|)..Min(end, |s|)]
    ensures 0 <= end ==> |r| <= end
  {
    var from := RelativeIndex(start, |s|);
    var to := RelativeIndex(end, |s|);
    if from < to then s[from..to] else []
  }

  // ---------------------------------------------------------------- split and join

  /** The first white-space position at or after `from`, or `|s|`. */
  function NextSpace(s: string, from: nat): (i: nat)
    requires from <= |s|
    ensures from <= i <= |s|
    ensures i < |s| ==> IsSpace(s[i])
    ensures forall k :: from <= k < i ==> !IsSpace(s[k])
    decreases |s| - from
  {
    if from == |s| || IsSpace(s[from]) then from else NextSpace(s, from + 1)
  }

  /** The first non-white-space position at or after `from`, or `|s|`. */
  function NextNonSpace(s: string, from: nat): (i: nat)
    requires from <= |s|
    ensures from <= i <= |s|
    ensures i < |s| ==> !IsSpace(s[i])
    ensures forall k :: from <= k < i ==> IsSpace(s[k])
    decreases |s| - from
  {
    if from == |s| || !IsSpace(s[from]) then from else NextNonSpace(s, from + 1)
  }

  /** `s.split(/\s+/)`: the pieces between maximal runs of white space. */
  function SplitWs(s: string): (words: seq<string>)
    ensures |words| >= 1
    decreases |s|
  {
    var i := NextSpace(s, 0);
    if i == |s| then [s]
    else [s[..i]] + SplitWs(s[NextNonSpace(s, i)..])
  }

  /** `words.join(sep)`. */
  function Join(words: seq<string>, sep: string): string
    decreases |words|
  {
    if words == [] then ""
    else if |words| == 1 then words[0]
    else words[0] + sep + Join(words[1..], sep)
  }

  /** A trimmed, non-empty string splits into words only. */
  lemma {:induction false} SplitTrimmedIsWords(s: string)
    requires s != [] && Trimmed(s)
    ensures forall k :: 0 <= k < |SplitWs(s)| ==> IsWord(SplitWs(s)[k])
    decreases |s|
  {
    var i := NextSpace(s, 0);
    if i < |s| {
      var j := NextNonSpace(s, i);
      assert !IsSpace(s[|s| - 1]);
      assert j < |s|;
      var rest := s[j..];
      assert Trimmed(rest);
      SplitTrimmedIsWords(rest);
      assert SplitWs(s) == [s[..i]] + SplitWs(rest);
      assert i > 0;
    }
  }

  lemma JoinFirstChar(words: seq<string>, sep: string)
    requires words != [] && words[0] != []
    ensures Join(words, sep) != [] && Join(words, sep)[0] == words[0][0]
  {
  }

  /** Splitting words joined by single spaces gives the words back. */
  lemma {:induction false} SplitJoin(words: seq<string>)
    requires words != []
    requires forall k :: 0 <= k < |words| ==> IsWord(words[k])
    ensures SplitWs(Join(words, " ")) == words
    decreases |words|
  {
    var w := words[0];
    if |words| == 1 {
      assert NextSpace(w, 0) == |w|;
    } else {
      var rest := Join(words[1..], " ");
      var s := Join(words, " ");
      assert s == w + " " + rest;
      JoinFirstChar(words[1..], " ");
      assert s[|w|] == ' ';
      assert !IsSpace(s[|w| + 1]);
      assert forall k :: 0 <= k < |w| ==> s[k] == w[k];
      assert NextSpace(s, 0) == |w|;
      assert NextNonSpace(s, |w|) == |w| + 1;
      assert s[..|w|] == w;
      assert s[|w| + 1..] == rest;
      SplitJoin(words[1..]);
    }
  }

  // ---------------------------------------------------------------- numbers

  predicate IsDigit(c: char) { '0' <= c <= '9' }

  predicate AllDigits(s: string) { forall k :: 0 <= k < |s| ==> IsDigit(s[k]) }

  function DigitChar(d: nat): (c: char)
    requires d < 10
    ensures IsDigit(c)
  {
    "0123456789"[d]
  }

  function DigitValue(c: char): (d: nat)
    requires IsDigit(c)
    ensures d < 10
  {
    (c as int) - ('0' as int)
  }

  lemma DigitRoundTrip(d: nat)
    requires d < 10
    ensures DigitValue(DigitChar(d)) == d
  {
    var digits := "0123456789";
    assert digits[d] as int == '0' as int + d;
  }

  /** Decimal digits of `n`, most significant first, no leading zeros. */
  function NatToString(n: nat): (s: string)
    ensures s != [] && AllDigits(s)
  {
    if n < 10 then [DigitChar(n)] else NatToString(n / 10) + [DigitChar(n % 10)]
  }

  /** The template-literal form `${n}` of an integer. */
  function IntToString(n: int): (s: string)
    ensures s != []
    ensures forall k :: 0 <= k < |s| ==> IsDigit(s[k]) || s[k] == '-'
  {
    if n < 0 then "-" + NatToString(-n) else NatToString(n)
  }

  /** The number written by a string of decimal digits. */
  function DigitsValue(s: string): nat
    requires AllDigits(s)
  {
    if s == [] then 0 else DigitsValue(s[..|s| - 1]) * 10 + DigitValue(s[|s| - 1])
  }

  lemma {:induction false} DigitsValueOfNatToString(n: nat)
    ensures DigitsValue(NatToString(n)) == n
  {
    DigitRoundTrip(n % 10);
    if n >= 10 {
      var s := NatToString(n);
      assert s[..|s| - 1] == NatToString(n / 10);
      DigitsValueOfNatToString(n / 10);
    }
  }

  /** The end of the run of digits in `s` that starts at `from`. */
  function DigitRunEnd(s: string, from: nat): (i: nat)
    requires from <= |s|
    ensures from <= i <= |s|
    ensures AllDigits(s[from..i])
    ensures i < |s| ==> !IsDigit(s[i])
    ensures AllDigits(s[from..]) ==> i == |s|
    decreases |s| - from
  {
    if from == |s| || !IsDigit(s[from]) then from else DigitRunEnd(s, from + 1)
  }

  /** The number written by the digits at the front of `body`; `None` when it does not start with one. */
  function LeadingDigits(body: string): (r: Option<nat>)
    ensures body != [] && AllDigits(body) ==> r == Some(DigitsValue(body))
  {
    var run := body[..DigitRunEnd(body, 0)];
    assert AllDigits(body) ==> run == body;
    if run == [] then None else Some(DigitsValue(run))
  }

  /**
   * `parseInt(s, 10)`: leading white space is skipped, then one optional
   * sign, then the longest run of decimal digits; `None` is NaN.
   */
  function ParseInt(s: string): Option<int> {
    var t := TrimStart(s);
    var negative := t != [] && t[0] == '-';
    var body := if t != [] && (t[0] == '-' || t[0] == '+') then t[1..] else t;
    match LeadingDigits(body)
    case None => None
    case Some(m) => var v: int := if negative then -(m as int) else m; Some(v)
  }

  /** Digits with no sign read as their value. */
  lemma ParseIntOfDigits(d: string, m: nat)
    requires d != [] && IsDigit(d[0]) && LeadingDigits(d) == Some(m)
    ensures ParseInt(d) == Some(m as int)
  {
    assert !IsSpace(d[0]) && d[0] != '-' && d[0] != '+';
    assert TrimStart(d) == d;
  }

  /** Digits after a '-' read as the negated value. */
  lemma ParseIntOfNegatedDigits(d: string, m: nat)
    requires LeadingDigits(d) == Some(m)
    ensures ParseInt("-" + d) == Some(-(m as int))
  {
    var s := "-" + d;
    assert s[0] == '-' && !IsSpace(s[0]);
    assert TrimStart(s) == s;
    assert s[1..] == d;
  }

  /** Digits after a '+' read as their value. */
  lemma ParseIntOfPlusDigits(d: string, m: nat)
    requires LeadingDigits(d) == Some(m)
    ensures ParseInt("+" + d) == Some(m as int)
  {
    var s := "+" + d;
    assert s[0] == '+' && !IsSpace(s[0]);
    assert TrimStart(s) == s;
    assert s[1..] == d;
  }

  /** The number is read from the digits up to the first character that is not one. */
  lemma LeadingDigitsUpTo(body: string, k: nat)
    requires 0 < k <= |body| && AllDigits(body[..k]) && (k < |body| ==> !IsDigit(body[k]))
    ensures LeadingDigits(body) == Some(DigitsValue(body[..k]))
  {
  }

  /** `parseInt` reads back every integer written by `IntToString`. */
  lemma ParseIntOfIntToString(n: int)
    ensures ParseInt(IntToString(n)) == Some(n)
  {
    var m: nat := if n < 0 then -n else n;
    var d := NatToString(m);
    DigitsValueOfNatToString(m);
    assert LeadingDigits(d) == Some(m);
    if n < 0 {
      ParseIntOfNegatedDigits(d, m);
    } else {
      assert IsDigit(d[0]);
      ParseIntOfDigits(d, m);
    }
  }

  lemma IntToStringInjective(a: int, b: int)
    requires IntToString(a) == IntToString(b)
    ensures a == b
  {
    ParseIntOfIntToString(a);
    ParseIntOfIntToString(b);
  }
}
