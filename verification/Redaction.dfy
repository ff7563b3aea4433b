/** redact_urls of backend-rust/src/alerts/mod.rs: no URL of an error chain reaches a log or an alert. */
module Redaction {
  import opened Options

  const HTTPS := "https://"
  const HTTP := "http://"
  const MARKER := "[redacted URL]"

  /** char::is_whitespace: the White_Space property of Unicode. */
  predicate IsWhitespace(c: char) {
    || '\U{9}' <= c <= '\U{D}' || c == ' ' || c == '\U{85}' || c == '\U{A0}' || c == '\U{1680}'
    || '\U{2000}' <= c <= '\U{200A}' || c == '\U{2028}' || c == '\U{2029}' || c == '\U{202F}' || c == '\U{205F}'
    || c == '\U{3000}'
  }

  predicate EndsUrl(c: char) {
    IsWhitespace(c) || c == ')' || c == ']' || c == '}' || c == '"' || c == '\''
  }

  /** The code points of White_Space, and the brackets and quotes. */
  const URL_ENDS: set<char> := {
    '\U{9}', '\U{A}', '\U{B}', '\U{C}', '\U{D}', ' ', '\U{85}', '\U{A0}', '\U{1680}', '\U{2000}', '\U{2001}', '\U{2002}',
    '\U{2003}', '\U{2004}', '\U{2005}', '\U{2006}', '\U{2007}', '\U{2008}', '\U{2009}', '\U{200A}', '\U{2028}', '\U{2029}',
    '\U{202F}', '\U{205F}', '\U{3000}', ')', ']', '}', '"', '\''
  }

  lemma EndsAre(c: char)
    ensures EndsUrl(c) <==> c in URL_ENDS
  {
  }

  predicate At(s: string, i: nat, pattern: string) {
    i + |pattern| <= |s| && s[i..i + |pattern|] == pattern
  }

  /** str::find: the first occurrence. */
  function Find(s: string, pattern: string, from: nat): (r: Option<nat>)
    requires from <= |s| && pattern != []
    ensures r.Some? ==> from <= r.value && At(s, r.value, pattern) && forall i | from <= i < r.value :: !At(s, i, pattern)
    ensures r.None? ==> forall i | from <= i :: !At(s, i, pattern)
    decreases |s| - from
  {
    if from == |s| then None
    else if At(s, from, pattern) then Some(from)
    else Find(s, pattern, from + 1)
  }

  predicate SchemeAt(s: string, i: nat) { At(s, i, HTTPS) || At(s, i, HTTP) }

  /** Neither scheme occurs anywhere. */
  ghost predicate Clean(s: string) { forall i: nat :: !SchemeAt(s, i) }

  datatype Match = Match(offset: nat, length: nat)

  /** The earlier of the two first occurrences. */
  function FirstMatch(s: string): (r: Option<Match>)
    ensures r.None? <==> Clean(s)
    ensures r.Some? ==>
      && r.value.offset + r.value.length <= |s| && r.value.length > 0
      && SchemeAt(s, r.value.offset) && (forall i: nat | i < r.value.offset :: !SchemeAt(s, i))
      && (if At(s, r.value.offset, HTTPS) then r.value.length == |HTTPS| else r.value.length == |HTTP|)
  {
    var secure, plain := Find(s, HTTPS, 0), Find(s, HTTP, 0);
    assert secure.Some? ==> SchemeAt(s, secure.value);
    assert plain.Some? ==> SchemeAt(s, plain.value);
    if secure.None? && plain.None? then None
    else if plain.None? || (secure.Some? && secure.value <= plain.value) then Some(Match(secure.value, |HTTPS|))
    else Some(Match(plain.value, |HTTP|))
  }

  /** tail.find(...).unwrap_or(tail.len()) */
  function UrlEnd(tail: string, from: nat): (r: nat)
    requires from <= |tail|
    ensures from <= r <= |tail| && (forall i | from <= i < r :: !EndsUrl(tail[i])) && (r < |tail| ==> EndsUrl(tail[r]))
    decreases |tail| - from
  {
    if from == |tail| || EndsUrl(tail[from]) then from else UrlEnd(tail, from + 1)
  }

  /** What is left after the first URL. */
  function AfterUrl(s: string, m: Match): (r: string)
    requires m.offset + m.length <= |s|
    ensures |r| <= |s| - m.offset - m.length
  {
    var tail := s[m.offset + m.length..];
    tail[UrlEnd(tail, 0)..]
  }

  function Redacted(s: string): string
    decreases |s|
  {
    var m := FirstMatch(s);
    if m.None? then s else s[..m.value.offset] + MARKER + Redacted(AfterUrl(s, m.value))
  }

  lemma Regroup(a: string, b: string, c: string, d: string)
    ensures a + b + c + d == a + (b + c + d)
  {
  }

  lemma OneUrl(s: string, m: Match)
    requires FirstMatch(s) == Some(m)
    ensures Redacted(s) == s[..m.offset] + MARKER + Redacted(AfterUrl(s, m)) && |AfterUrl(s, m)| < |s|
  {
  }

  method RedactUrls(value: string) returns (out: string)
    ensures out == Redacted(value)
  {
    out := "";
    var rest := value;
    var match' := FirstMatch(rest);
    while match'.Some?
      invariant match' == FirstMatch(rest) && out + Redacted(rest) == Redacted(value)
      decreases |rest|
    {
      var m := match'.value;
      OneUrl(rest, m);
      Regroup(out, rest[..m.offset], MARKER, Redacted(AfterUrl(rest, m)));
      out := out + rest[..m.offset];
      out := out + MARKER;
      var tail := rest[m.offset + m.length..];
      var end := UrlEnd(tail, 0);
      rest := tail[end..];
      match' := FirstMatch(rest);
    }
    out := out + rest;
  }

  // ---- nothing of a URL gets through ----

  lemma Letters(s: string, i: nat, pattern: string)
    requires At(s, i, pattern)
    ensures forall k | 0 <= k < |pattern| :: s[i + k] == pattern[k]
  {
    forall k | 0 <= k < |pattern| ensures s[i + k] == pattern[k] {
      assert s[i..i + |pattern|][k] == s[i + k];
    }
  }

  predicate Scheme(p: string) { p == HTTPS || p == HTTP }

  /** A scheme in a spliced text lies on one side of the marker: it holds no bracket, and the marker no 'h'. */
  lemma OneSide(a: string, b: string, i: nat, p: string)
    requires Scheme(p) && At(a + MARKER + b, i, p)
    ensures At(a, i, p) || (i >= |a| + |MARKER| && At(b, i - |a| - |MARKER|, p))
  {
    var s := a + MARKER + b;
    Letters(s, i, p);
    assert forall k | 0 <= k < |p| :: p[k] != '[';
    assert forall k | 0 <= k < |MARKER| :: MARKER[k] != 'h';
    assert s[|a|] == '[' && p[0] == 'h' && s[i + 0] == p[0];
    assert forall j | |a| <= j < |a| + |MARKER| :: s[j] == MARKER[j - |a|];
    if i + |p| <= |a| {
      assert a[i..i + |p|] == s[i..i + |p|];
    } else {
      forall j | i <= j < i + |p| ensures s[j] != '[' {
        assert s[i + (j - i)] == p[j - i];
      }
      var k := i - |a| - |MARKER|;
      assert b[k..k + |p|] == s[i..i + |p|];
    }
  }

  lemma SpliceClean(a: string, b: string)
    requires Clean(a) && Clean(b)
    ensures Clean(a + MARKER + b)
  {
    forall i: nat ensures !SchemeAt(a + MARKER + b, i) {
      assert !SchemeAt(a, i);
      assert i >= |a| + |MARKER| ==> !SchemeAt(b, i - |a| - |MARKER|);
      if At(a + MARKER + b, i, HTTPS) { OneSide(a, b, i, HTTPS); }
      if At(a + MARKER + b, i, HTTP) { OneSide(a, b, i, HTTP); }
    }
  }

  lemma PrefixClean(s: string, n: nat)
    requires n <= |s| && forall i: nat | i < n :: !SchemeAt(s, i)
    ensures Clean(s[..n])
  {
    forall i: nat ensures !SchemeAt(s[..n], i) {
      PrefixAt(s, n, i, HTTPS);
      PrefixAt(s, n, i, HTTP);
      assert i < n ==> !SchemeAt(s, i);
    }
  }

  lemma PrefixAt(s: string, n: nat, i: nat, p: string)
    requires n <= |s| && p != []
    ensures At(s[..n], i, p) ==> i < n && At(s, i, p)
  {
    if At(s[..n], i, p) {
      assert s[..n][i..i + |p|] == s[i..i + |p|];
    }
  }

  /** The output holds neither scheme, not even across the places where URLs were cut out. */
  lemma {:induction false} NoUrlSurvives(s: string)
    ensures Clean(Redacted(s))
    decreases |s|
  {
    var m := FirstMatch(s);
    if m.Some? {
      PrefixClean(s, m.value.offset);
      NoUrlSurvives(AfterUrl(s, m.value));
      SpliceClean(s[..m.value.offset], Redacted(AfterUrl(s, m.value)));
    }
  }

  lemma Idempotent(s: string)
    ensures Redacted(Redacted(s)) == Redacted(s)
  {
    NoUrlSurvives(s);
  }

  /** Text is changed exactly when it held a URL. */
  lemma UnchangedIff(s: string)
    ensures Redacted(s) == s <==> Clean(s)
  {
    NoUrlSurvives(s);
  }

  // ---- everything else does ----

  /** A text cut at its URLs. */
  datatype Parts = Last(text: string) | Part(text: string, url: string, rest: Parts)

  function Original(p: Parts): string {
    match p
    case Last(text) => text
    case Part(text, url, rest) => text + url + Original(rest)
  }

  function Marked(p: Parts): string {
    match p
    case Last(text) => text
    case Part(text, url, rest) => text + MARKER + Marked(rest)
  }

  /** Texts hold no URL; each URL is a scheme and everything up to the first terminator or the end. */
  ghost predicate CutAtUrls(p: Parts) {
    match p
    case Last(text) => Clean(text)
    case Part(text, url, rest) =>
      && Clean(text) && IsUrl(url)
      && (Original(rest) == "" || EndsUrl(Original(rest)[0]))
      && CutAtUrls(rest)
  }

  predicate IsUrl(url: string) {
    || (HTTPS <= url && forall k | |HTTPS| <= k < |url| :: !EndsUrl(url[k]))
    || (HTTP <= url && forall k | |HTTP| <= k < |url| :: !EndsUrl(url[k]))
  }

  function Cut(s: string): Parts
    decreases |s|
  {
    var m := FirstMatch(s);
    if m.None? then Last(s)
    else
      var rest := AfterUrl(s, m.value);
      Part(s[..m.value.offset], s[m.value.offset..|s| - |rest|], Cut(rest))
  }

  /** A scheme and what follows it up to the first terminator is a URL. */
  lemma UrlText(s: string, m: Match, end: nat)
    requires m.offset + m.length + end <= |s|
    requires (m.length == |HTTPS| && At(s, m.offset, HTTPS)) || (m.length == |HTTP| && At(s, m.offset, HTTP))
    requires forall k | m.offset + m.length <= k < m.offset + m.length + end :: !EndsUrl(s[k])
    ensures IsUrl(s[m.offset..m.offset + m.length + end])
  {
    var url := s[m.offset..m.offset + m.length + end];
    assert url[..m.length] == s[m.offset..m.offset + m.length];
    forall k | m.length <= k < |url| ensures !EndsUrl(url[k]) {
      assert url[k] == s[m.offset + k];
    }
  }

  lemma ThreeParts(s: string, a: nat, b: nat)
    requires a <= b <= |s|
    ensures s == s[..a] + s[a..b] + s[b..]
  {
  }

  lemma AfterIs(s: string, m: Match) returns (cut: nat)
    requires m.offset + m.length <= |s|
    ensures m.offset + m.length <= cut <= |s| && AfterUrl(s, m) == s[cut..]
    ensures forall k | m.offset + m.length <= k < cut :: !EndsUrl(s[k])
    ensures cut < |s| ==> EndsUrl(s[cut])
  {
    var tail := s[m.offset + m.length..];
    cut := m.offset + m.length + UrlEnd(tail, 0);
    forall k | m.offset + m.length <= k < cut ensures !EndsUrl(s[k]) {
      assert tail[k - m.offset - m.length] == s[k];
    }
  }

  lemma FirstUrl(s: string, m: Match)
    requires FirstMatch(s) == Some(m)
    ensures
      var rest := AfterUrl(s, m);
      && s == s[..m.offset] + s[m.offset..|s| - |rest|] + rest
      && IsUrl(s[m.offset..|s| - |rest|]) && (rest == "" || EndsUrl(rest[0]))
  {
    var cut := AfterIs(s, m);
    UrlText(s, m, cut - m.offset - m.length);
    ThreeParts(s, m.offset, cut);
  }

  /** The output is the input with every URL replaced by the marker: all other text survives, in order. */
  lemma {:induction false} OnlyUrlsReplaced(s: string)
    ensures Original(Cut(s)) == s && Marked(Cut(s)) == Redacted(s) && CutAtUrls(Cut(s))
    decreases |s|
  {
    var m := FirstMatch(s);
    if m.Some? {
      FirstUrl(s, m.value);
      PrefixClean(s, m.value.offset);
      OnlyUrlsReplaced(AfterUrl(s, m.value));
    }
  }

  /** 'h' starts a scheme and occurs nowhere else in it, so none straddles the start of a URL. */
  lemma NoneBefore(text: string, after: string, i: nat, p: string)
    requires Scheme(p) && Clean(text) && after != "" && after[0] == 'h' && i < |text|
    ensures !At(text + after, i, p)
  {
    assert !SchemeAt(text, i);
    if i + |p| <= |text| { Within(text, after, i, p); }
    if At(text + after, i, p) && i + |p| > |text| {
      NoLaterH(text + after, i, p, |text|);
    }
  }

  lemma Within(text: string, after: string, i: nat, p: string)
    requires i + |p| <= |text|
    ensures At(text + after, i, p) <==> At(text, i, p)
  {
    assert (text + after)[i..i + |p|] == text[i..i + |p|];
  }

  lemma NoLaterH(s: string, i: nat, p: string, j: nat)
    requires Scheme(p) && At(s, i, p) && i < j < i + |p|
    ensures s[j] != 'h'
  {
    Letters(s, i, p);
    assert s[i + (j - i)] == p[j - i];
  }

  lemma MatchIs(s: string, offset: nat, n: nat)
    requires forall i: nat | i < offset :: !SchemeAt(s, i)
    requires (n == |HTTPS| && At(s, offset, HTTPS)) || (n == |HTTP| && At(s, offset, HTTP))
    ensures FirstMatch(s) == Some(Match(offset, n))
  {
    NotBoth(s, offset);
    assert SchemeAt(s, offset);
    var m := FirstMatch(s);
    assert m.Some? && m.value.offset == offset;
  }

  lemma FirstOfCut(p: Parts)
    requires p.Part? && CutAtUrls(p)
    ensures
      var s := Original(p);
      var m := FirstMatch(s);
      && m.Some? && m.value.offset == |p.text| && AfterUrl(s, m.value) == Original(p.rest)
  {
    var s, after := Original(p), p.url + Original(p.rest);
    var n := if HTTPS <= p.url then |HTTPS| else |HTTP|;
    assert s == p.text + after && after[0] == 'h';
    assert s[|p.text|..|p.text| + n] == p.url[..n];
    forall i: nat | i < |p.text| ensures !SchemeAt(s, i) {
      NoneBefore(p.text, after, i, HTTPS);
      NoneBefore(p.text, after, i, HTTP);
    }
    MatchIs(s, |p.text|, n);
    TailEnd(p, n);
  }

  lemma NotBoth(s: string, i: nat)
    ensures !(At(s, i, HTTPS) && At(s, i, HTTP))
  {
    if At(s, i, HTTPS) {
      Letters(s, i, HTTPS);
      assert s[i + 4] == 's';
      if i + 7 <= |s| { assert s[i..i + 7][4] == 's'; }
    }
  }

  lemma EndsAt(body: string, rest: string)
    requires (forall k | 0 <= k < |body| :: !EndsUrl(body[k])) && (rest == "" || EndsUrl(rest[0]))
    ensures UrlEnd(body + rest, 0) == |body| && (body + rest)[|body|..] == rest
  {
    assert forall k | 0 <= k < |body| :: (body + rest)[k] == body[k];
    assert rest != "" ==> (body + rest)[|body|] == rest[0];
  }

  lemma TailEnd(p: Parts, n: nat)
    requires p.Part? && CutAtUrls(p) && n <= |p.url| && forall k | n <= k < |p.url| :: !EndsUrl(p.url[k])
    ensures AfterUrl(Original(p), Match(|p.text|, n)) == Original(p.rest)
  {
    EndsAt(p.url[n..], Original(p.rest));
    assert Original(p)[|p.text| + n..] == p.url[n..] + Original(p.rest);
  }

  /** There is only one way to cut a text at its URLs, so the marked text is determined by it. */
  lemma {:induction false} CutIsUnique(p: Parts)
    requires CutAtUrls(p)
    ensures Redacted(Original(p)) == Marked(p)
  {
    match p
    case Last(text) =>
    case Part(text, url, rest) =>
      FirstOfCut(p);
      CutIsUnique(rest);
      assert Original(p)[..|text|] == text;
  }
}
