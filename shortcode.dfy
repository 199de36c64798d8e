/**
 * Request validation of the download handler: finding the post's shortcode in
 * the `url` query parameter, as the regular expression `/\/p\/([^\/?]+)/`
 * does, and building the upstream API URL from it.
 */
module Shortcode {
  import opened Wrappers

  /** A character of the capture group `[^\/?]`. */
  predicate IsCodeChar(c: char) {
    c != '/' && c != '?'
  }

  /** A match of the regular expression can start at i: "/p/" followed by one shortcode character. */
  predicate MarkerAt(url: string, i: nat) {
    i + 3 < |url| && url[i] == '/' && url[i + 1] == 'p' && url[i + 2] == '/' && IsCodeChar(url[i + 3])
  }

  /** The capture group of a match: url[start..end]. */
  datatype Span = Span(start: nat, end: nat)

  /**
   * What the regular expression engine returns as group 1: the match starts at
   * the leftmost "/p/" that is followed by a shortcode character, and the
   * greedy `+` takes every shortcode character after it.
   */
  ghost predicate IsCapture(url: string, s: Span) {
    && 3 <= s.start < s.end <= |url|
    && MarkerAt(url, s.start - 3)
    && (forall j: nat :: j < s.start - 3 ==> !MarkerAt(url, j))
    && (forall k :: s.start <= k < s.end ==> IsCodeChar(url[k]))
    && (s.end == |url| || !IsCodeChar(url[s.end]))
  }

  /** Scans right from `from` for the first position where a match can start. */
  function FindMarker(url: string, from: nat): (r: Option<nat>)
    decreases |url| - from
    ensures r.Some? ==> from <= r.value && MarkerAt(url, r.value)
    ensures r.Some? ==> forall j: nat :: from <= j < r.value ==> !MarkerAt(url, j)
    ensures r.None? ==> forall j: nat :: from <= j ==> !MarkerAt(url, j)
  {
    if |url| <= from + 3 then None
    else if MarkerAt(url, from) then Some(from)
    else FindMarker(url, from + 1)
  }

  /** Scans right from k over shortcode characters; the position of the first other character, or the end. */
  function RunEnd(url: string, k: nat): (e: nat)
    requires k <= |url|
    decreases |url| - k
    ensures k <= e <= |url|
    ensures forall m :: k <= m < e ==> IsCodeChar(url[m])
    ensures e == |url| || !IsCodeChar(url[e])
  {
    if k == |url| || !IsCodeChar(url[k]) then k else RunEnd(url, k + 1)
  }

  /** `postUrl.match(/\/p\/([^\/?]+)/)`, reduced to the span of group 1. */
  function MatchShortcode(url: string): (r: Option<Span>)
    ensures r.Some? ==> IsCapture(url, r.value)
    ensures r.None? <==> forall j: nat :: !MarkerAt(url, j)
  {
    match FindMarker(url, 0)
    case None => None
    case Some(i) => Some(Span(i + 3, RunEnd(url, i + 3)))
  }

  /** Any span the regular expression could return is the one MatchShortcode returns. */
  lemma CaptureIsUnique(url: string, s: Span)
    requires IsCapture(url, s)
    ensures MatchShortcode(url) == Some(s)
  {
    var m := MatchShortcode(url);
    assert MarkerAt(url, s.start - 3);
    var t := m.value;
    assert MarkerAt(url, t.start - 3);
    assert t.start == s.start;
  }

  /** `postUrl.match(...)?.[1]`: the shortcode, or nothing when the URL does not match. */
  function ExtractShortcode(url: string): (r: Option<string>)
    ensures r.Some? <==> exists j: nat :: MarkerAt(url, j)
    ensures r.Some? ==> r.value != [] && forall k :: 0 <= k < |r.value| ==> IsCodeChar(r.value[k])
    ensures r.Some? ==> exists s :: IsCapture(url, s) && r.value == url[s.start..s.end]
  {
    match MatchShortcode(url)
    case None => None
    case Some(s) => Some(url[s.start..s.end])
  }

  /** The upstream endpoint, with the placeholder the handler replaces. */
  const ApiTemplate := "https://www.instagram.com/p/{shortcode}/?__a=1&__d=dis"
  const Placeholder := "{shortcode}"
  const ApiPrefix := "https://www.instagram.com/p/"
  const ApiSuffix := "/?__a=1&__d=dis"

  /** `s.replace(pattern, replacement)` with a string pattern: the first occurrence only. */
  function ReplaceFirst(s: string, pattern: string, replacement: string): string
    decreases |s|
  {
    if pattern <= s then replacement + s[|pattern|..]
    else if s == [] then s
    else [s[0]] + ReplaceFirst(s[1..], pattern, replacement)
  }

  /** When the text before an occurrence cannot start one, that occurrence is the one replaced. */
  lemma {:induction false} ReplaceFirstAfter(before: string, pattern: string, after: string, replacement: string)
    requires pattern != [] && pattern[0] !in before
    ensures ReplaceFirst(before + pattern + after, pattern, replacement) == before + replacement + after
  {
    var s := before + pattern + after;
    if before == [] {
      assert s == pattern + after;
    } else {
      assert s[0] == before[0];
      assert s[1..] == before[1..] + pattern + after;
      ReplaceFirstAfter(before[1..], pattern, after, replacement);
    }
  }

  /** `INSTAGRAM_API.replace('{shortcode}', shortcode)`. */
  function ApiUrl(shortcode: string): (r: string)
    ensures r == ApiPrefix + shortcode + ApiSuffix
  {
    assert ApiTemplate == ApiPrefix + Placeholder + ApiSuffix;
    assert '{' !in ApiPrefix;
    ReplaceFirstAfter(ApiPrefix, Placeholder, ApiSuffix, shortcode);
    ReplaceFirst(ApiTemplate, Placeholder, shortcode)
  }

  /** No "/p" occurs in the API URL before the one that precedes the shortcode. */
  lemma NoEarlierMarker()
    ensures |ApiPrefix| == 28 && ApiPrefix[25..] == "/p/"
    ensures forall j :: 0 <= j < 25 ==> !(ApiPrefix[j] == '/' && ApiPrefix[j + 1] == 'p')
  {
  }

  /** Where the pieces of the API URL sit. */
  lemma ApiUrlLayout(shortcode: string)
    ensures var url := ApiUrl(shortcode);
      && |url| == 28 + |shortcode| + |ApiSuffix|
      && url[..28] == ApiPrefix
      && url[28..28 + |shortcode|] == shortcode
      && url[28 + |shortcode|] == '/'
  {
    var url := ApiUrl(shortcode);
    assert url == ApiPrefix + shortcode + ApiSuffix;
    assert |ApiPrefix| == 28;
    assert (ApiPrefix + shortcode + ApiSuffix)[28 + |shortcode|] == ApiSuffix[0];
  }

  lemma ApiUrlNoEarlierMarker(shortcode: string)
    ensures forall j: nat :: j < 25 ==> !MarkerAt(ApiUrl(shortcode), j)
  {
    var url := ApiUrl(shortcode);
    NoEarlierMarker();
    ApiUrlLayout(shortcode);
    forall j: nat | j < 25
      ensures !MarkerAt(url, j)
    {
      assert url[j] == url[..28][j];
      assert url[j + 1] == url[..28][j + 1];
    }
  }

  lemma ApiUrlShortcodeAt(shortcode: string)
    requires shortcode != [] && forall k :: 0 <= k < |shortcode| ==> IsCodeChar(shortcode[k])
    ensures MarkerAt(ApiUrl(shortcode), 25)
    ensures forall k :: 28 <= k < 28 + |shortcode| ==> IsCodeChar(ApiUrl(shortcode)[k])
  {
    var url := ApiUrl(shortcode);
    NoEarlierMarker();
    ApiUrlLayout(shortcode);
    assert url[25] == url[..28][25];
    assert url[26] == url[..28][26];
    assert url[27] == url[..28][27];
    assert url[28] == url[28..28 + |shortcode|][0];
    forall k | 28 <= k < 28 + |shortcode|
      ensures IsCodeChar(url[k])
    {
      assert url[k] == url[28..28 + |shortcode|][k - 28];
    }
  }

  /** The API URL carries the shortcode in the same "/p/<shortcode>" position: extracting from it gives it back. */
  lemma ApiUrlRoundTrip(shortcode: string)
    requires shortcode != [] && forall k :: 0 <= k < |shortcode| ==> IsCodeChar(shortcode[k])
    ensures ExtractShortcode(ApiUrl(shortcode)) == Some(shortcode)
  {
    var url := ApiUrl(shortcode);
    var s := Span(28, 28 + |shortcode|);
    ApiUrlLayout(shortcode);
    ApiUrlNoEarlierMarker(shortcode);
    ApiUrlShortcodeAt(shortcode);
    assert IsCapture(url, s);
    CaptureIsUnique(url, s);
  }
}
