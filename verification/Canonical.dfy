/** URL canonicalisation and classification: internal/crawler/crawler.go and
    internal/crawler/worker.go. */
module Canonical {
  import opened Text

  const BASE_URL := "https://www.vidlii.com"
  const VIDEO_PATTERN := "/watch?v="

  predicate IsVideo(url: string) { Contains(url, VIDEO_PATTERN) }

  function Canonicalize(raw: string): string {
    var raw := Before(raw, '#');
    if !HasPrefix(raw, BASE_URL) then ""
    else if IsVideo(raw) then
      var rest := raw[Index(raw, VIDEO_PATTERN) + |VIDEO_PATTERN|..];
      if rest == "" then "" else BASE_URL + VIDEO_PATTERN + Before(rest, '&')
    else TrimRight(raw, '/')
  }

  // A URL is a video's iff the pattern is somewhere in it, wherever that is.
  lemma VideoIffPatternInIt(url: string)
    ensures IsVideo(url) <==> exists front, back :: url == front + VIDEO_PATTERN + back
  {
    if IsVideo(url) {
      var i := Index(url, VIDEO_PATTERN);
      var j := i + |VIDEO_PATTERN|;
      assert url == url[..i] + url[i..j] + url[j..];
    }
    forall front, back | url == front + VIDEO_PATTERN + back ensures IsVideo(url) {
      assert url[|front|..|front| + |VIDEO_PATTERN|] == VIDEO_PATTERN;
      assert MatchesAt(url, VIDEO_PATTERN, |front|);
    }
  }

  // A link the crawler takes for one of its video pages.
  predicate TakenForVideo(raw: string) {
    HasPrefix(Before(raw, '#'), BASE_URL) && IsVideo(Before(raw, '#'))
  }

  // Everything after the first video pattern of the raw link.
  function VideoTail(raw: string): string
    requires IsVideo(raw)
  {
    raw[Index(raw, VIDEO_PATTERN) + |VIDEO_PATTERN|..]
  }

  // The id of a video link, straight from the raw text: what follows the first
  // video pattern, up to the first '&' or '#'.
  function VideoId(raw: string): string
    requires IsVideo(raw)
  {
    Before(Before(VideoTail(raw), '#'), '&')
  }

  const EMPTY_ID := BASE_URL + VIDEO_PATTERN

  // No video pattern starts inside the base URL, whatever follows it.
  lemma VideoKeyIndex(rest: string)
    ensures Index(BASE_URL + VIDEO_PATTERN + rest, VIDEO_PATTERN) == |BASE_URL|
    ensures HasPrefix(BASE_URL + VIDEO_PATTERN + rest, BASE_URL)
  {
    var s := BASE_URL + VIDEO_PATTERN + rest;
    assert s[..|BASE_URL|] == BASE_URL;
    assert s[|BASE_URL|..|BASE_URL| + |VIDEO_PATTERN|] == VIDEO_PATTERN;
    forall j | 0 <= j < |BASE_URL| ensures !MatchesAt(s, VIDEO_PATTERN, j) {
      var w := s[j..j + |VIDEO_PATTERN|];
      assert w[0] == s[j] == BASE_URL[j] && w[1] == s[j + 1] && w[2] == s[j + 2];
      assert w[0] == '/' ==> j == 6 || j == 7;
    }
    IndexIs(s, VIDEO_PATTERN, |BASE_URL|);
  }

  lemma FragmentFree(raw: string)
    ensures '#' !in Canonicalize(raw)
  {
    var r := Before(raw, '#');
    if HasPrefix(r, BASE_URL) && IsVideo(r) {
      var tail := VideoTail(r);
      var id := Before(tail, '&');
      assert '#' !in id by {
        SliceFree(r, |r| - |tail|, |r|, '#');
        SliceFree(tail, 0, |id|, '#');
        assert id == tail[0..|id|];
      }
      assert '#' !in BASE_URL && '#' !in VIDEO_PATTERN;
    } else {
      var trimmed := TrimRight(r, '/');
      SliceFree(r, 0, |trimmed|, '#');
      assert trimmed == r[0..|trimmed|];
    }
  }

  lemma SliceFree(s: string, i: nat, j: nat, c: char)
    requires c !in s && i <= j <= |s|
    ensures c !in s[i..j]
  {
  }

  // What a video link's key looks like.
  lemma VideoKey(raw: string)
    requires TakenForVideo(raw)
    ensures IsVideo(raw) && (Canonicalize(raw) != "" ==> Canonicalize(raw) == EMPTY_ID + VideoId(raw))
  {
    var r := Before(raw, '#');
    PrefixContains(raw, r, VIDEO_PATTERN);
    var i := Index(raw, VIDEO_PATTERN) + |VIDEO_PATTERN|;
    assert r[i..] <= raw[i..];
    assert |r| < |raw| ==> raw[i..][|r[i..]|] == raw[|r|];
    BeforeIs(raw[i..], '#', r[i..]);
  }

  // The class the frontier files a link under is the class of the link itself.
  lemma KeepsClass(raw: string)
    ensures Canonicalize(raw) != "" ==> (IsVideo(Canonicalize(raw)) <==> IsVideo(Before(raw, '#')))
  {
    var r := Before(raw, '#');
    if Canonicalize(raw) == "" {
    } else if IsVideo(r) {
      VideoKeyIndex(VideoId(raw)) by { VideoKey(raw); }
      VideoKey(raw);
    } else if IsVideo(TrimRight(r, '/')) {
      PrefixContains(r, TrimRight(r, '/'), VIDEO_PATTERN);
    }
  }

  // Canonicalisation is idempotent on exactly the links whose key is not the
  // empty-id video key, which canonicalises to nothing.
  lemma Idempotent(raw: string)
    ensures Canonicalize(Canonicalize(raw)) == Canonicalize(raw) <==> Canonicalize(raw) != EMPTY_ID
  {
    var r, key := Before(raw, '#'), Canonicalize(raw);
    FragmentFree(raw);
    assert Before(key, '#') == key;
    if !HasPrefix(r, BASE_URL) || key == "" {
      assert EMPTY_ID[0] == 'h';
    } else if IsVideo(r) {
      VideoKey(raw);
      var id := VideoId(raw);
      VideoKeyIndex(id);
      assert key[Index(key, VIDEO_PATTERN) + |VIDEO_PATTERN|..] == id;
      assert '&' !in id;
      assert Before(id, '&') == id;
      assert key == EMPTY_ID ==> id == "";
    } else {
      assert key == TrimRight(r, '/');
      TrimKeepsBase(r);
      if IsVideo(key) {
        PrefixContains(r, key, VIDEO_PATTERN);
      }
      assert TrimRight(key, '/') == key;
      VideoKeyIndex("");
      assert EMPTY_ID + "" == EMPTY_ID;
    }
  }

  lemma TrimKeepsBase(r: string)
    requires HasPrefix(r, BASE_URL)
    ensures HasPrefix(TrimRight(r, '/'), BASE_URL)
  {
    var t := TrimRight(r, '/');
    assert r[|BASE_URL| - 1] == r[0..|BASE_URL|][|BASE_URL| - 1] == 'm';
    assert |t| >= |BASE_URL|;
    assert t[0..|BASE_URL|] == r[0..|BASE_URL|];
  }

  // The empty-id key arises exactly from a link whose first pattern is
  // followed at once by '&'; nothing after the pattern gives no key at all.
  lemma EmptyIdKey(raw: string)
    ensures Canonicalize(raw) == EMPTY_ID <==>
      TakenForVideo(raw) && VideoTail(Before(raw, '#')) != "" && VideoTail(Before(raw, '#'))[0] == '&'
  {
    var r := Before(raw, '#');
    VideoKeyIndex("");
    assert EMPTY_ID + "" == EMPTY_ID;
    if TakenForVideo(raw) {
      var tail := VideoTail(r);
      if tail != "" {
        assert Canonicalize(raw) == EMPTY_ID + Before(tail, '&');
        assert Canonicalize(raw) == EMPTY_ID <==> Before(tail, '&') == "";
      }
    } else if Canonicalize(raw) == EMPTY_ID {
      KeepsClass(raw);
    }
  }

  // For one, a video link with no id but another parameter.
  lemma EmptyIdLink()
    ensures Canonicalize("https://www.vidlii.com/watch?v=&a") == "https://www.vidlii.com/watch?v="
    ensures Canonicalize("https://www.vidlii.com/watch?v=") == ""
  {
    LinkTexts();
    LinkWithoutId("&a");
    LinkWithoutId("");
  }

  lemma LinkTexts()
    ensures EMPTY_ID + "&a" == "https://www.vidlii.com/watch?v=&a"
    ensures EMPTY_ID + "" == EMPTY_ID == "https://www.vidlii.com/watch?v="
  {
  }

  lemma LinkWithoutId(rest: string)
    requires '#' !in rest && (rest != "" ==> rest[0] == '&')
    ensures Canonicalize(EMPTY_ID + rest) == if rest == "" then "" else EMPTY_ID
  {
    var raw := EMPTY_ID + rest;
    VideoKeyIndex(rest);
    assert '#' !in BASE_URL && '#' !in VIDEO_PATTERN;
    assert Before(raw, '#') == raw && VideoTail(raw) == rest;
    EmptyIdKey(raw);
  }

  // Two video links share a key iff they share an id.
  lemma SameKeyIffSameId(a: string, b: string)
    requires TakenForVideo(a) && TakenForVideo(b)
    ensures IsVideo(a) && IsVideo(b)
    ensures Canonicalize(a) != "" && Canonicalize(b) != "" ==>
      (Canonicalize(a) == Canonicalize(b) <==> VideoId(a) == VideoId(b))
  {
    VideoKey(a);
    VideoKey(b);
    assert (EMPTY_ID + VideoId(a))[|EMPTY_ID|..] == VideoId(a);
    assert (EMPTY_ID + VideoId(b))[|EMPTY_ID|..] == VideoId(b);
  }

  // --- listings ---

  // A link the crawler takes for one of its listing pages.
  predicate TakenForListing(raw: string) {
    HasPrefix(Before(raw, '#'), BASE_URL) && !IsVideo(Before(raw, '#'))
  }

  // From its k-th character on the text is slashes only.
  predicate SlashesFrom(s: string, k: nat) { forall i | k <= i < |s| :: s[i] == '/' }

  // One text is the other with slashes behind it.
  predicate SlashesApart(a: string, b: string) {
    (a <= b && SlashesFrom(b, |a|)) || (b <= a && SlashesFrom(a, |b|))
  }

  // The key is the text less exactly the slashes it ends in.
  predicate Trimmed(text: string, key: string) {
    key != "" && key <= text && key[|key| - 1] != '/' && SlashesFrom(text, |key|)
  }

  // A listing link's key is what comes before its fragment, less the slashes that ends in.
  lemma ListingKey(raw: string)
    requires TakenForListing(raw)
    ensures var text, key := Before(raw, '#'), Canonicalize(raw);
      key != "" && key <= text && key[|key| - 1] != '/' && SlashesFrom(text, |key|)
  {
    assert Canonicalize(raw) == TrimRight(Before(raw, '#'), '/');
    KeepsBase(Before(raw, '#'));
  }

  lemma KeepsBase(text: string)
    requires HasPrefix(text, BASE_URL)
    ensures Trimmed(text, TrimRight(text, '/'))
  {
    TrimKeepsBase(text);
  }

  lemma TrimmedAlike(a: string, b: string, x: string, y: string)
    requires Trimmed(a, x) && Trimmed(b, y) && a <= b && SlashesFrom(b, |a|)
    ensures x == y
  {
    assert b[|x| - 1] == a[|x| - 1] == x[|x| - 1] != '/';
    assert b[|y| - 1] == y[|y| - 1] != '/';
    assert |y| <= |a| ==> a[|y| - 1] == b[|y| - 1];
    assert |x| == |y|;
    assert x == b[..|x|] == y;
  }

  lemma TrimmedApart(a: string, b: string, x: string)
    requires Trimmed(a, x) && Trimmed(b, x) && |a| <= |b|
    ensures a <= b && SlashesFrom(b, |a|)
  {
    forall i | 0 <= i < |a| ensures a[i] == b[i] {
      if i < |x| { assert a[i] == x[i] == b[i]; }
    }
  }

  lemma TrimmedIff(a: string, b: string, x: string, y: string)
    requires Trimmed(a, x) && Trimmed(b, y)
    ensures x == y <==> SlashesApart(a, b)
  {
    if a <= b && SlashesFrom(b, |a|) {
      TrimmedAlike(a, b, x, y);
    } else if b <= a && SlashesFrom(a, |b|) {
      TrimmedAlike(b, a, y, x);
    } else if x == y {
      if |a| <= |b| { TrimmedApart(a, b, x); } else { TrimmedApart(b, a, x); }
    }
  }

  // Two listing links share a key iff they differ, fragments aside, in trailing slashes only.
  lemma SameKeyIffSlashesApart(a: string, b: string)
    requires TakenForListing(a) && TakenForListing(b)
    ensures Canonicalize(a) == Canonicalize(b) <==> SlashesApart(Before(a, '#'), Before(b, '#'))
  {
    ListingKey(a);
    ListingKey(b);
    TrimmedIff(Before(a, '#'), Before(b, '#'), Canonicalize(a), Canonicalize(b));
  }

  lemma VideoHasKey(raw: string)
    requires TakenForVideo(raw)
    ensures Canonicalize(raw) == "" <==> VideoTail(Before(raw, '#')) == ""
  {
    var tail := VideoTail(Before(raw, '#'));
    if tail != "" {
      assert Canonicalize(raw) == EMPTY_ID + Before(tail, '&');
      assert |Canonicalize(raw)| >= |BASE_URL + VIDEO_PATTERN| > 0;
    }
  }

  // The video pattern ends the text and is nowhere before.
  predicate OnlyEndsInPattern(text: string) {
    text != "" && IsVideo(text) && !IsVideo(text[..|text| - 1])
  }

  // A link has no key iff, its fragment aside, it does not begin with the base URL or has
  // the video pattern at its very end only.
  lemma NoKeyIff(raw: string)
    ensures Canonicalize(raw) == "" <==>
      !HasPrefix(Before(raw, '#'), BASE_URL) || OnlyEndsInPattern(Before(raw, '#'))
  {
    if TakenForVideo(raw) {
      VideoHasKey(raw);
      PatternOnlyEnds(Before(raw, '#'));
    } else if TakenForListing(raw) {
      ListingKey(raw);
    } else {
      assert !HasPrefix(Before(raw, '#'), BASE_URL);
    }
  }

  lemma PatternOnlyEnds(text: string)
    requires IsVideo(text)
    ensures VideoTail(text) == "" <==> OnlyEndsInPattern(text)
  {
    var i, most := Index(text, VIDEO_PATTERN), text[..|text| - 1];
    if VideoTail(text) == "" {
      if IsVideo(most) { PrefixContains(text, most, VIDEO_PATTERN); }
    } else {
      assert most[i..i + |VIDEO_PATTERN|] == text[i..i + |VIDEO_PATTERN|];
      assert MatchesAt(most, VIDEO_PATTERN, i);
    }
  }

  // --- the host ---

  const SCHEME := "https://"
  const HOST := "www.vidlii.com"

  predicate EndsHost(c: char) { c == '/' || c == '?' || c == '#' }

  function UntilHostEnds(s: string): string {
    if s == "" || EndsHost(s[0]) then "" else [s[0]] + UntilHostEnds(s[1..])
  }

  // The authority of an https URL: what lies between the scheme and the path, the query
  // or the fragment (section 3.2 of RFC 3986).
  function Authority(url: string): string
    requires HasPrefix(url, SCHEME)
  {
    UntilHostEnds(url[|SCHEME|..])
  }

  // What follows the last '@', or all of it.
  function AfterUser(authority: string): string {
    if '@' !in authority then authority else AfterUser(authority[1..])
  }

  // The host of an https URL: the authority less the user before it and the port behind it.
  function HostOf(url: string): string
    requires HasPrefix(url, SCHEME)
  {
    Before(AfterUser(Authority(url)), ':')
  }

  lemma {:induction false} UntilHostEndsAfter(a: string, b: string)
    requires forall c | c in a :: !EndsHost(c)
    ensures UntilHostEnds(a + b) == a + UntilHostEnds(b)
  {
    if a == "" {
      assert a + b == b;
    } else {
      assert (a + b)[1..] == a[1..] + b;
      UntilHostEndsAfter(a[1..], b);
    }
  }

  lemma AuthorityIs(raw: string, scheme: string, host: string)
    requires HasPrefix(raw, scheme + host) && forall c | c in host :: !EndsHost(c)
    ensures UntilHostEnds(raw[|scheme|..]) == host + UntilHostEnds(raw[|scheme| + |host|..])
  {
    var n := |scheme| + |host|;
    assert raw == raw[0..n] + raw[n..];
    assert raw[|scheme|..] == host + raw[n..];
    UntilHostEndsAfter(host, raw[n..]);
  }

  lemma {:induction false} UserMayEndLater(a: string, b: string)
    requires '@' in b
    ensures AfterUser(a + b) == AfterUser(b)
  {
    if a == "" {
      assert a + b == b;
    } else {
      assert (a + b)[1..] == a[1..] + b;
      UserMayEndLater(a[1..], b);
    }
  }

  // Such a text is the host, or the host and a port.
  predicate IsHostAndPort(text: string, host: string) { text == host || host + ":" <= text }

  lemma BeforePortIs(text: string, host: string)
    requires ':' !in host
    ensures Before(text, ':') == host <==> IsHostAndPort(text, host)
  {
    if text == host || host + ":" <= text {
      assert |host| < |text| ==> text[|host|] == (host + ":")[|host|];
      BeforeIs(text, ':', host);
    }
  }

  lemma PortFollows(host: string, rest: string)
    ensures IsHostAndPort(host + rest, host) <==> rest == "" || rest[0] == ':'
  {
    if rest == "" {
      assert host + rest == host;
    } else {
      assert (host + rest)[|host|] == rest[0];
      assert rest[0] == ':' ==> host + ":" <= host + rest;
    }
  }

  lemma BaseParts()
    ensures BASE_URL == SCHEME + HOST && |BASE_URL| == |SCHEME| + |HOST|
    ensures forall c | c in HOST :: !EndsHost(c) && c != '@' && c != ':'
  {
  }

  // The rest of a kept link's authority behind the base URL.
  function AuthorityRest(raw: string): string
    requires |raw| >= |BASE_URL|
  {
    UntilHostEnds(raw[|BASE_URL|..])
  }

  // A kept link need only begin with the base URL. With no '@' in the rest of its authority
  // it is on the host iff the base URL is all of it or is followed by a path, a query, a
  // fragment or a port. Otherwise the base URL only begins a user's name, and the link is
  // on the host iff the host, or the host and a port, come again behind the last '@'.
  lemma KeptIsOnHost(raw: string)
    ensures Canonicalize(raw) != "" ==>
      && HasPrefix(raw, SCHEME) && |raw| >= |BASE_URL|
      && (HostOf(raw) == HOST <==>
            if '@' in AuthorityRest(raw) then IsHostAndPort(AfterUser(AuthorityRest(raw)), HOST)
            else |raw| == |BASE_URL| || EndsHost(raw[|BASE_URL|]) || raw[|BASE_URL|] == ':')
  {
    if Canonicalize(raw) != "" {
      BaseParts();
      BeginsWithBase(raw, SCHEME, HOST);
      AuthorityIs(raw, SCHEME, HOST);
      HostBehind(HOST, AuthorityRest(raw));
      RestBegins(raw[|BASE_URL|..]);
    }
  }

  lemma HostBehind(host: string, rest: string)
    requires forall c | c in host :: c != '@' && c != ':'
    ensures Before(AfterUser(host + rest), ':') == host <==>
      if '@' in rest then IsHostAndPort(AfterUser(rest), host) else rest == "" || rest[0] == ':'
  {
    if '@' in rest {
      UserMayEndLater(host, rest);
      BeforePortIs(AfterUser(rest), host);
    } else {
      assert AfterUser(host + rest) == host + rest;
      BeforePortIs(host + rest, host);
      PortFollows(host, rest);
    }
  }

  lemma RestBegins(tail: string)
    ensures UntilHostEnds(tail) == "" <==> tail == "" || EndsHost(tail[0])
    ensures UntilHostEnds(tail) != "" ==> UntilHostEnds(tail)[0] == tail[0]
  {
  }

  lemma BeginsWithBase(raw: string, scheme: string, host: string)
    requires Canonicalize(raw) != "" && BASE_URL == scheme + host
    ensures HasPrefix(raw, scheme + host) && HasPrefix(raw, scheme)
  {
    var r := Before(raw, '#');
    assert r[0..|BASE_URL|] == BASE_URL && raw[0..|BASE_URL|] == r[0..|BASE_URL|];
    assert raw[0..|scheme|] == (scheme + host)[0..|scheme|] == scheme;
  }

  lemma VideoHasQuery(s: string)
    ensures IsVideo(s) ==> '?' in s
  {
    if IsVideo(s) {
      var i := Index(s, VIDEO_PATTERN);
      var w := s[i..i + |VIDEO_PATTERN|];
      assert w == VIDEO_PATTERN && w[6] == '?' && s[i + 6] == w[6];
    }
  }

  lemma PlainKey(tail: string)
    requires tail != "" && forall c | c in tail :: !EndsHost(c)
    ensures Canonicalize(BASE_URL + tail) == BASE_URL + tail
  {
    var raw := BASE_URL + tail;
    assert '?' !in BASE_URL && '#' !in BASE_URL;
    assert raw[0..|BASE_URL|] == BASE_URL;
    VideoHasQuery(raw);
    assert !EndsHost(raw[|raw| - 1]) by { assert raw[|raw| - 1] == tail[|tail| - 1]; }
    assert Before(raw, '#') == raw && TrimRight(raw, '/') == raw;
  }

  // So a host whose name only begins like the crawler's is kept, and so is a port.
  lemma OffHostLink()
    ensures var raw := BASE_URL + ".example";
      Canonicalize(raw) == raw && HasPrefix(raw, SCHEME) && HostOf(raw) != HOST
  {
    KeptTail(".example");
  }

  lemma PortLink()
    ensures var raw := BASE_URL + ":443";
      Canonicalize(raw) == raw && HasPrefix(raw, SCHEME) && HostOf(raw) == HOST
  {
    KeptTail(":443");
  }

  lemma KeptTail(tail: string)
    requires tail != "" && forall c | c in tail :: !EndsHost(c) && c != '@'
    ensures var raw := BASE_URL + tail;
      Canonicalize(raw) == raw && HasPrefix(raw, SCHEME) && (HostOf(raw) == HOST <==> tail[0] == ':')
  {
    var raw := BASE_URL + tail;
    PlainKey(tail);
    assert raw != "" && raw[|BASE_URL|] == tail[0] && raw[|BASE_URL|..] == tail;
    UntilHostEndsAfter(tail, "");
    assert tail + "" == tail;
    KeptIsOnHost(raw);
  }
}
