/** How the frontier packs a job into "<jobID>|<url>" and a verdict into
    "<reason>|<until>", and how Go and Lua take them apart again
    (internal/storage/frontier.go). The other modules use the unpacked pairs;
    the lemmas here are what entitles them to. */
module Encoding {
  import opened Text

  predicate IsDigit(c: char) { '0' <= c <= '9' }

  function Decimal(n: nat): (s: string)
    ensures s != "" && forall c | c in s :: IsDigit(c)
  {
    if n < 10 then [('0' as int + n) as char]
    else Decimal(n / 10) + [('0' as int + n % 10) as char]
  }

  // Lua's tonumber, for the decimal numerals the scripts write: nil for anything else.
  function ParseDecimal(s: string): Option<nat> {
    if s == "" || !IsDigit(s[|s| - 1]) then None
    else
      var d := s[|s| - 1] as int - '0' as int;
      if |s| == 1 then Some(d)
      else match ParseDecimal(s[..|s| - 1])
        case None => None
        case Some(high) => Some(10 * high + d)
  }

  function EncodeMember(id: nat, url: string): string { Decimal(id) + "|" + url }

  function EncodeVerdict(reason: string, until: nat): string { reason + "|" + Decimal(until) }

  // Go's splitMember: the parts around the first '|'; no '|' means no URL.
  function SplitMember(member: string): (string, string) {
    var i := Index(member, "|");
    if i < 0 then (member, "") else (member[..i], member[i + 1..])
  }

  // Lua's string.find(s, '|', 1, true): a 1-based position, or nil.
  function LuaFind(s: string): Option<nat> {
    var i := Index(s, "|");
    if i < 0 then None else Some(i + 1)
  }

  // Lua's string.sub(s, i) for a positive i.
  function LuaSub(s: string, i: nat): string
    requires i >= 1
  {
    if i <= |s| then s[i - 1..] else ""
  }

  // string.sub(item, string.find(item, '|', 1, true) + 1); nil + 1 is a script error.
  function LuaTail(s: string): Option<string> {
    match LuaFind(s)
    case None => None
    case Some(i) => Some(LuaSub(s, i + 1))
  }

  function DecodeVerdict(d: string): Option<nat> {
    match LuaTail(d)
    case None => None
    case Some(tail) => ParseDecimal(tail)
  }

  lemma {:induction false} DecimalRoundTrip(n: nat)
    ensures ParseDecimal(Decimal(n)) == Some(n)
  {
    if n >= 10 {
      DecimalRoundTrip(n / 10);
      assert Decimal(n)[..|Decimal(n)| - 1] == Decimal(n / 10);
    }
  }

  lemma FirstBar(a: string, b: string)
    requires '|' !in a
    ensures Index(a + "|" + b, "|") == |a|
  {
    var s := a + "|" + b;
    assert s[|a|..|a| + 1] == "|";
    forall j | 0 <= j < |a| ensures !MatchesAt(s, "|", j) {
      assert s[j..j + 1][0] == a[j];
    }
    IndexIs(s, "|", |a|);
  }

  lemma MemberRoundTrip(id: nat, url: string)
    ensures SplitMember(EncodeMember(id, url)) == (Decimal(id), url)
    ensures LuaTail(EncodeMember(id, url)) == Some(url)
  {
    assert '|' !in Decimal(id);
    FirstBar(Decimal(id), url);
    assert EncodeMember(id, url)[..|Decimal(id)|] == Decimal(id);
    assert EncodeMember(id, url)[|Decimal(id)| + 1..] == url;
  }

  lemma MembersDistinct(id1: nat, url1: string, id2: nat, url2: string)
    ensures EncodeMember(id1, url1) == EncodeMember(id2, url2) <==> id1 == id2 && url1 == url2
  {
    MemberRoundTrip(id1, url1);
    MemberRoundTrip(id2, url2);
    DecimalRoundTrip(id1);
    DecimalRoundTrip(id2);
  }

  // Go and Lua read the same URL out of any member that has one.
  lemma LuaAgreesWithGo(member: string)
    ensures '|' in member ==> LuaTail(member) == Some(SplitMember(member).1)
    ensures '|' !in member ==> LuaTail(member) == None && SplitMember(member) == (member, "")
  {
    assert member[|member|..] == "";
    var i := Index(member, "|");
    assert i >= 0 ==> member[i] == member[i..i + 1][0];
    assert forall j | 0 <= j < |member| && member[j] == '|' :: MatchesAt(member, "|", j);
  }

  lemma {:induction false} ParsesOnlyDigits(s: string)
    ensures ParseDecimal(s).Some? ==> forall c | c in s :: IsDigit(c)
  {
    if ParseDecimal(s).Some? && |s| > 1 {
      ParsesOnlyDigits(s[..|s| - 1]);
      assert s == s[..|s| - 1] + [s[|s| - 1]];
    }
  }

  // A second '|' leaves text that is no numeral behind the first.
  lemma BarredReason(head: string, tail: string, until: nat)
    requires '|' !in head
    ensures DecodeVerdict(head + "|" + (tail + "|" + Decimal(until))) == None
  {
    var rest := tail + "|" + Decimal(until);
    FirstBar(head, rest);
    assert (head + "|" + rest)[|head| + 1..] == rest;
    assert rest[|tail|] == '|' && !IsDigit('|');
    assert '|' in rest;
    ParsesOnlyDigits(rest);
    assert |head| + 2 <= |head + "|" + rest|;
  }

  // The scripts read a verdict's deadline back iff its reason holds no '|'.
  lemma VerdictRoundTrip(reason: string, until: nat)
    ensures DecodeVerdict(EncodeVerdict(reason, until)) == Some(until) <==> '|' !in reason
    ensures DecodeVerdict(EncodeVerdict(reason, until)) == None <==> '|' in reason
  {
    var d := EncodeVerdict(reason, until);
    if '|' !in reason {
      DecimalRoundTrip(until);
      FirstBar(reason, Decimal(until));
      assert d[|reason| + 1..] == Decimal(until);
    } else {
      var head := Before(reason, '|');
      assert head != reason;
      var tail := reason[|head| + 1..];
      assert d == head + "|" + (tail + "|" + Decimal(until)) by {
        assert reason == head + "|" + tail;
      }
      BarredReason(head, tail, until);
    }
  }
}
