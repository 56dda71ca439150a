/** Retrying the admission of a page's children (internal/crawler/worker.go,
    internal/storage/frontier.go): a worker that meets an admission error nacks the
    parent, and the next holder admits the whole set again. */
module Retry {
  import opened Canonical
  import opened Keyspace
  import opened Scripts
  import opened Recovery
  import opened Worker

  // All keys admitted in turn at one clock.
  function AdmitAll(c: Config, s: Store, keys: seq<string>, now: int): Store
    requires c.Valid()
    decreases |keys|
  {
    if keys == [] then s
    else AdmitAll(c, Do(c, s, AdmitOp(keys[0], now), WHOLE), keys[1..], now)
  }

  lemma {:induction false} AdmitAllSplits(c: Config, s: Store, a: seq<string>, b: seq<string>, now: int)
    requires c.Valid()
    ensures AdmitAll(c, s, a + b, now) == AdmitAll(c, AdmitAll(c, s, a, now), b, now)
    decreases |a|
  {
    if a == [] {
      assert a + b == b;
    } else {
      assert (a + b)[1..] == a[1..] + b;
      AdmitAllSplits(c, Do(c, s, AdmitOp(a[0], now), WHOLE), a[1..], b, now);
    }
  }

  // --- one admission, with its bookkeeping apart from its job ---

  // It marks the URL known, ...
  function Mark(c: Config, s: Store, url: string, now: int): Store {
    if Blocked(s, url, now) then s
    else if IsVideo(url) then s.(dead := s.dead - {url}, bits := s.bits + c.hash(url))
    else s.(dead := s.dead - {url}, next := if NotDue(s, url, now) then s.next else s.next[url := PENDING])
  }

  // ... and pushes a job unless the URL was known before.
  predicate Pushes(c: Config, s: Store, url: string, now: int) {
    !Blocked(s, url, now) && if IsVideo(url) then !Positive(c, s, url) else !NotDue(s, url, now)
  }

  function OneIf(b: bool, url: string): multiset<string> { if b then multiset{url} else multiset{} }

  function Pushed(q: seq<Member>, b: bool, m: Member): seq<Member> { if b then [m] + q else q }

  lemma PushedBag(q: seq<Member>, b: bool, m: Member)
    ensures UrlBag(Pushed(q, b, m)) == UrlBag(q) + OneIf(b, m.url)
    ensures Remove([m] + q, m) == q
  {
    assert ([m] + q)[1..] == q;
  }

  lemma VideoDone(c: Config, s: Store, url: string, now: int)
    requires IsVideo(url)
    ensures var t := AdmitVideoScript(c, s, url, now, WHOLE);
      && t == Mark(c, s, url, now).(lastId := t.lastId, ready := t.ready)
      && t.ready == Pushed(s.ready, Pushes(c, s, url, now), Fresh(s, url))
  {
    PushedBag(s.ready, true, Fresh(s, url));
    if Blocked(s, url, now) {
    } else if Positive(c, s, url) {
    } else {
    }
  }

  lemma ListingDone(c: Config, s: Store, url: string, now: int)
    requires !IsVideo(url)
    ensures var t := AdmitListingScript(s, url, now, WHOLE);
      && t == Mark(c, s, url, now).(lastId := t.lastId, ready := t.ready)
      && t.ready == Pushed(s.ready, Pushes(c, s, url, now), Fresh(s, url))
  {
    if Blocked(s, url, now) {
    } else if NotDue(s, url, now) {
    } else {
    }
  }

  predicate Done(c: Config, s: Store, t: Store, url: string, now: int) {
    && t == Mark(c, s, url, now).(lastId := t.lastId, ready := t.ready)
    && UrlBag(t.ready) == UrlBag(s.ready) + OneIf(Pushes(c, s, url, now), url)
  }

  lemma AdmissionDone(c: Config, s: Store, url: string, now: int)
    requires c.Valid()
    ensures Done(c, s, Do(c, s, AdmitOp(url, now), WHOLE), url, now)
  {
    if IsVideo(url) {
      VideoDone(c, s, url, now);
    } else {
      ListingDone(c, s, url, now);
    }
    PushedBag(s.ready, Pushes(c, s, url, now), Fresh(s, url));
  }

  // --- when an admission has nothing left to do ---

  predicate Absorbed(c: Config, s: Store, url: string, now: int) {
    Blocked(s, url, now) || (url !in s.dead && if IsVideo(url) then Positive(c, s, url) else NotDue(s, url, now))
  }

  // An admission leaves its URL with nothing left to do, ...
  lemma AdmissionAbsorbs(c: Config, s: Store, url: string, now: int)
    requires c.Valid() && now < PENDING
    ensures Absorbed(c, Do(c, s, AdmitOp(url, now), WHOLE), url, now)
  {
    if IsVideo(url) {
      VideoAbsorbs(c, s, url, now);
    } else {
      ListingAbsorbs(c, s, url, now);
    }
  }

  lemma VideoAbsorbs(c: Config, s: Store, url: string, now: int)
    requires IsVideo(url)
    ensures Absorbed(c, AdmitVideoScript(c, s, url, now, WHOLE), url, now)
  {
  }

  lemma ListingAbsorbs(c: Config, s: Store, url: string, now: int)
    requires !IsVideo(url) && now < PENDING
    ensures Absorbed(c, AdmitListingScript(s, url, now, WHOLE), url, now)
  {
    if Blocked(s, url, now) {
    } else if NotDue(s, url, now) {
    } else {
    }
  }

  // ... no other admission at that clock, whole or broken off, gives it more to do, ...
  lemma StaysAbsorbed(c: Config, s: Store, url: string, other: string, now: int, cut: nat)
    requires c.Valid() && now < PENDING && Absorbed(c, s, url, now)
    ensures Absorbed(c, Do(c, s, AdmitOp(other, now), cut), url, now)
  {
    if IsVideo(other) {
      VideoKeepsAbsorbed(c, s, url, other, now, cut);
    } else {
      ListingKeepsAbsorbed(c, s, url, other, now, cut);
    }
  }

  lemma VideoKeepsAbsorbed(c: Config, s: Store, url: string, other: string, now: int, cut: nat)
    requires Absorbed(c, s, url, now)
    ensures Absorbed(c, AdmitVideoScript(c, s, other, now, cut), url, now)
  {
  }

  lemma ListingKeepsAbsorbed(c: Config, s: Store, url: string, other: string, now: int, cut: nat)
    requires now < PENDING && Absorbed(c, s, url, now)
    ensures Absorbed(c, AdmitListingScript(s, other, now, cut), url, now)
  {
    if other != url {
    } else {
    }
  }

  // ... and admitting it again is refused and only burns a job id.
  lemma AbsorbedRefuses(c: Config, s: Store, url: string, now: int)
    requires c.Valid() && Absorbed(c, s, url, now)
    ensures var t := Do(c, s, AdmitOp(url, now), WHOLE);
      t == s.(lastId := t.lastId) && s.lastId <= t.lastId <= s.lastId + 1
    ensures ReplyOf(c, s, AdmitOp(url, now), WHOLE) == Suppressed
  {
    if url !in s.dead {
      assert s.dead - {url} == s.dead;
      if IsVideo(url) { assert s.bits + c.hash(url) == s.bits; }
    }
  }

  // --- stores that differ in job ids, and by extra jobs in ready ---

  predicate Near(s: Store, t: Store, extra: multiset<string>) {
    t == s.(lastId := t.lastId, ready := t.ready) && UrlBag(t.ready) == UrlBag(s.ready) + extra
  }

  // Neither job ids nor the jobs in ready enter into an admission's decisions.
  lemma SameMarks(c: Config, s: Store, t: Store, url: string, now: int)
    requires t == s.(lastId := t.lastId, ready := t.ready)
    ensures Mark(c, t, url, now) == Mark(c, s, url, now).(lastId := t.lastId, ready := t.ready)
    ensures Pushes(c, t, url, now) == Pushes(c, s, url, now)
  {
    assert t.dead == s.dead && t.bits == s.bits && t.next == s.next;
    if Blocked(s, url, now) {
    } else if IsVideo(url) {
    } else {
    }
  }

  lemma BagsCommute(a: multiset<string>, b: multiset<string>, c: multiset<string>)
    ensures a + b + c == a + c + b
  {
  }

  lemma NearDone(c: Config, s: Store, t: Store, s': Store, t': Store, extra: multiset<string>, url: string, now: int)
    requires Near(s, t, extra) && Done(c, s, s', url, now) && Done(c, t, t', url, now)
    ensures Near(s', t', extra)
  {
    SameMarks(c, s, t, url, now);
    BagsCommute(UrlBag(s.ready), extra, OneIf(Pushes(c, s, url, now), url));
  }

  lemma NearNext(c: Config, s: Store, t: Store, extra: multiset<string>, url: string, now: int)
    requires c.Valid() && Near(s, t, extra)
    ensures Near(Do(c, s, AdmitOp(url, now), WHOLE), Do(c, t, AdmitOp(url, now), WHOLE), extra)
  {
    AdmissionDone(c, s, url, now);
    AdmissionDone(c, t, url, now);
    NearDone(
      c, s, t, Do(c, s, AdmitOp(url, now), WHOLE), Do(c, t, AdmitOp(url, now), WHOLE), extra, url, now);
  }

  lemma {:induction false} NearAll(
      c: Config, s: Store, t: Store, extra: multiset<string>, keys: seq<string>, now: int)
    requires c.Valid() && Near(s, t, extra)
    ensures Near(AdmitAll(c, s, keys, now), AdmitAll(c, t, keys, now), extra)
    decreases |keys|
  {
    if keys != [] {
      NearNext(c, s, t, extra, keys[0], now);
      NearAll(c, Do(c, s, AdmitOp(keys[0], now), WHOLE), Do(c, t, AdmitOp(keys[0], now), WHOLE), extra, keys[1..], now);
    }
  }

  // --- one admission broken off and repeated ---

  // The job a broken-off admission leaves that its repeat does not take over: one pushed
  // before the URL was marked known, or a known video's not yet taken back.
  function Leftover(c: Config, s: Store, url: string, now: int, cut: nat): multiset<string> {
    if Blocked(s, url, now) then multiset{}
    else if IsVideo(url) then
      if cut == 3 || (cut == 4 && Positive(c, s, url)) then multiset{url} else multiset{}
    else if cut == 3 && !NotDue(s, url, now) then multiset{url}
    else multiset{}
  }

  // What the break leaves in ready: its push was made and not taken back.
  predicate LeftPushed(c: Config, s: Store, url: string, now: int, cut: nat) {
    !Blocked(s, url, now) && cut >= 3 &&
    if IsVideo(url) then !Positive(c, s, url) || cut < 5 else !NotDue(s, url, now)
  }

  predicate Broken(c: Config, s: Store, mid: Store, url: string, now: int, cut: nat) {
    && Mark(c, mid, url, now) == Mark(c, s, url, now).(lastId := mid.lastId, ready := mid.ready)
    && mid.ready == Pushed(s.ready, LeftPushed(c, s, url, now, cut), Fresh(s, url))
  }

  lemma VideoBroken(c: Config, s: Store, url: string, now: int, cut: nat)
    requires IsVideo(url)
    ensures Broken(c, s, AdmitVideoScript(c, s, url, now, cut), url, now, cut)
  {
    PushedBag(s.ready, true, Fresh(s, url));
    assert s.dead - {url} - {url} == s.dead - {url};
    if Blocked(s, url, now) {
    } else {
      assert s.bits + c.hash(url) + c.hash(url) == s.bits + c.hash(url);
    }
  }

  lemma ListingBroken(c: Config, s: Store, url: string, now: int, cut: nat)
    requires !IsVideo(url) && now < PENDING
    ensures Broken(c, s, AdmitListingScript(s, url, now, cut), url, now, cut)
  {
    assert s.dead - {url} - {url} == s.dead - {url};
    if Blocked(s, url, now) {
    } else if NotDue(s, url, now) {
    } else {
      assert s.next[url := PENDING][url := PENDING] == s.next[url := PENDING];
    }
  }

  // The repeat pushes unless the break already marked the URL.
  lemma VideoPushesAgain(c: Config, s: Store, url: string, now: int, cut: nat)
    requires IsVideo(url)
    ensures Pushes(c, AdmitVideoScript(c, s, url, now, cut), url, now) <==> Pushes(c, s, url, now) && cut < 4
  {
  }

  lemma ListingPushesAgain(c: Config, s: Store, url: string, now: int, cut: nat)
    requires !IsVideo(url) && now < PENDING
    ensures Pushes(c, AdmitListingScript(s, url, now, cut), url, now) <==> Pushes(c, s, url, now) && cut < 4
  {
  }

  lemma BrokenDone(c: Config, s: Store, mid: Store, s': Store, t': Store, url: string, now: int, cut: nat)
    requires Broken(c, s, mid, url, now, cut) && Done(c, s, s', url, now) && Done(c, mid, t', url, now)
    requires Pushes(c, mid, url, now) <==> Pushes(c, s, url, now) && cut < 4
    ensures Near(s', t', Leftover(c, s, url, now, cut))
  {
    PushedBag(s.ready, LeftPushed(c, s, url, now, cut), Fresh(s, url));
  }

  lemma AgainAfterBreak(c: Config, s: Store, url: string, now: int, cut: nat)
    requires c.Valid() && now < PENDING
    ensures var op := AdmitOp(url, now);
      Near(Do(c, s, op, WHOLE), Do(c, Do(c, s, op, cut), op, WHOLE), Leftover(c, s, url, now, cut))
  {
    var mid := Do(c, s, AdmitOp(url, now), cut);
    if IsVideo(url) {
      VideoBroken(c, s, url, now, cut);
      VideoPushesAgain(c, s, url, now, cut);
    } else {
      ListingBroken(c, s, url, now, cut);
      ListingPushesAgain(c, s, url, now, cut);
    }
    AdmissionDone(c, s, url, now);
    AdmissionDone(c, mid, url, now);
    BrokenDone(
      c, s, mid, Do(c, s, AdmitOp(url, now), WHOLE), Do(c, mid, AdmitOp(url, now), WHOLE), url, now, cut);
  }

  // --- the whole set broken off and repeated ---

  lemma {:induction false} AllAbsorbed(c: Config, s: Store, keys: seq<string>, now: int)
    requires c.Valid() && now < PENDING
    ensures forall url | url in keys :: Absorbed(c, AdmitAll(c, s, keys, now), url, now)
    decreases |keys|
  {
    if keys != [] {
      var t := Do(c, s, AdmitOp(keys[0], now), WHOLE);
      AllAbsorbed(c, t, keys[1..], now);
      AdmissionAbsorbs(c, s, keys[0], now);
      AllStayAbsorbed(c, t, keys[0], keys[1..], now);
      assert keys == [keys[0]] + keys[1..];
    }
  }

  lemma {:induction false} AllStayAbsorbed(c: Config, s: Store, url: string, keys: seq<string>, now: int)
    requires c.Valid() && now < PENDING && Absorbed(c, s, url, now)
    ensures Absorbed(c, AdmitAll(c, s, keys, now), url, now)
    decreases |keys|
  {
    if keys != [] {
      StaysAbsorbed(c, s, url, keys[0], now, WHOLE);
      AllStayAbsorbed(c, Do(c, s, AdmitOp(keys[0], now), WHOLE), url, keys[1..], now);
    }
  }

  lemma {:induction false} AbsorbedAgain(c: Config, s: Store, keys: seq<string>, now: int)
    requires c.Valid() && now < PENDING && forall url | url in keys :: Absorbed(c, s, url, now)
    ensures var t := AdmitAll(c, s, keys, now); t == s.(lastId := t.lastId)
    decreases |keys|
  {
    if keys != [] {
      var t := Do(c, s, AdmitOp(keys[0], now), WHOLE);
      AbsorbedRefuses(c, s, keys[0], now);
      forall url | url in keys[1..] ensures Absorbed(c, t, url, now) {
        assert url in keys;
        StaysAbsorbed(c, s, url, keys[0], now, WHOLE);
      }
      AbsorbedAgain(c, t, keys[1..], now);
    }
  }

  // Admission `at` breaks off after `cut` writes and everything is admitted again: bits,
  // listing:next and dead come out as in one uninterrupted admission, and so do the
  // jobs, but for their ids and for the one job Leftover tells of.
  lemma BrokenOffThenAgain(c: Config, s: Store, keys: seq<string>, at: nat, cut: nat, now: int)
    requires c.Valid() && now < PENDING && at < |keys|
    ensures var before := AdmitAll(c, s, keys[..at], now);
      Near(
        AdmitAll(c, s, keys, now),
        AdmitAll(c, Do(c, before, AdmitOp(keys[at], now), cut), keys, now),
        Leftover(c, before, keys[at], now, cut))
  {
    var done, url, rest := keys[..at], keys[at], keys[at + 1..];
    assert keys == done + ([url] + rest) && ([url] + rest)[1..] == rest;
    var before, op := AdmitAll(c, s, done, now), AdmitOp(url, now);
    var mid := Do(c, before, op, cut);
    AdmitAllSplits(c, s, done, [url] + rest, now);
    AdmitAllSplits(c, mid, done, [url] + rest, now);
    AllAbsorbed(c, s, done, now);
    forall u | u in done ensures Absorbed(c, mid, u, now) {
      StaysAbsorbed(c, before, u, url, now, cut);
    }
    AbsorbedAgain(c, mid, done, now);
    var mid' := AdmitAll(c, mid, done, now);
    NearNext(c, mid, mid', multiset{}, url, now);
    AgainAfterBreak(c, before, url, now, cut);
    NearAll(c, Do(c, before, op, WHOLE), Do(c, mid', op, WHOLE), Leftover(c, before, url, now, cut), rest, now);
  }

  // --- over runs of the scripts ---

  lemma AdmitsOneMore(c: Config, s: Store, keys: seq<string>, now: int, i: nat)
    requires c.Valid() && i < |keys|
    ensures AdmitAll(c, s, keys[..i + 1], now) ==
      Do(c, AdmitAll(c, s, keys[..i], now), AdmitOp(keys[i], now), WHOLE)
  {
    assert keys[..i + 1] == keys[..i] + [keys[i]];
    AdmitAllSplits(c, s, keys[..i], [keys[i]], now);
    assert [keys[i]][1..] == [];
  }

  lemma {:induction false} RunAdmitsAll(
      c: Config, keys: seq<string>, clock: nat -> int, now: int, at: nat, cut: nat, tr: seq<Store>, i: nat)
    requires c.Valid() && i <= at && i <= |keys| && forall k | 0 <= k < |keys| :: clock(k) == now
    requires Follows(c, Batch(AdmitOps(keys, clock), at, cut), tr)
    ensures tr[i] == AdmitAll(c, tr[0], keys[..i], now)
  {
    if i > 0 {
      RunAdmitsAll(c, keys, clock, now, at, cut, tr, i - 1);
      BatchSteps(AdmitOps(keys, clock), at, cut);
      assert Batch(AdmitOps(keys, clock), at, cut)[i - 1] == Step(AdmitOp(keys[i - 1], now), WHOLE);
      AdmitsOneMore(c, tr[0], keys, now, i - 1);
    }
  }

  // enqueueChildren breaks off inside admission `at` and is called again: compared with
  // one call that went through, only job ids and the job Leftover tells of differ.
  lemma RetryAfterError(
      c: Config, keys: seq<string>, clock: nat -> int, now: int, at: nat, cut: nat,
      broken: seq<Store>, again: seq<Store>, straight: seq<Store>)
    requires c.Valid() && now < PENDING && at < |keys| && forall k | 0 <= k < |keys| :: clock(k) == now
    requires Follows(c, Batch(AdmitOps(keys, clock), at, cut), broken)
    requires Follows(c, Whole(AdmitOps(keys, clock)), again) && again[0] == broken[at + 1]
    requires Follows(c, Whole(AdmitOps(keys, clock)), straight) && straight[0] == broken[0]
    ensures Near(straight[|keys|], again[|keys|], Leftover(c, broken[at], keys[at], now, cut))
  {
    RunAdmitsAll(c, keys, clock, now, at, cut, broken, at);
    RunAdmitsAll(c, keys, clock, now, |keys|, 0, again, |keys|);
    RunAdmitsAll(c, keys, clock, now, |keys|, 0, straight, |keys|);
    assert keys[..|keys|] == keys;
    assert Batch(AdmitOps(keys, clock), at, cut)[at] == Step(AdmitOp(keys[at], now), cut);
    BrokenOffThenAgain(c, broken[0], keys, at, cut, now);
  }

  lemma RefusedStep(c: Config, s: Store, t: Store, url: string, now: int)
    requires c.Valid() && Absorbed(c, s, url, now) && t == s.(lastId := t.lastId)
    ensures var u := Do(c, t, AdmitOp(url, now), WHOLE); u == s.(lastId := u.lastId)
    ensures ReplyOf(c, t, AdmitOp(url, now), WHOLE) == Suppressed
  {
    AbsorbedRefuses(c, t, url, now);
  }

  lemma {:induction false} AllRefused(
      c: Config, keys: seq<string>, clock: nat -> int, now: int, tr: seq<Store>, i: nat)
    requires c.Valid() && i <= |keys| && Follows(c, Whole(AdmitOps(keys, clock)), tr)
    requires forall k | 0 <= k < |keys| :: clock(k) == now && Absorbed(c, tr[0], keys[k], now)
    ensures tr[i] == tr[0].(lastId := tr[i].lastId)
    ensures NewCount(c, Whole(AdmitOps(keys, clock)), tr, i) == 0
  {
    if i > 0 {
      var run := Whole(AdmitOps(keys, clock));
      AllRefused(c, keys, clock, now, tr, i - 1);
      assert run[i - 1] == Step(AdmitOp(keys[i - 1], clock(i - 1)), WHOLE);
      RefusedStep(c, tr[0], tr[i - 1], keys[i - 1], now);
    }
  }

  // A second call at the same clock answers New to nothing and only burns job ids.
  lemma RerunAdmitsNone(
      c: Config, keys: seq<string>, clock: nat -> int, now: int, first: seq<Store>, again: seq<Store>)
    requires c.Valid() && now < PENDING && forall k | 0 <= k < |keys| :: clock(k) == now
    requires Follows(c, Whole(AdmitOps(keys, clock)), first)
    requires Follows(c, Whole(AdmitOps(keys, clock)), again) && again[0] == first[|keys|]
    ensures again[|keys|] == first[|keys|].(lastId := again[|keys|].lastId)
    ensures NewCount(c, Whole(AdmitOps(keys, clock)), again, |keys|) == 0
  {
    RunAdmitsAll(c, keys, clock, now, |keys|, 0, first, |keys|);
    assert keys[..|keys|] == keys;
    AllAbsorbed(c, first[0], keys, now);
    AllRefused(c, keys, clock, now, again, |keys|);
  }
}
