/** The listing scheduler's tick (runListingScheduler in internal/scheduler/scheduler.go):
    full pages are drained in a loop that stops at the first short one. */
module Scheduler {
  import opened Canonical
  import opened Keyspace
  import opened Scripts
  import opened Exclusive
  import opened Frontier

  // --- the loop ends ---

  function NonPending(s: Store): set<string> { set url | url in s.next && s.next[url] != PENDING }

  predicate Due(s: Store, url: string, now: int) { url in s.next && s.next[url] <= now }

  // A scheduler iteration in any store: what it starts is no longer non-pending, and
  // nothing becomes non-pending.
  lemma ScheduleShrinks(c: Config, s: Store, url: string, now: int, cut: nat)
    requires c.Valid() && Due(s, url, now) && now < PENDING
    ensures var t := Do(c, s, Schedule(url, now), cut);
      && NonPending(t) <= NonPending(s)
      && |t.ready| >= |s.ready|
      && (cut == WHOLE && |t.ready| > |s.ready| ==> url !in NonPending(t))
      && (forall u | u != url && u in s.next :: u in t.next && t.next[u] == s.next[u])
  {
  }

  // s, to t, after the first j iterations of an unbroken page.
  ghost predicate Shrunk(s: Store, t: Store, page: seq<string>, now: int, j: nat) {
    && NonPending(t) <= NonPending(s)
    && |t.ready| >= |s.ready|
    && (|t.ready| > |s.ready| ==> NonPending(t) != NonPending(s))
    && (forall i | j <= i < |page| :: Due(t, page[i], now))
  }

  lemma {:induction false} PageShrinks(c: Config, tr: seq<Store>, page: seq<string>, now: int, j: nat)
    requires c.Valid() && now < PENDING && Distinct(page) && j <= |page|
    requires Follows(c, Whole(ScheduleOps(page, now)), tr)
    requires forall i | 0 <= i < |page| :: Due(tr[0], page[i], now)
    ensures Shrunk(tr[0], tr[j], page, now, j)
  {
    if j > 0 {
      PageShrinks(c, tr, page, now, j - 1);
      PageStep(c, tr, page, now, j - 1);
      ScheduleShrinks(c, tr[j - 1], page[j - 1], now, WHOLE);
      assert page[j - 1] in NonPending(tr[j - 1]);
    }
  }

  lemma PageStep(c: Config, tr: seq<Store>, page: seq<string>, now: int, j: nat)
    requires c.Valid() && Follows(c, Whole(ScheduleOps(page, now)), tr) && j < |page|
    ensures tr[j + 1] == Do(c, tr[j], Schedule(page[j], now), WHOLE)
  {
    assert Whole(ScheduleOps(page, now))[j] == Step(Schedule(page[j], now), WHOLE);
  }

  // In any store, an iteration on a listing whose verdict stands starts nothing and leaves
  // it no longer due: dated for the verdict's end, or undated if that never comes.
  lemma BlockedIsPutOff(c: Config, s: Store, url: string, now: int)
    requires c.Valid() && url in s.dead && (s.dead[url].until == 0 || s.dead[url].until > now)
    ensures var t, until := Do(c, s, Schedule(url, now), WHOLE), s.dead[url].until;
      && t == s.(next := t.next) && !Due(t, url, now)
      && (if until == 0 then t.next == s.next - {url} else t.next == s.next[url := until])
  {
  }

  // --- the loop drains ---

  // t is s with the given listings started: pending, out of the dead hash, each with a
  // job behind what was ready; all else is as it was.
  ghost predicate Started(s: Store, t: Store, urls: set<string>) {
    && Pended(s.next, t.next, urls)
    && Appended(s.ready, t.ready, urls)
    && t.dead == s.dead - urls
    && t == s.(lastId := t.lastId, ready := t.ready, next := t.next, dead := t.dead)
  }

  predicate Pended(before: map<string, int>, after: map<string, int>, urls: set<string>) {
    && (forall url | url in urls :: url in after && after[url] == PENDING)
    && after - urls == before - urls
  }

  ghost predicate Appended(before: seq<Member>, after: seq<Member>, urls: set<string>) {
    && |after| == |before| + |urls| && after[|urls|..] == before
    && forall url | url in urls :: exists m :: m in after && m.url == url
  }

  lemma NothingStarted(s: Store)
    ensures Started(s, s, {})
  {
    assert s.dead - {} == s.dead;
  }

  // In a reachable store nothing due is blocked.
  lemma DueIsFree(c: Config, s: Store, url: string, now: int)
    requires c.Valid() && Strong(c, s) && Due(s, url, now) && 0 < now < PENDING
    ensures !Blocked(s, url, now) && !IsVideo(url)
  {
    assert Row(c, s, url, UrlLive(s, url));
  }

  lemma AppendedNext(before: seq<Member>, after: seq<Member>, urls: set<string>, item: Member)
    requires Appended(before, after, urls) && item.url !in urls
    ensures Appended(before, [item] + after, urls + {item.url})
  {
    assert item in [item] + after;
    forall url | url in urls + {item.url} ensures exists m :: m in [item] + after && m.url == url {
      if url != item.url {
        var m :| m in after && m.url == url;
        assert m in [item] + after;
      }
    }
    assert ([item] + after)[|urls| + 1..] == after[|urls|..];
  }

  lemma PendedNext(before: map<string, int>, after: map<string, int>, urls: set<string>, url: string)
    requires Pended(before, after, urls)
    ensures Pended(before, after[url := PENDING], urls + {url})
  {
    assert after[url := PENDING] - (urls + {url}) == (after - urls) - {url};
    assert before - (urls + {url}) == (before - urls) - {url};
  }

  lemma StartNext(c: Config, s: Store, t: Store, urls: set<string>, url: string, now: int)
    requires c.Valid() && Started(s, t, urls) && now < PENDING
    requires Due(t, url, now) && !Blocked(t, url, now)
    ensures Started(s, Do(c, t, Schedule(url, now), WHOLE), urls + {url})
    ensures |Do(c, t, Schedule(url, now), WHOLE).ready| == |t.ready| + 1
  {
    assert Do(c, t, Schedule(url, now), WHOLE) == StartListing(t, url, WHOLE);
    StartedNext(s, t, urls, url);
  }

  lemma StartedNext(s: Store, t: Store, urls: set<string>, url: string)
    requires Started(s, t, urls) && url !in urls
    ensures Started(s, StartListing(t, url, WHOLE), urls + {url})
  {
    AppendedNext(s.ready, t.ready, urls, Fresh(t, url));
    PendedNext(s.next, t.next, urls, url);
    assert s.dead - urls - {url} == s.dead - (urls + {url});
  }

  // A listing not among the started ones is scored as before.
  lemma OthersAsBefore(s: Store, t: Store, urls: set<string>, url: string)
    requires Started(s, t, urls) && url !in urls
    ensures (url in t.next <==> url in s.next) && (url in s.next ==> t.next[url] == s.next[url])
  {
    assert url in t.next <==> url in t.next - urls;
    assert url in s.next <==> url in s.next - urls;
    assert url in s.next ==> (t.next - urls)[url] == t.next[url] && (s.next - urls)[url] == s.next[url];
  }

  // urls and the first j listings of the page.
  function With(urls: set<string>, page: seq<string>, j: nat): set<string>
    requires j <= |page|
  {
    if j == 0 then urls else With(urls, page, j - 1) + {page[j - 1]}
  }

  // The page's run is one the scheduler may make, and nothing on it is blocked.
  lemma PageIsFree(c: Config, tr: seq<Store>, page: seq<string>, now: int, j: nat)
    requires c.Valid() && 0 < now < PENDING && Distinct(page) && j <= |page|
    requires Follows(c, Whole(ScheduleOps(page, now)), tr) && Strong(c, tr[0])
    requires forall i | 0 <= i < |page| :: Due(tr[0], page[i], now)
    ensures Strong(c, tr[j])
    ensures j < |page| ==> Due(tr[j], page[j], now) && !Blocked(tr[j], page[j], now)
  {
    var run := Whole(ScheduleOps(page, now));
    CleanBatch(ScheduleOps(page, now), |page|, 0);
    forall i {:trigger run[i]} | 0 <= i < |run| ensures Legal(c, tr[i], run[i].op) {
      PageShrinks(c, tr, page, now, i);
    }
    RunKeepsStrong(c, run, tr, j);
    if j < |page| {
      PageShrinks(c, tr, page, now, j);
      DueIsFree(c, tr[j], page[j], now);
    }
  }

  // Before each item of the page the item is due, and not blocked.
  predicate PageFree(tr: seq<Store>, page: seq<string>, now: int) {
    |tr| > |page| && forall i | 0 <= i < |page| :: Due(tr[i], page[i], now) && !Blocked(tr[i], page[i], now)
  }

  // t is s with the listings started, n of them since r.
  ghost predicate StartedSince(s: Store, r: Store, t: Store, urls: set<string>, n: nat) {
    Started(s, t, urls) && |t.ready| == |r.ready| + n
  }

  lemma PageStartsNext(
      c: Config, s: Store, tr: seq<Store>, urls: set<string>, page: seq<string>, now: int, i: nat, j: nat)
    requires c.Valid() && now < PENDING && j == i + 1 <= |page| && Follows(c, Whole(ScheduleOps(page, now)), tr)
    requires PageFree(tr, page, now) && StartedSince(s, tr[0], tr[i], With(urls, page, i), i)
    ensures StartedSince(s, tr[0], tr[j], With(urls, page, j), j)
  {
    assert Due(tr[i], page[i], now) && !Blocked(tr[i], page[i], now);
    StartNext(c, s, tr[i], With(urls, page, i), page[i], now);
    PageStep(c, tr, page, now, i);
  }

  lemma {:induction false} PageStarts(
      c: Config, s: Store, tr: seq<Store>, urls: set<string>, page: seq<string>, now: int, j: nat)
    requires c.Valid() && now < PENDING && j <= |page|
    requires Follows(c, Whole(ScheduleOps(page, now)), tr) && PageFree(tr, page, now)
    requires StartedSince(s, tr[0], tr[0], With(urls, page, 0), 0)
    ensures StartedSince(s, tr[0], tr[j], With(urls, page, j), j)
  {
    if j > 0 {
      var i: nat := j - 1;
      PageStarts(c, s, tr, urls, page, now, i);
      PageStartsNext(c, s, tr, urls, page, now, i, j);
    }
  }

  lemma {:induction false} WithHas(urls: set<string>, page: seq<string>, j: nat, i: nat)
    requires j <= |page|
    ensures urls <= With(urls, page, j)
    ensures i < j ==> page[i] in With(urls, page, j)
  {
    if j > 0 { WithHas(urls, page, j - 1, i); }
  }

  // The latest of the first k + 1 clock readings.
  function Latest(clock: nat -> int, k: nat): int {
    if k == 0 then clock(0) else if clock(k) > Latest(clock, k - 1) then clock(k) else Latest(clock, k - 1)
  }

  lemma {:induction false} LatestIsOne(clock: nat -> int, k: nat)
    ensures clock(k) <= Latest(clock, k) && exists j :: 0 <= j <= k && Latest(clock, k) == clock(j)
  {
    if k > 0 { LatestIsOne(clock, k - 1); }
  }

  // The state of a drain: a reachable store in which the started listings were all due
  // by `latest`.
  ghost predicate Draining(c: Config, s: Store, t: Store, urls: set<string>, latest: int) {
    Strong(c, t) && Started(s, t, urls) && forall url | url in urls :: Due(s, url, latest)
  }

  lemma {:induction false} WithWereDue(
      s: Store, r: Store, urls: set<string>, page: seq<string>, now: int, latest: int, j: nat)
    requires Started(s, r, urls) && now < PENDING && now <= latest && j <= |page|
    requires forall url | url in urls :: Due(s, url, latest)
    requires forall i | 0 <= i < |page| :: Due(r, page[i], now)
    ensures forall url | url in With(urls, page, j) :: Due(s, url, latest)
  {
    if j > 0 {
      WithWereDue(s, r, urls, page, now, latest, j - 1);
      assert Due(r, page[j - 1], now);
      OthersAsBefore(s, r, urls, page[j - 1]);
    }
  }

  // After an unbroken short page nothing is due.
  lemma ShortPageDrains(s: Store, r: Store, t: Store, urls: set<string>, page: seq<string>, now: int, limit: int)
    requires 0 < now < PENDING && |page| < limit && IsPage(r.next, now, limit, page) && Started(s, r, urls)
    requires Started(s, t, With(urls, page, |page|))
    ensures NothingDue(t, now)
  {
    var all := With(urls, page, |page|);
    forall url | url in t.next ensures t.next[url] > now {
      if url !in all {
        OthersAsBefore(s, t, all, url);
        WithHas(urls, page, |page|, 0);
        OthersAsBefore(s, r, urls, url);
        if s.next[url] <= now {
          var i :| 0 <= i < |page| && page[i] == url;
          WithHas(urls, page, |page|, i);
        }
      }
    }
  }

  // One call without a fault: it answers the page's length, and after a short page
  // nothing is due.
  lemma PageCall(
      c: Config, s: Store, tr: seq<Store>, urls: set<string>, page: seq<string>, now: int, latest: int, limit: int)
    requires c.Valid() && 0 < now < PENDING && now <= latest && Follows(c, Whole(ScheduleOps(page, now)), tr)
    requires IsPage(tr[0].next, now, limit, page) && Draining(c, s, tr[0], urls, latest)
    ensures Draining(c, s, tr[|page|], With(urls, page, |page|), latest)
    ensures |tr[|page|].ready| == |tr[0].ready| + |page|
    ensures |page| < limit ==> NothingDue(tr[|page|], now)
  {
    forall i | 0 <= i < |page| ensures Due(tr[i], page[i], now) && !Blocked(tr[i], page[i], now) {
      PageIsFree(c, tr, page, now, i);
    }
    PageIsFree(c, tr, page, now, |page|);
    PageStarts(c, s, tr, urls, page, now, |page|);
    WithWereDue(s, tr[0], urls, page, now, latest, |page|);
    if |page| < limit {
      ShortPageDrains(s, tr[0], tr[|page|], urls, page, now, limit);
    }
  }

  // A full page leaves fewer non-pending listings, in any store.
  lemma FullPageShrinks(c: Config, tr: seq<Store>, page: seq<string>, now: int, limit: int)
    requires c.Valid() && now < PENDING && Follows(c, Whole(ScheduleOps(page, now)), tr)
    requires IsPage(tr[0].next, now, limit, page) && |tr[|page|].ready| > |tr[0].ready|
    ensures NonPending(tr[|page|]) < NonPending(tr[0]) && |NonPending(tr[|page|])| < |NonPending(tr[0])|
  {
    PageShrinks(c, tr, page, now, |page|);
    SmallerSet(NonPending(tr[|page|]), NonPending(tr[0]));
  }

  lemma SmallerSet<T>(a: set<T>, b: set<T>)
    requires a < b
    ensures |a| < |b|
  {
    assert b == a + (b - a);
  }

  // Every listing due in s was started, once, and nothing is due in t.
  ghost predicate Drained(c: Config, s: Store, t: Store, now: int) {
    Strong(c, t) && Started(s, t, set url | url in s.next && Due(s, url, now)) && NothingDue(t, now)
  }

  lemma DrainedAtLatest(c: Config, s: Store, t: Store, urls: set<string>, now: int)
    requires Draining(c, s, t, urls, now) && NothingDue(t, now)
    ensures Drained(c, s, t, now)
  {
    forall url | url in s.next && Due(s, url, now) ensures url in urls {
      if url !in urls { OthersAsBefore(s, t, urls, url); }
    }
    assert urls == set url | url in s.next && Due(s, url, now);
  }

  // How a tick without a fault leaves the frontier, its last call being number `last`.
  ghost predicate TickDrains(c: Config, s: Store, t: Store, started: set<string>, clock: nat -> int, last: nat) {
    && Draining(c, s, t, started, Latest(clock, last))
    && NothingDue(t, clock(last))
    && (Latest(clock, last) == clock(last) ==> Drained(c, s, t, clock(last)))
  }

  function CallBefore(call: nat): nat { if call == 0 then 0 else call - 1 }

  // One faultless call of a tick.
  lemma CalmCall(
      c: Config, s: Store, tr: seq<Store>, started: set<string>, page: seq<string>,
      clock: nat -> int, call: nat, limit: int)
    requires c.Valid() && 0 < clock(call) < PENDING && Follows(c, Whole(ScheduleOps(page, clock(call))), tr)
    requires IsPage(tr[0].next, clock(call), limit, page)
    requires Draining(c, s, tr[0], started, Latest(clock, CallBefore(call)))
    ensures Draining(c, s, tr[|page|], With(started, page, |page|), Latest(clock, call))
    ensures |tr[|page|].ready| == |tr[0].ready| + |page|
    ensures |page| < limit ==> TickDrains(c, s, tr[|page|], With(started, page, |page|), clock, call)
  {
    LatestIsOne(clock, call);
    PageCall(c, s, tr, started, page, clock(call), Latest(clock, call), limit);
    if |page| < limit && Latest(clock, call) == clock(call) {
      DrainedAtLatest(c, s, tr[|page|], With(started, page, |page|), clock(call));
    }
  }

  // runListingScheduler's tick, followed for at most `budget` calls. Call k reads clock(k),
  // and dies at iteration fault(k) of its page after `cut` writes; with a limit, a page has
  // at most that many iterations.
  //
  // Under a limit of at least 1 the loop ends in any store and however the clock moves,
  // within one call more than there are non-pending listings. With no fault nothing is due
  // at its last reading, and if no earlier reading was later it started exactly the listings
  // due then. Under a limit below 1 nothing but a failed call ends it.
  method Tick(f: Frontier, limit: int, clock: nat -> int, fault: nat -> nat, cut: nat, budget: nat)
    returns (ended: bool, failed: bool, ghost last: nat, ghost started: set<string>)
    requires f.cfg.Valid() && forall k :: 0 < clock(k) < PENDING
    modifies f
    ensures limit >= 1 && budget > |NonPending(old(f.View()))| ==> ended
    ensures limit < 1 && ended ==> failed
    ensures limit >= 1 && ended && Strong(f.cfg, old(f.View())) && (forall k :: fault(k) >= limit) ==>
      !failed && TickDrains(f.cfg, old(f.View()), f.View(), started, clock, last)
  {
    last, started := 0, {};
    ghost var s := f.View();
    ghost var calm := limit >= 1 && Strong(f.cfg, s) && forall k :: fault(k) >= limit;
    NothingStarted(s);
    for call := 0 to budget
      invariant calm ==> Draining(f.cfg, s, f.View(), started, Latest(clock, CallBefore(call)))
      invariant limit >= 1 ==> |NonPending(f.View())| + call <= |NonPending(s)|
    {
      var n, page, tr := f.RunListingScheduler(limit, clock(call), fault(call), cut);
      last := call;
      if n.None? { return true, true, last, started; }
      CleanBatch(ScheduleOps(page, clock(call)), fault(call), cut);
      if calm {
        CalmCall(f.cfg, s, tr, started, page, clock, call, limit);
        started := With(started, page, |page|);
      }
      if n.value < limit { return true, false, last, started; }
      if limit >= 1 { FullPageShrinks(f.cfg, tr, page, clock(call), limit); }
    }
    return false, false, last, started;
  }
}
