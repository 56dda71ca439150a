/** Retries come: the promoter's ticks, batch limit and all, bring every delayed job whose
    date has come back to ready (luaPromote in internal/storage/frontier.go, runPromoter in
    internal/scheduler/scheduler.go). In any store, so after breaks too. */
module Promotion {
  import opened Keyspace
  import opened Scripts
  import opened JobQueue
  import opened Recovery

  // b is a with jobs put behind it, all under ids above `bound`.
  predicate Behind(a: seq<Member>, b: seq<Member>, bound: nat) {
    && |b| >= |a| && b[|b| - |a|..] == a
    && forall i | 0 <= i < |b| - |a| :: b[i].id > bound
  }

  // The URL has a job in ready with an id above `bound`.
  ghost predicate ReadyAfresh(ready: seq<Member>, url: string, bound: nat) {
    exists m :: m in ready && m.url == url && m.id > bound
  }

  // Every job that left delayed has another in ready; the others wait as they did.
  ghost predicate Left(before: map<Member, int>, after: map<Member, int>, ready: seq<Member>, bound: nat) {
    && (forall m | m in after :: m in before && after[m] == before[m])
    && (forall m | m in before && m !in after :: ReadyAfresh(ready, m.url, bound))
  }

  // t is s with jobs moved from delayed to the back of ready, each under a fresh id.
  ghost predicate Promoted(s: Store, t: Store) {
    && Behind(s.ready, t.ready, s.lastId) && t.lastId >= s.lastId
    && Left(s.delayed, t.delayed, t.ready, s.lastId)
    && |t.delayed| + |t.ready| == |s.delayed| + |s.ready|
    && t == s.(lastId := t.lastId, ready := t.ready, delayed := t.delayed)
  }

  lemma PromotedOne(s: Store, job: Member)
    requires job in s.delayed
    ensures Promoted(s, PromoteScript(s, job, WHOLE))
  {
    var t := PromoteScript(s, job, WHOLE);
    assert t.ready[1..] == s.ready && t.ready[0] in t.ready;
    assert |t.delayed.Keys| == |t.delayed| && |s.delayed.Keys| == |s.delayed|;
    assert t.delayed.Keys == s.delayed.Keys - {job};
  }

  lemma BehindTwice(a: seq<Member>, b: seq<Member>, d: seq<Member>, low: nat, high: nat)
    requires Behind(a, b, low) && Behind(b, d, high) && low <= high
    ensures Behind(a, d, low) && forall m | m in b :: m in d
  {
    var k, l := |b| - |a|, |d| - |b|;
    assert d[k + l..] == d[l..][k..];
    forall i | 0 <= i < k + l ensures d[i].id > low {
      if i >= l { assert d[i] == d[l..][i - l]; }
    }
    assert d == d[..l] + b;
  }

  lemma LeftTwice(
      a: map<Member, int>, b: map<Member, int>, d: map<Member, int>,
      ready: seq<Member>, ready': seq<Member>, low: nat, high: nat)
    requires Left(a, b, ready, low) && Left(b, d, ready', high) && low <= high
    requires forall m | m in ready :: m in ready'
    ensures Left(a, d, ready', low)
  {
    forall m | m in a && m !in d ensures ReadyAfresh(ready', m.url, low) {
      if m !in b { assert ReadyAfresh(ready, m.url, low); } else { assert ReadyAfresh(ready', m.url, high); }
    }
  }

  lemma PromotedTwice(s: Store, t: Store, u: Store)
    requires Promoted(s, t) && Promoted(t, u)
    ensures Promoted(s, u)
  {
    BehindTwice(s.ready, t.ready, u.ready, s.lastId, t.lastId);
    LeftTwice(s.delayed, t.delayed, u.delayed, t.ready, u.ready, s.lastId, t.lastId);
  }

  // t is s after the first j jobs of the page were promoted.
  ghost predicate PromotedSome(s: Store, t: Store, page: seq<Member>, j: nat)
    requires j <= |page|
  {
    && Promoted(s, t)
    && (forall i | 0 <= i < j :: page[i] !in t.delayed)
    && (forall m | m in s.delayed && m !in t.delayed :: m in page[..j])
  }

  lemma PageNext(page: seq<Member>, i: nat, j: nat)
    requires j == i + 1 <= |page| && Distinct(page)
    ensures page[i] !in page[..i] && forall m :: m in page[..j] <==> m in page[..i] || m == page[i]
  {
    assert page[..j] == page[..i] + [page[i]];
  }

  lemma PromoteNext(s: Store, t: Store, page: seq<Member>, i: nat, j: nat)
    requires j == i + 1 <= |page| && Distinct(page) && page[i] in s.delayed && PromotedSome(s, t, page, i)
    ensures PromotedSome(s, PromoteScript(t, page[i], WHOLE), page, j)
  {
    var u := PromoteScript(t, page[i], WHOLE);
    PageNext(page, i, j);
    PromotedOne(t, page[i]);
    PromotedTwice(s, t, u);
    assert u.delayed == t.delayed - {page[i]};
  }

  lemma PromoteStep(c: Config, tr: seq<Store>, page: seq<Member>, now: int, j: nat)
    requires c.Valid() && Follows(c, Whole(PromoteOps(page, now)), tr) && j < |page|
    ensures tr[j + 1] == PromoteScript(tr[j], page[j], WHOLE)
  {
    assert Whole(PromoteOps(page, now))[j] == Step(Promote(page[j], now), WHOLE);
  }

  lemma {:induction false} PromotePage(c: Config, tr: seq<Store>, page: seq<Member>, now: int, j: nat)
    requires c.Valid() && Follows(c, Whole(PromoteOps(page, now)), tr) && Distinct(page) && j <= |page|
    requires forall i | 0 <= i < |page| :: page[i] in tr[0].delayed
    ensures PromotedSome(tr[0], tr[j], page, j)
  {
    if j > 0 {
      var i: nat := j - 1;
      PromotePage(c, tr, page, now, i);
      PromoteStep(c, tr, page, now, i);
      PromoteNext(tr[0], tr[i], page, i, j);
    } else {
      PromotedNone(tr[0]);
    }
  }

  lemma PromotedNone(s: Store)
    ensures Promoted(s, s)
  {
    assert s.ready[0..] == s.ready;
  }

  // The jobs due by the given date.
  function DueBy(s: Store, date: int): set<Member> { set m | m in s.delayed && s.delayed[m] <= date }

  // A tick of the promoter, at a clock that has reached the date.
  ghost predicate PromoteTick(c: Config, s: Store, limit: nat, date: int, t: Store)
    requires c.Valid()
  {
    exists page, now, tr ::
      && now >= date && IsPage(s.delayed, now, limit, page)
      && Follows(c, Whole(PromoteOps(page, now)), tr) && tr[0] == s && tr[|page|] == t
  }

  // The page has all that are due by the date, or nothing but such.
  lemma PageTakesDue(s: Store, now: int, date: int, limit: nat, page: seq<Member>)
    requires now >= date && IsPage(s.delayed, now, limit, page)
    ensures |DueBy(s, date) - (set m | m in page)| <= LessUpTo(|DueBy(s, date)|, limit)
  {
    var due, taken := DueBy(s, date), set m | m in page;
    DistinctSize(page);
    if due <= taken {
      assert due - taken == {};
    } else {
      var m :| m in due && m !in taken;
      assert |page| == limit && taken <= due;
      assert |due - taken| == |due| - |taken|;
    }
  }

  // t is s with n of the jobs due by the date promoted, or all where there were fewer,
  // and perhaps others.
  ghost predicate PromotedUpTo(s: Store, t: Store, date: int, n: nat) {
    Promoted(s, t) && |DueBy(t, date)| <= LessUpTo(|DueBy(s, date)|, n)
  }

  lemma DueAfterPage(s: Store, t: Store, date: int, page: seq<Member>)
    requires PromotedSome(s, t, page, |page|)
    ensures DueBy(t, date) == DueBy(s, date) - (set m | m in page)
  {
    assert page[..|page|] == page;
  }

  lemma PromoteTickWorks(c: Config, s: Store, limit: nat, date: int, t: Store)
    requires c.Valid() && PromoteTick(c, s, limit, date, t)
    ensures PromotedUpTo(s, t, date, limit)
  {
    var page, now, tr :|
      && now >= date && IsPage(s.delayed, now, limit, page)
      && Follows(c, Whole(PromoteOps(page, now)), tr) && tr[0] == s && tr[|page|] == t;
    PromotePage(c, tr, page, now, |page|);
    PageTakesDue(s, now, date, limit, page);
    DueAfterPage(s, t, date, page);
  }

  ghost predicate PromoteTicks(c: Config, limit: nat, date: int, ticks: seq<Store>)
    requires c.Valid()
  {
    ticks != [] && forall i {:trigger ticks[i]} | 0 < i < |ticks| :: PromoteTick(c, ticks[i - 1], limit, date, ticks[i])
  }

  lemma PromoteTickMore(c: Config, s: Store, t: Store, u: Store, i: nat, date: int, limit: nat)
    requires c.Valid() && i > 0 && PromotedUpTo(s, t, date, Capacity(i - 1, limit))
    requires PromoteTick(c, t, limit, date, u)
    ensures PromotedUpTo(s, u, date, Capacity(i, limit))
  {
    PromoteTickWorks(c, t, limit, date, u);
    PromotedTwice(s, t, u);
    LessTwice(|DueBy(s, date)|, i, limit);
  }

  // Each tick at the date or later takes `limit` of the jobs due by it, or all that are left.
  lemma {:induction false} PromoteTicksWork(c: Config, limit: nat, date: int, ticks: seq<Store>, i: nat)
    requires c.Valid() && PromoteTicks(c, limit, date, ticks) && i < |ticks|
    ensures PromotedUpTo(ticks[0], ticks[i], date, Capacity(i, limit))
  {
    if i > 0 {
      var j: nat := i - 1;
      PromoteTicksWork(c, limit, date, ticks, j);
      PromoteTickMore(c, ticks[0], ticks[j], ticks[i], i, date, limit);
    } else {
      PromotedNone(ticks[0]);
    }
  }

  // So a delayed job is not delayed for ever: with as many ticks at its date or later as
  // the jobs due by then take, its URL is in ready under a fresh id.
  lemma RetryComes(c: Config, limit: nat, date: int, ticks: seq<Store>, job: Member)
    requires c.Valid() && PromoteTicks(c, limit, date, ticks)
    requires job in ticks[0].delayed && ticks[0].delayed[job] <= date
    requires Capacity(|ticks| - 1, limit) >= |DueBy(ticks[0], date)|
    ensures var s, t := ticks[0], ticks[|ticks| - 1];
      job !in t.delayed && ReadyAfresh(t.ready, job.url, s.lastId)
  {
    var s, t := ticks[0], ticks[|ticks| - 1];
    PromoteTicksWork(c, limit, date, ticks, |ticks| - 1);
    assert DueBy(t, date) == {} && job !in DueBy(t, date);
  }
}
