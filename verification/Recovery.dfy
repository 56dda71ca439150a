/** Crash recovery: the reaper's and the sweeper's ticks, fixed batch limits and all,
    bring every job in processing back to ready (internal/storage/frontier.go,
    internal/scheduler/scheduler.go). Holds from any store scripts can leave behind,
    broken off or not. */
module Recovery {
  import opened Keyspace
  import opened Scripts
  import opened JobQueue

  // --- URLs of a list, with repetitions ---

  function UrlBag(q: seq<Member>): multiset<string> {
    if q == [] then multiset{} else multiset{q[0].url} + UrlBag(q[1..])
  }

  lemma {:induction false} UrlBagRemove(q: seq<Member>, x: Member)
    requires x in q
    ensures UrlBag(Remove(q, x)) + multiset{x.url} == UrlBag(q)
  {
    if q[0] != x {
      assert q == [q[0]] + q[1..];
      UrlBagRemove(q[1..], x);
      assert Remove(q, x)[1..] == Remove(q[1..], x);
    }
  }

  // --- jobs moved back ---

  // t is s with jobs moved from processing to the back of ready, under fresh ids.
  ghost predicate Requeued(s: Store, t: Store) {
    var k := |t.ready| - |s.ready|;
    && k >= 0 && t.ready[k..] == s.ready
    && (forall i | 0 <= i < k :: t.ready[i].id > s.lastId)
    && |t.processing| + k == |s.processing|
    && UrlBag(t.ready) + UrlBag(t.processing) == UrlBag(s.ready) + UrlBag(s.processing)
    && t.lastId >= s.lastId
    && t == s.(lastId := t.lastId, ready := t.ready, processing := t.processing, lease := t.lease)
  }

  lemma RequeuedOne(s: Store, job: Member)
    requires job in s.processing
    ensures Requeued(s, RequeueScript(s, job, WHOLE))
  {
    var t := RequeueScript(s, job, WHOLE);
    UrlBagRemove(s.processing, job);
    assert t.ready[1..] == s.ready;
  }

  lemma RequeuedTwice(s: Store, t: Store, u: Store)
    requires Requeued(s, t) && Requeued(t, u)
    ensures Requeued(s, u)
  {
    var k, l := |t.ready| - |s.ready|, |u.ready| - |t.ready|;
    assert u.ready[k + l..] == u.ready[l..][k..];
    forall i | 0 <= i < k + l ensures u.ready[i].id > s.lastId {
      if i >= l { assert u.ready[i] == u.ready[l..][i - l]; }
    }
  }

  // --- one tick ---

  // t is s after the first j jobs of the page were reaped.
  ghost predicate ReapedSome(s: Store, t: Store, page: seq<Member>, j: nat) {
    && Queue(t) && Requeued(s, t)
    && |t.lease| + j == |s.lease| && |t.ready| == |s.ready| + j
    && (forall m | m in t.lease :: m in s.lease && t.lease[m] == s.lease[m])
    && (forall i | j <= i < |page| :: page[i] in t.lease)
  }

  lemma ReapNext(s: Store, t: Store, page: seq<Member>, j: nat)
    requires j < |page| && Distinct(page) && ReapedSome(s, t, page, j)
    ensures page[j] in t.lease && ReapedSome(s, RequeueScript(t, page[j], WHOLE), page, j + 1)
  {
    var u := RequeueScript(t, page[j], WHOLE);
    RequeueKeepsQueue(t, page[j], WHOLE);
    RequeuedOne(t, page[j]);
    RequeuedTwice(s, t, u);
    assert u.lease.Keys == t.lease.Keys - {page[j]};
    assert |u.lease| == |u.lease.Keys| && |t.lease| == |t.lease.Keys|;
  }

  lemma {:induction false} ReapPage(c: Config, tr: seq<Store>, page: seq<Member>, now: int, j: nat)
    requires c.Valid() && Follows(c, Whole(ReapOps(page, now)), tr) && Queue(tr[0])
    requires Distinct(page) && j <= |page| && forall i | 0 <= i < |page| :: page[i] in tr[0].lease
    ensures ReapedSome(tr[0], tr[j], page, j)
  {
    if j > 0 {
      ReapPage(c, tr, page, now, j - 1);
      ReapNext(tr[0], tr[j - 1], page, j - 1);
      ReapStep(c, tr, page, now, j - 1);
    }
  }

  lemma ReapStep(c: Config, tr: seq<Store>, page: seq<Member>, now: int, j: nat)
    requires c.Valid() && Follows(c, Whole(ReapOps(page, now)), tr) && j < |page| && page[j] in tr[j].lease
    ensures tr[j + 1] == RequeueScript(tr[j], page[j], WHOLE)
  {
    assert Whole(ReapOps(page, now))[j] == Step(Reap(page[j], now), WHOLE);
  }

  // t is s, which holds no lease, after the first j jobs of the window were swept.
  ghost predicate SweptSome(s: Store, t: Store, window: seq<Member>, j: nat) {
    && Queue(t) && Requeued(s, t) && t.lease == map[] && |t.ready| == |s.ready| + j
    && (forall i | j <= i < |window| :: window[i] in t.processing)
  }

  lemma SweepNext(s: Store, t: Store, window: seq<Member>, j: nat)
    requires j < |window| && Distinct(window) && SweptSome(s, t, window, j)
    ensures SweptSome(s, RequeueScript(t, window[j], WHOLE), window, j + 1)
  {
    var u := RequeueScript(t, window[j], WHOLE);
    RequeueKeepsQueue(t, window[j], WHOLE);
    ProcessingElsewhere(t, window[j]);
    RequeuedOne(t, window[j]);
    RequeuedTwice(s, t, u);
  }

  lemma {:induction false} SweepWindow(c: Config, tr: seq<Store>, window: seq<Member>, j: nat)
    requires c.Valid() && Follows(c, Whole(SweepOps(window)), tr) && Queue(tr[0]) && tr[0].lease == map[]
    requires Distinct(window) && j <= |window| && forall i | 0 <= i < |window| :: window[i] in tr[0].processing
    ensures SweptSome(tr[0], tr[j], window, j)
  {
    if j > 0 {
      SweepWindow(c, tr, window, j - 1);
      SweepNext(tr[0], tr[j - 1], window, j - 1);
      SweepStep(c, tr, window, j - 1);
    }
  }

  lemma SweepStep(c: Config, tr: seq<Store>, window: seq<Member>, j: nat)
    requires c.Valid() && Follows(c, Whole(SweepOps(window)), tr) && j < |window| && window[j] !in tr[j].lease
    ensures tr[j + 1] == RequeueScript(tr[j], window[j], WHOLE)
  {
    assert Whole(SweepOps(window))[j] == Step(Sweep(window[j]), WHOLE);
  }

  // --- repeated ticks ---

  // A reaper tick whose clock is past every expiry.
  ghost predicate ReapTick(c: Config, s: Store, limit: nat, t: Store)
    requires c.Valid()
  {
    exists page, now, tr ::
      && (forall m | m in s.lease :: s.lease[m] <= now)
      && IsPage(s.lease, now, limit, page)
      && Follows(c, Whole(ReapOps(page, now)), tr) && tr[0] == s && tr[|page|] == t
  }

  ghost predicate SweepTick(c: Config, s: Store, limit: nat, t: Store)
    requires c.Valid()
  {
    var window := TailWindow(s.processing, limit);
    exists tr :: Follows(c, Whole(SweepOps(window)), tr) && tr[0] == s && tr[|window|] == t
  }

  function LessUpTo(n: nat, limit: nat): nat { if n <= limit then 0 else n - limit }

  lemma {:induction false} DistinctSize<T>(q: seq<T>)
    requires Distinct(q)
    ensures |set x | x in q| == |q|
  {
    if q != [] {
      DistinctSize(q[1..]);
      assert q == [q[0]] + q[1..];
      assert (set x | x in q) == {q[0]} + (set x | x in q[1..]);
    }
  }

  lemma FullPage(lease: map<Member, int>, now: int, limit: nat, page: seq<Member>)
    requires (forall m | m in lease :: lease[m] <= now) && IsPage(lease, now, limit, page)
    ensures |lease| - |page| == LessUpTo(|lease|, limit)
  {
    DistinctSize(page);
    var keys := set m | m in page;
    assert keys <= lease.Keys && |lease| == |lease.Keys|;
    if |page| < limit {
      assert lease.Keys <= keys;
    }
    assert |lease.Keys - keys| == |lease.Keys| - |keys|;
  }

  lemma ReapTickWorks(c: Config, s: Store, limit: nat, t: Store)
    requires c.Valid() && Queue(s) && ReapTick(c, s, limit, t)
    ensures Queue(t) && Requeued(s, t)
    ensures |t.lease| == LessUpTo(|s.lease|, limit) && |t.lease| + |t.ready| == |s.lease| + |s.ready|
  {
    var page, now, tr :|
      && (forall m | m in s.lease :: s.lease[m] <= now)
      && IsPage(s.lease, now, limit, page)
      && Follows(c, Whole(ReapOps(page, now)), tr) && tr[0] == s && tr[|page|] == t;
    FullPage(s.lease, now, limit, page);
    ReapPage(c, tr, page, now, |page|);
  }

  lemma WindowDistinct(s: Store, limit: nat)
    requires Queue(s)
    ensures Distinct(TailWindow(s.processing, limit))
  {
    DescendingDrop(s.ready, s.processing, s.lastId + 1, Member(0, ""));
    DescendingIds(s.processing, s.lastId + 1);
  }

  lemma TailIsOlder(q: seq<Member>, bound: nat, k: nat, m: Member, n: Member)
    requires Descending(q, bound) && k <= |q| && m in q[k..] && n in q && n !in q[k..]
    ensures m in q && m.id < n.id
  {
    DescendingIds(q, bound);
    var i :| k <= i < |q| && q[i] == m;
    var j :| 0 <= j < |q| && q[j] == n;
    assert j < k || q[j] == q[k..][j - k];
  }

  // The sweeper looks at the oldest jobs of processing, as many as its limit or all.
  lemma WindowIsOldest(s: Store, limit: nat)
    requires Queue(s)
    ensures var window := TailWindow(s.processing, limit);
      && |window| == (if |s.processing| < limit then |s.processing| else limit)
      && forall m, n | m in window && n in s.processing && n !in window :: m in s.processing && m.id < n.id
  {
    var window, k := TailWindow(s.processing, limit), |s.processing| - |TailWindow(s.processing, limit)|;
    DescendingDrop(s.ready, s.processing, s.lastId + 1, Member(0, ""));
    assert window == s.processing[k..];
    forall m, n | m in window && n in s.processing && n !in window ensures m in s.processing && m.id < n.id {
      TailIsOlder(s.processing, s.lastId + 1, k, m, n);
    }
  }

  lemma SweepTickWorks(c: Config, s: Store, limit: nat, t: Store)
    requires c.Valid() && Queue(s) && s.lease == map[] && SweepTick(c, s, limit, t)
    ensures Queue(t) && t.lease == map[] && Requeued(s, t)
    ensures |t.processing| == LessUpTo(|s.processing|, limit)
  {
    var window := TailWindow(s.processing, limit);
    var tr :| Follows(c, Whole(SweepOps(window)), tr) && tr[0] == s && tr[|window|] == t;
    WindowDistinct(s, limit);
    SweepWindow(c, tr, window, |window|);
  }

  // The stores between ticks in a row.
  ghost predicate ReapTicks(c: Config, limit: nat, ticks: seq<Store>)
    requires c.Valid()
  {
    ticks != [] && forall i {:trigger ticks[i]} | 0 < i < |ticks| :: ReapTick(c, ticks[i - 1], limit, ticks[i])
  }

  ghost predicate SweepTicks(c: Config, limit: nat, ticks: seq<Store>)
    requires c.Valid()
  {
    ticks != [] && forall i {:trigger ticks[i]} | 0 < i < |ticks| :: SweepTick(c, ticks[i - 1], limit, ticks[i])
  }

  // How many jobs a number of ticks can take.
  function Capacity(ticks: nat, limit: nat): nat { ticks * limit }

  lemma LessTwice(n: nat, i: nat, limit: nat)
    requires i > 0
    ensures LessUpTo(LessUpTo(n, Capacity(i - 1, limit)), limit) == LessUpTo(n, Capacity(i, limit))
  {
    assert i * limit == (i - 1) * limit + limit;
  }

  // t is s with n leases reaped, or all where there were fewer.
  ghost predicate ReapedUpTo(s: Store, t: Store, n: nat) {
    && Queue(t) && Requeued(s, t)
    && |t.lease| == LessUpTo(|s.lease|, n)
    && |t.lease| + |t.ready| == |s.lease| + |s.ready|
  }

  lemma ReapTickMore(c: Config, s: Store, t: Store, u: Store, i: nat, limit: nat)
    requires c.Valid() && i > 0 && ReapedUpTo(s, t, Capacity(i - 1, limit)) && ReapTick(c, t, limit, u)
    ensures ReapedUpTo(s, u, Capacity(i, limit))
  {
    ReapTickWorks(c, t, limit, u);
    RequeuedTwice(s, t, u);
    LessTwice(|s.lease|, i, limit);
  }

  // t is s, which holds no lease, with n jobs swept, or all where there were fewer.
  ghost predicate SweptUpTo(s: Store, t: Store, n: nat) {
    && Queue(t) && Requeued(s, t) && t.lease == map[]
    && |t.processing| == LessUpTo(|s.processing|, n)
  }

  lemma SweepTickMore(c: Config, s: Store, t: Store, u: Store, i: nat, limit: nat)
    requires c.Valid() && i > 0 && SweptUpTo(s, t, Capacity(i - 1, limit)) && SweepTick(c, t, limit, u)
    ensures SweptUpTo(s, u, Capacity(i, limit))
  {
    SweepTickWorks(c, t, limit, u);
    RequeuedTwice(s, t, u);
    LessTwice(|s.processing|, i, limit);
  }

  // Each reaper tick takes `limit` leases or all that are left.
  lemma {:induction false} ReapTicksWork(c: Config, limit: nat, ticks: seq<Store>, i: nat)
    requires c.Valid() && ReapTicks(c, limit, ticks) && Queue(ticks[0]) && i < |ticks|
    ensures ReapedUpTo(ticks[0], ticks[i], Capacity(i, limit))
  {
    if i > 0 {
      ReapTicksWork(c, limit, ticks, i - 1);
      ReapTickMore(c, ticks[0], ticks[i - 1], ticks[i], i, limit);
    }
  }

  // With no lease left, each sweeper tick takes `limit` jobs or all that are left.
  lemma {:induction false} SweepTicksWork(c: Config, limit: nat, ticks: seq<Store>, i: nat)
    requires c.Valid() && SweepTicks(c, limit, ticks) && Queue(ticks[0]) && ticks[0].lease == map[] && i < |ticks|
    ensures SweptUpTo(ticks[0], ticks[i], Capacity(i, limit))
  {
    if i > 0 {
      SweepTicksWork(c, limit, ticks, i - 1);
      SweepTickMore(c, ticks[0], ticks[i - 1], ticks[i], i, limit);
    }
  }

  // From any store a run can leave behind, |lease|/limit reaper ticks past every expiry
  // and then |processing|/limit sweeper ticks empty lease and processing, and ready has
  // gained exactly the URLs processing held, all under fresh ids, behind what it had.
  lemma CrashRecovery(c: Config, run: seq<Step>, tr: seq<Store>, limit: nat, reaps: seq<Store>, sweeps: seq<Store>)
    requires c.Valid() && Execution(c, run, tr) && tr[0] == EMPTY
    requires ReapTicks(c, limit, reaps) && reaps[0] == tr[|run|]
    requires SweepTicks(c, limit, sweeps) && sweeps[0] == reaps[|reaps| - 1]
    requires Capacity(|reaps| - 1, limit) >= |reaps[0].lease|
    requires Capacity(|sweeps| - 1, limit) >= |sweeps[0].processing|
    ensures var s, t := tr[|run|], sweeps[|sweeps| - 1];
      && t.lease == map[] && t.processing == []
      && Requeued(s, t)
      && UrlBag(t.ready) == UrlBag(s.ready) + UrlBag(s.processing)
  {
    RunKeepsQueue(c, run, tr, |run|);
    ReapTicksWork(c, limit, reaps, |reaps| - 1);
    SweepTicksWork(c, limit, sweeps, |sweeps| - 1);
    ReapedThenSwept(
      tr[|run|], sweeps[0], sweeps[|sweeps| - 1], Capacity(|reaps| - 1, limit), Capacity(|sweeps| - 1, limit));
  }

  lemma ReapedThenSwept(s: Store, t: Store, u: Store, reaped: nat, swept: nat)
    requires ReapedUpTo(s, t, reaped) && SweptUpTo(t, u, swept)
    requires reaped >= |s.lease| && swept >= |t.processing|
    ensures u.lease == map[] && u.processing == [] && Requeued(s, u)
    ensures UrlBag(u.ready) == UrlBag(s.ready) + UrlBag(s.processing)
  {
    RequeuedTwice(s, t, u);
  }
}
