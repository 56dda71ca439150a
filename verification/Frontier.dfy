/** The frontier itself: redisFrontier of internal/storage/frontier.go over a keyspace
    it updates write by write.

    `now` is what the injected clock returns. `cut` is how many writes of the script go
    through before it dies, its error path; a call that answers has made all of them.
    The looping scripts take the iteration `at` that dies after `cut` writes. */
module Frontier {
  import opened Text
  import opened Keyspace
  import opened Scripts

  const PROMOTE_BATCH_LIMIT: nat := 100
  const REAP_BATCH_LIMIT: nat := 100
  const SWEEP_BATCH_LIMIT: nat := 100

  // The first i steps of the run take tr[0] to tr[i].
  ghost predicate FollowsTo(c: Config, run: seq<Step>, tr: seq<Store>, i: nat)
    requires c.Valid()
  {
    i <= |run| && |tr| == i + 1 &&
    forall k {:trigger run[k]} | 0 <= k < i :: tr[k + 1] == Do(c, tr[k], run[k].op, run[k].cut)
  }

  lemma FollowsNext(c: Config, run: seq<Step>, tr: seq<Store>, i: nat, t: Store)
    requires c.Valid() && FollowsTo(c, run, tr, i) && i < |run| && t == Do(c, tr[i], run[i].op, run[i].cut)
    ensures FollowsTo(c, run, tr + [t], i + 1)
  {
  }

  // What luaFail's delay does after its third write.
  lemma DelayTail(c: Config, s: Store, job: Member, strike: bool, now: int, cut: nat)
    requires c.Valid() && cut >= 4
    ensures var due := now + Backoff(Ladder(c, strike), Count(s.attempts, job.url) + 1);
      var t := DelayScript(c, s, job, strike, now, 3);
      DelayScript(c, s, job, strike, now, cut) == t.(
        lastId     := t.lastId + 1,
        delayed    := if cut < 5 then t.delayed else t.delayed[Fresh(t, job.url) := due],
        processing := if cut < 6 then t.processing else Remove(t.processing, job))
  {
  }

  class Frontier {
    const cfg: Config
    var lastId: nat
    var ready: seq<Member>
    var processing: seq<Member>
    var lease: map<Member, int>
    var delayed: map<Member, int>
    var dead: map<string, Verdict>
    var attempts: map<string, nat>
    var strikes: map<string, nat>
    var next: map<string, int>
    var barren: map<string, nat>
    var bits: set<nat>

    function View(): Store
      reads this
    {
      Store(lastId, ready, processing, lease, delayed, dead, attempts, strikes, next, barren, bits)
    }

    constructor (cfg: Config)
      ensures this.cfg == cfg && View() == EMPTY
    {
      this.cfg := cfg;
      lastId, ready, processing, lease, delayed := 0, [], [], map[], map[];
      dead, attempts, strikes, next, barren, bits := map[], map[], map[], map[], map[], {};
    }

    // --- admission ---

    method AdmitVideo(url: string, now: int, cut: nat) returns (reply: Reply)
      requires cfg.Valid()
      modifies this
      ensures View() == Do(cfg, old(View()), Op.AdmitVideo(url, now), cut)
      ensures reply == ReplyOf(cfg, old(View()), Op.AdmitVideo(url, now), cut)
    {
      if url in dead {
        if dead[url].until == 0 || dead[url].until > now { return Suppressed; }
        if cut < 1 { return Error; }
        dead := dead - {url};
      }
      reply := PushVideo(url, cut);
    }

    // luaAdmitVideo past its guard: mint and push a job, then BF.ADD, and for a video the
    // filter knew take the job back.
    method PushVideo(url: string, cut: nat) returns (reply: Reply)
      modifies this
      ensures View() == old(View()).(
        lastId := if cut < 2 then old(lastId) else old(lastId) + 1,
        bits   := if cut < 4 then old(bits) else old(bits) + cfg.hash(url),
        ready  := if cut < 3 || (cut >= 5 && Positive(cfg, old(View()), url)) then old(ready)
                  else [Fresh(old(View()), url)] + old(ready))
      ensures reply == if cut < 4 || (cut < 5 && Positive(cfg, old(View()), url)) then Error
                       else if Positive(cfg, old(View()), url) then Suppressed else New
    {
      if cut < 2 { return Error; }
      lastId := lastId + 1;
      if cut < 3 { return Error; }
      var item := Member(lastId, url);
      ready := [item] + ready;
      if cut < 4 { return Error; }
      var known := cfg.hash(url) <= bits;
      bits := bits + cfg.hash(url);
      if known {
        if cut < 5 { return Error; }
        ready := Remove(ready, item);
        assert ready == old(ready);
        return Suppressed;
      }
      return New;
    }

    // What admitting and scheduling a listing end in: mint and push a job, mark it PENDING.
    method PushListing(url: string, cut: nat) returns (pushed: bool)
      modifies this
      ensures View() == old(View()).(
        lastId := if cut < 2 then old(lastId) else old(lastId) + 1,
        ready  := if cut < 3 then old(ready) else [Fresh(old(View()), url)] + old(ready),
        next   := if cut < 4 then old(next) else old(next)[url := PENDING])
      ensures pushed <==> cut >= 4
    {
      if cut < 2 { return false; }
      lastId := lastId + 1;
      if cut < 3 { return false; }
      ready := [Member(lastId, url)] + ready;
      if cut < 4 { return false; }
      next := next[url := PENDING];
      return true;
    }

    method AdmitListing(url: string, now: int, cut: nat) returns (reply: Reply)
      requires cfg.Valid()
      modifies this
      ensures View() == Do(cfg, old(View()), Op.AdmitListing(url, now), cut)
      ensures reply == ReplyOf(cfg, old(View()), Op.AdmitListing(url, now), cut)
    {
      if url in dead {
        if dead[url].until == 0 || dead[url].until > now { return Suppressed; }
        if cut < 1 { return Error; }
        dead := dead - {url};
      }
      var seen := url in next;
      if seen && next[url] > now { return Suppressed; }
      var pushed := PushListing(url, cut);
      reply := if !pushed then Error else if seen then DueRevisit else New;
    }

    method SeedListing(url: string, cut: nat) returns (reply: Reply)
      requires cfg.Valid()
      modifies this
      ensures View() == Do(cfg, old(View()), Op.SeedListing(url), cut)
      ensures reply == ReplyOf(cfg, old(View()), Op.SeedListing(url), cut)
    {
      if url !in next {
        if cut < 1 { return Error; }
        next := next[url := 0];
      }
      return Ok;
    }

    // --- lease and resolution ---

    method Lease(now: int, cut: nat) returns (reply: Reply)
      requires cfg.Valid()
      modifies this
      ensures View() == Do(cfg, old(View()), Op.Lease(now), cut)
      ensures reply == ReplyOf(cfg, old(View()), Op.Lease(now), cut)
    {
      if ready == [] { return Empty; }
      if cut < 1 { return Error; }
      var item := ready[|ready| - 1];
      ready, processing := ready[..|ready| - 1], [item] + processing;
      if cut < 2 { return Error; }
      lease := lease[item := now + cfg.leaseTimeout];
      return Leased(item);
    }

    method Ack(job: Member, cut: nat) returns (reply: Reply)
      requires cfg.Valid()
      modifies this
      ensures View() == Do(cfg, old(View()), Op.Ack(job), cut)
      ensures reply == ReplyOf(cfg, old(View()), Op.Ack(job), cut)
    {
      if job !in lease { return Stale; }
      if cut < 1 { return Error; }
      lease := lease - {job};
      reply := Forget(job, cut - 1);
    }

    // The three writes that end luaAck, luaCompleteListing and luaTerminal.
    method Forget(job: Member, cut: nat) returns (reply: Reply)
      modifies this
      ensures View() == old(View()).(
        processing := if cut < 1 then old(processing) else Remove(old(processing), job),
        attempts   := if cut < 2 then old(attempts) else old(attempts) - {job.url},
        strikes    := if cut < 3 then old(strikes) else old(strikes) - {job.url})
      ensures reply == if cut < 3 then Error else Ok
    {
      if cut < 1 { return Error; }
      processing := Remove(processing, job);
      if cut < 2 { return Error; }
      attempts := attempts - {job.url};
      if cut < 3 { return Error; }
      strikes := strikes - {job.url};
      return Ok;
    }

    method CompleteListing(job: Member, children: nat, now: int, cut: nat) returns (reply: Reply)
      requires cfg.Valid()
      modifies this
      ensures View() == Do(cfg, old(View()), Complete(job, children, now), cut)
      ensures reply == ReplyOf(cfg, old(View()), Complete(job, children, now), cut)
    {
      if job !in lease { return Stale; }
      if cut < 1 { return Error; }
      lease := lease - {job};
      assert BarrenAfter(View(), job.url, children) == BarrenAfter(old(View()), job.url, children);
      Revisit(job.url, children, now, cut - 1);
      if cut < 4 { return Error; }
      dead := dead - {job.url};
      reply := Forget(job, cut - 4);
    }

    // The barren count of a listing and the date of its next visit.
    method Revisit(url: string, children: nat, now: int, cut: nat)
      modifies this
      ensures View() == old(View()).(
        barren := if cut < 1 then old(barren) else old(barren)[url := BarrenAfter(old(View()), url, children)],
        next   := if cut < 2 then old(next) else old(next)[url := NextVisit(cfg, old(View()), url, children, now)])
    {
      if cut < 1 { return; }
      var fruitless := if children > 0 then 0 else Count(barren, url) + 1;
      barren := barren[url := fruitless];
      if cut < 2 { return; }
      next := next[url := now + Ttl(BaseTtl(cfg, url), cfg.maxTtl, fruitless)];
    }

    method Nack(job: Member, cut: nat) returns (reply: Reply)
      requires cfg.Valid()
      modifies this
      ensures View() == Do(cfg, old(View()), Op.Nack(job), cut)
      ensures reply == ReplyOf(cfg, old(View()), Op.Nack(job), cut)
    {
      if job !in lease { return Stale; }
      if cut < 1 { return Error; }
      lease := lease - {job};
      reply := Requeue(job, cut);
      assert View() == RequeueScript(old(View()), job, cut);
    }

    // What luaNack, luaReap and luaSweep do with a claimed job: a new one, then the old gone.
    method Requeue(job: Member, cut: nat) returns (reply: Reply)
      modifies this
      ensures View() == old(View()).(
        lastId     := if cut < 2 then old(lastId) else old(lastId) + 1,
        ready      := if cut < 3 then old(ready) else [Fresh(old(View()), job.url)] + old(ready),
        processing := if cut < 4 then old(processing) else Remove(old(processing), job))
      ensures reply == if cut < 4 then Error else Ok
    {
      if cut < 2 { return Error; }
      lastId := lastId + 1;
      if cut < 3 { return Error; }
      ready := [Member(lastId, job.url)] + ready;
      if cut < 4 { return Error; }
      processing := Remove(processing, job);
      return Ok;
    }

    method Fail(job: Member, strike: bool, now: int, cut: nat) returns (reply: Reply)
      requires cfg.Valid()
      modifies this
      ensures View() == Do(cfg, old(View()), Op.Fail(job, strike, now), cut)
      ensures reply == ReplyOf(cfg, old(View()), Op.Fail(job, strike, now), cut)
    {
      if job !in lease { return Stale; }
      if cut < 1 { return Error; }
      lease := lease - {job};
      var failures, struck := CountFailure(job.url, strike, cut);
      if cut < 2 || (strike && cut < 3) { return Error; }
      if strike && struck >= cfg.maxStrikes {
        reply := StrikeOut(job, Deadline(cfg, job.url, now), cut, old(View()));
      } else {
        var due := NextAttempt(strike, failures, now);
        reply := Delay(job, strike, now, due, cut, old(View()));
      }
    }

    // luaFail's counters.
    method CountFailure(url: string, strike: bool, cut: nat) returns (failures: nat, struck: nat)
      modifies this
      ensures failures == Count(old(attempts), url) + 1
      ensures struck == Count(old(strikes), url) + if strike then 1 else 0
      ensures View() == old(View()).(
        attempts := if cut < 2 then old(attempts) else old(attempts)[url := failures],
        strikes  := if cut < 3 || !strike then old(strikes) else old(strikes)[url := struck])
    {
      failures := Count(attempts, url) + 1;
      struck := Count(strikes, url) + if strike then 1 else 0;
      if cut < 2 { return; }
      attempts := attempts[url := failures];
      if !strike || cut < 3 { return; }
      strikes := strikes[url := struck];
    }

    // luaFail's last strike; s is the store before the script.
    method StrikeOut(job: Member, until: int, cut: nat, ghost s: Store) returns (reply: Reply)
      requires cut >= 3 && View() == StrikeOutScript(s, job, until, 3)
      modifies this
      ensures View() == StrikeOutScript(s, job, until, cut)
      ensures reply == if cut < 8 then Error else Dead
    {
      if until > 0 {
        if cut < 4 { return Error; }
        next := next[job.url := until];
      }
      if cut < 5 { return Error; }
      dead := dead[job.url := Verdict("strikes_exhausted", until)];
      var done := Forget(job, cut - 5);
      reply := if done == Ok then Dead else Error;
    }

    // luaFail otherwise; s is the store before the script.
    method Delay(job: Member, strike: bool, now: int, due: int, cut: nat, ghost s: Store) returns (reply: Reply)
      requires cfg.Valid() && cut >= if strike then 3 else 2
      requires View() == DelayScript(cfg, s, job, strike, now, 3)
      requires due == now + Backoff(Ladder(cfg, strike), Count(s.attempts, job.url) + 1)
      modifies this
      ensures View() == DelayScript(cfg, s, job, strike, now, cut)
      ensures reply == if cut < 6 then Error else Delayed
    {
      if cut < 4 { return Error; }
      DelayTail(cfg, s, job, strike, now, cut);
      reply := Postpone(job, due, cut);
    }

    // The ladder of the failure's class: entries count from 1, the last repeats.
    method NextAttempt(strike: bool, failures: nat, now: int) returns (due: int)
      requires cfg.Valid() && failures >= 1
      ensures due == now + Backoff(Ladder(cfg, strike), failures)
    {
      var ladder := if strike then cfg.strikeBackoff else cfg.rateLimitBackoff;
      var rung := if failures > |ladder| then |ladder| else failures;
      due := now + ladder[rung - 1];
    }

    // A new job in the delayed set, then the old one gone.
    method Postpone(job: Member, due: int, cut: nat) returns (reply: Reply)
      requires cut >= 4
      modifies this
      ensures View() == old(View()).(
        lastId     := old(lastId) + 1,
        delayed    := if cut < 5 then old(delayed) else old(delayed)[Fresh(old(View()), job.url) := due],
        processing := if cut < 6 then old(processing) else Remove(old(processing), job))
      ensures reply == if cut < 6 then Error else Delayed
    {
      lastId := lastId + 1;
      if cut < 5 { return Error; }
      delayed := delayed[Member(lastId, job.url) := due];
      if cut < 6 { return Error; }
      processing := Remove(processing, job);
      return Delayed;
    }

    method Terminal(job: Member, reason: string, until: int, cut: nat) returns (reply: Reply)
      requires cfg.Valid()
      modifies this
      ensures View() == Do(cfg, old(View()), Op.Terminal(job, reason, until), cut)
      ensures reply == ReplyOf(cfg, old(View()), Op.Terminal(job, reason, until), cut)
    {
      if job !in lease { return Stale; }
      if cut < 1 { return Error; }
      lease := lease - {job};
      if until > 0 {
        if cut < 2 { return Error; }
        next := next[job.url := until];
      }
      if cut < 3 { return Error; }
      dead := dead[job.url := Verdict(reason, until)];
      reply := Forget(job, cut - 3);
    }

    // --- reconcilers, one iteration at a time ---

    method ScheduleOne(url: string, now: int, cut: nat) returns (reply: Reply)
      requires cfg.Valid()
      modifies this
      ensures View() == Do(cfg, old(View()), Schedule(url, now), cut)
      ensures reply == ReplyOf(cfg, old(View()), Schedule(url, now), cut)
    {
      if url in dead {
        var until := dead[url].until;
        if cut < 1 { return Error; }
        if until == 0 {
          next := next - {url};
          return Suppressed;
        } else if until > now {
          next := next[url := until];
          return Suppressed;
        }
        dead := dead - {url};
      }
      var pushed := PushListing(url, cut);
      reply := if pushed then New else Error;
    }

    method PromoteOne(job: Member, now: int, cut: nat) returns (reply: Reply)
      requires cfg.Valid()
      modifies this
      ensures View() == Do(cfg, old(View()), Op.Promote(job, now), cut)
      ensures reply == ReplyOf(cfg, old(View()), Op.Promote(job, now), cut)
    {
      if cut < 1 { return Error; }
      lastId := lastId + 1;
      if cut < 2 { return Error; }
      ready := [Member(lastId, job.url)] + ready;
      if cut < 3 { return Error; }
      delayed := delayed - {job};
      return Ok;
    }

    method ReapOne(job: Member, now: int, cut: nat) returns (reply: Reply)
      requires cfg.Valid()
      modifies this
      ensures View() == Do(cfg, old(View()), Op.Reap(job, now), cut)
      ensures reply == ReplyOf(cfg, old(View()), Op.Reap(job, now), cut)
    {
      if job !in lease { return Stale; }
      if cut < 1 { return Error; }
      lease := lease - {job};
      reply := Requeue(job, cut);
      assert View() == RequeueScript(old(View()), job, cut);
    }

    method SweepOne(job: Member, cut: nat) returns (reply: Reply)
      requires cfg.Valid()
      modifies this
      ensures View() == Do(cfg, old(View()), Op.Sweep(job), cut)
      ensures reply == ReplyOf(cfg, old(View()), Op.Sweep(job), cut)
    {
      if job in lease { return Stale; }
      assert lease - {job} == lease;
      reply := Requeue(job, cut);
      assert View() == RequeueScript(old(View()), job, cut);
    }

    // --- reconcilers: a page of the range query, item by item; they answer how many
    // jobs they put in ready ---

    method RunListingScheduler(limit: int, now: int, at: nat, cut: nat)
      returns (n: Option<nat>, ghost page: seq<string>, ghost tr: seq<Store>)
      requires cfg.Valid()
      modifies this
      ensures IsPage(old(next), now, limit, page)
      ensures Follows(cfg, Batch(ScheduleOps(page, now), at, cut), tr) && tr[0] == old(View()) && View() == tr[|tr| - 1]
      ensures n == if at < |page| then None else Some(|ready| - |old(ready)|)
    {
      var due := RangeByScore(next, now, limit);
      page, tr := due, [View()];
      ghost var run := Batch(ScheduleOps(page, now), at, cut);
      var count := 0;
      for i := 0 to |due|
        invariant i <= at && FollowsTo(cfg, run, tr, i) && tr[0] == old(View()) && tr[i] == View()
        invariant |ready| == |old(ready)| + count
      {
        var reply := ScheduleOne(due[i], now, if i == at then cut else WHOLE);
        FollowsNext(cfg, run, tr, i, View());
        tr := tr + [View()];
        if i == at { return None, page, tr; }
        if reply == New { count := count + 1; }
      }
      n := Some(count);
    }

    method Promote(now: int, at: nat, cut: nat)
      returns (n: Option<nat>, ghost page: seq<Member>, ghost tr: seq<Store>)
      requires cfg.Valid()
      modifies this
      ensures IsPage(old(delayed), now, PROMOTE_BATCH_LIMIT, page)
      ensures Follows(cfg, Batch(PromoteOps(page, now), at, cut), tr) && tr[0] == old(View()) && View() == tr[|tr| - 1]
      ensures n == if at < |page| then None else Some(|ready| - |old(ready)|)
    {
      var due := RangeByScore(delayed, now, PROMOTE_BATCH_LIMIT);
      page, tr := due, [View()];
      ghost var run := Batch(PromoteOps(page, now), at, cut);
      var count := 0;
      for i := 0 to |due|
        invariant i <= at && FollowsTo(cfg, run, tr, i) && tr[0] == old(View()) && tr[i] == View()
        invariant |ready| == |old(ready)| + count
      {
        var reply := PromoteOne(due[i], now, if i == at then cut else WHOLE);
        FollowsNext(cfg, run, tr, i, View());
        tr := tr + [View()];
        if i == at { return None, page, tr; }
        if reply == Ok { count := count + 1; }
      }
      n := Some(count);
    }

    method Reap(now: int, at: nat, cut: nat)
      returns (n: Option<nat>, ghost page: seq<Member>, ghost tr: seq<Store>)
      requires cfg.Valid()
      modifies this
      ensures IsPage(old(lease), now, REAP_BATCH_LIMIT, page)
      ensures Follows(cfg, Batch(ReapOps(page, now), at, cut), tr) && tr[0] == old(View()) && View() == tr[|tr| - 1]
      ensures n == if at < |page| then None else Some(|ready| - |old(ready)|)
    {
      var due := RangeByScore(lease, now, REAP_BATCH_LIMIT);
      page, tr := due, [View()];
      ghost var run := Batch(ReapOps(page, now), at, cut);
      var count := 0;
      for i := 0 to |due|
        invariant i <= at && FollowsTo(cfg, run, tr, i) && tr[0] == old(View()) && tr[i] == View()
        invariant |ready| == |old(ready)| + count
      {
        var reply := ReapOne(due[i], now, if i == at then cut else WHOLE);
        FollowsNext(cfg, run, tr, i, View());
        tr := tr + [View()];
        if i == at { return None, page, tr; }
        if reply == Ok { count := count + 1; }
      }
      n := Some(count);
    }

    method Sweep(at: nat, cut: nat)
      returns (n: Option<nat>, ghost page: seq<Member>, ghost tr: seq<Store>)
      requires cfg.Valid()
      modifies this
      ensures page == TailWindow(old(processing), SWEEP_BATCH_LIMIT)
      ensures Follows(cfg, Batch(SweepOps(page), at, cut), tr) && tr[0] == old(View()) && View() == tr[|tr| - 1]
      ensures n == if at < |page| then None else Some(|ready| - |old(ready)|)
    {
      var due := TailWindow(processing, SWEEP_BATCH_LIMIT);
      page, tr := due, [View()];
      ghost var run := Batch(SweepOps(page), at, cut);
      var count := 0;
      for i := 0 to |due|
        invariant i <= at && FollowsTo(cfg, run, tr, i) && tr[0] == old(View()) && tr[i] == View()
        invariant |ready| == |old(ready)| + count
      {
        var reply := SweepOne(due[i], if i == at then cut else WHOLE);
        FollowsNext(cfg, run, tr, i, View());
        tr := tr + [View()];
        if i == at { return None, page, tr; }
        if reply == Ok { count := count + 1; }
      }
      n := Some(count);
    }

    // --- observability ---

    method Stats() returns (stats: Keyspace.Stats)
      ensures stats == StatsOf(View())
    {
      var scheduled := set url | url in next && next[url] < PENDING;
      var pending := set url | url in next && next[url] == PENDING;
      stats := Keyspace.Stats(|ready|, |processing|, |delayed|, |scheduled|, |pending|, |dead|, |strikes|);
    }

    method Idle() returns (idle: bool)
      ensures idle <==> Keyspace.Idle(View())
      ensures idle <==> forall m :: !IsLive(View(), m)
    {
      var stats := Stats();
      idle := stats.ready == 0 && stats.processing == 0 && stats.delayed == 0;
      if ready != [] {
        assert IsLive(View(), ready[0]);
      } else if processing != [] {
        assert IsLive(View(), processing[0]);
      } else if delayed != map[] {
        ghost var m :| m in delayed;
        assert IsLive(View(), m);
      }
    }
  }
}
