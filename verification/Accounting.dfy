/** The per-URL counters against what actually happened in a run of unbroken scripts:
    strikes and attempts (luaFail), and the barren count with the revisit interval it
    sets (luaCompleteListing), internal/storage/frontier.go. */
module Accounting {
  import opened Canonical
  import opened Keyspace
  import opened Scripts
  import opened LeaseLaws

  // --- failures ---

  // An accepted resolution of a job for the URL.
  predicate Resolves(s: Store, step: Step, url: string) {
    Claims(s, step) && Presented(step.op).value.url == url
  }

  // Ack, CompleteListing, Terminal and a last strike close a URL's record.
  predicate Closes(c: Config, s: Store, step: Step, url: string) {
    Resolves(s, step, url) &&
    (step.op.Ack? || step.op.Complete? || step.op.Terminal? ||
     (step.op.Fail? && Answer(c, s, step.op) == Dead))
  }

  predicate FailsOnce(c: Config, s: Store, step: Step, url: string) {
    Resolves(s, step, url) && step.op.Fail? && Answer(c, s, step.op) == Delayed
  }

  // Accepted failures of the URL since its record was last closed, read off the run:
  // all of them, or the strikeable ones only.
  function FailuresSince(c: Config, run: seq<Step>, tr: seq<Store>, url: string, strikesOnly: bool, i: nat): nat
    requires i <= |run| <= |tr|
  {
    if i == 0 || Closes(c, tr[i - 1], run[i - 1], url) then 0
    else
      FailuresSince(c, run, tr, url, strikesOnly, i - 1) +
      if FailsOnce(c, tr[i - 1], run[i - 1], url) && (strikesOnly ==> run[i - 1].op.strike) then 1 else 0
  }

  predicate Tallied(c: Config, s: Store, url: string, attempts: nat, strikes: nat) {
    Count(s.attempts, url) == attempts && Count(s.strikes, url) == strikes && strikes < c.maxStrikes
  }

  lemma FailTally(c: Config, s: Store, step: Step, url: string, attempts: nat, strikes: nat)
    requires c.Valid() && step.cut == WHOLE && Tallied(c, s, url, attempts, strikes)
    requires step.op.Fail? && step.op.job in s.lease
    ensures var t := Do(c, s, step.op, WHOLE);
      if step.op.job.url != url then Tallied(c, t, url, attempts, strikes)
      else if Answer(c, s, step.op) == Dead then Tallied(c, t, url, 0, 0)
      else Tallied(c, t, url, attempts + 1, strikes + if step.op.strike then 1 else 0)
  {
  }

  lemma SettleTally(c: Config, s: Store, step: Step, url: string, attempts: nat, strikes: nat)
    requires c.Valid() && step.cut == WHOLE && Tallied(c, s, url, attempts, strikes)
    requires (step.op.Ack? || step.op.Complete? || step.op.Terminal?) && step.op.job in s.lease
    ensures var t := Do(c, s, step.op, WHOLE);
      if step.op.job.url != url then Tallied(c, t, url, attempts, strikes) else Tallied(c, t, url, 0, 0)
  {
    match step.op {
      case Ack(_) =>
      case Complete(_, _, _) =>
      case Terminal(_, _, _) =>
    }
  }

  predicate Resolution(op: Op) { op.Ack? || op.Complete? || op.Terminal? || op.Fail? }

  // No other script touches the counters.
  lemma OthersKeepCounters(c: Config, s: Store, op: Op, cut: nat)
    requires c.Valid() && !Resolution(op)
    ensures var t := Do(c, s, op, cut); t.attempts == s.attempts && t.strikes == s.strikes && t.barren == s.barren
  {
    if Moves(op) {
      MovesKeepTables(c, s, op, cut);
    } else {
      AdmissionsKeepCounters(c, s, op, cut);
    }
  }

  lemma AdmissionsKeepCounters(c: Config, s: Store, op: Op, cut: nat)
    requires c.Valid() && (op.AdmitVideo? || op.AdmitListing? || op.SeedListing? || op.Schedule?)
    ensures var t := Do(c, s, op, cut); t.attempts == s.attempts && t.strikes == s.strikes && t.barren == s.barren
  {
    match op {
      case AdmitVideo(url, now) =>
        assert Do(c, s, op, cut) == AdmitVideoScript(c, s, url, now, cut);
      case AdmitListing(url, now) =>
        assert Do(c, s, op, cut) == AdmitListingScript(s, url, now, cut);
      case SeedListing(_) =>
      case Schedule(url, now) =>
        assert Do(c, s, op, cut) == ScheduleScript(s, url, now, cut);
    }
  }

  lemma TallyStep(c: Config, s: Store, step: Step, url: string, attempts: nat, strikes: nat)
    requires c.Valid() && step.cut == WHOLE && Tallied(c, s, url, attempts, strikes)
    ensures var t := Do(c, s, step.op, step.cut);
      if Closes(c, s, step, url) then Tallied(c, t, url, 0, 0)
      else if FailsOnce(c, s, step, url) then
        Tallied(c, t, url, attempts + 1, strikes + if step.op.strike then 1 else 0)
      else Tallied(c, t, url, attempts, strikes)
  {
    var op := step.op;
    if op.Fail? && op.job in s.lease {
      FailTally(c, s, step, url, attempts, strikes);
    } else if (op.Ack? || op.Complete? || op.Terminal?) && op.job in s.lease {
      SettleTally(c, s, step, url, attempts, strikes);
    } else if Resolution(op) {
      assert Do(c, s, op, step.cut) == s;
    } else {
      OthersKeepCounters(c, s, op, step.cut);
    }
  }

  // The counters are exactly the failures since the last success or verdict, whatever
  // rate limits, nacks, reaps and promotions come between; strikes never reach the limit.
  lemma {:induction false} StrikeAccounting(c: Config, run: seq<Step>, tr: seq<Store>, url: string, i: nat)
    requires c.Valid() && Execution(c, run, tr) && Atomic(run) && tr[0] == EMPTY && i <= |run|
    ensures Tallied(c, tr[i], url,
      FailuresSince(c, run, tr, url, false, i), FailuresSince(c, run, tr, url, true, i))
  {
    if i > 0 {
      StrikeAccounting(c, run, tr, url, i - 1);
      TallyStep(c, tr[i - 1], run[i - 1], url,
        FailuresSince(c, run, tr, url, false, i - 1), FailuresSince(c, run, tr, url, true, i - 1));
    }
  }

  predicate Counted(s: Store, url: string) { Count(s.strikes, url) <= Count(s.attempts, url) }

  // The script stops between the two counters' deletions while the URL has strikes.
  predicate Overcounts(c: Config, s: Store, op: Op, cut: nat, url: string) {
    match op
    case Ack(job) => job in s.lease && job.url == url && cut == 3 && Count(s.strikes, url) > 0
    case Complete(job, _, _) => job in s.lease && job.url == url && cut == 6 && Count(s.strikes, url) > 0
    case Terminal(job, _, _) => job in s.lease && job.url == url && cut == 5 && Count(s.strikes, url) > 0
    case Fail(job, strike, _) => job in s.lease && job.url == url && StruckOut(c, s, url, strike) && cut == 7
    case _ => false
  }

  lemma SettleCounted(c: Config, s: Store, op: Op, cut: nat, url: string)
    requires c.Valid() && Counted(s, url) && (op.Ack? || op.Complete? || op.Terminal?) && op.job in s.lease
    ensures Counted(Do(c, s, op, cut), url) <==> !Overcounts(c, s, op, cut, url)
  {
    match op {
      case Ack(_) =>
      case Complete(_, _, _) =>
      case Terminal(_, _, _) =>
    }
  }

  lemma StrikeOutCounted(s: Store, job: Member, until: int, cut: nat, url: string)
    requires Counted(s, url)
    ensures Counted(StrikeOutScript(s, job, until, cut), url) <==> !(job.url == url && cut == 7)
  {
  }

  lemma DelayCounted(c: Config, s: Store, job: Member, strike: bool, now: int, cut: nat, url: string)
    requires c.Valid() && Counted(s, url)
    ensures Counted(DelayScript(c, s, job, strike, now, cut), url)
  {
  }

  lemma FailCounted(c: Config, s: Store, op: Op, cut: nat, url: string)
    requires c.Valid() && Counted(s, url) && op.Fail? && op.job in s.lease
    ensures Counted(Do(c, s, op, cut), url) <==> !Overcounts(c, s, op, cut, url)
  {
    if StruckOut(c, s, op.job.url, op.strike) {
      StrikeOutCounted(s, op.job, Deadline(c, op.job.url, op.now), cut, url);
    } else {
      DelayCounted(c, s, op.job, op.strike, op.now, cut, url);
    }
  }

  // One script, broken off or not, lets strikes exceed attempts exactly there.
  lemma CountedIff(c: Config, s: Store, op: Op, cut: nat, url: string)
    requires c.Valid() && Counted(s, url)
    ensures Counted(Do(c, s, op, cut), url) <==> !Overcounts(c, s, op, cut, url)
  {
    if !Resolution(op) {
      OthersKeepCounters(c, s, op, cut);
    } else if op.job !in s.lease {
      assert Do(c, s, op, cut) == s;
    } else if op.Fail? {
      FailCounted(c, s, op, cut, url);
    } else {
      SettleCounted(c, s, op, cut, url);
    }
  }

  // Over any run that does not break off there, so over any unbroken one, a URL's strikes
  // are at most its attempts.
  lemma {:induction false} StrikesAreAttempts(c: Config, run: seq<Step>, tr: seq<Store>, url: string, i: nat)
    requires c.Valid() && Execution(c, run, tr) && Counted(tr[0], url) && i <= |run|
    requires forall k {:trigger run[k]} | 0 <= k < i :: !Overcounts(c, tr[k], run[k].op, run[k].cut, url)
    ensures Count(tr[i].strikes, url) <= Count(tr[i].attempts, url)
  {
    if i > 0 {
      StrikesAreAttempts(c, run, tr, url, i - 1);
      CountedIff(c, tr[i - 1], run[i - 1].op, run[i - 1].cut, url);
    }
  }

  // The answer to a failure, and the verdict or the wait it leads to.
  lemma FailAnswers(c: Config, s: Store, fail: Op, failures: nat, strikes: nat)
    requires c.Valid() && fail.Fail? && fail.job in s.lease && Tallied(c, s, fail.job.url, failures, strikes)
    ensures
      var t, url := Do(c, s, fail, WHOLE), fail.job.url;
      var ladder := if fail.strike then c.strikeBackoff else c.rateLimitBackoff;
      var rung := if failures < |ladder| then failures else |ladder| - 1;
      && (Answer(c, s, fail) == Dead <==> fail.strike && strikes + 1 == c.maxStrikes)
      && (Answer(c, s, fail) == Dead ==>
            url in t.dead && t.dead[url] ==
              Verdict("strikes_exhausted", if IsVideo(url) then 0 else fail.now + c.quarantine))
      && (Answer(c, s, fail) != Dead ==>
            && Answer(c, s, fail) == Delayed
            && t.delayed == s.delayed[Member(s.lastId + 1, url) := fail.now + ladder[rung]])
  {
  }

  // A strikeable failure kills exactly as the MaxStrikes-th since the record was opened,
  // a video for good and a listing for the quarantine; any other failure waits its rung of
  // its own ladder, counted over all failures so far.
  lemma DeadAtMaxStrikes(c: Config, run: seq<Step>, tr: seq<Store>, i: nat, fail: Op)
    requires c.Valid() && Execution(c, run, tr) && Atomic(run) && tr[0] == EMPTY && i <= |run|
    requires fail.Fail? && fail.job in tr[i].lease
    ensures
      var s, t, url := tr[i], Do(c, tr[i], fail, WHOLE), fail.job.url;
      var failures := FailuresSince(c, run, tr, url, false, i);
      var ladder := if fail.strike then c.strikeBackoff else c.rateLimitBackoff;
      var rung := if failures < |ladder| then failures else |ladder| - 1;
      && (Answer(c, s, fail) == Dead <==>
            fail.strike && FailuresSince(c, run, tr, url, true, i) + 1 == c.maxStrikes)
      && (Answer(c, s, fail) == Dead ==>
            url in t.dead && t.dead[url] ==
              Verdict("strikes_exhausted", if IsVideo(url) then 0 else fail.now + c.quarantine))
      && (Answer(c, s, fail) != Dead ==>
            && Answer(c, s, fail) == Delayed
            && t.delayed == s.delayed[Member(s.lastId + 1, url) := fail.now + ladder[rung]])
  {
    var url := fail.job.url;
    StrikeAccounting(c, run, tr, url, i);
    FailAnswers(c, tr[i], fail,
      FailuresSince(c, run, tr, url, false, i), FailuresSince(c, run, tr, url, true, i));
  }

  // --- barren listings ---

  predicate Completes(s: Store, step: Step, url: string) {
    Resolves(s, step, url) && step.op.Complete?
  }

  // Completions of the listing without a New child since the last one with, read off the run.
  function BarrenSince(run: seq<Step>, tr: seq<Store>, url: string, i: nat): nat
    requires i <= |run| <= |tr|
  {
    if i == 0 then 0
    else if !Completes(tr[i - 1], run[i - 1], url) then BarrenSince(run, tr, url, i - 1)
    else if run[i - 1].op.children > 0 then 0
    else BarrenSince(run, tr, url, i - 1) + 1
  }

  lemma OthersKeepBarren(c: Config, s: Store, op: Op, cut: nat)
    requires c.Valid() && !op.Complete?
    ensures Do(c, s, op, cut).barren == s.barren
  {
    if Resolution(op) {
      match op {
        case Ack(_) =>
        case Fail(_, _, _) =>
        case Terminal(_, _, _) =>
      }
    } else {
      OthersKeepCounters(c, s, op, cut);
    }
  }

  lemma BarrenStep(c: Config, s: Store, step: Step, url: string)
    requires c.Valid() && step.cut == WHOLE
    ensures Count(Do(c, s, step.op, step.cut).barren, url) ==
      if Completes(s, step, url) then BarrenAfter(s, url, step.op.children) else Count(s.barren, url)
  {
    if !step.op.Complete? { OthersKeepBarren(c, s, step.op, step.cut); }
  }

  lemma {:induction false} BarrenAccounting(c: Config, run: seq<Step>, tr: seq<Store>, url: string, i: nat)
    requires c.Valid() && Execution(c, run, tr) && Atomic(run) && tr[0] == EMPTY && i <= |run|
    ensures Count(tr[i].barren, url) == BarrenSince(run, tr, url, i)
  {
    if i > 0 {
      BarrenAccounting(c, run, tr, url, i - 1);
      BarrenStep(c, tr[i - 1], run[i - 1], url);
    }
  }

  // --- the revisit interval ---

  // The interval as a rule for successive visits: double it, up to max.
  function Doubled(base: int, max: int, barren: nat): int {
    var ttl := if barren == 0 then base else 2 * Doubled(base, max, barren - 1);
    if ttl > max then max else ttl
  }

  lemma {:induction false} TtlIsDoubled(base: int, max: int, barren: nat)
    requires base > 0 && max > 0
    ensures Ttl(base, max, barren) == Doubled(base, max, barren)
    ensures 0 < Ttl(base, max, barren) <= max
  {
    if barren > 0 {
      TtlIsDoubled(base, max, barren - 1);
      assert base * Pow2(barren) == 2 * (base * Pow2(barren - 1));
    }
  }

  lemma {:induction false} TtlMonotone(base: int, max: int, i: nat, j: nat)
    requires base > 0 && max > 0 && i <= j
    ensures Ttl(base, max, i) <= Ttl(base, max, j)
    decreases j
  {
    if i < j {
      TtlMonotone(base, max, i, j - 1);
      TtlIsDoubled(base, max, j - 1);
      TtlIsDoubled(base, max, j);
    }
  }

  // How many doublings take base to max.
  function Doublings(base: int, max: int): nat
    requires base > 0
    decreases max - base
  {
    if base >= max then 0 else 1 + Doublings(2 * base, max)
  }

  // The interval is the maximum from that many barren visits on, and not before.
  lemma {:induction false} TtlSaturates(base: int, max: int, barren: nat)
    requires base > 0 && max > 0
    ensures Ttl(base, max, barren) == max <==> barren >= Doublings(base, max)
    decreases barren
  {
    if barren == 0 {
      assert Pow2(0) == 1;
    } else if base < max {
      TtlSaturates(2 * base, max, barren - 1);
      assert base * Pow2(barren) == 2 * base * Pow2(barren - 1);
    } else {
      TtlMonotone(base, max, 0, barren);
      TtlIsDoubled(base, max, barren);
      assert Pow2(0) == 1;
    }
  }

  lemma CompletionDates(c: Config, s: Store, step: Step, url: string)
    requires c.Valid() && step.cut == WHOLE && Completes(s, step, url)
    ensures var t := Do(c, s, step.op, step.cut);
      url in t.next && t.next[url] == step.op.now + Ttl(BaseTtl(c, url), c.maxTtl, Count(t.barren, url))
  {
  }

  // An accepted completion dates the next visit by the doubling rule, from the seeds'
  // interval for a seed and the listings' for any other, counted over the barren
  // completions of the run so far, and never beyond max.
  lemma NextVisitOverRuns(c: Config, run: seq<Step>, tr: seq<Store>, url: string, i: nat)
    requires c.Valid() && Execution(c, run, tr) && Atomic(run) && tr[0] == EMPTY && i < |run|
    requires Completes(tr[i], run[i], url)
    ensures var now, t, barren := run[i].op.now, tr[i + 1], BarrenSince(run, tr, url, i + 1);
      && url in t.next
      && (url in c.seeds ==> t.next[url] == now + Doubled(c.seedTtl, c.maxTtl, barren))
      && (url !in c.seeds ==> t.next[url] == now + Doubled(c.baseTtl, c.maxTtl, barren))
      && now < t.next[url] <= now + c.maxTtl
  {
    var barren := BarrenSince(run, tr, url, i + 1);
    BarrenAccounting(c, run, tr, url, i + 1);
    assert Legal(c, tr[i], run[i].op);
    CompletionDates(c, tr[i], run[i], url);
    TtlIsDoubled(c.seedTtl, c.maxTtl, barren);
    TtlIsDoubled(c.baseTtl, c.maxTtl, barren);
  }
}
