/** What the outcome of a page does to the frontier, stated on the stores before and after
    the job's resolution (handleOutcome in internal/crawler/worker.go, and the scripts of
    internal/storage/frontier.go it ends in). */
module Outcomes {
  import opened Text
  import opened Canonical
  import opened Keyspace
  import opened Scripts
  import opened JobQueue
  import opened Worker
  import opened Crew
  import Accounting
  import Reckoning
  import Exclusive
  import Guarantees

  // --- what can become of a leased job: t is s with ... ---

  // ... the job gone for good, and with it the record of its URL's failures.
  predicate Gone(s: Store, t: Store, job: Member) {
    && job !in t.lease && !IsLive(t, job)
    && t.ready == s.ready && t.delayed == s.delayed
    && t.attempts == s.attempts - {job.url} && t.strikes == s.strikes - {job.url}
  }

  // ... a new job for its URL at the back of ready, and no table changed.
  predicate Again(s: Store, t: Store, job: Member) {
    && job !in t.lease && !IsLive(t, job)
    && t.ready == [Member(s.lastId + 1, job.url)] + s.ready && t.delayed == s.delayed
    && t.attempts == s.attempts && t.strikes == s.strikes && t.barren == s.barren
    && t.dead == s.dead && t.next == s.next
  }

  // ... one failure more on its URL's record, and a new job delayed by that ladder's rung.
  predicate Waits(s: Store, t: Store, job: Member, strike: bool, ladder: seq<int>, now: int)
    requires ladder != []
  {
    var failures := Count(s.attempts, job.url);
    var rung := if failures < |ladder| then failures else |ladder| - 1;
    && job !in t.lease && !IsLive(t, job)
    && t.ready == s.ready
    && t.delayed == s.delayed[Member(s.lastId + 1, job.url) := now + ladder[rung]]
    && t.attempts == s.attempts[job.url := failures + 1]
    && t.strikes == (if strike then s.strikes[job.url := Count(s.strikes, job.url) + 1] else s.strikes)
    && t.barren == s.barren && t.dead == s.dead && t.next == s.next
  }

  // ... its URL dead: a video for good, a listing for the quarantine.
  predicate Condemned(c: Config, s: Store, t: Store, job: Member, reason: string, now: int) {
    && Gone(s, t, job) && t.barren == s.barren
    && (IsVideo(job.url) ==> t.dead == s.dead[job.url := Verdict(reason, 0)] && t.next == s.next)
    && (!IsVideo(job.url) ==>
          && t.dead == s.dead[job.url := Verdict(reason, now + c.quarantine)]
          && t.next == s.next[job.url := now + c.quarantine])
  }

  // ... its listing dated for the next visit, `news` of its children having been New.
  predicate Dated(c: Config, s: Store, t: Store, job: Member, news: nat, now: int) {
    var barren := if news > 0 then 0 else Count(s.barren, job.url) + 1;
    var base := if job.url in c.seeds then c.seedTtl else c.baseTtl;
    && Gone(s, t, job)
    && t.barren == s.barren[job.url := barren]
    && t.next == s.next[job.url := now + Accounting.Doubled(base, c.maxTtl, barren)]
    && t.dead == s.dead - {job.url}
  }

  // What becomes of it under each outcome. n is the number of New children, None if an
  // admission failed.
  predicate Becomes(
      c: Config, s: Store, t: Store, job: Member, out: PageOutcome, stored: bool, n: Option<nat>, now: int)
    requires c.Valid()
  {
    match out
    case PageVideo(_, _) =>
      if stored && n.Some? then Gone(s, t, job) && t.barren == s.barren && t.dead == s.dead && t.next == s.next
      else Again(s, t, job)
    case PageListing(_) => if n.Some? then Dated(c, s, t, job, n.value, now) else Again(s, t, job)
    case PageNotFound(reason) => Condemned(c, s, t, job, reason, now)
    case PageRetryable(strikeable) =>
      if !strikeable then Waits(s, t, job, false, c.rateLimitBackoff, now) else Strikes(c, s, t, job, now)
    case PageUnknown => Strikes(c, s, t, job, now)
    case PageCancelled => Again(s, t, job)
  }

  // A failure that strikes: the last strike condemns, any other waits.
  predicate Strikes(c: Config, s: Store, t: Store, job: Member, now: int)
    requires c.Valid()
  {
    if Count(s.strikes, job.url) + 1 < c.maxStrikes then Waits(s, t, job, true, c.strikeBackoff, now)
    else Condemned(c, s, t, job, "strikes_exhausted", now)
  }

  // --- the scripts do that ---

  lemma AckBecomes(c: Config, s: Store, job: Member)
    requires c.Valid() && Queue(s) && job in s.lease
    ensures var t := Do(c, s, Ack(job), WHOLE);
      Gone(s, t, job) && t.barren == s.barren && t.dead == s.dead && t.next == s.next
  {
    ProcessingElsewhere(s, job);
  }

  lemma DateIs(c: Config, s: Store, url: string, children: nat, now: int)
    requires c.Valid() && !IsVideo(url)
    ensures var barren := if children > 0 then 0 else Count(s.barren, url) + 1;
      var base := if url in c.seeds then c.seedTtl else c.baseTtl;
      && BarrenAfter(s, url, children) == barren
      && NextVisit(c, s, url, children, now) == now + Accounting.Doubled(base, c.maxTtl, barren)
  {
    Accounting.TtlIsDoubled(c.seedTtl, c.maxTtl, BarrenAfter(s, url, children));
    Accounting.TtlIsDoubled(c.baseTtl, c.maxTtl, BarrenAfter(s, url, children));
  }

  lemma CompleteBecomes(c: Config, s: Store, job: Member, children: nat, now: int)
    requires c.Valid() && Queue(s) && job in s.lease && !IsVideo(job.url)
    ensures Dated(c, s, Do(c, s, Complete(job, children, now), WHOLE), job, children, now)
  {
    ProcessingElsewhere(s, job);
    DateIs(c, s, job.url, children, now);
    var t := Do(c, s, Complete(job, children, now), WHOLE);
    assert t == CompleteScript(c, s, job, children, now, WHOLE) && Gone(s, t, job);
  }

  lemma TerminalBecomes(c: Config, s: Store, job: Member, reason: string, now: int)
    requires c.Valid() && Queue(s) && job in s.lease && now > 0
    ensures Condemned(c, s, Do(c, s, Terminal(job, reason, Deadline(c, job.url, now)), WHOLE), job, reason, now)
  {
    ProcessingElsewhere(s, job);
  }

  lemma NackBecomes(c: Config, s: Store, job: Member)
    requires c.Valid() && Queue(s) && job in s.lease
    ensures Again(s, Do(c, s, Nack(job), WHOLE), job)
  {
    ProcessingElsewhere(s, job);
    RequeueMoves(s, job, WHOLE);
    QueueBounds(s);
  }

  lemma LastStrikeBecomes(c: Config, s: Store, job: Member, now: int)
    requires c.Valid() && Queue(s) && job in s.lease && now > 0 && Count(s.strikes, job.url) + 1 >= c.maxStrikes
    ensures Condemned(c, s, Do(c, s, Fail(job, true, now), WHOLE), job, "strikes_exhausted", now)
  {
    ProcessingElsewhere(s, job);
    var t := StrikeOutScript(s, job, Deadline(c, job.url, now), WHOLE);
    assert t.attempts == s.attempts - {job.url} && t.strikes == s.strikes - {job.url};
  }

  lemma DelayBecomes(c: Config, s: Store, job: Member, strike: bool, now: int)
    requires c.Valid() && Queue(s) && job in s.lease && now > 0
    requires strike ==> Count(s.strikes, job.url) + 1 < c.maxStrikes
    ensures Waits(
      s, Do(c, s, Fail(job, strike, now), WHOLE), job, strike,
      if strike then c.strikeBackoff else c.rateLimitBackoff, now)
  {
    DelayMoves(c, s, job, strike, now, WHOLE);
    QueueBounds(s);
  }

  lemma FailBecomes(c: Config, s: Store, job: Member, strike: bool, now: int)
    requires c.Valid() && Queue(s) && job in s.lease && now > 0
    ensures var t := Do(c, s, Fail(job, strike, now), WHOLE);
      if strike then Strikes(c, s, t, job, now) else Waits(s, t, job, false, c.rateLimitBackoff, now)
  {
    if strike && Count(s.strikes, job.url) + 1 >= c.maxStrikes {
      LastStrikeBecomes(c, s, job, now);
    } else {
      DelayBecomes(c, s, job, strike, now);
    }
  }

  // A live job's id has been minted.
  lemma QueueBounds(s: Store)
    requires Queue(s)
    ensures forall m | IsLive(s, m) :: m.id <= s.lastId
  {
    var q := s.ready + s.processing;
    DescendingIds(q, s.lastId + 1);
    assert forall m | m in s.ready || m in s.processing :: m in q;
  }

  // The resolution of a leased job, unbroken, does what its outcome says.
  lemma ResolutionBecomes(
      c: Config, s: Store, job: Member, out: PageOutcome, stored: bool, n: Option<nat>, now: int)
    requires c.Valid() && Queue(s) && job in s.lease && Fits(job.url, out) && now > 0
    ensures Becomes(c, s, Do(c, s, Resolution(c, job, out, stored, n, now), WHOLE), job, out, stored, n, now)
  {
    match out {
      case PageVideo(_, _) =>
        if stored && n.Some? { AckBecomes(c, s, job); } else { NackBecomes(c, s, job); }
      case PageListing(_) =>
        if n.Some? { CompleteBecomes(c, s, job, n.value, now); } else { NackBecomes(c, s, job); }
      case PageNotFound(reason) => TerminalBecomes(c, s, job, reason, now);
      case PageRetryable(strikeable) => FailBecomes(c, s, job, strikeable, now);
      case PageUnknown => FailBecomes(c, s, job, true, now);
      case PageCancelled => NackBecomes(c, s, job);
    }
  }

  // Failures, and only failures that are not rate limits, strike: one strike more, or dead.
  lemma StrikesIff(
      c: Config, s: Store, t: Store, job: Member, out: PageOutcome, stored: bool, n: Option<nat>, now: int)
    requires c.Valid() && Becomes(c, s, t, job, out, stored, n, now) && job.url !in s.dead && !out.PageNotFound?
    ensures Count(t.strikes, job.url) > Count(s.strikes, job.url) || job.url in t.dead <==>
      out == PageRetryable(true) || out == PageUnknown
  {
  }

  // --- a whole call of HandleOutcome ---

  // Admissions leave the jobs that were taken, and what was counted, alone.
  predicate Untouched(s: Store, t: Store) {
    && t.lease == s.lease && t.processing == s.processing && t.delayed == s.delayed
    && t.attempts == s.attempts && t.strikes == s.strikes && t.barren == s.barren
  }

  lemma AdmissionLeaves(c: Config, s: Store, url: string, now: int, cut: nat)
    requires c.Valid()
    ensures Untouched(s, Do(c, s, AdmitOp(url, now), cut))
  {
    VideoLeaves(c, s, url, now, cut);
    ListingLeaves(s, url, now, cut);
  }

  lemma VideoLeaves(c: Config, s: Store, url: string, now: int, cut: nat)
    ensures Untouched(s, AdmitVideoScript(c, s, url, now, cut))
  {
  }

  lemma ListingLeaves(s: Store, url: string, now: int, cut: nat)
    ensures Untouched(s, AdmitListingScript(s, url, now, cut))
  {
  }

  lemma FollowsAt(c: Config, run: seq<Step>, tr: seq<Store>, i: nat)
    requires c.Valid() && Follows(c, run, tr) && i < |run|
    ensures tr[i + 1] == Do(c, tr[i], run[i].op, run[i].cut)
  {
  }

  lemma {:induction false} AdmissionsLeave(
      c: Config, keys: seq<string>, clock: nat -> int, at: nat, cut: nat, tr: seq<Store>, i: nat)
    requires c.Valid() && Follows(c, Batch(AdmitOps(keys, clock), at, cut), tr) && i < |tr|
    ensures Untouched(tr[0], tr[i])
  {
    if i > 0 {
      var j: nat := i - 1;
      AdmissionsLeave(c, keys, clock, at, cut, tr, j);
      var run := Batch(AdmitOps(keys, clock), at, cut);
      FollowsAt(c, run, tr, j);
      BatchSteps(AdmitOps(keys, clock), at, cut);
      AdmissionLeaves(c, tr[j], keys[j], clock(j), run[j].cut);
    }
  }

  // The last step of a run apart.
  lemma FollowsSplit(c: Config, run: seq<Step>, last: Step, tr: seq<Store>)
    requires c.Valid() && Follows(c, run + [last], tr)
    ensures |tr| == |run| + 2 && Follows(c, run, tr[..|run| + 1])
    ensures tr[|run| + 1] == Do(c, tr[|run|], last.op, last.cut)
  {
    FollowsAt(c, run + [last], tr, |run|);
    forall i {:trigger run[i]} | 0 <= i < |run|
      ensures tr[..|run| + 1][i + 1] == Do(c, tr[..|run| + 1][i], run[i].op, run[i].cut)
    {
      assert (run + [last])[i] == run[i];
    }
  }

  lemma NoneAdmitted(out: PageOutcome, stored: bool, clock: nat -> int, at: nat, cut: nat)
    requires !out.PageListing? && !(out.PageVideo? && stored)
    ensures Batch(AdmitOps(Keys(Children(out, stored)), clock), at, cut) == []
  {
    assert Children(out, stored) == [];
  }

  // The steps of a call: its admissions, then the resolution.
  lemma HandlingSteps(
      c: Config, keys: seq<string>, clock: nat -> int, at: nat, cut: nat, op: Op, tr: seq<Store>, k: nat)
    requires c.Valid() && Follows(c, Batch(AdmitOps(keys, clock), at, cut) + [Step(op, WHOLE)], tr)
    requires k == |Batch(AdmitOps(keys, clock), at, cut)|
    ensures |tr| == k + 2 && Untouched(tr[0], tr[k]) && tr[k + 1] == Do(c, tr[k], op, WHOLE)
  {
    FollowsSplit(c, Batch(AdmitOps(keys, clock), at, cut), Step(op, WHOLE), tr);
    AdmissionsLeave(c, keys, clock, at, cut, tr[..k + 1], k);
  }

  lemma HandlingKeepsQueue(
      c: Config, job: Member, out: PageOutcome, stored: bool, clock: nat -> int, at: nat, cut: nat,
      n: Option<nat>, now: int, tr: seq<Store>, i: nat)
    requires c.Valid() && Fits(job.url, out) && Timely(c, now) && forall k :: 0 < clock(k) < PENDING
    requires Follows(c, Handling(c, job, out, stored, clock, at, cut, n, now, WHOLE), tr) && Queue(tr[0]) && i < |tr|
    ensures Queue(tr[i])
  {
    HandlingIsLegal(c, job, out, stored, clock, at, cut, n, now, WHOLE, tr);
    RunKeepsQueue(c, Handling(c, job, out, stored, clock, at, cut, n, now, WHOLE), tr, i);
  }

  lemma LeasedBecomes(
      c: Config, r: Store, s: Store, t: Store, job: Member, out: PageOutcome, stored: bool, n: Option<nat>, now: int)
    requires c.Valid() && Untouched(r, s) && job in r.lease && Queue(s) && Fits(job.url, out) && now > 0
    requires t == Do(c, s, Resolution(c, job, out, stored, n, now), WHOLE)
    ensures Becomes(c, s, t, job, out, stored, n, now)
  {
    ResolutionBecomes(c, s, job, out, stored, n, now);
  }

  // Whatever the k admissions before it come to, a leased job becomes what its outcome
  // says, reckoned from the record its URL had when the call began.
  lemma HandlingBecomes(
      c: Config, job: Member, out: PageOutcome, stored: bool, clock: nat -> int, at: nat, cut: nat,
      n: Option<nat>, now: int, tr: seq<Store>) returns (k: nat)
    requires c.Valid() && Fits(job.url, out) && Timely(c, now) && forall i :: 0 < clock(i) < PENDING
    requires Follows(c, Handling(c, job, out, stored, clock, at, cut, n, now, WHOLE), tr)
    requires Queue(tr[0]) && job in tr[0].lease
    ensures |tr| == k + 2 && (!out.PageListing? && !(out.PageVideo? && stored) ==> k == 0)
    ensures Untouched(tr[0], tr[k])
    ensures Becomes(c, tr[k], tr[k + 1], job, out, stored, n, now)
  {
    k := |Batch(AdmitOps(Keys(Children(out, stored)), clock), at, cut)|;
    HandlingSteps(
      c, Keys(Children(out, stored)), clock, at, cut, Resolution(c, job, out, stored, n, now), tr, k);
    if !out.PageListing? && !(out.PageVideo? && stored) { NoneAdmitted(out, stored, clock, at, cut); }
    HandlingKeepsQueue(c, job, out, stored, clock, at, cut, n, now, tr, k);
    LeasedBecomes(c, tr[0], tr[k], tr[k + 1], job, out, stored, n, now);
  }

  // --- a worker among others ---

  // A worker at the end of its page makes the resolution.
  lemma WorkResolves(c: Config, site: string -> seq<string>, crawl: Crawl, w: nat, now: int, lost: bool)
    requires c.Valid() && crawl.Shaped() && Enabled(c, site, crawl, Work(w, now, WHOLE, lost))
    requires crawl.phases[w].Busy? && !crawl.phases[w].Admits()
    ensures var next, p := Happens(c, site, crawl, Work(w, now, WHOLE, lost)), crawl.phases[w];
      && next.Shaped() && next.phases == crawl.phases[w := Polling]
      && next.Now() == Do(c, crawl.Now(), Resolution(c, p.job, p.out, p.stored, p.n, now), WHOLE)
  {
  }

  lemma StaleKeeps(
      c: Config, s: Store, job: Member, out: PageOutcome, stored: bool, n: Option<nat>, now: int)
    requires c.Valid() && job !in s.lease
    ensures Do(c, s, Resolution(c, job, out, stored, n, now), WHOLE) == s
  {
  }

  lemma OrderlyFits(c: Config, site: string -> seq<string>, crawl: Crawl, w: nat)
    requires c.Valid() && Orderly(c, site, crawl) && w < |crawl.phases| && crawl.phases[w].Busy?
    ensures Queue(crawl.Now()) && Fits(crawl.phases[w].job.url, crawl.phases[w].out)
  {
    RunKeepsQueue(c, crawl.run, crawl.tr, |crawl.run|);
    assert Tracked(c, site, crawl.run, crawl.tr, crawl.phases[w]);
  }

  // In any interleaving a worker whose turn it is to resolve, and whose script does not
  // break off, does that to its job if the lease still stands, and nothing otherwise; the
  // number of New children is what it was answered since it leased the page.
  lemma TurnBecomes(
      c: Config, site: string -> seq<string>, workers: nat, evs: seq<Event>, crawls: seq<Crawl>,
      i: nat, w: nat, now: int, lost: bool)
    requires c.Valid() && Story(c, site, evs, crawls) && crawls[0] == Beginning(workers)
    requires i < |evs| && evs[i] == Work(w, now, WHOLE, lost)
    requires w < |crawls[i].phases| && crawls[i].phases[w].Busy? && !crawls[i].phases[w].Admits()
    ensures crawls[i].Shaped() && crawls[i + 1].Shaped() && crawls[i + 1].phases == crawls[i].phases[w := Polling]
    ensures var s, t, p := crawls[i].Now(), crawls[i + 1].Now(), crawls[i].phases[w];
      && (if p.job in s.lease then Becomes(c, s, t, p.job, p.out, p.stored, p.n, now) else t == s)
      && (p.n.Some? ==> p.n.value == Reckoning.FoundNow(c, crawls[i], w))
  {
    InterleavingIsOrderly(c, site, workers, evs, crawls, i);
    Reckoning.CompletionsReportNew(c, site, workers, evs, crawls, i);
    assert Enabled(c, site, crawls[i], evs[i]);
    var s, p := crawls[i].Now(), crawls[i].phases[w];
    WorkResolves(c, site, crawls[i], w, now, lost);
    OrderlyFits(c, site, crawls[i], w);
    if p.job in s.lease {
      ResolutionBecomes(c, s, p.job, p.out, p.stored, p.n, now);
    } else {
      StaleKeeps(c, s, p.job, p.out, p.stored, p.n, now);
    }
    assert Reckoning.CountsRight(c, crawls[i], w);
  }

  // --- how long a quarantine is ---

  // A listing whose job ends in its condemnation has no job again until an admission or a
  // scheduling whose clock has come to the end of the quarantine.
  lemma QuarantineLasts(
      c: Config, s: Store, job: Member, out: PageOutcome, stored: bool, n: Option<nat>, now: int,
      run: seq<Step>, tr: seq<Store>, i: nat)
    requires c.Valid() && Exclusive.Strong(c, s) && job in s.lease && !IsVideo(job.url)
    requires Fits(job.url, out) && Timely(c, now)
    requires out.PageNotFound? ||
      ((out == PageRetryable(true) || out == PageUnknown) && Count(s.strikes, job.url) + 1 >= c.maxStrikes)
    requires Execution(c, run, tr) && Atomic(run) && tr[0] == Do(c, s, Resolution(c, job, out, stored, n, now), WHOLE)
    requires i <= |run| && forall k | 0 <= k < i :: Guarantees.ComesBefore(run[k].op, job.url, now + c.quarantine)
    ensures Guarantees.Quarantined(tr[i], job.url, now + c.quarantine)
  {
    var op := Resolution(c, job, out, stored, n, now);
    ResolutionIsLegal(c, s, job, out, stored, n, now);
    ResolutionBecomes(c, s, job, out, stored, n, now);
    Exclusive.KeepsStrong(c, s, op);
    Guarantees.QuarantineHolds(c, run, tr, job.url, now + c.quarantine, i);
  }
}
