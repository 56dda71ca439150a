/** The frontier's Lua scripts (internal/storage/frontier.go) as a step relation.

    Redis runs a script without interleaving but does not roll it back: a script that
    fails stops after some prefix of its writes. Do(c, s, op, cut) is the store after
    the first `cut` writes of op's script; cut == WHOLE runs it to the end. A write the
    branch taken does not make keeps its number and does nothing.

    The looping scripts (scheduler, promoter, reaper, sweeper) appear as one op per
    iteration; Batch puts the iterations of one call together. */
module Scripts {
  import opened Canonical
  import opened Keyspace

  const WHOLE: nat := 9

  datatype Op =
    | Lease(now: int)
    | AdmitVideo(url: string, now: int)
    | AdmitListing(url: string, now: int)
    | SeedListing(url: string)
    | Schedule(url: string, now: int)
    | Ack(job: Member)
    | Complete(job: Member, children: nat, now: int)
    | Nack(job: Member)
    | Fail(job: Member, strike: bool, now: int)
    | Terminal(job: Member, reason: string, until: int)
    | Promote(job: Member, now: int)
    | Reap(job: Member, now: int)
    | Sweep(job: Member)

  datatype Reply =
    | Empty | Leased(job: Member)       // Lease
    | Suppressed | New | DueRevisit     // admissions, scheduler
    | Stale | Ok | Dead | Delayed       // resolutions, requeues
    | Error                             // the script stopped early

  datatype Step = Step(op: Op, cut: nat)

  // A verdict that still stands at `now`.
  predicate Blocked(s: Store, url: string, now: int) {
    url in s.dead && (s.dead[url].until == 0 || s.dead[url].until > now)
  }

  // The job the script mints if it mints one.
  function Fresh(s: Store, url: string): Member { Member(s.lastId + 1, url) }

  // --- scripts: the number in each line is the write's place in the script ---

  function LeaseScript(c: Config, s: Store, now: int, cut: nat): Store {
    if s.ready == [] then s
    else
      var n := |s.ready| - 1;
      var item := s.ready[n];
      s.(ready      := if cut < 1 then s.ready else s.ready[..n],
         processing := if cut < 1 then s.processing else [item] + s.processing,
         lease      := if cut < 2 then s.lease else s.lease[item := now + c.leaseTimeout])
  }

  function AdmitVideoScript(c: Config, s: Store, url: string, now: int, cut: nat): Store {
    if Blocked(s, url, now) then s
    else
      var item := Fresh(s, url);
      s.(dead   := if cut < 1 then s.dead else s.dead - {url},
         lastId := if cut < 2 then s.lastId else s.lastId + 1,
         bits   := if cut < 4 then s.bits else s.bits + c.hash(url),
         ready  := if cut < 3 then s.ready
                   else if cut < 5 || !Positive(c, s, url) then [item] + s.ready
                   else Remove([item] + s.ready, item))
  }

  // Listing admission and one iteration of luaListingScheduler, past their guards.
  function StartListing(s: Store, url: string, cut: nat): Store {
    s.(dead   := if cut < 1 then s.dead else s.dead - {url},
       lastId := if cut < 2 then s.lastId else s.lastId + 1,
       ready  := if cut < 3 then s.ready else [Fresh(s, url)] + s.ready,
       next   := if cut < 4 then s.next else s.next[url := PENDING])
  }

  predicate NotDue(s: Store, url: string, now: int) { url in s.next && s.next[url] > now }

  function AdmitListingScript(s: Store, url: string, now: int, cut: nat): Store {
    if Blocked(s, url, now) then s
    else if NotDue(s, url, now) then s.(dead := if cut < 1 then s.dead else s.dead - {url})
    else StartListing(s, url, cut)
  }

  function ScheduleScript(s: Store, url: string, now: int, cut: nat): Store {
    if !Blocked(s, url, now) then StartListing(s, url, cut)
    else
      var until := s.dead[url].until;
      s.(next := if cut < 1 then s.next else if until == 0 then s.next - {url} else s.next[url := until])
  }

  function AckScript(s: Store, job: Member, cut: nat): Store {
    s.(lease      := if cut < 1 then s.lease else s.lease - {job},
       processing := if cut < 2 then s.processing else Remove(s.processing, job),
       attempts   := if cut < 3 then s.attempts else s.attempts - {job.url},
       strikes    := if cut < 4 then s.strikes else s.strikes - {job.url})
  }

  function Pow2(n: nat): nat { if n == 0 then 1 else 2 * Pow2(n - 1) }

  function Ttl(base: int, max: int, barren: nat): int {
    var ttl := base * Pow2(barren);
    if ttl > max then max else ttl
  }

  function BaseTtl(c: Config, url: string): int {
    if !IsVideo(url) && url in c.seeds then c.seedTtl else c.baseTtl
  }

  function BarrenAfter(s: Store, url: string, children: nat): nat {
    if children > 0 then 0 else Count(s.barren, url) + 1
  }

  function NextVisit(c: Config, s: Store, url: string, children: nat, now: int): int {
    now + Ttl(BaseTtl(c, url), c.maxTtl, BarrenAfter(s, url, children))
  }

  function CompleteScript(c: Config, s: Store, job: Member, children: nat, now: int, cut: nat): Store {
    var url := job.url;
    s.(lease      := if cut < 1 then s.lease else s.lease - {job},
       barren     := if cut < 2 then s.barren else s.barren[url := BarrenAfter(s, url, children)],
       next       := if cut < 3 then s.next else s.next[url := NextVisit(c, s, url, children, now)],
       dead       := if cut < 4 then s.dead else s.dead - {url},
       processing := if cut < 5 then s.processing else Remove(s.processing, job),
       attempts   := if cut < 6 then s.attempts else s.attempts - {url},
       strikes    := if cut < 7 then s.strikes else s.strikes - {url})
  }

  // The writes of Nack, of one reaped job and, less the absent lease, of one swept job.
  function RequeueScript(s: Store, job: Member, cut: nat): Store {
    s.(lease      := if cut < 1 then s.lease else s.lease - {job},
       lastId     := if cut < 2 then s.lastId else s.lastId + 1,
       ready      := if cut < 3 then s.ready else [Fresh(s, job.url)] + s.ready,
       processing := if cut < 4 then s.processing else Remove(s.processing, job))
  }

  function Deadline(c: Config, url: string, now: int): int {
    if IsVideo(url) then 0 else now + c.quarantine
  }

  function Ladder(c: Config, strike: bool): seq<int> {
    if strike then c.strikeBackoff else c.rateLimitBackoff
  }

  // The wait after the attempts-th failure: ladder entries count from 1, the last repeats.
  function Backoff(ladder: seq<int>, attempts: nat): int
    requires ladder != [] && attempts >= 1
  {
    ladder[(if attempts > |ladder| then |ladder| else attempts) - 1]
  }

  predicate StruckOut(c: Config, s: Store, url: string, strike: bool) {
    strike && Count(s.strikes, url) + 1 >= c.maxStrikes
  }

  // luaFail's last strike: the verdict, and for a listing its retry date first.
  function StrikeOutScript(s: Store, job: Member, until: int, cut: nat): Store {
    var url := job.url;
    s.(lease      := if cut < 1 then s.lease else s.lease - {job},
       attempts   := if cut < 2 then s.attempts
                     else if cut < 7 then s.attempts[url := Count(s.attempts, url) + 1]
                     else s.attempts[url := Count(s.attempts, url) + 1] - {url},
       strikes    := if cut < 3 then s.strikes
                     else if cut < 8 then s.strikes[url := Count(s.strikes, url) + 1]
                     else s.strikes[url := Count(s.strikes, url) + 1] - {url},
       next       := if cut < 4 || until <= 0 then s.next else s.next[url := until],
       dead       := if cut < 5 then s.dead else s.dead[url := Verdict("strikes_exhausted", until)],
       processing := if cut < 6 then s.processing else Remove(s.processing, job))
  }

  // luaFail otherwise: back to the delayed set under a new id.
  function DelayScript(c: Config, s: Store, job: Member, strike: bool, now: int, cut: nat): Store
    requires c.Valid()
  {
    var url := job.url;
    var attempts := Count(s.attempts, url) + 1;
    var due := now + Backoff(Ladder(c, strike), attempts);
    s.(lease      := if cut < 1 then s.lease else s.lease - {job},
       attempts   := if cut < 2 then s.attempts else s.attempts[url := attempts],
       strikes    := if cut < 3 || !strike then s.strikes else s.strikes[url := Count(s.strikes, url) + 1],
       lastId     := if cut < 4 then s.lastId else s.lastId + 1,
       delayed    := if cut < 5 then s.delayed else s.delayed[Fresh(s, url) := due],
       processing := if cut < 6 then s.processing else Remove(s.processing, job))
  }

  function FailScript(c: Config, s: Store, job: Member, strike: bool, now: int, cut: nat): Store
    requires c.Valid()
  {
    if StruckOut(c, s, job.url, strike) then StrikeOutScript(s, job, Deadline(c, job.url, now), cut)
    else DelayScript(c, s, job, strike, now, cut)
  }

  function TerminalScript(s: Store, job: Member, reason: string, until: int, cut: nat): Store {
    var url := job.url;
    s.(lease      := if cut < 1 then s.lease else s.lease - {job},
       next       := if cut < 2 || until <= 0 then s.next else s.next[url := until],
       dead       := if cut < 3 then s.dead else s.dead[url := Verdict(reason, until)],
       processing := if cut < 4 then s.processing else Remove(s.processing, job),
       attempts   := if cut < 5 then s.attempts else s.attempts - {url},
       strikes    := if cut < 6 then s.strikes else s.strikes - {url})
  }

  // One iteration of luaPromote.
  function PromoteScript(s: Store, job: Member, cut: nat): Store {
    s.(lastId  := if cut < 1 then s.lastId else s.lastId + 1,
       ready   := if cut < 2 then s.ready else [Fresh(s, job.url)] + s.ready,
       delayed := if cut < 3 then s.delayed else s.delayed - {job})
  }

  function Do(c: Config, s: Store, op: Op, cut: nat): Store
    requires c.Valid()
  {
    match op
    case Lease(now) => LeaseScript(c, s, now, cut)
    case AdmitVideo(url, now) => AdmitVideoScript(c, s, url, now, cut)
    case AdmitListing(url, now) => AdmitListingScript(s, url, now, cut)
    case SeedListing(url) => s.(next := if cut < 1 || url in s.next then s.next else s.next[url := 0])
    case Schedule(url, now) => ScheduleScript(s, url, now, cut)
    case Ack(job) => if job !in s.lease then s else AckScript(s, job, cut)
    case Complete(job, children, now) =>
      if job !in s.lease then s else CompleteScript(c, s, job, children, now, cut)
    case Nack(job) => if job !in s.lease then s else RequeueScript(s, job, cut)
    case Fail(job, strike, now) =>
      if job !in s.lease then s else FailScript(c, s, job, strike, now, cut)
    case Terminal(job, reason, until) =>
      if job !in s.lease then s else TerminalScript(s, job, reason, until, cut)
    case Promote(job, now) => PromoteScript(s, job, cut)
    case Reap(job, now) => if job !in s.lease then s else RequeueScript(s, job, cut)
    case Sweep(job) => if job in s.lease then s else RequeueScript(s, job, cut)
  }

  // These only move jobs between the lists; no per-URL table changes.
  predicate Moves(op: Op) { op.Lease? || op.Nack? || op.Promote? || op.Reap? || op.Sweep? }

  lemma MovesKeepTables(c: Config, s: Store, op: Op, cut: nat)
    requires c.Valid() && Moves(op)
    ensures var t := Do(c, s, op, cut);
      && t.dead == s.dead && t.next == s.next && t.bits == s.bits
      && t.attempts == s.attempts && t.strikes == s.strikes && t.barren == s.barren
  {
    if op.Lease? {
    } else if op.Promote? {
    } else {
      assert Do(c, s, op, cut) == s || Do(c, s, op, cut) == RequeueScript(s, op.job, cut);
    }
  }

  // Only video admission touches the filter.
  lemma OthersKeepBits(c: Config, s: Store, op: Op, cut: nat)
    requires c.Valid() && !op.AdmitVideo?
    ensures Do(c, s, op, cut).bits == s.bits
  {
    if Moves(op) {
      MovesKeepTables(c, s, op, cut);
    } else if op.Fail? {
    } else if op.Complete? || op.Terminal? || op.Ack? {
    } else {
    }
  }

  // What the script answers when it runs to the end.
  function Answer(c: Config, s: Store, op: Op): Reply {
    match op
    case Lease(_) => if s.ready == [] then Empty else Leased(s.ready[|s.ready| - 1])
    case AdmitVideo(url, now) =>
      if Blocked(s, url, now) || Positive(c, s, url) then Suppressed else New
    case AdmitListing(url, now) =>
      if Blocked(s, url, now) || NotDue(s, url, now) then Suppressed
      else if url in s.next then DueRevisit else New
    case SeedListing(_) => Ok
    case Schedule(url, now) => if Blocked(s, url, now) then Suppressed else New
    case Fail(job, strike, _) =>
      if job !in s.lease then Stale else if StruckOut(c, s, job.url, strike) then Dead else Delayed
    case Promote(_, _) => Ok
    case Sweep(job) => if job in s.lease then Stale else Ok
    case _ => if op.job !in s.lease then Stale else Ok
  }

  // How many writes the script has to make before it can answer.
  function Writes(c: Config, s: Store, op: Op): nat {
    match op
    case Lease(_) => if s.ready == [] then 0 else 2
    case AdmitVideo(url, now) =>
      if Blocked(s, url, now) then 0 else if Positive(c, s, url) then 5 else 4
    case AdmitListing(url, now) =>
      if Blocked(s, url, now) then 0
      else if NotDue(s, url, now) then (if url in s.dead then 1 else 0)
      else 4
    case SeedListing(url) => if url in s.next then 0 else 1
    case Schedule(url, now) => if Blocked(s, url, now) then 1 else 4
    case Promote(_, _) => 3
    case Sweep(job) => if job in s.lease then 0 else 4
    case Fail(job, strike, _) =>
      if job !in s.lease then 0 else if StruckOut(c, s, job.url, strike) then 8 else 6
    case Ack(job) => if job !in s.lease then 0 else 4
    case Complete(job, _, _) => if job !in s.lease then 0 else 7
    case Nack(job) => if job !in s.lease then 0 else 4
    case Terminal(job, _, _) => if job !in s.lease then 0 else 6
    case Reap(job, _) => if job !in s.lease then 0 else 4
  }

  function ReplyOf(c: Config, s: Store, op: Op, cut: nat): Reply {
    if cut < Writes(c, s, op) then Error else Answer(c, s, op)
  }

  // A script that answers has done everything a whole run does.
  lemma AnswerMeansWhole(c: Config, s: Store, op: Op, cut: nat)
    requires c.Valid() && cut >= Writes(c, s, op)
    ensures Do(c, s, op, cut) == Do(c, s, op, WHOLE)
  {
    if op.AdmitListing? && op.url !in s.dead {
      assert s.dead - {op.url} == s.dead;
    }
  }

  // --- who may call what ---

  // What the callers guarantee. Admission and resolution follow the URL's class
  // (worker.go); the batch scripts only touch what their range query returned.
  predicate Legal(c: Config, s: Store, op: Op) {
    match op
    case Lease(now) => true
    case AdmitVideo(url, now) => IsVideo(url) && 0 < now < PENDING
    case AdmitListing(url, now) => !IsVideo(url) && 0 < now < PENDING
    case SeedListing(url) => !IsVideo(url)
    case Schedule(url, now) => 0 < now < PENDING && url in s.next && s.next[url] <= now
    case Ack(job) => IsVideo(job.url)
    case Complete(job, _, now) => !IsVideo(job.url) && 0 < now && now + c.maxTtl < PENDING
    case Nack(_) => true
    case Fail(_, _, now) => 0 < now && now + c.quarantine < PENDING
    case Terminal(job, _, until) => if IsVideo(job.url) then until == 0 else 0 < until < PENDING
    case Promote(job, now) => job in s.delayed && s.delayed[job] <= now
    case Reap(job, now) => job in s.lease ==> s.lease[job] <= now
    case Sweep(job) => job in s.processing
  }

  // --- runs: any interleaving of any callers ---

  // tr holds the stores a run goes through, from its start to its end.
  ghost predicate Follows(c: Config, run: seq<Step>, tr: seq<Store>)
    requires c.Valid()
  {
    && |tr| == |run| + 1
    && forall i {:trigger run[i]} | 0 <= i < |run| :: tr[i + 1] == Do(c, tr[i], run[i].op, run[i].cut)
  }

  // A run in which every step is one its caller may make there.
  ghost predicate Execution(c: Config, run: seq<Step>, tr: seq<Store>)
    requires c.Valid()
  {
    && Follows(c, run, tr)
    && forall i {:trigger run[i]} | 0 <= i < |run| :: Legal(c, tr[i], run[i].op)
  }

  // No script of the run stopped early.
  predicate Atomic(run: seq<Step>) {
    forall i | 0 <= i < |run| :: run[i].cut == WHOLE
  }

  // One call of a looping script: iteration `at` stops after `cut` writes, or, for
  // at >= |ops|, none does.
  function Batch(ops: seq<Op>, at: nat, cut: nat): seq<Step> {
    if at >= |ops| then seq(|ops|, i requires 0 <= i < |ops| => Step(ops[i], WHOLE))
    else seq(at, i requires 0 <= i < at => Step(ops[i], WHOLE)) + [Step(ops[at], cut)]
  }

  function Whole(ops: seq<Op>): seq<Step> { Batch(ops, |ops|, 0) }

  // The iterations of the four looping scripts.
  function ScheduleOps(page: seq<string>, now: int): seq<Op> {
    seq(|page|, i requires 0 <= i < |page| => Schedule(page[i], now))
  }

  function PromoteOps(page: seq<Member>, now: int): seq<Op> {
    seq(|page|, i requires 0 <= i < |page| => Promote(page[i], now))
  }

  function ReapOps(page: seq<Member>, now: int): seq<Op> {
    seq(|page|, i requires 0 <= i < |page| => Reap(page[i], now))
  }

  function SweepOps(window: seq<Member>): seq<Op> {
    seq(|window|, i requires 0 <= i < |window| => Sweep(window[i]))
  }

  lemma BatchSteps(ops: seq<Op>, at: nat, cut: nat)
    ensures |Batch(ops, at, cut)| == if at >= |ops| then |ops| else at + 1
    ensures forall i | 0 <= i < |Batch(ops, at, cut)| ::
      Batch(ops, at, cut)[i] == Step(ops[i], if i == at then cut else WHOLE)
  {
  }

  lemma CleanBatch(ops: seq<Op>, at: nat, cut: nat)
    requires at >= |ops|
    ensures Batch(ops, at, cut) == Whole(ops)
    ensures |Whole(ops)| == |ops| && forall i | 0 <= i < |ops| :: Whole(ops)[i] == Step(ops[i], WHOLE)
  {
  }
}
