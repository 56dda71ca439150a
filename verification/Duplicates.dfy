/** Where breaking off costs "one live job per URL" (internal/storage/frontier.go): the
    breaks after which a URL has two jobs, at once or with one more script, and that no
    other break ever leads there. */
module Duplicates {
  import opened Text
  import opened Canonical
  import opened Keyspace
  import opened Scripts
  import opened JobQueue
  import opened Exclusive
  import Accounting
  import NoLoss

  // --- the breaks ---

  // The script stops with a URL's new job in place and its old one not yet gone.
  ghost predicate Doubles(c: Config, s: Store, op: Op, cut: nat) {
    match op
    case Nack(job) => job in s.lease && cut == 3
    case Reap(job, _) => job in s.lease && cut == 3
    case Sweep(job) => job !in s.lease && cut == 3
    case Fail(job, strike, _) => job in s.lease && !StruckOut(c, s, job.url, strike) && cut == 5
    case Promote(_, _) => cut == 2
    case AdmitVideo(url, now) => !Blocked(s, url, now) && UrlLive(s, url) && (cut == 3 || cut == 4)
    case _ => false
  }

  // The script stops with a job in place that nothing marks: the video is not in the
  // filter yet, the listing is not PENDING yet or not any more.
  predicate Exposes(c: Config, s: Store, op: Op, cut: nat) {
    match op
    case AdmitVideo(url, now) => !Blocked(s, url, now) && !Positive(c, s, url) && cut == 3
    case AdmitListing(url, now) => !Blocked(s, url, now) && !NotDue(s, url, now) && cut == 3
    case Schedule(url, now) => !Blocked(s, url, now) && cut == 3
    case Complete(job, _, _) => job in s.lease && (cut == 3 || cut == 4)
    case Terminal(job, _, _) => job in s.lease && !IsVideo(job.url) && (cut == 2 || cut == 3)
    case Fail(job, strike, _) =>
      job in s.lease && StruckOut(c, s, job.url, strike) && !IsVideo(job.url) && (cut == 4 || cut == 5)
    case _ => false
  }

  ghost predicate Hazard(c: Config, s: Store, op: Op, cut: nat) {
    Doubles(c, s, op, cut) || Exposes(c, s, op, cut)
  }

  // No step of the run breaks off at a hazard.
  ghost predicate Avoids(c: Config, run: seq<Step>, tr: seq<Store>)
    requires |run| <= |tr|
  {
    forall i {:trigger run[i]} | 0 <= i < |run| :: !Hazard(c, tr[i], run[i].op, run[i].cut)
  }

  lemma AtomicAvoids(c: Config, run: seq<Step>, tr: seq<Store>)
    requires |run| <= |tr| && Atomic(run)
    ensures Avoids(c, run, tr)
  {
  }

  // --- the invariant all other breaks keep ---

  // The URL's live job is marked, so nothing starts a second one.
  predicate Marked(c: Config, s: Store, url: string, live: bool) {
    && NoLoss.RowSound(s, url)
    && (live && IsVideo(url) ==> Positive(c, s, url))
    && (live && !IsVideo(url) ==> url in s.next && s.next[url] == PENDING && url !in s.dead)
  }

  ghost predicate Single(c: Config, s: Store) {
    && Queue(s)
    && OneEach(s)
    && forall url :: Marked(c, s, url, UrlLive(s, url))
  }

  lemma EmptyIsSingle(c: Config)
    ensures Single(c, EMPTY)
  {
  }

  lemma AdmissionKeepsMarked(c: Config, s: Store, op: Op, cut: nat, url: string, live: bool)
    requires c.Valid() && Legal(c, s, op) && Marked(c, s, url, live) && !Exposes(c, s, op, cut)
    requires op.AdmitListing?
    ensures Marked(c, AdmitListingScript(s, op.url, op.now, cut), url, LiveAfter(c, s, op, cut, url, live))
  {
  }

  lemma SeedKeepsMarked(c: Config, s: Store, op: Op, cut: nat, url: string, live: bool)
    requires c.Valid() && Legal(c, s, op) && Marked(c, s, url, live) && op.SeedListing?
    ensures Marked(c, Do(c, s, op, cut), url, LiveAfter(c, s, op, cut, url, live))
  {
  }

  lemma ScheduleKeepsMarked(c: Config, s: Store, op: Op, cut: nat, url: string, live: bool)
    requires c.Valid() && Legal(c, s, op) && Marked(c, s, url, live) && !Exposes(c, s, op, cut)
    requires op.Schedule? && NoLoss.RowSound(s, op.url)
    ensures Marked(c, ScheduleScript(s, op.url, op.now, cut), url, LiveAfter(c, s, op, cut, url, live))
  {
  }

  lemma AdmitVideoKeepsMarked(c: Config, s: Store, op: Op, cut: nat, url: string, live: bool)
    requires c.Valid() && Legal(c, s, op) && Marked(c, s, url, live) && !Exposes(c, s, op, cut)
    requires op.AdmitVideo?
    ensures Marked(c, AdmitVideoScript(c, s, op.url, op.now, cut), url, LiveAfter(c, s, op, cut, url, live))
  {
  }

  lemma SettleKeepsMarked(c: Config, s: Store, op: Op, cut: nat, url: string, live: bool)
    requires c.Valid() && Legal(c, s, op) && Marked(c, s, url, live) && !Exposes(c, s, op, cut)
    requires op.Ack? || op.Complete? || op.Terminal?
    ensures Marked(c, Do(c, s, op, cut), url, LiveAfter(c, s, op, cut, url, live))
  {
    match op {
      case Ack(_) =>
      case Complete(_, _, _) =>
      case Terminal(_, _, _) =>
    }
  }

  lemma FailKeepsMarked(c: Config, s: Store, op: Op, cut: nat, url: string, live: bool)
    requires c.Valid() && Legal(c, s, op) && Marked(c, s, url, live) && !Exposes(c, s, op, cut)
    requires op.Fail? && (op.job in s.lease && op.job.url == url ==> live)
    ensures Marked(c, Do(c, s, op, cut), url, LiveAfter(c, s, op, cut, url, live))
  {
  }

  lemma MoveKeepsMarked(c: Config, s: Store, op: Op, cut: nat, url: string, live: bool)
    requires c.Valid() && Marked(c, s, url, live) && Moves(op)
    requires For(Added(c, s, op, cut), url) ==> live
    ensures Marked(c, Do(c, s, op, cut), url, LiveAfter(c, s, op, cut, url, live))
  {
    MovesKeepTables(c, s, op, cut);
  }

  // A requeued job's URL had a job before.
  lemma RequeuedWasLive(c: Config, s: Store, op: Op, cut: nat)
    requires c.Valid() && Queue(s) && Legal(c, s, op) && (Moves(op) || op.Fail?) && Added(c, s, op, cut).Some?
    ensures UrlLive(s, Added(c, s, op, cut).value.url)
  {
    assert IsLive(s, op.job);
  }

  lemma KeepsMarked(c: Config, s: Store, op: Op, cut: nat, url: string)
    requires c.Valid() && Single(c, s) && Legal(c, s, op) && !Exposes(c, s, op, cut)
    ensures Marked(c, Do(c, s, op, cut), url, LiveAfter(c, s, op, cut, url, UrlLive(s, url)))
  {
    var live := UrlLive(s, url);
    assert Marked(c, s, url, live);
    if Moves(op) {
      if Added(c, s, op, cut).Some? { RequeuedWasLive(c, s, op, cut); }
      MoveKeepsMarked(c, s, op, cut, url, live);
    } else {
      match op {
        case AdmitVideo(_, _) => AdmitVideoKeepsMarked(c, s, op, cut, url, live);
        case AdmitListing(_, _) => AdmissionKeepsMarked(c, s, op, cut, url, live);
        case SeedListing(_) => SeedKeepsMarked(c, s, op, cut, url, live);
        case Schedule(due, _) =>
          assert Marked(c, s, due, UrlLive(s, due));
          ScheduleKeepsMarked(c, s, op, cut, url, live);
        case Ack(_) => SettleKeepsMarked(c, s, op, cut, url, live);
        case Complete(_, _, _) => SettleKeepsMarked(c, s, op, cut, url, live);
        case Terminal(_, _, _) => SettleKeepsMarked(c, s, op, cut, url, live);
        case Fail(job, _, _) =>
          assert job in s.lease ==> IsLive(s, job);
          FailKeepsMarked(c, s, op, cut, url, live);
      }
    }
  }

  // --- two jobs at once ---

  // What comes in beside a job of the same URL that stays.
  ghost predicate Beside(c: Config, s: Store, op: Op, cut: nat) {
    var added := Added(c, s, op, cut);
    added.Some? && exists m :: IsLive(s, m) && m.url == added.value.url && Removed(c, s, op, cut) != Some(m)
  }

  lemma FreshIsNew(s: Store, url: string)
    requires Queue(s)
    ensures !IsLive(s, Fresh(s, url))
  {
    DescendingIds(s.ready + s.processing, s.lastId + 1);
    var m := Fresh(s, url);
    assert m in s.ready || m in s.processing ==> m in s.ready + s.processing;
  }

  lemma DuplicateIffBeside(c: Config, s: Store, op: Op, cut: nat)
    requires c.Valid() && Queue(s) && OneEach(s) && Legal(c, s, op)
    ensures OneEach(Do(c, s, op, cut)) <==> !Beside(c, s, op, cut)
  {
    LedgerHolds(c, s, op, cut);
    if Added(c, s, op, cut).Some? {
      AddedIsFresh(c, s, op, cut);
      FreshIsNew(s, Added(c, s, op, cut).value.url);
      LedgerDuplicates(s, Do(c, s, op, cut), Added(c, s, op, cut).value, Removed(c, s, op, cut));
    }
  }

  lemma AddedIsFresh(c: Config, s: Store, op: Op, cut: nat)
    requires Added(c, s, op, cut).Some?
    ensures Added(c, s, op, cut).value == Fresh(s, Added(c, s, op, cut).value.url)
  {
  }

  lemma LedgerDuplicates(s: Store, t: Store, added: Member, removed: Option<Member>)
    requires OneEach(s) && !IsLive(s, added)
    requires forall m :: IsLive(t, m) <==> (IsLive(s, m) && removed != Some(m)) || m == added
    ensures OneEach(t) <==> !exists m :: IsLive(s, m) && m.url == added.url && removed != Some(m)
  {
    if m :| IsLive(s, m) && m.url == added.url && removed != Some(m) {
      assert IsLive(t, m) && IsLive(t, added);
    }
  }

  lemma AdmissionBeside(c: Config, s: Store, op: Op, cut: nat)
    requires c.Valid() && Single(c, s) && Legal(c, s, op) && (op.AdmitVideo? || op.AdmitListing? || op.Schedule?)
    ensures Beside(c, s, op, cut) <==> Doubles(c, s, op, cut)
  {
    assert Marked(c, s, op.url, UrlLive(s, op.url));
    match op {
      case AdmitVideo(_, _) =>
      case AdmitListing(_, _) =>
      case Schedule(_, _) =>
    }
  }

  // A requeued job stays beside its successor unless the script removes it.
  lemma RequeueBeside(c: Config, s: Store, op: Op, cut: nat)
    requires c.Valid() && Queue(s) && OneEach(s) && Legal(c, s, op) && Moves(op)
    ensures Beside(c, s, op, cut) <==> Doubles(c, s, op, cut)
  {
    match op {
      case Lease(_) =>
      case Nack(job) => assert job in s.lease ==> IsLive(s, job);
      case Reap(job, _) => assert job in s.lease ==> IsLive(s, job);
      case Sweep(job) => assert IsLive(s, job);
      case Promote(job, _) => assert IsLive(s, job);
    }
  }

  lemma FailBeside(c: Config, s: Store, op: Op, cut: nat)
    requires c.Valid() && Queue(s) && OneEach(s) && op.Fail?
    ensures Beside(c, s, op, cut) <==> Doubles(c, s, op, cut)
  {
    assert op.job in s.lease ==> IsLive(s, op.job);
  }

  lemma BesideIffDoubles(c: Config, s: Store, op: Op, cut: nat)
    requires c.Valid() && Single(c, s) && Legal(c, s, op)
    ensures Beside(c, s, op, cut) <==> Doubles(c, s, op, cut)
  {
    if Moves(op) {
      RequeueBeside(c, s, op, cut);
    } else if op.Fail? {
      FailBeside(c, s, op, cut);
    } else if op.AdmitVideo? || op.AdmitListing? || op.Schedule? {
      AdmissionBeside(c, s, op, cut);
    }
  }

  // A script duplicates a job there and then exactly if it breaks off at a doubling.
  lemma DuplicateIff(c: Config, s: Store, op: Op, cut: nat)
    requires c.Valid() && Single(c, s) && Legal(c, s, op)
    ensures OneEach(Do(c, s, op, cut)) <==> !Doubles(c, s, op, cut)
  {
    DuplicateIffBeside(c, s, op, cut);
    BesideIffDoubles(c, s, op, cut);
  }

  // --- over runs ---

  lemma KeepsSingle(c: Config, s: Store, op: Op, cut: nat)
    requires c.Valid() && Single(c, s) && Legal(c, s, op) && !Hazard(c, s, op, cut)
    ensures Single(c, Do(c, s, op, cut))
  {
    var t := Do(c, s, op, cut);
    KeepsQueue(c, s, op, cut);
    DuplicateIff(c, s, op, cut);
    forall url ensures Marked(c, t, url, UrlLive(t, url)) {
      UrlLedger(c, s, op, cut, url);
      KeepsMarked(c, s, op, cut, url);
    }
  }

  // A run that breaks off anywhere but at a hazard keeps one live job per URL.
  lemma {:induction false} RunKeepsSingle(c: Config, run: seq<Step>, tr: seq<Store>, i: nat)
    requires c.Valid() && Execution(c, run, tr) && Single(c, tr[0]) && i <= |run| && Avoids(c, run, tr)
    ensures Single(c, tr[i])
  {
    if i > 0 {
      RunKeepsSingle(c, run, tr, i - 1);
      KeepsSingle(c, tr[i - 1], run[i - 1].op, run[i - 1].cut);
    }
  }

  // --- every hazard leads to two jobs ---

  // The whole script that starts a second job after an exposing break.
  function Second(c: Config, s: Store, op: Op): Op {
    match op
    case Complete(job, children, now) => Schedule(job.url, NextVisit(c, s, job.url, children, now))
    case Terminal(job, _, until) => Schedule(job.url, until)
    case Fail(job, _, now) => Schedule(job.url, Deadline(c, job.url, now))
    case _ => op
  }

  // The job the break left unmarked.
  function Exposed(s: Store, op: Op): Member {
    match op
    case AdmitVideo(url, _) => Fresh(s, url)
    case AdmitListing(url, _) => Fresh(s, url)
    case Schedule(url, _) => Fresh(s, url)
    case Complete(job, _, _) => job
    case Terminal(job, _, _) => job
    case Fail(job, _, _) => job
    case _ => Fresh(s, "")
  }

  // The second script may run, and adds another job for the exposed one's URL.
  ghost predicate StartsAnother(c: Config, t: Store, next: Op, job: Member) {
    && Legal(c, t, next) && IsLive(t, job)
    && Removed(c, t, next, WHOLE) == None
    && Added(c, t, next, WHOLE) == Some(Fresh(t, job.url))
  }

  lemma AdmissionStartsAnother(c: Config, s: Store, op: Op, cut: nat)
    requires c.Valid() && Legal(c, s, op) && Exposes(c, s, op, cut)
    requires op.AdmitVideo? || op.AdmitListing? || op.Schedule?
    ensures StartsAnother(c, Do(c, s, op, cut), Second(c, s, op), Exposed(s, op))
  {
    match op {
      case AdmitVideo(_, _) =>
      case AdmitListing(_, _) =>
      case Schedule(_, _) =>
    }
  }

  lemma CompletingStartsAnother(c: Config, s: Store, op: Op, cut: nat)
    requires c.Valid() && Queue(s) && Legal(c, s, op) && Exposes(c, s, op, cut)
    requires op.Complete? && op.job.url !in s.dead
    ensures StartsAnother(c, Do(c, s, op, cut), Second(c, s, op), Exposed(s, op))
  {
    var url := op.job.url;
    Accounting.TtlIsDoubled(BaseTtl(c, url), c.maxTtl, BarrenAfter(s, url, op.children));
  }

  lemma EndingStartsAnother(c: Config, s: Store, op: Op, cut: nat)
    requires c.Valid() && Queue(s) && Legal(c, s, op) && Exposes(c, s, op, cut)
    requires op.Terminal? && op.job.url !in s.dead
    ensures StartsAnother(c, Do(c, s, op, cut), Second(c, s, op), Exposed(s, op))
  {
  }

  lemma StrikingOutStartsAnother(c: Config, s: Store, op: Op, cut: nat)
    requires c.Valid() && Queue(s) && Legal(c, s, op) && Exposes(c, s, op, cut)
    requires op.Fail? && op.job.url !in s.dead
    ensures StartsAnother(c, Do(c, s, op, cut), Second(c, s, op), Exposed(s, op))
  {
  }

  lemma AnotherDuplicates(c: Config, t: Store, next: Op, job: Member)
    requires c.Valid() && Queue(t) && StartsAnother(c, t, next, job)
    ensures !OneEach(Do(c, t, next, WHOLE))
  {
    LedgerHolds(c, t, next, WHOLE);
    FreshIsNew(t, job.url);
    assert IsLive(Do(c, t, next, WHOLE), job) && IsLive(Do(c, t, next, WHOLE), Fresh(t, job.url));
  }

  lemma ExposedDuplicates(c: Config, s: Store, op: Op, cut: nat)
    requires c.Valid() && Single(c, s) && Legal(c, s, op) && Exposes(c, s, op, cut)
    ensures var t := Do(c, s, op, cut); var next := Second(c, s, op);
      Legal(c, t, next) && !OneEach(Do(c, t, next, WHOLE))
  {
    if op.Complete? || op.Terminal? || op.Fail? {
      assert IsLive(s, op.job) && Marked(c, s, op.job.url, UrlLive(s, op.job.url));
      match op {
        case Complete(_, _, _) => CompletingStartsAnother(c, s, op, cut);
        case Terminal(_, _, _) => EndingStartsAnother(c, s, op, cut);
        case Fail(_, _, _) => StrikingOutStartsAnother(c, s, op, cut);
      }
    } else {
      AdmissionStartsAnother(c, s, op, cut);
    }
    KeepsQueue(c, s, op, cut);
    AnotherDuplicates(c, Do(c, s, op, cut), Second(c, s, op), Exposed(s, op));
  }

  // Whole scripts that may follow in t take it to a store where a URL has two jobs.
  ghost predicate LeadsToTwo(c: Config, t: Store, ops: seq<Op>, tr: seq<Store>)
    requires c.Valid()
  {
    Execution(c, Whole(ops), tr) && tr[0] == t && !OneEach(tr[|ops|])
  }

  lemma OneStepRun(c: Config, t: Store, op: Op)
    requires c.Valid() && Legal(c, t, op)
    ensures Execution(c, Whole([op]), [t, Do(c, t, op, WHOLE)])
  {
    BatchSteps([op], 1, 0);
  }

  lemma HazardDuplicates(c: Config, s: Store, op: Op, cut: nat) returns (ops: seq<Op>, tr: seq<Store>)
    requires c.Valid() && Single(c, s) && Legal(c, s, op) && Hazard(c, s, op, cut)
    ensures |ops| <= 1 && LeadsToTwo(c, Do(c, s, op, cut), ops, tr)
  {
    var t := Do(c, s, op, cut);
    if Doubles(c, s, op, cut) {
      DuplicateIff(c, s, op, cut);
      ops, tr := [], [t];
    } else {
      var next := Second(c, s, op);
      ExposedDuplicates(c, s, op, cut);
      ops, tr := [next], [t, Do(c, t, next, WHOLE)];
      OneStepRun(c, t, next);
    }
  }

  // After any run without hazards, one more step leaves a way to two jobs by whole scripts
  // if and only if it breaks off at a hazard.
  lemma TwoJobsIff(c: Config, run: seq<Step>, tr: seq<Store>, op: Op, cut: nat)
    requires c.Valid() && Execution(c, run, tr) && tr[0] == EMPTY && Avoids(c, run, tr)
    requires Legal(c, tr[|run|], op)
    ensures Hazard(c, tr[|run|], op, cut) <==>
      exists ops, more :: LeadsToTwo(c, Do(c, tr[|run|], op, cut), ops, more)
  {
    var s := tr[|run|];
    EmptyIsSingle(c);
    RunKeepsSingle(c, run, tr, |run|);
    if Hazard(c, s, op, cut) {
      var ops, more := HazardDuplicates(c, s, op, cut);
    } else {
      KeepsSingle(c, s, op, cut);
      forall ops, more | Execution(c, Whole(ops), more) && more[0] == Do(c, s, op, cut)
        ensures OneEach(more[|ops|])
      {
        BatchSteps(ops, |ops|, 0);
        AtomicAvoids(c, Whole(ops), more);
        RunKeepsSingle(c, Whole(ops), more, |ops|);
      }
    }
  }
}
