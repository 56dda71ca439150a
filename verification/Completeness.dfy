/** Crawl completeness: when the frontier is idle and nothing is due, every URL that can
    be reached has been dealt with, although scripts may break off anywhere. What it
    rests on is the workers' rule (internal/crawler/worker.go): all children of a page
    are admitted before its job is acked or completed. */
module Completeness {
  import opened Canonical
  import opened Keyspace
  import opened Scripts
  import opened JobQueue
  import opened NoLoss
  import Guarantees

  // --- what a run has done with the URLs so far ---

  datatype History = History(
    queued: set<string>,      // videos that were given a job
    claimed: set<string>,     // videos the Bloom filter took in
    acked: set<string>,
    completed: set<string>,
    buried: set<string>)      // ever declared dead

  const NOTHING := History({}, {}, {}, {}, {})

  // An admission that leaves a job: the push went through and was not taken back.
  predicate Queues(c: Config, s: Store, step: Step) {
    && step.op.AdmitVideo? && step.cut >= 3 && !Blocked(s, step.op.url, step.op.now)
    && (step.cut < 5 || !Positive(c, s, step.op.url))
  }

  predicate TakenIn(c: Config, s: Store, step: Step) {
    step.op.AdmitVideo? && step.cut >= 4 && !Blocked(s, step.op.url, step.op.now) && !Positive(c, s, step.op.url)
  }

  predicate Buries(c: Config, s: Store, step: Step) {
    || (step.op.Fail? && step.op.job in s.lease && step.cut >= 5 && StruckOut(c, s, step.op.job.url, step.op.strike))
    || (step.op.Terminal? && step.op.job in s.lease && step.cut >= 3)
  }

  function Record(c: Config, s: Store, h: History, step: Step): History {
    match step.op
    case AdmitVideo(url, _) =>
      h.(queued := if Queues(c, s, step) then h.queued + {url} else h.queued,
         claimed := if TakenIn(c, s, step) then h.claimed + {url} else h.claimed)
    case Ack(job) => if job in s.lease && step.cut >= 2 then h.(acked := h.acked + {job.url}) else h
    case Complete(job, _, _) =>
      if job in s.lease && step.cut >= 3 then h.(completed := h.completed + {job.url}) else h
    case Fail(job, _, _) => if Buries(c, s, step) then h.(buried := h.buried + {job.url}) else h
    case Terminal(job, _, _) => if Buries(c, s, step) then h.(buried := h.buried + {job.url}) else h
    case _ => h
  }

  function HistoryAt(c: Config, run: seq<Step>, tr: seq<Store>, i: nat): History
    requires i <= |run| <= |tr|
  {
    if i == 0 then NOTHING else Record(c, tr[i - 1], HistoryAt(c, run, tr, i - 1), run[i - 1])
  }

  // --- nothing is forgotten ---

  // The history behind one URL's rows, given whether it has a live job.
  predicate Accounted(c: Config, s: Store, h: History, url: string, live: bool) {
    && (url in s.dead ==> url in h.buried)
    && (url in h.queued ==> IsVideo(url) && (live || url in h.acked || url in s.dead))
    && (IsVideo(url) && (live || url in s.dead) ==> url in h.queued)
    && (url in s.next ==> live || s.next[url] == 0 || url in h.completed || url in h.buried)
  }

  // The job a resolution presents holds a lease and is for the URL.
  predicate OnLease(s: Store, op: Op, url: string) {
    (op.Ack? || op.Complete? || op.Fail? || op.Terminal?) && op.job in s.lease && op.job.url == url
  }

  // How the script may change whether the URL has a live job.
  predicate LiveTurns(c: Config, s: Store, op: Op, cut: nat, url: string, live: bool, live': bool) {
    && (live && !live' ==> For(Removed(c, s, op, cut), url) && !For(Added(c, s, op, cut), url))
    && (For(Added(c, s, op, cut), url) ==> live')
    && (!live && live' ==> For(Added(c, s, op, cut), url) && !Moves(op) && !op.Fail?)
    && (OnLease(s, op, url) ==> live)
  }

  lemma LiveCases(c: Config, s: Store, op: Op, cut: nat, url: string)
    requires c.Valid() && Queue(s) && Legal(c, s, op)
    ensures LiveTurns(c, s, op, cut, url, UrlLive(s, url), UrlLive(Do(c, s, op, cut), url))
  {
    var t := Do(c, s, op, cut);
    LedgerHolds(c, s, op, cut);
    if For(Added(c, s, op, cut), url) {
      assert IsLive(t, Added(c, s, op, cut).value);
      if Moves(op) || op.Fail? { assert IsLive(s, op.job); }
    }
    if UrlLive(s, url) && !UrlLive(t, url) {
      var m :| IsLive(s, m) && m.url == url;
      assert !IsLive(t, m);
    }
    if !UrlLive(s, url) && UrlLive(t, url) {
      var m :| IsLive(t, m) && m.url == url;
      assert !IsLive(s, m);
    }
    assert OnLease(s, op, url) ==> IsLive(s, op.job);
  }

  lemma AccountedFail(c: Config, s: Store, h: History, step: Step, url: string, live: bool, live': bool)
    requires c.Valid() && Legal(c, s, step.op) && RowSound(s, url) && Accounted(c, s, h, url, live)
    requires step.op.Fail? && LiveTurns(c, s, step.op, step.cut, url, live, live')
    ensures Accounted(c, Do(c, s, step.op, step.cut), Record(c, s, h, step), url, live')
  {
  }

  lemma AccountedSettle(c: Config, s: Store, h: History, step: Step, url: string, live: bool, live': bool)
    requires c.Valid() && Legal(c, s, step.op) && RowSound(s, url) && Accounted(c, s, h, url, live)
    requires (step.op.Ack? || step.op.Complete? || step.op.Terminal?)
    requires LiveTurns(c, s, step.op, step.cut, url, live, live')
    ensures Accounted(c, Do(c, s, step.op, step.cut), Record(c, s, h, step), url, live')
  {
    match step.op {
      case Ack(_) =>
      case Complete(_, _, _) =>
      case Terminal(_, _, _) =>
    }
  }

  lemma AccountedAdmit(c: Config, s: Store, h: History, step: Step, url: string, live: bool, live': bool)
    requires c.Valid() && Legal(c, s, step.op) && RowSound(s, url) && Accounted(c, s, h, url, live)
    requires step.op.AdmitListing? && LiveTurns(c, s, step.op, step.cut, url, live, live')
    ensures Accounted(c, Do(c, s, step.op, step.cut), Record(c, s, h, step), url, live')
  {
  }

  lemma AccountedSeed(c: Config, s: Store, h: History, step: Step, url: string, live: bool, live': bool)
    requires c.Valid() && Legal(c, s, step.op) && Accounted(c, s, h, url, live)
    requires step.op.SeedListing? && LiveTurns(c, s, step.op, step.cut, url, live, live')
    ensures Accounted(c, Do(c, s, step.op, step.cut), Record(c, s, h, step), url, live')
  {
  }

  lemma AccountedSchedule(c: Config, s: Store, h: History, step: Step, url: string, live: bool, live': bool)
    requires c.Valid() && Legal(c, s, step.op) && RowSound(s, url) && Accounted(c, s, h, url, live)
    requires step.op.Schedule? && RowSound(s, step.op.url)
    requires LiveTurns(c, s, step.op, step.cut, url, live, live')
    ensures Accounted(c, Do(c, s, step.op, step.cut), Record(c, s, h, step), url, live')
  {
  }

  lemma AccountedAdmitVideo(c: Config, s: Store, h: History, step: Step, url: string, live: bool, live': bool)
    requires c.Valid() && Legal(c, s, step.op) && RowSound(s, url) && Accounted(c, s, h, url, live)
    requires step.op.AdmitVideo? && LiveTurns(c, s, step.op, step.cut, url, live, live')
    ensures Accounted(c, Do(c, s, step.op, step.cut), Record(c, s, h, step), url, live')
  {
  }

  lemma AccountedMove(c: Config, s: Store, h: History, step: Step, url: string, live: bool, live': bool)
    requires c.Valid() && Moves(step.op) && Accounted(c, s, h, url, live)
    requires LiveTurns(c, s, step.op, step.cut, url, live, live')
    ensures Accounted(c, Do(c, s, step.op, step.cut), Record(c, s, h, step), url, live')
  {
    MovesKeepTables(c, s, step.op, step.cut);
  }

  lemma AccountedStep(c: Config, s: Store, h: History, step: Step, url: string, live: bool, live': bool)
    requires c.Valid() && Legal(c, s, step.op) && RowSound(s, url) && Accounted(c, s, h, url, live)
    requires step.op.Schedule? ==> RowSound(s, step.op.url)
    requires LiveTurns(c, s, step.op, step.cut, url, live, live')
    ensures Accounted(c, Do(c, s, step.op, step.cut), Record(c, s, h, step), url, live')
  {
    match step.op {
      case AdmitVideo(_, _) => AccountedAdmitVideo(c, s, h, step, url, live, live');
      case AdmitListing(_, _) => AccountedAdmit(c, s, h, step, url, live, live');
      case SeedListing(_) => AccountedSeed(c, s, h, step, url, live, live');
      case Schedule(_, _) => AccountedSchedule(c, s, h, step, url, live, live');
      case Ack(_) => AccountedSettle(c, s, h, step, url, live, live');
      case Complete(_, _, _) => AccountedSettle(c, s, h, step, url, live, live');
      case Terminal(_, _, _) => AccountedSettle(c, s, h, step, url, live, live');
      case Fail(_, _, _) => AccountedFail(c, s, h, step, url, live, live');
      case _ => AccountedMove(c, s, h, step, url, live, live');
    }
  }

  ghost predicate AllAccounted(c: Config, s: Store, h: History) {
    forall url :: Accounted(c, s, h, url, UrlLive(s, url))
  }

  lemma KeepsAccounted(c: Config, s: Store, h: History, step: Step)
    requires c.Valid() && Weak(s) && Legal(c, s, step.op) && AllAccounted(c, s, h)
    ensures AllAccounted(c, Do(c, s, step.op, step.cut), Record(c, s, h, step))
  {
    var t := Do(c, s, step.op, step.cut);
    forall url ensures Accounted(c, t, Record(c, s, h, step), url, UrlLive(t, url)) {
      LiveCases(c, s, step.op, step.cut, url);
      assert RowSound(s, url) && Accounted(c, s, h, url, UrlLive(s, url));
      assert step.op.Schedule? ==> RowSound(s, step.op.url);
      AccountedStep(c, s, h, step, url, UrlLive(s, url), UrlLive(t, url));
    }
  }

  lemma EmptyIsAccounted(c: Config)
    ensures AllAccounted(c, EMPTY, NOTHING)
  {
  }

  lemma AccountedNext(c: Config, run: seq<Step>, tr: seq<Store>, i: nat, j: nat, h: History)
    requires c.Valid() && Execution(c, run, tr) && Weak(tr[0]) && j == i + 1 <= |run| && AllAccounted(c, tr[i], h)
    ensures AllAccounted(c, tr[j], Record(c, tr[i], h, run[i]))
  {
    var s, step := tr[i], run[i];
    RunKeepsWeak(c, run, tr, i);
    assert Legal(c, s, step.op) && tr[j] == Do(c, s, step.op, step.cut);
    KeepsAccounted(c, s, h, step);
  }

  lemma {:induction false} AccountedUpTo(c: Config, run: seq<Step>, tr: seq<Store>, j: nat)
    requires c.Valid() && Execution(c, run, tr) && Weak(tr[0]) && AllAccounted(c, tr[0], NOTHING) && j <= |run|
    ensures AllAccounted(c, tr[j], HistoryAt(c, run, tr, j))
  {
    if j > 0 {
      var i: nat := j - 1;
      AccountedUpTo(c, run, tr, i);
      AccountedNext(c, run, tr, i, j, HistoryAt(c, run, tr, i));
    }
  }

  lemma RunKeepsAccounted(c: Config, run: seq<Step>, tr: seq<Store>, i: nat)
    requires c.Valid() && Execution(c, run, tr) && tr[0] == EMPTY && i <= |run|
    ensures Weak(tr[i]) && AllAccounted(c, tr[i], HistoryAt(c, run, tr, i))
  {
    EmptyIsWeak();
    EmptyIsAccounted(c);
    RunKeepsWeak(c, run, tr, i);
    AccountedUpTo(c, run, tr, i);
  }

  // --- known URLs ---

  // What an answered admission leaves behind, for good.
  predicate Known(c: Config, s: Store, url: string) {
    if IsVideo(url) then Positive(c, s, url) || url in s.dead else url in s.next
  }

  predicate IsAdmission(op: Op, url: string) {
    (op.AdmitVideo? || op.AdmitListing?) && op.url == url
  }

  lemma AdmissionKnows(c: Config, s: Store, op: Op, cut: nat, url: string)
    requires c.Valid() && RowSound(s, url) && Legal(c, s, op)
    requires IsAdmission(op, url) && ReplyOf(c, s, op, cut) != Error
    ensures Known(c, Do(c, s, op, cut), url)
  {
    AnswerMeansWhole(c, s, op, cut);
  }

  lemma AdmitVideoKeepsKnown(c: Config, s: Store, op: Op, cut: nat, url: string)
    requires c.Valid() && RowSound(s, url) && Legal(c, s, op) && op.AdmitVideo? && Known(c, s, url)
    ensures Known(c, Do(c, s, op, cut), url)
  {
    if op.url == url && url in s.dead {
      assert Blocked(s, url, op.now);
    }
  }

  lemma AdmissionKeepsKnown(c: Config, s: Store, op: Op, cut: nat, url: string)
    requires c.Valid() && Legal(c, s, op) && Known(c, s, url) && (op.AdmitListing? || op.SeedListing?)
    ensures Known(c, Do(c, s, op, cut), url)
  {
    match op {
      case AdmitListing(_, _) =>
      case SeedListing(_) =>
    }
  }

  lemma ScheduleKeepsKnown(c: Config, s: Store, op: Op, cut: nat, url: string)
    requires c.Valid() && op.Schedule? && RowSound(s, op.url) && Legal(c, s, op) && Known(c, s, url)
    ensures Known(c, Do(c, s, op, cut), url)
  {
  }

  lemma SettleKeepsKnown(c: Config, s: Store, op: Op, cut: nat, url: string)
    requires c.Valid() && RowSound(s, url) && Legal(c, s, op) && Known(c, s, url)
    requires op.Complete? || op.Terminal? || op.Ack?
    ensures Known(c, Do(c, s, op, cut), url)
  {
    match op {
      case Complete(_, _, _) =>
      case Terminal(_, _, _) =>
      case Ack(_) =>
    }
  }

  lemma FailKeepsKnown(c: Config, s: Store, op: Op, cut: nat, url: string)
    requires c.Valid() && op.Fail? && Known(c, s, url)
    ensures Known(c, Do(c, s, op, cut), url)
  {
  }

  lemma KnownStep(c: Config, s: Store, op: Op, cut: nat, url: string)
    requires c.Valid() && RowSound(s, url) && Legal(c, s, op) && Known(c, s, url)
    requires op.Schedule? ==> RowSound(s, op.url)
    ensures Known(c, Do(c, s, op, cut), url)
  {
    if Moves(op) {
      MovesKeepTables(c, s, op, cut);
    } else if op.Schedule? {
      ScheduleKeepsKnown(c, s, op, cut, url);
    } else if op.Fail? {
      FailKeepsKnown(c, s, op, cut, url);
    } else if op.Complete? || op.Terminal? || op.Ack? {
      SettleKeepsKnown(c, s, op, cut, url);
    } else if op.AdmitVideo? {
      AdmitVideoKeepsKnown(c, s, op, cut, url);
    } else {
      AdmissionKeepsKnown(c, s, op, cut, url);
    }
  }

  lemma KnownAfter(c: Config, s: Store, op: Op, cut: nat, url: string)
    requires c.Valid() && Weak(s) && Legal(c, s, op) && Known(c, s, url)
    ensures Known(c, Do(c, s, op, cut), url)
  {
    assert RowSound(s, url);
    if op.Schedule? { assert RowSound(s, op.url); }
    KnownStep(c, s, op, cut, url);
  }

  lemma KnownNext(c: Config, run: seq<Step>, tr: seq<Store>, url: string, j: nat)
    requires c.Valid() && Execution(c, run, tr) && Weak(tr[0]) && j < |run| && Known(c, tr[j], url)
    ensures Known(c, tr[j + 1], url)
  {
    RunKeepsWeak(c, run, tr, j);
    var s, step := tr[j], run[j];
    assert Legal(c, s, step.op) && tr[j + 1] == Do(c, s, step.op, step.cut);
    KnownAfter(c, s, step.op, step.cut, url);
  }

  lemma {:induction false} StaysKnown(c: Config, run: seq<Step>, tr: seq<Store>, url: string, i: nat, j: nat)
    requires c.Valid() && Execution(c, run, tr) && Weak(tr[0]) && i <= j <= |run| && Known(c, tr[i], url)
    ensures Known(c, tr[j], url)
    decreases j
  {
    if i < j {
      StaysKnown(c, run, tr, url, i, j - 1);
      KnownNext(c, run, tr, url, j - 1);
    }
  }

  // --- the workers' rule ---

  // An admission of the URL was answered before step j.
  ghost predicate AdmittedBefore(c: Config, run: seq<Step>, tr: seq<Store>, url: string, j: nat)
    requires j <= |run| <= |tr|
  {
    exists i {:trigger run[i]} :: 0 <= i < j &&
      IsAdmission(run[i].op, url) && ReplyOf(c, tr[i], run[i].op, run[i].cut) != Error
  }

  // The keys of the links on a page.
  predicate LinksTo(site: string -> seq<string>, page: string, url: string) {
    url != "" && exists raw | raw in site(page) :: Canonicalize(raw) == url
  }

  // Every page acked or completed had all its children admitted first.
  ghost predicate ChildrenFirst(c: Config, site: string -> seq<string>, run: seq<Step>, tr: seq<Store>)
    requires |run| <= |tr|
  {
    forall j, url |
        0 <= j < |run| && (run[j].op.Ack? || run[j].op.Complete?) && LinksTo(site, run[j].op.job.url, url) ::
      AdmittedBefore(c, run, tr, url, j)
  }

  ghost predicate Seeded(c: Config, run: seq<Step>, tr: seq<Store>, url: string)
    requires |run| <= |tr|
  {
    || AdmittedBefore(c, run, tr, url, |run|)
    || exists i {:trigger run[i]} :: 0 <= i < |run| && run[i].op == SeedListing(url) && run[i].cut >= 1
  }

  lemma AnswerKnows(c: Config, run: seq<Step>, tr: seq<Store>, url: string, i: nat)
    requires c.Valid() && Execution(c, run, tr) && Weak(tr[0]) && i < |run|
    requires IsAdmission(run[i].op, url) && ReplyOf(c, tr[i], run[i].op, run[i].cut) != Error
    ensures Known(c, tr[i + 1], url)
  {
    RunKeepsWeak(c, run, tr, i);
    assert RowSound(tr[i], url);
    AdmissionKnows(c, tr[i], run[i].op, run[i].cut, url);
  }

  lemma AdmittedIsKnown(c: Config, run: seq<Step>, tr: seq<Store>, url: string, j: nat)
    requires c.Valid() && Execution(c, run, tr) && Weak(tr[0]) && j <= |run|
    requires AdmittedBefore(c, run, tr, url, j)
    ensures Known(c, tr[|run|], url)
  {
    var i :| 0 <= i < j && IsAdmission(run[i].op, url) && ReplyOf(c, tr[i], run[i].op, run[i].cut) != Error;
    AnswerKnows(c, run, tr, url, i);
    StaysKnown(c, run, tr, url, i + 1, |run|);
  }

  lemma SeededIsKnown(c: Config, run: seq<Step>, tr: seq<Store>, url: string)
    requires c.Valid() && Execution(c, run, tr) && Weak(tr[0]) && Seeded(c, run, tr, url)
    ensures Known(c, tr[|run|], url)
  {
    if AdmittedBefore(c, run, tr, url, |run|) {
      AdmittedIsKnown(c, run, tr, url, |run|);
    } else {
      var i :| 0 <= i < |run| && run[i].op == SeedListing(url) && run[i].cut >= 1;
      assert Legal(c, tr[i], run[i].op);
      StaysKnown(c, run, tr, url, i + 1, |run|);
    }
  }

  // A page the history calls done was acked or completed at some step.
  lemma {:induction false} DoneAtStep(c: Config, run: seq<Step>, tr: seq<Store>, url: string, i: nat) returns (j: nat)
    requires i <= |run| <= |tr|
    requires url in HistoryAt(c, run, tr, i).acked || url in HistoryAt(c, run, tr, i).completed
    ensures j < i && (run[j].op.Ack? || run[j].op.Complete?) && run[j].op.job.url == url
  {
    var h := HistoryAt(c, run, tr, i - 1);
    if url in h.acked || url in h.completed {
      j := DoneAtStep(c, run, tr, url, i - 1);
    } else {
      j := i - 1;
    }
  }

  lemma ChildIsKnown(c: Config, site: string -> seq<string>, run: seq<Step>, tr: seq<Store>, page: string, url: string)
    requires c.Valid() && Execution(c, run, tr) && Weak(tr[0]) && ChildrenFirst(c, site, run, tr)
    requires var h := HistoryAt(c, run, tr, |run|); page in h.acked || page in h.completed
    requires LinksTo(site, page, url)
    ensures Known(c, tr[|run|], url)
  {
    var j := DoneAtStep(c, run, tr, page, |run|);
    assert LinksTo(site, run[j].op.job.url, url);
    AdmittedIsKnown(c, run, tr, url, j);
  }

  // --- completeness ---

  predicate Visited(h: History, url: string) { url in h.acked || url in h.completed }

  // The Bloom filter says yes to a video that was never given a job.
  predicate Lost(c: Config, s: Store, h: History, url: string) {
    IsVideo(url) && Positive(c, s, url) && url !in h.queued
  }

  predicate Settled(c: Config, s: Store, h: History, url: string) {
    Visited(h, url) || url in h.buried || Lost(c, s, h, url)
  }

  lemma KnownIsSettled(c: Config, s: Store, h: History, url: string, now: int)
    requires AllAccounted(c, s, h) && Known(c, s, url)
    requires Idle(s) && now > 0 && NothingDue(s, now)
    ensures Settled(c, s, h, url)
  {
    assert Accounted(c, s, h, url, UrlLive(s, url));
    assert !UrlLive(s, url);
  }

  // A way from a seed along links, on which every page before the last was visited, or at
  // any rate never declared dead nor lost to a false positive.
  ghost predicate Trail(
      c: Config, site: string -> seq<string>, s: Store, h: History, seeds: iset<string>, trail: seq<string>)
  {
    && trail != [] && trail[0] in seeds
    && (forall k {:trigger trail[k]} | 0 < k < |trail| :: LinksTo(site, trail[k - 1], trail[k]))
    && (forall k | 0 <= k < |trail| - 1 ::
          Visited(h, trail[k]) || (trail[k] !in h.buried && !Lost(c, s, h, trail[k])))
  }

  lemma {:induction false} TrailSettled(
      c: Config, site: string -> seq<string>, s: Store, h: History, seeds: iset<string>, trail: seq<string>, k: nat)
    requires Trail(c, site, s, h, seeds, trail) && k < |trail|
    requires forall url | url in seeds :: Settled(c, s, h, url)
    requires forall page, url | Visited(h, page) && LinksTo(site, page, url) :: Settled(c, s, h, url)
    ensures Settled(c, s, h, trail[k]) && (k < |trail| - 1 ==> Visited(h, trail[k]))
  {
    if k > 0 {
      TrailSettled(c, site, s, h, seeds, trail, k - 1);
      assert LinksTo(site, trail[k - 1], trail[k]);
    }
  }

  lemma SeedSettled(c: Config, run: seq<Step>, tr: seq<Store>, now: int, url: string)
    requires c.Valid() && Execution(c, run, tr) && tr[0] == EMPTY && Seeded(c, run, tr, url)
    requires Idle(tr[|run|]) && now > 0 && NothingDue(tr[|run|], now)
    ensures Settled(c, tr[|run|], HistoryAt(c, run, tr, |run|), url)
  {
    RunKeepsAccounted(c, run, tr, |run|);
    EmptyIsWeak();
    SeededIsKnown(c, run, tr, url);
    KnownIsSettled(c, tr[|run|], HistoryAt(c, run, tr, |run|), url, now);
  }

  lemma ChildSettled(
      c: Config, site: string -> seq<string>, run: seq<Step>, tr: seq<Store>, now: int, page: string, url: string)
    requires c.Valid() && Execution(c, run, tr) && tr[0] == EMPTY && ChildrenFirst(c, site, run, tr)
    requires Idle(tr[|run|]) && now > 0 && NothingDue(tr[|run|], now)
    requires Visited(HistoryAt(c, run, tr, |run|), page) && LinksTo(site, page, url)
    ensures Settled(c, tr[|run|], HistoryAt(c, run, tr, |run|), url)
  {
    RunKeepsAccounted(c, run, tr, |run|);
    EmptyIsWeak();
    ChildIsKnown(c, site, run, tr, page, url);
    KnownIsSettled(c, tr[|run|], HistoryAt(c, run, tr, |run|), url, now);
  }

  // Idle with nothing due: on every such way all pages but the last were visited, and
  // the last was visited, buried, or lost to a false positive.
  lemma CrawlComplete(
      c: Config, site: string -> seq<string>, run: seq<Step>, tr: seq<Store>, now: int, h: History, trail: seq<string>)
    requires c.Valid() && Execution(c, run, tr) && tr[0] == EMPTY && ChildrenFirst(c, site, run, tr)
    requires Idle(tr[|run|]) && now > 0 && NothingDue(tr[|run|], now)
    requires h == HistoryAt(c, run, tr, |run|)
    requires Trail(c, site, tr[|run|], h, (iset url | Seeded(c, run, tr, url)), trail)
    ensures forall k | 0 <= k < |trail| - 1 :: Visited(h, trail[k])
    ensures Settled(c, tr[|run|], h, trail[|trail| - 1])
  {
    var s, seeds := tr[|run|], iset url | Seeded(c, run, tr, url);
    forall url | url in seeds ensures Settled(c, s, h, url) {
      SeedSettled(c, run, tr, now, url);
    }
    forall page, url | Visited(h, page) && LinksTo(site, page, url) ensures Settled(c, s, h, url) {
      ChildSettled(c, site, run, tr, now, page, url);
    }
    forall k | 0 <= k < |trail| ensures Settled(c, s, h, trail[k]) && (k < |trail| - 1 ==> Visited(h, trail[k])) {
      TrailSettled(c, site, s, h, seeds, trail, k);
    }
  }

  // --- what a false positive is ---

  predicate BitsOf(c: Config, bits: set<nat>, claimed: set<string>) {
    && (forall url, bit | url in claimed && bit in c.hash(url) :: bit in bits)
    && (forall bit | bit in bits :: exists url :: url in claimed && bit in c.hash(url))
  }

  lemma TakingIn(c: Config, bits: set<nat>, claimed: set<string>, url: string)
    requires BitsOf(c, bits, claimed)
    ensures BitsOf(c, bits + c.hash(url), claimed + {url})
  {
    forall bit | bit in bits + c.hash(url) ensures exists u :: u in claimed + {url} && bit in c.hash(u) {
      if bit in bits {
        var u :| u in claimed && bit in c.hash(u);
        assert u in claimed + {url};
      } else {
        assert url in claimed + {url};
      }
    }
  }

  lemma BitsStep(c: Config, s: Store, h: History, step: Step)
    requires c.Valid() && BitsOf(c, s.bits, h.claimed)
    ensures BitsOf(c, Do(c, s, step.op, step.cut).bits, Record(c, s, h, step).claimed)
  {
    match step.op {
      case AdmitVideo(url, now) =>
        if TakenIn(c, s, step) {
          TakingIn(c, s.bits, h.claimed, url);
        } else if Positive(c, s, url) {
          assert s.bits + c.hash(url) == s.bits;
        }
      case _ => OthersKeepBits(c, s, step.op, step.cut);
    }
  }

  lemma {:induction false} FilterHoldsClaimed(c: Config, run: seq<Step>, tr: seq<Store>, i: nat)
    requires c.Valid() && Execution(c, run, tr) && tr[0] == EMPTY && i <= |run|
    ensures BitsOf(c, tr[i].bits, HistoryAt(c, run, tr, i).claimed)
  {
    if i > 0 {
      FilterHoldsClaimed(c, run, tr, i - 1);
      BitsStep(c, tr[i - 1], HistoryAt(c, run, tr, i - 1), run[i - 1]);
    }
  }

  // --- what was ever declared dead ---

  // The URL is in the dead hash in one of the first i + 1 stores of the run.
  ghost predicate EverDead(tr: seq<Store>, url: string, i: nat)
    requires i < |tr|
  {
    exists k :: 0 <= k <= i && url in tr[k].dead
  }

  lemma BuriesIsDead(c: Config, s: Store, step: Step)
    requires c.Valid() && Buries(c, s, step)
    ensures step.op.job.url in Do(c, s, step.op, step.cut).dead
  {
    if step.op.Fail? {
    } else {
    }
  }

  lemma {:induction false} BuriedWasDead(c: Config, run: seq<Step>, tr: seq<Store>, url: string, i: nat)
    requires c.Valid() && Execution(c, run, tr) && i <= |run| && url in HistoryAt(c, run, tr, i).buried
    ensures EverDead(tr, url, i)
  {
    if url in HistoryAt(c, run, tr, i - 1).buried {
      BuriedWasDead(c, run, tr, url, i - 1);
      var k :| 0 <= k <= i - 1 && url in tr[k].dead;
      assert k <= i;
    } else {
      var s, step := tr[i - 1], run[i - 1];
      assert Buries(c, s, step) && step.op.job.url == url;
      BuriesIsDead(c, s, step);
      assert url in tr[i].dead;
    }
  }

  lemma {:induction false} StaysBuried(c: Config, run: seq<Step>, tr: seq<Store>, i: nat, j: nat)
    requires i <= j <= |run| <= |tr|
    ensures HistoryAt(c, run, tr, i).buried <= HistoryAt(c, run, tr, j).buried
    decreases j
  {
    if i < j { StaysBuried(c, run, tr, i, j - 1); }
  }

  // The history's record of the dead is right.
  lemma BuriedIffEverDead(c: Config, run: seq<Step>, tr: seq<Store>, url: string, i: nat)
    requires c.Valid() && Execution(c, run, tr) && tr[0] == EMPTY && i <= |run|
    ensures url in HistoryAt(c, run, tr, i).buried <==> EverDead(tr, url, i)
  {
    if url in HistoryAt(c, run, tr, i).buried { BuriedWasDead(c, run, tr, url, i); }
    if EverDead(tr, url, i) {
      var k :| 0 <= k <= i && url in tr[k].dead;
      RunKeepsAccounted(c, run, tr, k);
      assert Accounted(c, tr[k], HistoryAt(c, run, tr, k), url, UrlLive(tr[k], url));
      StaysBuried(c, run, tr, k, i);
    }
  }

  // --- which videos are ever fetched ---

  // The URL has a live job in one of the first i + 1 stores of the run.
  ghost predicate EverLive(tr: seq<Store>, url: string, i: nat)
    requires i < |tr|
  {
    exists k :: 0 <= k <= i && UrlLive(tr[k], url)
  }

  // A video that was given a job was given it at some step.
  lemma {:induction false} QueuedAtStep(c: Config, run: seq<Step>, tr: seq<Store>, url: string, i: nat) returns (j: nat)
    requires i <= |run| <= |tr| && url in HistoryAt(c, run, tr, i).queued
    ensures j < i && Queues(c, tr[j], run[j]) && run[j].op.url == url
  {
    if url in HistoryAt(c, run, tr, i - 1).queued {
      j := QueuedAtStep(c, run, tr, url, i - 1);
    } else {
      j := i - 1;
    }
  }

  lemma {:induction false} StaysQueued(c: Config, run: seq<Step>, tr: seq<Store>, i: nat, j: nat)
    requires i <= j <= |run| <= |tr|
    ensures HistoryAt(c, run, tr, i).queued <= HistoryAt(c, run, tr, j).queued
    ensures HistoryAt(c, run, tr, j).claimed <= HistoryAt(c, run, tr, j).queued
    decreases j
  {
    if i < j {
      StaysQueued(c, run, tr, i, j - 1);
    } else if j > 0 {
      StaysQueued(c, run, tr, j - 1, j - 1);
    }
  }

  lemma QueuedIsLive(c: Config, s: Store, step: Step)
    requires c.Valid() && Weak(s) && Legal(c, s, step.op) && Queues(c, s, step)
    ensures UrlLive(Do(c, s, step.op, step.cut), step.op.url)
  {
    LedgerHolds(c, s, step.op, step.cut);
    assert IsLive(Do(c, s, step.op, step.cut), Fresh(s, step.op.url));
  }

  // The history's record of jobs is right.
  lemma QueuedIffEverLive(c: Config, run: seq<Step>, tr: seq<Store>, url: string, i: nat)
    requires c.Valid() && Execution(c, run, tr) && tr[0] == EMPTY && i <= |run| && IsVideo(url)
    ensures url in HistoryAt(c, run, tr, i).queued <==> EverLive(tr, url, i)
  {
    if url in HistoryAt(c, run, tr, i).queued {
      var j := QueuedAtStep(c, run, tr, url, i);
      RunKeepsAccounted(c, run, tr, j);
      QueuedIsLive(c, tr[j], run[j]);
    }
    if EverLive(tr, url, i) {
      var k :| 0 <= k <= i && UrlLive(tr[k], url);
      RunKeepsAccounted(c, run, tr, k);
      assert Accounted(c, tr[k], HistoryAt(c, run, tr, k), url, UrlLive(tr[k], url));
      StaysQueued(c, run, tr, k, i);
    }
  }

  // The push went through, and it was not taken back for a video the filter knew.
  predicate PushStands(c: Config, s: Store, step: Step) {
    step.op.AdmitVideo? && step.cut >= 3 && (step.cut < 5 || !Positive(c, s, step.op.url))
  }

  // A video has ever had a job iff some admission's push stood; a verdict in its way does
  // not matter, for then it had a job before.
  lemma EverLiveIff(c: Config, run: seq<Step>, tr: seq<Store>, url: string, i: nat)
    requires c.Valid() && Execution(c, run, tr) && tr[0] == EMPTY && i <= |run| && IsVideo(url)
    ensures EverLive(tr, url, i) <==>
      exists j {:trigger run[j]} :: 0 <= j < i && IsAdmission(run[j].op, url) && PushStands(c, tr[j], run[j])
  {
    QueuedIffEverLive(c, run, tr, url, i);
    if EverLive(tr, url, i) {
      var j := QueuedAtStep(c, run, tr, url, i);
      assert IsAdmission(run[j].op, url) && PushStands(c, tr[j], run[j]);
    }
    if j :| 0 <= j < i && IsAdmission(run[j].op, url) && PushStands(c, tr[j], run[j]) {
      AdmittedWasLive(c, run, tr, url, i, j);
    }
  }

  lemma AdmittedWasLive(c: Config, run: seq<Step>, tr: seq<Store>, url: string, i: nat, j: nat)
    requires c.Valid() && Execution(c, run, tr) && tr[0] == EMPTY && j < i <= |run| && IsVideo(url)
    requires IsAdmission(run[j].op, url) && PushStands(c, tr[j], run[j])
    ensures EverLive(tr, url, i)
  {
    RunKeepsAccounted(c, run, tr, j);
    if Blocked(tr[j], url, run[j].op.now) {
      assert Accounted(c, tr[j], HistoryAt(c, run, tr, j), url, UrlLive(tr[j], url));
      QueuedIffEverLive(c, run, tr, url, j);
      var k :| 0 <= k <= j && UrlLive(tr[k], url);
      assert k <= i;
    } else {
      QueuedIsLive(c, tr[j], run[j]);
      assert UrlLive(tr[j + 1], url);
    }
  }

  // Where no script breaks off, a video has ever had a job iff one of its admissions was
  // answered New, that is met it outside the filter and without a standing verdict.
  lemma FetchedIffNew(c: Config, run: seq<Step>, tr: seq<Store>, url: string, i: nat)
    requires c.Valid() && Execution(c, run, tr) && Atomic(run) && tr[0] == EMPTY && i <= |run| && IsVideo(url)
    ensures EverLive(tr, url, i) <==>
      exists j {:trigger run[j]} :: 0 <= j < i && Guarantees.AdmitsNew(c, tr[j], run[j], url)
  {
    QueuedIffEverLive(c, run, tr, url, i);
    EverLiveIff(c, run, tr, url, i);
    if EverLive(tr, url, i) {
      var j := QueuedAtStep(c, run, tr, url, i);
      assert Guarantees.AdmitsNew(c, tr[j], run[j], url);
    }
    if j :| 0 <= j < i && Guarantees.AdmitsNew(c, tr[j], run[j], url) {
      assert IsAdmission(run[j].op, url) && PushStands(c, tr[j], run[j]);
    }
  }

  // So it is never fetched iff every admission met it in the filter already.
  lemma NeverFetchedIff(c: Config, run: seq<Step>, tr: seq<Store>, url: string, i: nat)
    requires c.Valid() && Execution(c, run, tr) && Atomic(run) && tr[0] == EMPTY && i <= |run| && IsVideo(url)
    ensures !EverLive(tr, url, i) <==>
      forall j {:trigger run[j]} | 0 <= j < i && IsAdmission(run[j].op, url) :: Positive(c, tr[j], url)
  {
    EverLiveIff(c, run, tr, url, i);
    forall j {:trigger run[j]} | 0 <= j < i && IsAdmission(run[j].op, url)
      ensures PushStands(c, tr[j], run[j]) <==> !Positive(c, tr[j], url)
    {
      assert Legal(c, tr[j], run[j].op);
    }
  }

  // A video the history calls lost was never given a job, and other videos that the
  // filter took in cover its bits.
  lemma LostIff(c: Config, run: seq<Step>, tr: seq<Store>, url: string)
    requires c.Valid() && Execution(c, run, tr) && tr[0] == EMPTY && IsVideo(url)
    ensures var h := HistoryAt(c, run, tr, |run|);
      Lost(c, tr[|run|], h, url) <==>
        && !EverLive(tr, url, |run|)
        && forall bit | bit in c.hash(url) :: exists u :: u != url && u in h.claimed && bit in c.hash(u)
  {
    FilterHoldsClaimed(c, run, tr, |run|);
    QueuedIffEverLive(c, run, tr, url, |run|);
    StaysQueued(c, run, tr, |run|, |run|);
    var h := HistoryAt(c, run, tr, |run|);
    if Lost(c, tr[|run|], h, url) {
      forall bit | bit in c.hash(url) ensures exists u :: u != url && u in h.claimed && bit in c.hash(u) {
        assert bit in tr[|run|].bits;
        var u :| u in h.claimed && bit in c.hash(u);
      }
    }
  }
}
