/** What holds between scripts when every script runs to its end: one live job per
    URL, a listing PENDING exactly while it has that job, no live URL dead
    (internal/storage/frontier.go, with the callers of internal/crawler/worker.go). */
module Exclusive {
  import opened Canonical
  import opened Keyspace
  import opened Scripts
  import opened JobQueue
  import NoLoss

  ghost predicate Strong(c: Config, s: Store) {
    && Queue(s)
    && OneEach(s)
    && AllLeased(s)
    && forall url :: Row(c, s, url, UrlLive(s, url))
  }

  ghost predicate OneEach(s: Store) {
    forall m, n | IsLive(s, m) && IsLive(s, n) && m.url == n.url :: m == n
  }

  predicate AllLeased(s: Store) {
    forall m | m in s.processing :: m in s.lease
  }

  // What the tables say about one URL, given whether it has a live job.
  predicate Row(c: Config, s: Store, url: string, live: bool) {
    && NoLoss.RowSound(s, url)
    && (!IsVideo(url) ==> (url in s.next && s.next[url] == PENDING <==> live))
    && (live ==> url !in s.dead)
    && (url in s.dead && !IsVideo(url) ==> s.next[url] == s.dead[url].until)
    && (IsVideo(url) && live ==> Positive(c, s, url))
    && (url in s.next ==> s.next[url] <= PENDING)
  }

  // Whether the URL has a live job after the first `cut` writes, given whether it had one.
  predicate LiveAfter(c: Config, s: Store, op: Op, cut: nat, url: string, live: bool) {
    (live && !For(Removed(c, s, op, cut), url)) || For(Added(c, s, op, cut), url)
  }

  lemma RowSettle(c: Config, s: Store, op: Op, url: string, live: bool)
    requires c.Valid() && Legal(c, s, op) && Row(c, s, url, live) && (op.Ack? || op.Complete? || op.Terminal?)
    requires For(Removed(c, s, op, WHOLE), url) ==> live
    ensures Row(c, Do(c, s, op, WHOLE), url, LiveAfter(c, s, op, WHOLE, url, live))
  {
    match op {
      case Ack(_) =>
      case Complete(_, _, _) =>
      case Terminal(_, _, _) =>
    }
  }

  lemma RowFail(c: Config, s: Store, op: Op, url: string, live: bool)
    requires c.Valid() && Legal(c, s, op) && Row(c, s, url, live) && op.Fail?
    requires For(Removed(c, s, op, WHOLE), url) ==> live
    ensures Row(c, Do(c, s, op, WHOLE), url, LiveAfter(c, s, op, WHOLE, url, live))
  {
  }

  lemma RowSchedule(c: Config, s: Store, op: Op, url: string, live: bool)
    requires c.Valid() && Legal(c, s, op) && Row(c, s, url, live) && op.Schedule?
    ensures Row(c, ScheduleScript(s, op.url, op.now, WHOLE), url, LiveAfter(c, s, op, WHOLE, url, live))
  {
  }

  lemma RowAdmitListing(c: Config, s: Store, op: Op, url: string, live: bool)
    requires c.Valid() && Legal(c, s, op) && Row(c, s, url, live) && op.AdmitListing?
    ensures Row(c, AdmitListingScript(s, op.url, op.now, WHOLE), url, LiveAfter(c, s, op, WHOLE, url, live))
  {
  }

  lemma RowAdmitVideo(c: Config, s: Store, op: Op, url: string, live: bool)
    requires c.Valid() && Legal(c, s, op) && Row(c, s, url, live) && op.AdmitVideo?
    ensures Row(c, Do(c, s, op, WHOLE), url, LiveAfter(c, s, op, WHOLE, url, live))
  {
  }

  lemma RowSeed(c: Config, s: Store, op: Op, url: string, live: bool)
    requires c.Valid() && Legal(c, s, op) && Row(c, s, url, live) && op.SeedListing?
    ensures Row(c, Do(c, s, op, WHOLE), url, LiveAfter(c, s, op, WHOLE, url, live))
  {
  }

  lemma RowMove(c: Config, s: Store, op: Op, url: string, live: bool)
    requires c.Valid() && Legal(c, s, op) && Row(c, s, url, live) && Moves(op)
    requires For(Removed(c, s, op, WHOLE), url) ==> live
    ensures Row(c, Do(c, s, op, WHOLE), url, LiveAfter(c, s, op, WHOLE, url, live))
  {
    MovesKeepTables(c, s, op, WHOLE);
  }

  lemma RowStep(c: Config, s: Store, op: Op, url: string, live: bool)
    requires c.Valid() && Legal(c, s, op) && Row(c, s, url, live)
    requires For(Removed(c, s, op, WHOLE), url) ==> live
    ensures Row(c, Do(c, s, op, WHOLE), url, LiveAfter(c, s, op, WHOLE, url, live))
  {
    match op {
      case AdmitVideo(_, _) => RowAdmitVideo(c, s, op, url, live);
      case AdmitListing(_, _) => RowAdmitListing(c, s, op, url, live);
      case SeedListing(_) => RowSeed(c, s, op, url, live);
      case Schedule(_, _) => RowSchedule(c, s, op, url, live);
      case Fail(_, _, _) => RowFail(c, s, op, url, live);
      case Ack(_) => RowSettle(c, s, op, url, live);
      case Complete(_, _, _) => RowSettle(c, s, op, url, live);
      case Terminal(_, _, _) => RowSettle(c, s, op, url, live);
      case _ => RowMove(c, s, op, url, live);
    }
  }

  // A new job is for a URL that had none, or replaces the one taken away.
  lemma AddedReplaces(c: Config, s: Store, op: Op)
    requires c.Valid() && Legal(c, s, op) && Added(c, s, op, WHOLE).Some?
    requires var url := Added(c, s, op, WHOLE).value.url; Row(c, s, url, UrlLive(s, url))
    ensures var url := Added(c, s, op, WHOLE).value.url;
      For(Removed(c, s, op, WHOLE), url) || !UrlLive(s, url)
  {
    match op {
      case AdmitVideo(_, _) =>
      case AdmitListing(_, _) =>
      case Schedule(_, _) =>
      case _ =>
    }
  }

  lemma RemovedWasLive(c: Config, s: Store, op: Op, cut: nat)
    requires c.Valid() && Queue(s) && Legal(c, s, op) && Removed(c, s, op, cut).Some?
    ensures IsLive(s, Removed(c, s, op, cut).value)
  {
  }

  lemma KeepsOneEach(c: Config, s: Store, op: Op)
    requires c.Valid() && Strong(c, s) && Legal(c, s, op)
    ensures OneEach(Do(c, s, op, WHOLE))
  {
    LedgerHolds(c, s, op, WHOLE);
    var added := Added(c, s, op, WHOLE);
    if added.Some? {
      assert Row(c, s, added.value.url, UrlLive(s, added.value.url));
      AddedReplaces(c, s, op);
      if Removed(c, s, op, WHOLE).Some? { RemovedWasLive(c, s, op, WHOLE); }
    }
  }

  lemma KeepsAllLeased(c: Config, s: Store, op: Op)
    requires c.Valid() && Queue(s) && AllLeased(s) && Legal(c, s, op)
    ensures AllLeased(Do(c, s, op, WHOLE))
  {
    match op {
      case Ack(_) => SettleKeepsAllLeased(c, s, op);
      case Complete(_, _, _) => SettleKeepsAllLeased(c, s, op);
      case Terminal(_, _, _) => SettleKeepsAllLeased(c, s, op);
      case Fail(job, _, _) => if job in s.lease { ProcessingElsewhere(s, job); }
      case Nack(_) => RequeueKeepsAllLeased(c, s, op);
      case Reap(_, _) => RequeueKeepsAllLeased(c, s, op);
      case Sweep(_) => RequeueKeepsAllLeased(c, s, op);
      case Lease(_) =>
      case _ =>
    }
  }

  lemma SettleKeepsAllLeased(c: Config, s: Store, op: Op)
    requires c.Valid() && Queue(s) && AllLeased(s) && (op.Ack? || op.Complete? || op.Terminal?)
    ensures AllLeased(Do(c, s, op, WHOLE))
  {
    if op.job in s.lease { ProcessingElsewhere(s, op.job); }
  }

  lemma RequeueKeepsAllLeased(c: Config, s: Store, op: Op)
    requires c.Valid() && Queue(s) && AllLeased(s) && (op.Nack? || op.Reap? || op.Sweep?)
    ensures AllLeased(Do(c, s, op, WHOLE))
  {
    if op.job in s.processing { ProcessingElsewhere(s, op.job); }
  }

  lemma UrlLedger(c: Config, s: Store, op: Op, cut: nat, url: string)
    requires c.Valid() && Queue(s) && OneEach(s) && Legal(c, s, op)
    ensures For(Removed(c, s, op, cut), url) ==> UrlLive(s, url)
    ensures UrlLive(Do(c, s, op, cut), url) <==> LiveAfter(c, s, op, cut, url, UrlLive(s, url))
  {
    var t := Do(c, s, op, cut);
    LedgerHolds(c, s, op, cut);
    var added, removed := Added(c, s, op, cut), Removed(c, s, op, cut);
    if removed.Some? { RemovedWasLive(c, s, op, cut); }
    if For(added, url) {
      assert IsLive(t, added.value);
    } else if UrlLive(s, url) && !For(removed, url) {
      var m :| IsLive(s, m) && m.url == url;
      assert IsLive(t, m);
    }
  }

  lemma KeepsStrong(c: Config, s: Store, op: Op)
    requires c.Valid() && Strong(c, s) && Legal(c, s, op)
    ensures Strong(c, Do(c, s, op, WHOLE))
  {
    KeepsQueue(c, s, op, WHOLE);
    KeepsOneEach(c, s, op);
    KeepsAllLeased(c, s, op);
    var t := Do(c, s, op, WHOLE);
    forall url ensures Row(c, t, url, UrlLive(t, url)) {
      UrlLedger(c, s, op, WHOLE, url);
      RowStep(c, s, op, url, UrlLive(s, url));
    }
  }

  lemma {:induction false} RunKeepsStrong(c: Config, run: seq<Step>, tr: seq<Store>, i: nat)
    requires c.Valid() && Execution(c, run, tr) && Atomic(run) && Strong(c, tr[0]) && i <= |run|
    ensures Strong(c, tr[i])
  {
    if i > 0 {
      RunKeepsStrong(c, run, tr, i - 1);
      KeepsStrong(c, tr[i - 1], run[i - 1].op);
    }
  }
}
