/** What each figure of Stats counts (internal/storage/frontier.go), read off what the
    frontier would answer and off the run behind it. */
module Census {
  import opened Canonical
  import opened Keyspace
  import opened Scripts
  import opened JobQueue
  import opened Exclusive
  import opened Guarantees
  import Accounting
  import LeaseLaws

  // --- ready: how many leases in a row are answered with a job ---

  function LeasesLeft(c: Config, s: Store, now: int): nat
    requires c.Valid()
    decreases |s.ready|
  {
    if Answer(c, s, Lease(now)) == Empty then 0 else 1 + LeasesLeft(c, Do(c, s, Lease(now), WHOLE), now)
  }

  lemma {:induction false} ReadyIsLeasesLeft(c: Config, s: Store, now: int)
    requires c.Valid()
    ensures |s.ready| == LeasesLeft(c, s, now)
    decreases |s.ready|
  {
    if s.ready != [] { ReadyIsLeasesLeft(c, Do(c, s, Lease(now), WHOLE), now); }
  }

  // --- processing: the leases held ---

  lemma ProcessingIsLeases(c: Config, s: Store)
    requires Strong(c, s)
    ensures |s.processing| == |s.lease|
  {
    DescendingDrop(s.ready, s.processing, s.lastId + 1, Member(0, ""));
    DescendingSize(s.processing, s.lastId + 1);
    assert (set m | m in s.processing) == s.lease.Keys;
  }

  // --- strikes: the URLs with a strike on their record ---

  predicate Positives(counts: map<string, nat>) { forall url | url in counts :: counts[url] > 0 }

  lemma StrikesPositive(c: Config, s: Store, op: Op)
    requires c.Valid() && Positives(s.strikes)
    ensures Positives(Do(c, s, op, WHOLE).strikes)
  {
    if !Accounting.Resolution(op) {
      Accounting.OthersKeepCounters(c, s, op, WHOLE);
    } else {
      match op {
        case Ack(_) =>
        case Complete(_, _, _) =>
        case Terminal(_, _, _) =>
        case Fail(_, _, _) =>
      }
    }
  }

  lemma {:induction false} RunKeepsPositive(c: Config, run: seq<Step>, tr: seq<Store>, i: nat)
    requires c.Valid() && Execution(c, run, tr) && Atomic(run) && tr[0] == EMPTY && i <= |run|
    ensures Positives(tr[i].strikes)
  {
    if i > 0 {
      var j: nat := i - 1;
      RunKeepsPositive(c, run, tr, j);
      StrikesPositive(c, tr[j], run[j].op);
    }
  }

  // --- dead: the URLs condemned and not started again since ---

  // The step's answer condemns the URL: a page not found, or a last strike.
  predicate Condemns(c: Config, s: Store, step: Step, url: string) {
    LeaseLaws.Claims(s, step) && step.op.job.url == url &&
    (step.op.Terminal? || (step.op.Fail? && Answer(c, s, step.op) == Dead))
  }

  // The step's answer starts the URL anew.
  predicate Starts(c: Config, s: Store, step: Step, url: string) {
    && (step.op.AdmitVideo? || step.op.AdmitListing? || step.op.Schedule?) && step.op.url == url
    && (Answer(c, s, step.op) == New || Answer(c, s, step.op) == DueRevisit)
  }

  predicate CondemnedSince(c: Config, run: seq<Step>, tr: seq<Store>, url: string, i: nat)
    requires i <= |run| <= |tr|
  {
    i > 0 &&
    (Condemns(c, tr[i - 1], run[i - 1], url) ||
     (CondemnedSince(c, run, tr, url, i - 1) && !Starts(c, tr[i - 1], run[i - 1], url)))
  }

  lemma FailCondemns(c: Config, s: Store, step: Step, url: string)
    requires c.Valid() && step.cut == WHOLE && step.op.Fail?
    ensures url in Do(c, s, step.op, WHOLE).dead <==> Condemns(c, s, step, url) || url in s.dead
  {
  }

  lemma SettleCondemns(c: Config, s: Store, step: Step, url: string, live: bool)
    requires c.Valid() && Row(c, s, url, live) && step.cut == WHOLE
    requires step.op.Ack? || step.op.Complete? || step.op.Terminal?
    requires step.op.job in s.lease && step.op.job.url == url ==> live
    ensures url in Do(c, s, step.op, WHOLE).dead <==> Condemns(c, s, step, url) || url in s.dead
  {
    match step.op {
      case Ack(_) =>
      case Complete(_, _, _) =>
      case Terminal(_, _, _) =>
    }
  }

  lemma AdmissionStarts(c: Config, s: Store, step: Step, url: string, live: bool)
    requires c.Valid() && Row(c, s, url, live) && Legal(c, s, step.op) && step.cut == WHOLE
    requires step.op.AdmitVideo? || step.op.AdmitListing? || step.op.SeedListing?
    ensures url in Do(c, s, step.op, WHOLE).dead <==> url in s.dead && !Starts(c, s, step, url)
  {
    match step.op {
      case AdmitVideo(_, _) =>
      case AdmitListing(_, _) =>
      case SeedListing(_) =>
    }
  }

  lemma ScheduleStarts(c: Config, s: Store, step: Step, url: string)
    requires c.Valid() && step.cut == WHOLE && step.op.Schedule?
    ensures url in Do(c, s, step.op, WHOLE).dead <==> url in s.dead && !Starts(c, s, step, url)
  {
  }

  lemma DeadStep(c: Config, s: Store, step: Step, url: string)
    requires c.Valid() && Strong(c, s) && Legal(c, s, step.op) && step.cut == WHOLE
    ensures url in Do(c, s, step.op, WHOLE).dead <==>
      Condemns(c, s, step, url) || (url in s.dead && !Starts(c, s, step, url))
  {
    assert Row(c, s, url, UrlLive(s, url));
    if Moves(step.op) {
      MovesKeepTables(c, s, step.op, WHOLE);
    } else if step.op.Fail? {
      FailCondemns(c, s, step, url);
    } else if step.op.Schedule? {
      ScheduleStarts(c, s, step, url);
    } else if step.op.Ack? || step.op.Complete? || step.op.Terminal? {
      if step.op.job in s.lease { assert IsLive(s, step.op.job); }
      SettleCondemns(c, s, step, url, UrlLive(s, url));
    } else {
      AdmissionStarts(c, s, step, url, UrlLive(s, url));
    }
  }

  lemma DeadStepAt(c: Config, run: seq<Step>, tr: seq<Store>, url: string, i: nat)
    requires c.Valid() && Execution(c, run, tr) && Atomic(run) && tr[0] == EMPTY && i < |run|
    ensures url in tr[i + 1].dead <==>
      Condemns(c, tr[i], run[i], url) || (url in tr[i].dead && !Starts(c, tr[i], run[i], url))
  {
    EmptyIsStrong(c);
    RunKeepsStrong(c, run, tr, i);
    DeadStep(c, tr[i], run[i], url);
  }

  // A URL is dead exactly while it has been condemned and not been started since.
  lemma {:induction false} DeadIff(c: Config, run: seq<Step>, tr: seq<Store>, url: string, i: nat)
    requires c.Valid() && Execution(c, run, tr) && Atomic(run) && tr[0] == EMPTY && i <= |run|
    ensures url in tr[i].dead <==> CondemnedSince(c, run, tr, url, i)
  {
    if i > 0 {
      var j: nat := i - 1;
      DeadIff(c, run, tr, url, j);
      DeadStepAt(c, run, tr, url, j);
      assert i == j + 1;
    }
  }

  // --- all together ---

  // Without breaks: `ready` is how many leases in a row would get a job, `processing` how
  // many leases are held, `dead` how many URLs are condemned and not started since, and
  // `strikes` how many have a strike since their last success or verdict. With the balance
  // of StatsOverRuns that leaves `delayed` no choice.
  lemma StatsCount(c: Config, run: seq<Step>, tr: seq<Store>, i: nat, now: int)
    returns (dead: set<string>, struck: set<string>)
    requires c.Valid() && Execution(c, run, tr) && Atomic(run) && tr[0] == EMPTY && i <= |run|
    ensures forall url :: url in dead <==> CondemnedSince(c, run, tr, url, i)
    ensures forall url :: url in struck <==> Accounting.FailuresSince(c, run, tr, url, true, i) > 0
    ensures var st := StatsOf(tr[i]);
      && st.ready == LeasesLeft(c, tr[i], now) && st.processing == |tr[i].lease|
      && st.dead == |dead| && st.strikes == |struck|
  {
    var s := tr[i];
    dead, struck := s.dead.Keys, s.strikes.Keys;
    EmptyIsStrong(c);
    RunKeepsStrong(c, run, tr, i);
    ReadyIsLeasesLeft(c, s, now);
    ProcessingIsLeases(c, s);
    forall url ensures url in dead <==> CondemnedSince(c, run, tr, url, i) { DeadIff(c, run, tr, url, i); }
    RunKeepsPositive(c, run, tr, i);
    forall url ensures url in struck <==> Accounting.FailuresSince(c, run, tr, url, true, i) > 0 {
      Accounting.StrikeAccounting(c, run, tr, url, i);
    }
    assert |s.dead| == |s.dead.Keys| && |s.strikes| == |s.strikes.Keys|;
  }
}
