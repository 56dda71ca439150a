/** The frontier's promises over whole runs: exclusivity and the stats that follow from
    it, the life of a video and quarantine, where no script breaks off; and no early
    retry, where none breaks off at a hazard. */
module Guarantees {
  import opened Canonical
  import opened Keyspace
  import opened Scripts
  import opened JobQueue
  import opened Duplicates
  import opened Exclusive
  import NoLoss
  import LeaseLaws
  import Accounting

  lemma EmptyIsStrong(c: Config)
    ensures Strong(c, EMPTY)
  {
  }

  // --- listing exclusivity ---

  // A listing is PENDING iff it has a live job, and then it has exactly one.
  lemma ListingExclusivity(c: Config, run: seq<Step>, tr: seq<Store>, i: nat, url: string)
    requires c.Valid() && Execution(c, run, tr) && Atomic(run) && tr[0] == EMPTY && i <= |run|
    requires !IsVideo(url)
    ensures var s := tr[i];
      && (url in s.next && s.next[url] == PENDING <==> exists m :: IsLive(s, m) && m.url == url)
      && (forall m, n | IsLive(s, m) && IsLive(s, n) && m.url == n.url == url :: m == n)
  {
    EmptyIsStrong(c);
    RunKeepsStrong(c, run, tr, i);
    assert Row(c, tr[i], url, UrlLive(tr[i], url));
  }

  // A live URL is never in the dead hash.
  lemma LiveIsNotDead(c: Config, run: seq<Step>, tr: seq<Store>, i: nat, m: Member)
    requires c.Valid() && Execution(c, run, tr) && Atomic(run) && tr[0] == EMPTY && i <= |run|
    requires IsLive(tr[i], m)
    ensures m.url !in tr[i].dead
  {
    EmptyIsStrong(c);
    RunKeepsStrong(c, run, tr, i);
    assert Row(c, tr[i], m.url, UrlLive(tr[i], m.url));
  }

  // --- stats ---

  function LiveSet(s: Store): set<Member> {
    (set m | m in s.ready + s.processing) + s.delayed.Keys
  }

  function LiveVideos(s: Store): set<string> {
    set m | m in LiveSet(s) && IsVideo(m.url) :: m.url
  }

  lemma {:induction false} DescendingSize(q: seq<Member>, bound: nat)
    requires Descending(q, bound)
    ensures |set m | m in q| == |q|
  {
    if q != [] {
      DescendingSize(q[1..], q[0].id);
      DescendingIds(q[1..], q[0].id);
      assert q == [q[0]] + q[1..];
      assert (set m | m in q) == {q[0]} + (set m | m in q[1..]);
    }
  }

  lemma {:induction false} ImageSize(members: set<Member>)
    requires forall m, n | m in members && n in members && m.url == n.url :: m == n
    ensures |set m | m in members :: m.url| == |members|
  {
    if members != {} {
      var x :| x in members;
      var rest := members - {x};
      ImageSize(rest);
      assert (set m | m in members :: m.url) == (set m | m in rest :: m.url) + {x.url};
    }
  }

  lemma LiveSetSize(s: Store)
    requires Queue(s)
    ensures |LiveSet(s)| == |s.ready| + |s.processing| + |s.delayed|
    ensures forall m :: m in LiveSet(s) <==> IsLive(s, m)
  {
    var q := s.ready + s.processing;
    DescendingSize(q, s.lastId + 1);
    forall m | m in s.delayed ensures m !in q { DelayedElsewhere(s, m); }
    assert (set m | m in q) !! s.delayed.Keys;
    assert |s.delayed.Keys| == |s.delayed|;
  }

  function LiveUrls(s: Store): set<string> { set m | m in LiveSet(s) :: m.url }

  lemma LiveUrlSplit(c: Config, s: Store, url: string)
    requires Strong(c, s)
    ensures url in LiveUrls(s) <==> url in Pending(s) || url in LiveVideos(s)
    ensures !(url in Pending(s) && url in LiveVideos(s))
  {
    LiveSetSize(s);
    assert Row(c, s, url, UrlLive(s, url));
    if UrlLive(s, url) {
      var m :| IsLive(s, m) && m.url == url;
      assert m in LiveSet(s);
    }
  }

  lemma LiveUrlsSplit(c: Config, s: Store)
    requires Strong(c, s)
    ensures LiveUrls(s) == Pending(s) + LiveVideos(s) && Pending(s) !! LiveVideos(s)
  {
    forall url
      ensures url in LiveUrls(s) <==> url in Pending(s) || url in LiveVideos(s)
      ensures !(url in Pending(s) && url in LiveVideos(s))
    {
      LiveUrlSplit(c, s, url);
    }
  }

  lemma LiveUrlsSize(s: Store)
    requires Queue(s) && OneEach(s)
    ensures |LiveUrls(s)| == |s.ready| + |s.processing| + |s.delayed|
  {
    LiveSetSize(s);
    ImageSize(LiveSet(s));
  }

  // Jobs on the move are the pending listings and the live videos, one each.
  lemma StatsBalance(c: Config, s: Store)
    requires Strong(c, s)
    ensures var st := StatsOf(s);
      st.ready + st.processing + st.delayed == st.listingsPending + |LiveVideos(s)|
  {
    LiveUrlsSize(s);
    LiveUrlsSplit(c, s);
    assert |Pending(s) + LiveVideos(s)| == |Pending(s)| + |LiveVideos(s)|;
  }

  // Over any run of unbroken scripts; and an idle frontier has no pending listing.
  lemma StatsOverRuns(c: Config, run: seq<Step>, tr: seq<Store>, i: nat)
    requires c.Valid() && Execution(c, run, tr) && Atomic(run) && tr[0] == EMPTY && i <= |run|
    ensures var st := StatsOf(tr[i]);
      && st.ready + st.processing + st.delayed == st.listingsPending + |LiveVideos(tr[i])|
      && st.listingsScheduled + st.listingsPending == |tr[i].next|
      && (Idle(tr[i]) ==> st.listingsPending == 0)
  {
    EmptyIsStrong(c);
    RunKeepsStrong(c, run, tr, i);
    var s := tr[i];
    StatsBalance(c, s);
    forall url | url in s.next ensures url in Pending(s) || url in Scheduled(s) {
      assert Row(c, s, url, UrlLive(s, url));
    }
    assert s.next.Keys == Pending(s) + Scheduled(s);
    assert Pending(s) !! Scheduled(s);
    assert |s.next.Keys| == |s.next|;
  }

  // --- the life of a video ---

  predicate AdmitsNew(c: Config, s: Store, step: Step, url: string) {
    step.op.AdmitVideo? && step.op.url == url && ReplyOf(c, s, step.op, step.cut) == New
  }

  // An Ack that is accepted.
  predicate Acks(s: Store, step: Step, url: string) {
    step.op.Ack? && step.op.job.url == url && LeaseLaws.Claims(s, step)
  }

  // An Ack for the URL was accepted at some step from i up to, not including, j.
  predicate AckedBetween(run: seq<Step>, tr: seq<Store>, url: string, i: nat, j: nat)
    requires j <= |run| <= |tr|
    decreases j
  {
    i < j && (AckedBetween(run, tr, url, i, j - 1) || Acks(tr[j - 1], run[j - 1], url))
  }

  lemma {:induction false} StaysPositive(c: Config, run: seq<Step>, tr: seq<Store>, url: string, i: nat, j: nat)
    requires c.Valid() && Execution(c, run, tr) && i <= j <= |run| && Positive(c, tr[i], url)
    ensures Positive(c, tr[j], url)
    decreases j
  {
    if i < j {
      StaysPositive(c, run, tr, url, i, j - 1);
      BitsGrow(c, tr[j - 1], run[j - 1]);
    }
  }

  lemma BitsGrow(c: Config, s: Store, step: Step)
    requires c.Valid()
    ensures s.bits <= Do(c, s, step.op, step.cut).bits
  {
    if !step.op.AdmitVideo? { OthersKeepBits(c, s, step.op, step.cut); }
  }

  // Whatever scripts break off and whatever the Bloom filter confuses, a video URL is
  // answered New at most once.
  lemma NewAtMostOnce(c: Config, run: seq<Step>, tr: seq<Store>, url: string, i: nat, j: nat)
    requires c.Valid() && Execution(c, run, tr) && i < j < |run|
    requires AdmitsNew(c, tr[i], run[i], url)
    ensures !AdmitsNew(c, tr[j], run[j], url)
  {
    assert Positive(c, tr[i + 1], url);
    StaysPositive(c, run, tr, url, i + 1, j);
  }

  predicate ExactlyOne(a: bool, b: bool, c: bool) {
    (a || b || c) && !(a && b) && !(b && c) && !(a && c)
  }

  ghost predicate InOnePlace(c: Config, s: Store, url: string, acked: bool) {
    Positive(c, s, url) && ExactlyOne(UrlLive(s, url), acked, url in s.dead)
  }

  lemma VideoFail(c: Config, s: Store, step: Step, url: string, live: bool, acked: bool)
    requires c.Valid() && Legal(c, s, step.op) && step.cut == WHOLE && IsVideo(url)
    requires Row(c, s, url, live) && Positive(c, s, url) && ExactlyOne(live, acked, url in s.dead)
    requires For(Removed(c, s, step.op, WHOLE), url) ==> live
    requires step.op.Fail?
    ensures ExactlyOne(LiveAfter(c, s, step.op, WHOLE, url, live), acked || Acks(s, step, url),
      url in Do(c, s, step.op, WHOLE).dead)
  {
  }

  lemma VideoSettle(c: Config, s: Store, step: Step, url: string, live: bool, acked: bool)
    requires c.Valid() && Legal(c, s, step.op) && step.cut == WHOLE && IsVideo(url)
    requires Row(c, s, url, live) && Positive(c, s, url) && ExactlyOne(live, acked, url in s.dead)
    requires For(Removed(c, s, step.op, WHOLE), url) ==> live
    requires step.op.Ack? || step.op.Complete? || step.op.Terminal?
    ensures ExactlyOne(LiveAfter(c, s, step.op, WHOLE, url, live), acked || Acks(s, step, url),
      url in Do(c, s, step.op, WHOLE).dead)
  {
    match step.op {
      case Ack(_) =>
      case Complete(_, _, _) =>
      case Terminal(_, _, _) =>
    }
  }

  lemma VideoAdmit(c: Config, s: Store, step: Step, url: string, live: bool, acked: bool)
    requires c.Valid() && Legal(c, s, step.op) && step.cut == WHOLE && IsVideo(url)
    requires Row(c, s, url, live) && Positive(c, s, url) && ExactlyOne(live, acked, url in s.dead)
    requires For(Removed(c, s, step.op, WHOLE), url) ==> live
    requires step.op.AdmitVideo? || step.op.AdmitListing? || (step.op.Schedule? && !IsVideo(step.op.url))
    ensures ExactlyOne(LiveAfter(c, s, step.op, WHOLE, url, live), acked || Acks(s, step, url),
      url in Do(c, s, step.op, WHOLE).dead)
  {
    match step.op {
      case AdmitVideo(_, _) =>
      case AdmitListing(_, _) =>
      case Schedule(_, _) =>
    }
  }

  lemma VideoMove(c: Config, s: Store, step: Step, url: string, live: bool, acked: bool)
    requires c.Valid() && step.cut == WHOLE && Moves(step.op)
    requires ExactlyOne(live, acked, url in s.dead)
    requires For(Removed(c, s, step.op, WHOLE), url) ==> live
    ensures ExactlyOne(LiveAfter(c, s, step.op, WHOLE, url, live), acked || Acks(s, step, url),
      url in Do(c, s, step.op, WHOLE).dead)
  {
    MovesKeepTables(c, s, step.op, WHOLE);
  }

  // What one script does to a video's row, given whether it has a live job.
  lemma VideoTables(c: Config, s: Store, step: Step, url: string, live: bool, acked: bool)
    requires c.Valid() && Legal(c, s, step.op) && step.cut == WHOLE && IsVideo(url)
    requires Row(c, s, url, live) && Positive(c, s, url) && ExactlyOne(live, acked, url in s.dead)
    requires For(Removed(c, s, step.op, WHOLE), url) ==> live
    requires step.op.Schedule? ==> !IsVideo(step.op.url)
    ensures ExactlyOne(LiveAfter(c, s, step.op, WHOLE, url, live), acked || Acks(s, step, url),
      url in Do(c, s, step.op, WHOLE).dead)
  {
    match step.op {
      case AdmitVideo(_, _) => VideoAdmit(c, s, step, url, live, acked);
      case AdmitListing(_, _) => VideoAdmit(c, s, step, url, live, acked);
      case Schedule(_, _) => VideoAdmit(c, s, step, url, live, acked);
      case Ack(_) => VideoSettle(c, s, step, url, live, acked);
      case Complete(_, _, _) => VideoSettle(c, s, step, url, live, acked);
      case Terminal(_, _, _) => VideoSettle(c, s, step, url, live, acked);
      case Fail(_, _, _) => VideoFail(c, s, step, url, live, acked);
      case SeedListing(_) =>
      case _ => VideoMove(c, s, step, url, live, acked);
    }
  }

  lemma VideoStep(c: Config, s: Store, step: Step, url: string, acked: bool)
    requires c.Valid() && Strong(c, s) && Legal(c, s, step.op) && step.cut == WHOLE && IsVideo(url)
    requires InOnePlace(c, s, url, acked)
    ensures InOnePlace(c, Do(c, s, step.op, step.cut), url, acked || Acks(s, step, url))
  {
    assert Row(c, s, url, UrlLive(s, url));
    if step.op.Schedule? { assert Row(c, s, step.op.url, UrlLive(s, step.op.url)); }
    UrlLedger(c, s, step.op, WHOLE, url);
    VideoTables(c, s, step, url, UrlLive(s, url), acked);
    BitsGrow(c, s, step);
  }

  lemma NewIsInOnePlace(c: Config, s: Store, step: Step, url: string)
    requires c.Valid() && Strong(c, s) && Legal(c, s, step.op) && step.cut == WHOLE
    requires AdmitsNew(c, s, step, url)
    ensures InOnePlace(c, Do(c, s, step.op, step.cut), url, false)
  {
    UrlLedger(c, s, step.op, WHOLE, url);
  }

  lemma VideoStepAt(c: Config, run: seq<Step>, tr: seq<Store>, url: string, k: nat, acked: bool)
    requires c.Valid() && Execution(c, run, tr) && Atomic(run) && tr[0] == EMPTY
    requires k < |run| && IsVideo(url) && InOnePlace(c, tr[k], url, acked)
    ensures InOnePlace(c, tr[k + 1], url, acked || Acks(tr[k], run[k], url))
  {
    EmptyIsStrong(c);
    RunKeepsStrong(c, run, tr, k);
    VideoStep(c, tr[k], run[k], url, acked);
  }

  lemma NewIsInOnePlaceAt(c: Config, run: seq<Step>, tr: seq<Store>, url: string, i: nat)
    requires c.Valid() && Execution(c, run, tr) && Atomic(run) && tr[0] == EMPTY
    requires i < |run| && AdmitsNew(c, tr[i], run[i], url)
    ensures InOnePlace(c, tr[i + 1], url, false)
  {
    EmptyIsStrong(c);
    RunKeepsStrong(c, run, tr, i);
    NewIsInOnePlace(c, tr[i], run[i], url);
  }

  // From its admission on, a video has a live job, was acked, or is dead: exactly one.
  lemma {:induction false} VideoConservation(c: Config, run: seq<Step>, tr: seq<Store>, url: string, i: nat, j: nat)
    requires c.Valid() && Execution(c, run, tr) && Atomic(run) && tr[0] == EMPTY
    requires i < j <= |run| && IsVideo(url) && AdmitsNew(c, tr[i], run[i], url)
    ensures InOnePlace(c, tr[j], url, AckedBetween(run, tr, url, i + 1, j))
    decreases j
  {
    if j == i + 1 {
      NewIsInOnePlaceAt(c, run, tr, url, i);
    } else {
      VideoConservation(c, run, tr, url, i, j - 1);
      VideoStepAt(c, run, tr, url, j - 1, AckedBetween(run, tr, url, i + 1, j - 1));
    }
  }

  // A live job sits in exactly one of ready, processing and delayed.
  lemma OneContainer(s: Store, m: Member)
    requires Queue(s) && IsLive(s, m)
    ensures ExactlyOne(m in s.ready, m in s.processing, m in s.delayed)
  {
    if m in s.ready { ReadyElsewhere(s, m); }
    if m in s.delayed { DelayedElsewhere(s, m); }
  }

  lemma DeadStep(c: Config, s: Store, step: Step, url: string)
    requires c.Valid() && Legal(c, s, step.op) && IsVideo(url) && url in s.dead && s.dead[url].until == 0
    requires step.op.Schedule? ==> !IsVideo(step.op.url)
    ensures url in Do(c, s, step.op, step.cut).dead
  {
    if Moves(step.op) {
      MovesKeepTables(c, s, step.op, step.cut);
    } else if step.op.AdmitVideo? || step.op.AdmitListing? || step.op.SeedListing? || step.op.Schedule? {
      DeadAdmission(c, s, step, url);
    } else {
      match step.op {
        case Complete(_, _, _) =>
        case Fail(_, _, _) =>
        case Ack(_) =>
        case Terminal(_, _, _) =>
      }
    }
  }

  lemma DeadAdmission(c: Config, s: Store, step: Step, url: string)
    requires c.Valid() && Legal(c, s, step.op) && IsVideo(url) && url in s.dead && s.dead[url].until == 0
    requires step.op.AdmitVideo? || step.op.AdmitListing? || step.op.SeedListing? || step.op.Schedule?
    requires step.op.Schedule? ==> !IsVideo(step.op.url)
    ensures url in Do(c, s, step.op, step.cut).dead
  {
    match step.op {
      case AdmitVideo(_, _) =>
      case AdmitListing(_, _) =>
      case SeedListing(_) =>
      case Schedule(_, _) =>
    }
  }

  // Even scripts that break off leave a dead video dead.
  lemma {:induction false} StaysDead(c: Config, run: seq<Step>, tr: seq<Store>, url: string, i: nat, j: nat)
    requires c.Valid() && Execution(c, run, tr) && NoLoss.Weak(tr[0])
    requires i <= j <= |run| && IsVideo(url) && url in tr[i].dead
    ensures url in tr[j].dead
    decreases j
  {
    if i < j {
      StaysDead(c, run, tr, url, i, j - 1);
      NoLoss.RunKeepsWeak(c, run, tr, j - 1);
      var s, op := tr[j - 1], run[j - 1].op;
      assert NoLoss.RowSound(s, url) && (op.Schedule? ==> NoLoss.RowSound(s, op.url));
      DeadStep(c, s, run[j - 1], url);
    }
  }

  // A dead video stays dead, and is never live again.
  lemma DeadForever(c: Config, run: seq<Step>, tr: seq<Store>, url: string, i: nat, j: nat)
    requires c.Valid() && Execution(c, run, tr) && Atomic(run) && tr[0] == EMPTY
    requires i <= j <= |run| && IsVideo(url) && url in tr[i].dead
    ensures url in tr[j].dead && forall m | IsLive(tr[j], m) :: m.url != url
  {
    StaysDead(c, run, tr, url, i, j);
    forall m | IsLive(tr[j], m) ensures m.url != url {
      LiveIsNotDead(c, run, tr, j, m);
    }
  }

  // --- quarantine ---

  // A listing dead until `until`: dated for then, and without a job.
  ghost predicate Quarantined(s: Store, url: string, until: int) {
    && url in s.dead && s.dead[url].until == until
    && url in s.next && s.next[url] == until
    && !UrlLive(s, url)
  }

  predicate ComesBefore(op: Op, url: string, until: int) {
    (op.AdmitListing? || op.Schedule?) && op.url == url ==> op.now < until
  }

  lemma QuarantineStep(c: Config, s: Store, op: Op, url: string, until: int)
    requires c.Valid() && Strong(c, s) && Legal(c, s, op) && !IsVideo(url)
    requires Quarantined(s, url, until) && ComesBefore(op, url, until)
    ensures Quarantined(Do(c, s, op, WHOLE), url, until)
  {
    UrlLedger(c, s, op, WHOLE, url);
    assert Row(c, s, url, UrlLive(s, url));
    QuarantineTables(c, s, op, url, until);
  }

  lemma QuarantineSettles(c: Config, s: Store, op: Op, url: string, until: int)
    requires c.Valid() && Legal(c, s, op) && !IsVideo(url) && ComesBefore(op, url, until)
    requires url in s.dead && s.dead[url].until == until && url in s.next && s.next[url] == until
    requires until != 0 && !For(Removed(c, s, op, WHOLE), url)
    requires op.Ack? || op.Complete? || op.Fail? || op.Terminal?
    ensures var t := Do(c, s, op, WHOLE);
      url in t.dead && t.dead[url].until == until && url in t.next && t.next[url] == until
    ensures !LiveAfter(c, s, op, WHOLE, url, false)
  {
    match op {
      case Ack(_) =>
      case Complete(_, _, _) =>
      case Fail(_, _, _) =>
      case Terminal(_, _, _) =>
    }
  }

  lemma QuarantineBlocks(c: Config, s: Store, op: Op, url: string, until: int)
    requires c.Valid() && ComesBefore(op, url, until) && op.AdmitListing?
    requires url in s.dead && s.dead[url].until == until && url in s.next && s.next[url] == until
    ensures var t := AdmitListingScript(s, op.url, op.now, WHOLE);
      url in t.dead && t.dead[url].until == until && url in t.next && t.next[url] == until
    ensures !For(Added(c, s, op, WHOLE), url)
  {
    assert op.url == url ==> Blocked(s, url, op.now);
  }

  lemma QuarantineBlocksSchedule(c: Config, s: Store, op: Op, url: string, until: int)
    requires c.Valid() && ComesBefore(op, url, until) && op.Schedule? && until != 0
    requires url in s.dead && s.dead[url].until == until && url in s.next && s.next[url] == until
    ensures var t := ScheduleScript(s, op.url, op.now, WHOLE);
      url in t.dead && t.dead[url].until == until && url in t.next && t.next[url] == until
    ensures !For(Added(c, s, op, WHOLE), url)
  {
    assert op.url == url ==> Blocked(s, url, op.now);
  }

  lemma QuarantineIgnores(c: Config, s: Store, op: Op, url: string, until: int)
    requires c.Valid() && Legal(c, s, op) && !IsVideo(url) && ComesBefore(op, url, until)
    requires url in s.dead && s.dead[url].until == until && url in s.next && s.next[url] == until
    requires until != 0 && (op.AdmitVideo? || op.SeedListing?)
    ensures var t := Do(c, s, op, WHOLE);
      url in t.dead && t.dead[url].until == until && url in t.next && t.next[url] == until
    ensures !LiveAfter(c, s, op, WHOLE, url, false)
  {
  }

  lemma QuarantineTables(c: Config, s: Store, op: Op, url: string, until: int)
    requires c.Valid() && Legal(c, s, op) && !IsVideo(url) && ComesBefore(op, url, until)
    requires url in s.dead && s.dead[url].until == until && url in s.next && s.next[url] == until
    requires until != 0 && !For(Removed(c, s, op, WHOLE), url)
    ensures var t := Do(c, s, op, WHOLE);
      url in t.dead && t.dead[url].until == until && url in t.next && t.next[url] == until
    ensures !LiveAfter(c, s, op, WHOLE, url, false)
  {
    match op {
      case Ack(_) => QuarantineSettles(c, s, op, url, until);
      case Complete(_, _, _) => QuarantineSettles(c, s, op, url, until);
      case Fail(_, _, _) => QuarantineSettles(c, s, op, url, until);
      case Terminal(_, _, _) => QuarantineSettles(c, s, op, url, until);
      case AdmitListing(_, _) => QuarantineBlocks(c, s, op, url, until);
      case Schedule(_, _) => QuarantineBlocksSchedule(c, s, op, url, until);
      case AdmitVideo(_, _) => QuarantineIgnores(c, s, op, url, until);
      case SeedListing(_) => QuarantineIgnores(c, s, op, url, until);
      case _ => MovesKeepTables(c, s, op, WHOLE);
    }
  }

  // A quarantined listing stays put until an admission or scheduling at `until` or later.
  lemma {:induction false} QuarantineHolds(c: Config, run: seq<Step>, tr: seq<Store>, url: string, until: int, i: nat)
    requires c.Valid() && Execution(c, run, tr) && Atomic(run) && Strong(c, tr[0]) && i <= |run|
    requires !IsVideo(url) && url in tr[0].dead && tr[0].dead[url].until == until
    requires forall k | 0 <= k < i :: ComesBefore(run[k].op, url, until)
    ensures Quarantined(tr[i], url, until)
  {
    if i == 0 {
      assert Row(c, tr[0], url, UrlLive(tr[0], url));
    } else {
      QuarantineHolds(c, run, tr, url, until, i - 1);
      RunKeepsStrong(c, run, tr, i - 1);
      QuarantineStep(c, tr[i - 1], run[i - 1].op, url, until);
    }
  }

  // The first admission or scheduling at `until` or later ends it with a ready job.
  lemma QuarantineEnds(c: Config, s: Store, op: Op)
    requires c.Valid() && Strong(c, s) && Legal(c, s, op) && (op.AdmitListing? || op.Schedule?)
    requires op.url in s.dead && s.dead[op.url].until <= op.now
    ensures Answer(c, s, op) == if op.AdmitListing? then DueRevisit else New
    ensures var t := Do(c, s, op, WHOLE); op.url !in t.dead && t.ready == [Fresh(s, op.url)] + s.ready
  {
    assert Row(c, s, op.url, UrlLive(s, op.url));
    if op.Schedule? { assert !IsVideo(op.url); }
  }

  // --- no early retry ---

  predicate Waiting(s: Store, job: Member, due: int) { job in s.delayed && s.delayed[job] == due }

  lemma WaitingStep(c: Config, s: Store, op: Op, cut: nat, job: Member, due: int)
    requires c.Valid() && Legal(c, s, op) && Waiting(s, job, due) && job.id <= s.lastId
    requires op.Promote? ==> op.now < due
    ensures Waiting(Do(c, s, op, cut), job, due)
  {
    match op {
      case Fail(_, _, _) =>
      case Promote(_, _) =>
      case _ =>
    }
  }

  // Scripts broken off or not, a delayed job stays delayed while the promoter's clocks
  // are below its date.
  lemma {:induction false} StaysDelayed(c: Config, run: seq<Step>, tr: seq<Store>, job: Member, due: int, i: nat)
    requires c.Valid() && Execution(c, run, tr) && Queue(tr[0]) && i <= |run|
    requires Waiting(tr[0], job, due)
    requires forall k | 0 <= k < i :: run[k].op.Promote? ==> run[k].op.now < due
    ensures Waiting(tr[i], job, due)
  {
    if i > 0 {
      StaysDelayed(c, run, tr, job, due, i - 1);
      RunKeepsQueue(c, run, tr, i - 1);
      WaitingStep(c, tr[i - 1], run[i - 1].op, run[i - 1].cut, job, due);
    }
  }

  lemma FailedWaits(c: Config, s: Store, fail: Op)
    requires c.Valid() && fail.Fail? && Answer(c, s, fail) == Delayed
    ensures var ladder := if fail.strike then c.strikeBackoff else c.rateLimitBackoff;
      var failures := Count(s.attempts, fail.job.url);
      var rung := if failures < |ladder| then failures else |ladder| - 1;
      Waiting(Do(c, s, fail, WHOLE), Fresh(s, fail.job.url), fail.now + ladder[rung])
  {
  }

  // A URL whose one job is delayed is neither ready nor leased.
  lemma OnlyDelayed(s: Store, job: Member, due: int)
    requires Queue(s) && OneEach(s) && Waiting(s, job, due)
    ensures forall m | m in s.ready || m in s.processing || m in s.lease :: m.url != job.url
  {
    DelayedElsewhere(s, job);
    forall m | m in s.ready || m in s.processing || m in s.lease ensures m.url != job.url {
      assert IsLive(s, m) && IsLive(s, job);
    }
  }

  // After a failure at `now` with backoff b the URL's only job is delayed until now + b:
  // while the promoter's clocks are below that, nothing makes it ready or leases it,
  // though scripts break off anywhere but where they duplicate jobs.
  lemma NoEarlyRetry(c: Config, s: Store, fail: Op, due: int, run: seq<Step>, tr: seq<Store>, i: nat)
    requires c.Valid() && Single(c, s) && Legal(c, s, fail) && fail.Fail? && Answer(c, s, fail) == Delayed
    requires Execution(c, run, tr) && Avoids(c, run, tr) && tr[0] == Do(c, s, fail, WHOLE) && i <= |run|
    requires var ladder := if fail.strike then c.strikeBackoff else c.rateLimitBackoff;
      var failures := Count(s.attempts, fail.job.url);
      var rung := if failures < |ladder| then failures else |ladder| - 1;
      due == fail.now + ladder[rung]
    requires forall k | 0 <= k < i :: run[k].op.Promote? ==> run[k].op.now < due
    ensures Waiting(tr[i], Fresh(s, fail.job.url), due)
    ensures forall m | m in tr[i].ready || m in tr[i].processing || m in tr[i].lease :: m.url != fail.job.url
  {
    var job := Fresh(s, fail.job.url);
    KeepsSingle(c, s, fail, WHOLE);
    FailedWaits(c, s, fail);
    StaysDelayed(c, run, tr, job, due, i);
    RunKeepsSingle(c, run, tr, i);
    OnlyDelayed(tr[i], job, due);
  }

  lemma ReachableIsSingle(c: Config, run: seq<Step>, tr: seq<Store>, i: nat)
    requires c.Valid() && Execution(c, run, tr) && Atomic(run) && tr[0] == EMPTY && i <= |run|
    ensures Single(c, tr[i])
  {
    EmptyIsSingle(c);
    AtomicAvoids(c, run, tr);
    RunKeepsSingle(c, run, tr, i);
  }

  // Where no script broke off before the failure, the rung is the number of the URL's
  // failures since its last success or verdict.
  lemma NoEarlyRetryOverRuns(
      c: Config, past: seq<Step>, before: seq<Store>, fail: Op, due: int, run: seq<Step>, tr: seq<Store>, i: nat)
    requires c.Valid() && Execution(c, past, before) && Atomic(past) && before[0] == EMPTY
    requires var s := before[|past|];
      && Legal(c, s, fail) && fail.Fail? && Answer(c, s, fail) == Delayed
      && Execution(c, run, tr) && Avoids(c, run, tr) && tr[0] == Do(c, s, fail, WHOLE) && i <= |run|
    requires var failures := Accounting.FailuresSince(c, past, before, fail.job.url, false, |past|);
      var ladder := if fail.strike then c.strikeBackoff else c.rateLimitBackoff;
      due == fail.now + ladder[if failures < |ladder| then failures else |ladder| - 1]
    requires forall k | 0 <= k < i :: run[k].op.Promote? ==> run[k].op.now < due
    ensures Waiting(tr[i], Fresh(before[|past|], fail.job.url), due)
    ensures forall m | m in tr[i].ready || m in tr[i].processing || m in tr[i].lease :: m.url != fail.job.url
  {
    ReachableIsSingle(c, past, before, |past|);
    Accounting.StrikeAccounting(c, past, before, fail.job.url, |past|);
    NoEarlyRetry(c, before[|past|], fail, due, run, tr, i);
  }
}
