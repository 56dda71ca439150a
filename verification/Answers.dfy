/** What the admission of a listing answers, read off the run: whether anything before
    gave the listing an entry in listing:next (internal/storage/frontier.go). */
module Answers {
  import opened Canonical
  import opened Keyspace
  import opened Scripts
  import opened NoLoss
  import opened Exclusive
  import opened JobQueue
  import Guarantees

  // The listing may not be started at `now`: a verdict stands, or its date is to come.
  predicate Shut(s: Store, url: string, now: int) {
    || (url in s.dead && (s.dead[url].until == 0 || s.dead[url].until > now))
    || (url in s.next && s.next[url] > now)
  }

  // The step gets as far as writing the listing's entry: it seeds or admits the listing,
  // or resolves a job of it with a date.
  predicate Enters(c: Config, s: Store, step: Step, url: string) {
    match step.op
    case SeedListing(u) => u == url && step.cut >= 1
    case AdmitListing(u, now) => u == url && step.cut >= 4 && !Shut(s, url, now)
    case Complete(job, _, _) => job in s.lease && job.url == url && step.cut >= 3
    case Terminal(job, _, until) => job in s.lease && job.url == url && step.cut >= 2 && until > 0
    case Fail(job, strike, _) =>
      job in s.lease && job.url == url && step.cut >= 4 && strike && Count(s.strikes, url) + 1 >= c.maxStrikes
    case _ => false
  }

  // One of the run's first i steps did.
  ghost predicate Entered(c: Config, run: seq<Step>, tr: seq<Store>, url: string, i: nat)
    requires i <= |run| <= |tr|
  {
    exists k {:trigger run[k]} :: 0 <= k < i && Enters(c, tr[k], run[k], url)
  }

  lemma SettleEnters(c: Config, s: Store, step: Step, url: string)
    requires c.Valid() && Legal(c, s, step.op) && !IsVideo(url)
    requires step.op.Ack? || step.op.Complete? || step.op.Terminal?
    ensures url in Do(c, s, step.op, step.cut).next <==> url in s.next || Enters(c, s, step, url)
  {
    match step.op {
      case Ack(_) =>
      case Complete(_, _, _) =>
      case Terminal(_, _, _) =>
    }
  }

  lemma FailEnters(c: Config, s: Store, step: Step, url: string)
    requires c.Valid() && Legal(c, s, step.op) && !IsVideo(url) && step.op.Fail?
    ensures url in Do(c, s, step.op, step.cut).next <==> url in s.next || Enters(c, s, step, url)
  {
    if step.op.job in s.lease {
      FailDates(c, s, step.op.job, step.op.strike, step.op.now, step.cut);
    }
  }

  // The entries luaFail leaves.
  lemma FailDates(c: Config, s: Store, job: Member, strike: bool, now: int, cut: nat)
    requires c.Valid()
    ensures FailScript(c, s, job, strike, now, cut).next ==
      if !StruckOut(c, s, job.url, strike) || cut < 4 || Deadline(c, job.url, now) <= 0 then s.next
      else s.next[job.url := Deadline(c, job.url, now)]
  {
  }

  lemma ScheduleEnters(c: Config, s: Store, step: Step, url: string)
    requires c.Valid() && Legal(c, s, step.op) && step.op.Schedule? && RowSound(s, step.op.url)
    ensures url in Do(c, s, step.op, step.cut).next <==> url in s.next
  {
  }

  lemma AdmissionEnters(c: Config, s: Store, step: Step, url: string)
    requires c.Valid() && (step.op.AdmitVideo? || step.op.AdmitListing? || step.op.SeedListing?)
    ensures url in Do(c, s, step.op, step.cut).next <==> url in s.next || Enters(c, s, step, url)
  {
    match step.op {
      case AdmitVideo(_, _) =>
      case AdmitListing(_, _) =>
      case SeedListing(_) =>
    }
  }

  lemma EntersStep(c: Config, s: Store, step: Step, url: string)
    requires c.Valid() && Weak(s) && Legal(c, s, step.op) && !IsVideo(url)
    ensures url in Do(c, s, step.op, step.cut).next <==> url in s.next || Enters(c, s, step, url)
  {
    if Moves(step.op) {
      MovesKeepTables(c, s, step.op, step.cut);
    } else if step.op.Schedule? {
      assert RowSound(s, step.op.url);
      ScheduleEnters(c, s, step, url);
    } else if step.op.Fail? {
      FailEnters(c, s, step, url);
    } else if step.op.Ack? || step.op.Complete? || step.op.Terminal? {
      SettleEnters(c, s, step, url);
    } else {
      AdmissionEnters(c, s, step, url);
    }
  }

  lemma EnteredNext(c: Config, run: seq<Step>, tr: seq<Store>, url: string, i: nat)
    requires i < |run| <= |tr|
    ensures Entered(c, run, tr, url, i + 1) <==> Entered(c, run, tr, url, i) || Enters(c, tr[i], run[i], url)
  {
  }

  lemma EntersAt(c: Config, run: seq<Step>, tr: seq<Store>, url: string, i: nat)
    requires c.Valid() && Execution(c, run, tr) && tr[0] == EMPTY && i < |run| && !IsVideo(url)
    ensures url in tr[i + 1].next <==> url in tr[i].next || Enters(c, tr[i], run[i], url)
  {
    EmptyIsWeak();
    RunKeepsWeak(c, run, tr, i);
    EntersStep(c, tr[i], run[i], url);
  }

  // A listing has an entry exactly when some step wrote one; entries are never lost.
  lemma {:induction false} EntryIff(c: Config, run: seq<Step>, tr: seq<Store>, url: string, i: nat)
    requires c.Valid() && Execution(c, run, tr) && tr[0] == EMPTY && i <= |run| && !IsVideo(url)
    ensures url in tr[i].next <==> Entered(c, run, tr, url, i)
  {
    if i > 0 {
      var j: nat := i - 1;
      EntryIff(c, run, tr, url, j);
      EntersAt(c, run, tr, url, j);
      EnteredNext(c, run, tr, url, j);
      assert i == j + 1;
    }
  }

  lemma AdmissionAnswers(c: Config, s: Store, url: string, now: int, cut: nat)
    ensures var reply := ReplyOf(c, s, AdmitListing(url, now), cut);
      && (cut == WHOLE ==> reply != Error)
      && (reply != Error ==>
            reply == if Shut(s, url, now) then Suppressed else if url in s.next then DueRevisit else New)
  {
  }

  // Breaks included, an admission that answers is Suppressed exactly when the listing may
  // not be started, New when it may and no step before gave it an entry, and DueRevisit
  // when it may and one did.
  lemma ListingAnswers(c: Config, run: seq<Step>, tr: seq<Store>, i: nat)
    requires c.Valid() && Execution(c, run, tr) && tr[0] == EMPTY && i < |run| && run[i].op.AdmitListing?
    ensures var url, now, reply := run[i].op.url, run[i].op.now, ReplyOf(c, tr[i], run[i].op, run[i].cut);
      && (run[i].cut == WHOLE ==> reply != Error)
      && (reply != Error ==>
            && (reply == Suppressed <==> Shut(tr[i], url, now))
            && (reply == New <==> !Shut(tr[i], url, now) && !Entered(c, run, tr, url, i))
            && (reply == DueRevisit <==> !Shut(tr[i], url, now) && Entered(c, run, tr, url, i)))
  {
    assert Legal(c, tr[i], run[i].op);
    EntryIff(c, run, tr, run[i].op.url, i);
    AdmissionAnswers(c, tr[i], run[i].op.url, run[i].op.now, run[i].cut);
  }

  predicate AdmitsNew(c: Config, s: Store, step: Step, url: string) {
    step.op.AdmitListing? && step.op.url == url && ReplyOf(c, s, step.op, step.cut) == New
  }

  // So over any run a listing is answered New at most once.
  lemma ListingNewAtMostOnce(c: Config, run: seq<Step>, tr: seq<Store>, url: string, i: nat, j: nat)
    requires c.Valid() && Execution(c, run, tr) && tr[0] == EMPTY && i < j < |run|
    requires AdmitsNew(c, tr[i], run[i], url)
    ensures !AdmitsNew(c, tr[j], run[j], url)
  {
    AdmissionAnswers(c, tr[i], url, run[i].op.now, run[i].cut);
    assert Enters(c, tr[i], run[i], url);
    if AdmitsNew(c, tr[j], run[j], url) { ListingAnswers(c, run, tr, j); }
  }

  // --- without breaks ---

  // A seeding of the listing, or its admission as New.
  predicate Introduces(c: Config, s: Store, step: Step, url: string) {
    step.op == SeedListing(url) || AdmitsNew(c, s, step, url)
  }

  ghost predicate Introduced(c: Config, run: seq<Step>, tr: seq<Store>, url: string, i: nat)
    requires i <= |run| <= |tr|
  {
    exists k {:trigger run[k]} :: 0 <= k < i && Introduces(c, tr[k], run[k], url)
  }

  // Only those give a listing its first entry: whatever is resolved has one.
  lemma FirstEntry(c: Config, s: Store, step: Step, url: string)
    requires c.Valid() && Strong(c, s) && Legal(c, s, step.op) && step.cut == WHOLE && !IsVideo(url)
    requires Introduces(c, s, step, url) || (Enters(c, s, step, url) && url !in s.next)
    ensures Enters(c, s, step, url) && Introduces(c, s, step, url)
  {
    if step.op.AdmitListing? {
      AdmissionAnswers(c, s, step.op.url, step.op.now, WHOLE);
    } else if (step.op.Complete? || step.op.Terminal? || step.op.Fail?) &&
        step.op.job in s.lease && step.op.job.url == url {
      LeasedHasEntry(c, s, step.op.job);
    }
  }

  lemma LeasedHasEntry(c: Config, s: Store, job: Member)
    requires Strong(c, s) && job in s.lease && !IsVideo(job.url)
    ensures job.url in s.next
  {
    assert IsLive(s, job);
    assert Row(c, s, job.url, UrlLive(s, job.url));
  }

  lemma FirstEntryAt(c: Config, run: seq<Step>, tr: seq<Store>, url: string, i: nat)
    requires c.Valid() && Execution(c, run, tr) && Atomic(run) && tr[0] == EMPTY && i < |run| && !IsVideo(url)
    ensures Introduces(c, tr[i], run[i], url) ==> Enters(c, tr[i], run[i], url)
    ensures Enters(c, tr[i], run[i], url) && url !in tr[i].next ==> Introduces(c, tr[i], run[i], url)
  {
    Guarantees.EmptyIsStrong(c);
    RunKeepsStrong(c, run, tr, i);
    if Introduces(c, tr[i], run[i], url) || (Enters(c, tr[i], run[i], url) && url !in tr[i].next) {
      FirstEntry(c, tr[i], run[i], url);
    }
  }

  lemma IntroducedNext(c: Config, run: seq<Step>, tr: seq<Store>, url: string, i: nat)
    requires i < |run| <= |tr|
    ensures Introduced(c, run, tr, url, i + 1) <==> Introduced(c, run, tr, url, i) || Introduces(c, tr[i], run[i], url)
  {
  }

  lemma {:induction false} IntroducedIff(c: Config, run: seq<Step>, tr: seq<Store>, url: string, i: nat)
    requires c.Valid() && Execution(c, run, tr) && Atomic(run) && tr[0] == EMPTY && i <= |run| && !IsVideo(url)
    ensures Entered(c, run, tr, url, i) <==> Introduced(c, run, tr, url, i)
  {
    if i > 0 {
      var j: nat := i - 1;
      IntroducedIff(c, run, tr, url, j);
      EntryIff(c, run, tr, url, j);
      FirstEntryAt(c, run, tr, url, j);
      EnteredNext(c, run, tr, url, j);
      IntroducedNext(c, run, tr, url, j);
      assert i == j + 1;
    }
  }

  // Without breaks a listing's admission is New exactly when it may be started and was
  // neither seeded nor answered New before.
  lemma NewIffUnheardOf(c: Config, run: seq<Step>, tr: seq<Store>, i: nat)
    requires c.Valid() && Execution(c, run, tr) && Atomic(run) && tr[0] == EMPTY
    requires i < |run| && run[i].op.AdmitListing?
    ensures var url := run[i].op.url;
      AdmitsNew(c, tr[i], run[i], url) <==>
        !Shut(tr[i], url, run[i].op.now) && !Introduced(c, run, tr, url, i)
  {
    assert Legal(c, tr[i], run[i].op);
    ListingAnswers(c, run, tr, i);
    IntroducedIff(c, run, tr, run[i].op.url, i);
  }
}
