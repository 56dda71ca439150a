/** What every script keeps at every one of its writes, atomic or not: job ids are
    minted in order, ready and processing form one queue, and a lease belongs to a
    processing job. From that: first in first out, fencing and the lease window. */
module JobQueue {
  import opened Text
  import opened Keyspace
  import opened Scripts

  ghost predicate Queue(s: Store) {
    Sound(s.lastId, s.ready, s.processing, s.delayed.Keys, s.lease.Keys)
  }

  ghost predicate Sound(lastId: nat, ready: seq<Member>, processing: seq<Member>,
                        delayed: set<Member>, leased: set<Member>) {
    && Descending(ready + processing, lastId + 1)
    && Apart(lastId, ready + processing, delayed)
    && Held(leased, processing)
  }

  ghost predicate Apart(lastId: nat, q: seq<Member>, delayed: set<Member>) {
    && (forall m | m in delayed :: m.id <= lastId && !HasId(q, m.id))
    && (forall m, n | m in delayed && n in delayed && m.id == n.id :: m == n)
  }

  ghost predicate Held(leased: set<Member>, processing: seq<Member>) {
    forall m | m in leased :: m in processing
  }

  // --- the ledger: every script moves at most one job ---

  // The member the first `cut` writes of the script have added.
  function Added(c: Config, s: Store, op: Op, cut: nat): Option<Member> {
    match op
    case AdmitVideo(url, now) =>
      if Blocked(s, url, now) || cut < 3 || (cut >= 5 && Positive(c, s, url)) then None
      else Some(Fresh(s, url))
    case AdmitListing(url, now) =>
      if Blocked(s, url, now) || NotDue(s, url, now) || cut < 3 then None
      else Some(Fresh(s, url))
    case Schedule(url, now) =>
      if Blocked(s, url, now) || cut < 3 then None else Some(Fresh(s, url))
    case Nack(job) => if job !in s.lease || cut < 3 then None else Some(Fresh(s, job.url))
    case Reap(job, _) => if job !in s.lease || cut < 3 then None else Some(Fresh(s, job.url))
    case Sweep(job) => if job in s.lease || cut < 3 then None else Some(Fresh(s, job.url))
    case Promote(job, _) => if cut < 2 then None else Some(Fresh(s, job.url))
    case Fail(job, strike, _) =>
      if job !in s.lease || StruckOut(c, s, job.url, strike) || cut < 5 then None
      else Some(Fresh(s, job.url))
    case _ => None
  }

  // The member the first `cut` writes of the script have taken away.
  function Removed(c: Config, s: Store, op: Op, cut: nat): Option<Member> {
    match op
    case Ack(job) => if job !in s.lease || cut < 2 then None else Some(job)
    case Complete(job, _, _) => if job !in s.lease || cut < 5 then None else Some(job)
    case Nack(job) => if job !in s.lease || cut < 4 then None else Some(job)
    case Reap(job, _) => if job !in s.lease || cut < 4 then None else Some(job)
    case Sweep(job) => if job in s.lease || cut < 4 then None else Some(job)
    case Fail(job, _, _) => if job !in s.lease || cut < 6 then None else Some(job)
    case Terminal(job, _, _) => if job !in s.lease || cut < 4 then None else Some(job)
    case Promote(job, _) => if cut < 3 then None else Some(job)
    case _ => None
  }

  // Is this the URL of the member, if there is one?
  predicate For(m: Option<Member>, url: string) { m.Some? && m.value.url == url }

  // --- the queue under single moves ---

  lemma SoundMint(lastId: nat, ready: seq<Member>, processing: seq<Member>, delayed: set<Member>, leased: set<Member>)
    requires Sound(lastId, ready, processing, delayed, leased)
    ensures Sound(lastId + 1, ready, processing, delayed, leased)
  {
  }

  lemma SoundPush(lastId: nat, ready: seq<Member>, processing: seq<Member>,
                  delayed: set<Member>, leased: set<Member>, url: string)
    requires Sound(lastId, ready, processing, delayed, leased)
    ensures Sound(lastId + 1, [Member(lastId + 1, url)] + ready, processing, delayed, leased)
  {
    var item := Member(lastId + 1, url);
    var q := ready + processing;
    assert [item] + ready + processing == [item] + q;
    assert ([item] + q)[1..] == q;
  }

  lemma SoundDrop(lastId: nat, ready: seq<Member>, processing: seq<Member>,
                  delayed: set<Member>, leased: set<Member>, job: Member)
    requires Sound(lastId, ready, processing, delayed, leased) && job in processing
    ensures Sound(lastId, ready, Remove(processing, job), delayed, leased - {job})
    ensures job !in ready && job !in delayed
    ensures forall m :: m in Remove(processing, job) <==> m in processing && m != job
  {
    var q := ready + processing;
    DescendingIds(q, lastId + 1);
    var k :| 0 <= k < |processing| && processing[k] == job;
    assert q[|ready| + k] == job;
    assert forall i | 0 <= i < |ready| :: q[i] == ready[i];
    DescendingDrop(ready, processing, lastId + 1, job);
    RemoveDescending(processing, lastId + 1, job);
  }

  lemma SoundUnlease(lastId: nat, ready: seq<Member>, processing: seq<Member>,
                     delayed: set<Member>, leased: set<Member>, job: Member)
    requires Sound(lastId, ready, processing, delayed, leased)
    ensures Sound(lastId, ready, processing, delayed, leased - {job})
  {
  }

  lemma SoundDelay(lastId: nat, ready: seq<Member>, processing: seq<Member>,
                   delayed: set<Member>, leased: set<Member>, url: string)
    requires Sound(lastId, ready, processing, delayed, leased)
    ensures Sound(lastId + 1, ready, processing, delayed + {Member(lastId + 1, url)}, leased)
  {
    DescendingIds(ready + processing, lastId + 1);
  }

  lemma SoundUndelay(lastId: nat, ready: seq<Member>, processing: seq<Member>,
                     delayed: set<Member>, leased: set<Member>, job: Member)
    requires Sound(lastId, ready, processing, delayed, leased)
    ensures Sound(lastId, ready, processing, delayed - {job}, leased)
  {
  }

  lemma SoundLease(lastId: nat, ready: seq<Member>, processing: seq<Member>,
                   delayed: set<Member>, leased: set<Member>, item: Member)
    requires Sound(lastId, ready + [item], processing, delayed, leased)
    ensures Sound(lastId, ready, [item] + processing, delayed, leased)
    ensures Sound(lastId, ready, [item] + processing, delayed, leased + {item})
  {
    assert ready + [item] + processing == ready + ([item] + processing);
  }

  // --- the queue under whole and broken-off scripts ---

  // t is s with job unleased and, perhaps, off the processing list.
  lemma SettleKeepsQueue(s: Store, t: Store, job: Member)
    requires Queue(s) && job in s.lease
    requires t.lastId == s.lastId && t.ready == s.ready && t.delayed == s.delayed
    requires t.lease == s.lease - {job}
    requires t.processing == s.processing || t.processing == Remove(s.processing, job)
    ensures Queue(t)
  {
    SoundUnlease(s.lastId, s.ready, s.processing, s.delayed.Keys, s.lease.Keys, job);
    SoundDrop(s.lastId, s.ready, s.processing, s.delayed.Keys, s.lease.Keys, job);
    assert t.lease.Keys == s.lease.Keys - {job};
  }

  lemma RequeueTail(s: Store, job: Member)
    requires Queue(s) && job in s.processing
    ensures var ready := [Fresh(s, job.url)] + s.ready; var leased := s.lease.Keys - {job};
      && Sound(s.lastId + 1, ready, s.processing, s.delayed.Keys, leased)
      && Sound(s.lastId + 1, ready, Remove(s.processing, job), s.delayed.Keys, leased)
  {
    var leased := s.lease.Keys - {job};
    SoundUnlease(s.lastId, s.ready, s.processing, s.delayed.Keys, s.lease.Keys, job);
    SoundPush(s.lastId, s.ready, s.processing, s.delayed.Keys, leased, job.url);
    SoundDrop(s.lastId + 1, [Fresh(s, job.url)] + s.ready, s.processing, s.delayed.Keys, leased, job);
    assert leased - {job} == leased;
  }

  lemma RequeueHead(s: Store, job: Member)
    requires Queue(s)
    ensures var leased := s.lease.Keys - {job};
      && Sound(s.lastId, s.ready, s.processing, s.delayed.Keys, leased)
      && Sound(s.lastId + 1, s.ready, s.processing, s.delayed.Keys, leased)
  {
    SoundUnlease(s.lastId, s.ready, s.processing, s.delayed.Keys, s.lease.Keys, job);
    SoundMint(s.lastId, s.ready, s.processing, s.delayed.Keys, s.lease.Keys - {job});
  }

  lemma RequeueKeepsQueue(s: Store, job: Member, cut: nat)
    requires Queue(s) && job in s.processing
    ensures Queue(RequeueScript(s, job, cut))
  {
    var t := RequeueScript(s, job, cut);
    if cut >= 1 { assert t.lease.Keys == s.lease.Keys - {job}; }
    if cut >= 3 {
      RequeueTail(s, job);
    } else {
      RequeueHead(s, job);
    }
  }

  lemma DelayKeepsQueue(c: Config, s: Store, job: Member, strike: bool, now: int, cut: nat)
    requires c.Valid() && Queue(s) && job in s.lease
    ensures Queue(DelayScript(c, s, job, strike, now, cut))
  {
    var t := DelayScript(c, s, job, strike, now, cut);
    if cut >= 1 {
      SettleKeepsQueue(s, t.(lastId := s.lastId, delayed := s.delayed), job);
    }
    if cut == 4 {
      SoundMint(s.lastId, s.ready, s.processing, s.delayed.Keys, t.lease.Keys);
    } else if cut >= 5 {
      SoundDelay(s.lastId, s.ready, t.processing, s.delayed.Keys, t.lease.Keys, job.url);
      assert t.delayed.Keys == s.delayed.Keys + {Fresh(s, job.url)};
    }
  }

  lemma FailKeepsQueue(c: Config, s: Store, job: Member, strike: bool, now: int, cut: nat)
    requires c.Valid() && Queue(s) && job in s.lease
    ensures Queue(FailScript(c, s, job, strike, now, cut))
  {
    if !StruckOut(c, s, job.url, strike) {
      DelayKeepsQueue(c, s, job, strike, now, cut);
    } else if cut >= 1 {
      SettleKeepsQueue(s, FailScript(c, s, job, strike, now, cut), job);
    }
  }

  lemma StartKeepsQueue(s: Store, url: string, cut: nat)
    requires Queue(s)
    ensures Queue(StartListing(s, url, cut))
  {
    if cut == 2 {
      SoundMint(s.lastId, s.ready, s.processing, s.delayed.Keys, s.lease.Keys);
    } else if cut >= 3 {
      SoundPush(s.lastId, s.ready, s.processing, s.delayed.Keys, s.lease.Keys, url);
    }
  }

  lemma AdmitVideoKeepsQueue(c: Config, s: Store, url: string, now: int, cut: nat)
    requires Queue(s)
    ensures Queue(AdmitVideoScript(c, s, url, now, cut))
  {
    if cut < 3 {
      SoundMint(s.lastId, s.ready, s.processing, s.delayed.Keys, s.lease.Keys);
    } else if cut < 5 || !Positive(c, s, url) {
      SoundPush(s.lastId, s.ready, s.processing, s.delayed.Keys, s.lease.Keys, url);
    } else {
      assert Remove([Fresh(s, url)] + s.ready, Fresh(s, url)) == s.ready;
      SoundMint(s.lastId, s.ready, s.processing, s.delayed.Keys, s.lease.Keys);
    }
  }

  lemma LeaseKeepsQueue(c: Config, s: Store, now: int, cut: nat)
    requires Queue(s)
    ensures Queue(LeaseScript(c, s, now, cut))
  {
    if s.ready != [] {
      var rest, item := s.ready[..|s.ready| - 1], s.ready[|s.ready| - 1];
      assert s.ready == rest + [item];
      SoundLease(s.lastId, rest, s.processing, s.delayed.Keys, s.lease.Keys, item);
      assert s.lease[item := now + c.leaseTimeout].Keys == s.lease.Keys + {item};
    }
  }

  lemma PromoteKeepsQueue(s: Store, job: Member, cut: nat)
    requires Queue(s)
    ensures Queue(PromoteScript(s, job, cut))
  {
    if cut == 1 {
      SoundMint(s.lastId, s.ready, s.processing, s.delayed.Keys, s.lease.Keys);
    } else if cut >= 2 {
      var t := PromoteScript(s, job, cut);
      SoundPush(s.lastId, s.ready, s.processing, s.delayed.Keys, s.lease.Keys, job.url);
      SoundUndelay(s.lastId + 1, t.ready, s.processing, s.delayed.Keys, s.lease.Keys, job);
      assert t.delayed.Keys == if cut >= 3 then s.delayed.Keys - {job} else s.delayed.Keys;
    }
  }

  lemma KeepsQueue(c: Config, s: Store, op: Op, cut: nat)
    requires c.Valid() && Queue(s) && Legal(c, s, op)
    ensures Queue(Do(c, s, op, cut))
  {
    var t := Do(c, s, op, cut);
    match op {
      case Lease(now) => LeaseKeepsQueue(c, s, now, cut);
      case AdmitVideo(url, now) => AdmitVideoKeepsQueue(c, s, url, now, cut);
      case AdmitListing(url, now) =>
        StartKeepsQueue(s, url, cut);
      case Schedule(url, now) =>
        StartKeepsQueue(s, url, cut);
      case SeedListing(_) =>
      case Fail(job, strike, now) => if job in s.lease { FailKeepsQueue(c, s, job, strike, now, cut); }
      case Ack(job) => if job in s.lease && cut >= 1 { SettleKeepsQueue(s, t, job); }
      case Complete(job, _, _) => if job in s.lease && cut >= 1 { SettleKeepsQueue(s, t, job); }
      case Terminal(job, _, _) => if job in s.lease && cut >= 1 { SettleKeepsQueue(s, t, job); }
      case Nack(job) => if job in s.lease { RequeueKeepsQueue(s, job, cut); }
      case Reap(job, _) => if job in s.lease { RequeueKeepsQueue(s, job, cut); }
      case Sweep(job) => RequeueKeepsQueue(s, job, cut);
      case Promote(job, _) => PromoteKeepsQueue(s, job, cut);
    }
  }

  // --- who is live ---

  // The ledger, as a statement about the store after the first `cut` writes.
  ghost predicate Ledger(c: Config, s: Store, op: Op, cut: nat)
    requires c.Valid()
  {
    forall m :: IsLive(Do(c, s, op, cut), m) <==>
      (IsLive(s, m) && Removed(c, s, op, cut) != Some(m)) || Added(c, s, op, cut) == Some(m)
  }

  lemma ProcessingElsewhere(s: Store, job: Member)
    requires Queue(s) && job in s.processing
    ensures job !in s.ready && job !in s.delayed
    ensures forall m :: m in Remove(s.processing, job) <==> m in s.processing && m != job
  {
    SoundDrop(s.lastId, s.ready, s.processing, s.delayed.Keys, s.lease.Keys, job);
  }

  lemma DelayedElsewhere(s: Store, job: Member)
    requires Queue(s) && job in s.delayed
    ensures job !in s.ready && job !in s.processing
  {
    assert forall m | m in s.ready || m in s.processing :: m in s.ready + s.processing;
  }

  lemma ReadyElsewhere(s: Store, job: Member)
    requires Queue(s) && job in s.ready
    ensures job !in s.processing && job !in s.delayed
  {
    if job in s.processing { ProcessingElsewhere(s, job); }
    if job in s.delayed { DelayedElsewhere(s, job); }
  }

  lemma AdmitListingLedger(c: Config, s: Store, op: Op, cut: nat)
    requires c.Valid() && op.AdmitListing?
    ensures Ledger(c, s, op, cut)
  {
  }

  lemma ScheduleLedger(c: Config, s: Store, op: Op, cut: nat)
    requires c.Valid() && (op.SeedListing? || op.Schedule?)
    ensures Ledger(c, s, op, cut)
  {
  }

  lemma RequeueMoves(s: Store, job: Member, cut: nat)
    requires Queue(s) && job in s.processing
    ensures forall m :: IsLive(RequeueScript(s, job, cut), m) <==>
      (IsLive(s, m) && !(cut >= 4 && m == job)) || (cut >= 3 && m == Fresh(s, job.url))
  {
    ProcessingElsewhere(s, job);
  }

  lemma RequeueLedger(c: Config, s: Store, op: Op, cut: nat)
    requires c.Valid() && Queue(s) && Legal(c, s, op) && (op.Nack? || op.Reap? || op.Sweep?)
    ensures Ledger(c, s, op, cut)
  {
    if op.job in s.processing { RequeueMoves(s, op.job, cut); }
    match op {
      case Nack(_) =>
      case Reap(_, _) =>
      case Sweep(_) =>
    }
  }

  lemma SettleLedger(c: Config, s: Store, op: Op, cut: nat)
    requires c.Valid() && Queue(s) && (op.Ack? || op.Complete? || op.Terminal?)
    ensures Ledger(c, s, op, cut)
  {
    if op.job in s.lease { ProcessingElsewhere(s, op.job); }
  }

  lemma StrikeOutMoves(s: Store, job: Member, until: int, cut: nat)
    requires Queue(s) && job in s.processing
    ensures forall m :: IsLive(StrikeOutScript(s, job, until, cut), m) <==> IsLive(s, m) && !(cut >= 6 && m == job)
  {
    ProcessingElsewhere(s, job);
  }

  lemma DelayMoves(c: Config, s: Store, job: Member, strike: bool, now: int, cut: nat)
    requires c.Valid() && Queue(s) && job in s.processing
    ensures forall m :: IsLive(DelayScript(c, s, job, strike, now, cut), m) <==>
      (IsLive(s, m) && !(cut >= 6 && m == job)) || (cut >= 5 && m == Fresh(s, job.url))
  {
    ProcessingElsewhere(s, job);
  }

  lemma FailLedger(c: Config, s: Store, op: Op, cut: nat)
    requires c.Valid() && Queue(s) && op.Fail?
    ensures Ledger(c, s, op, cut)
  {
    if op.job in s.lease {
      StrikeOutMoves(s, op.job, Deadline(c, op.job.url, op.now), cut);
      DelayMoves(c, s, op.job, op.strike, op.now, cut);
    }
  }

  lemma LeaseLedger(c: Config, s: Store, op: Op, cut: nat)
    requires c.Valid() && op.Lease?
    ensures Ledger(c, s, op, cut)
  {
    if s.ready != [] {
      var n := |s.ready| - 1;
      assert s.ready == s.ready[..n] + [s.ready[n]];
    }
  }

  lemma AdmitVideoLedger(c: Config, s: Store, op: Op, cut: nat)
    requires c.Valid() && op.AdmitVideo?
    ensures Ledger(c, s, op, cut)
  {
    assert Remove([Fresh(s, op.url)] + s.ready, Fresh(s, op.url)) == s.ready;
  }

  lemma LedgerHolds(c: Config, s: Store, op: Op, cut: nat)
    requires c.Valid() && Queue(s) && Legal(c, s, op)
    ensures Ledger(c, s, op, cut)
  {
    match op {
      case Lease(_) => LeaseLedger(c, s, op, cut);
      case Promote(job, _) => DelayedElsewhere(s, job);
      case AdmitVideo(_, _) => AdmitVideoLedger(c, s, op, cut);
      case AdmitListing(_, _) => AdmitListingLedger(c, s, op, cut);
      case SeedListing(_) => ScheduleLedger(c, s, op, cut);
      case Schedule(_, _) => ScheduleLedger(c, s, op, cut);
      case Nack(_) => RequeueLedger(c, s, op, cut);
      case Reap(_, _) => RequeueLedger(c, s, op, cut);
      case Sweep(_) => RequeueLedger(c, s, op, cut);
      case Fail(_, _, _) => FailLedger(c, s, op, cut);
      case Ack(_) => SettleLedger(c, s, op, cut);
      case Complete(_, _, _) => SettleLedger(c, s, op, cut);
      case Terminal(_, _, _) => SettleLedger(c, s, op, cut);
    }
  }

  // --- over runs ---

  lemma {:induction false} RunKeepsQueue(c: Config, run: seq<Step>, tr: seq<Store>, i: nat)
    requires c.Valid() && Execution(c, run, tr) && Queue(tr[0]) && i <= |run|
    ensures Queue(tr[i])
  {
    if i > 0 {
      RunKeepsQueue(c, run, tr, i - 1);
      KeepsQueue(c, tr[i - 1], run[i - 1].op, run[i - 1].cut);
    }
  }
}
