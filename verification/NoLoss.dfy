/** No loss: what holds at every write of every script, so also when scripts break off
    and are never rolled back (internal/storage/frontier.go). A URL gives up its last
    job only to Ack or to a destination written before; a PENDING listing has a job. */
module NoLoss {
  import opened Canonical
  import opened Keyspace
  import opened Scripts
  import opened JobQueue

  ghost predicate Weak(s: Store) {
    && Queue(s)
    && PendingLive(s)
    && forall url :: RowSound(s, url)
  }

  ghost predicate PendingLive(s: Store) {
    forall url | url in s.next && s.next[url] == PENDING :: UrlLive(s, url)
  }

  // Only listings are scheduled. Videos are dead forever; a dead listing comes back
  // and has a date for it.
  predicate RowSound(s: Store, url: string) {
    && (url in s.next ==> !IsVideo(url))
    && (url in s.dead ==>
          if IsVideo(url) then s.dead[url].until == 0
          else 0 < s.dead[url].until < PENDING && url in s.next)
  }

  // A place a URL rests in without a job: a verdict, or a date for its next visit.
  predicate Resting(s: Store, url: string) {
    url in s.dead || (url in s.next && s.next[url] != PENDING)
  }

  // Whoever loses a member gets another, or was acked, or rests already one write earlier.
  lemma Replaced(c: Config, s: Store, op: Op, cut: nat)
    requires c.Valid() && Weak(s) && Legal(c, s, op) && Removed(c, s, op, cut).Some?
    ensures
      var url := Removed(c, s, op, cut).value.url;
      || For(Added(c, s, op, cut), url)
      || (op.Ack? && op.job.url == url)
      || (cut >= 1 && Resting(Do(c, s, op, cut - 1), url))
  {
    match op {
      case Complete(_, _, _) =>
      case Fail(_, _, _) =>
      case Terminal(_, _, _) =>
      case _ =>
    }
  }

  // A URL that has a job before a script and none after its write `cut` was acked, or
  // its destination had been written by then.
  lemma LeavesOnlyWithDestination(c: Config, s: Store, op: Op, cut: nat, url: string)
    requires c.Valid() && Weak(s) && Legal(c, s, op) && cut >= 1
    requires UrlLive(s, url) && !UrlLive(Do(c, s, op, cut), url)
    ensures (op.Ack? && op.job.url == url) || Resting(Do(c, s, op, cut - 1), url)
  {
    var m :| IsLive(s, m) && m.url == url;
    LedgerHolds(c, s, op, cut);
    assert !IsLive(Do(c, s, op, cut), m);
    Replaced(c, s, op, cut);
    assert Added(c, s, op, cut).Some? ==> IsLive(Do(c, s, op, cut), Added(c, s, op, cut).value);
  }

  // --- the invariant over every write ---

  lemma FailKeepsRow(c: Config, s: Store, op: Op, cut: nat, url: string)
    requires c.Valid() && Legal(c, s, op) && RowSound(s, url) && op.Fail?
    ensures RowSound(Do(c, s, op, cut), url)
  {
  }

  lemma SettleKeepsRow(c: Config, s: Store, op: Op, cut: nat, url: string)
    requires c.Valid() && Legal(c, s, op) && RowSound(s, url) && (op.Ack? || op.Complete? || op.Terminal?)
    ensures RowSound(Do(c, s, op, cut), url)
  {
    match op {
      case Ack(_) =>
      case Complete(_, _, _) =>
      case Terminal(_, _, _) =>
    }
  }

  lemma AdmitListingKeepsRow(c: Config, s: Store, op: Op, cut: nat, url: string)
    requires c.Valid() && Legal(c, s, op) && RowSound(s, url) && op.AdmitListing?
    ensures RowSound(Do(c, s, op, cut), url)
  {
  }

  lemma AdmissionKeepsRow(c: Config, s: Store, op: Op, cut: nat, url: string)
    requires c.Valid() && Legal(c, s, op) && RowSound(s, url) && (op.AdmitVideo? || op.SeedListing?)
    ensures RowSound(Do(c, s, op, cut), url)
  {
    match op {
      case AdmitVideo(_, _) =>
      case SeedListing(_) =>
    }
  }

  lemma ScheduleKeepsRow(c: Config, s: Store, op: Op, cut: nat, url: string)
    requires c.Valid() && Legal(c, s, op) && RowSound(s, url) && op.Schedule? && RowSound(s, op.url)
    ensures RowSound(Do(c, s, op, cut), url)
  {
  }

  lemma KeepsRow(c: Config, s: Store, op: Op, cut: nat, url: string)
    requires c.Valid() && Legal(c, s, op) && RowSound(s, url)
    requires op.Schedule? ==> RowSound(s, op.url)
    ensures RowSound(Do(c, s, op, cut), url)
  {
    if Moves(op) {
      MovesKeepTables(c, s, op, cut);
    } else if op.Fail? {
      FailKeepsRow(c, s, op, cut, url);
    } else if op.Schedule? {
      ScheduleKeepsRow(c, s, op, cut, url);
    } else if op.Ack? || op.Complete? || op.Terminal? {
      SettleKeepsRow(c, s, op, cut, url);
    } else if op.AdmitListing? {
      AdmitListingKeepsRow(c, s, op, cut, url);
    } else {
      AdmissionKeepsRow(c, s, op, cut, url);
    }
  }

  // The listing was PENDING and loses no member without getting another, or gets one.
  predicate KeepsMember(c: Config, s: Store, op: Op, cut: nat, url: string) {
    || (url in s.next && s.next[url] == PENDING &&
        (For(Removed(c, s, op, cut), url) ==> For(Added(c, s, op, cut), url)))
    || For(Added(c, s, op, cut), url)
  }

  lemma FailStaysPending(c: Config, s: Store, op: Op, cut: nat, url: string)
    requires c.Valid() && Legal(c, s, op) && RowSound(s, url) && op.Fail?
    requires var t := Do(c, s, op, cut); url in t.next && t.next[url] == PENDING
    ensures KeepsMember(c, s, op, cut, url)
  {
  }

  lemma ListingPendingBy(s: Store, admitted: string, now: int, cut: nat, url: string)
    requires var t := AdmitListingScript(s, admitted, now, cut); url in t.next && t.next[url] == PENDING
    ensures (url in s.next && s.next[url] == PENDING) ||
      (admitted == url && !Blocked(s, url, now) && !NotDue(s, url, now) && cut >= 4)
  {
  }

  lemma StartStaysPending(c: Config, s: Store, op: Op, cut: nat, url: string)
    requires op.AdmitListing?
    requires var t := AdmitListingScript(s, op.url, op.now, cut); url in t.next && t.next[url] == PENDING
    ensures KeepsMember(c, s, op, cut, url)
  {
    ListingPendingBy(s, op.url, op.now, cut, url);
  }

  lemma ScheduleStaysPending(c: Config, s: Store, op: Op, cut: nat, url: string)
    requires c.Valid() && Legal(c, s, op) && op.Schedule? && RowSound(s, op.url)
    requires var t := Do(c, s, op, cut); url in t.next && t.next[url] == PENDING
    ensures KeepsMember(c, s, op, cut, url)
  {
  }

  lemma MoveStaysPending(c: Config, s: Store, op: Op, cut: nat, url: string)
    requires c.Valid() && Legal(c, s, op) && Moves(op) && url in s.next && s.next[url] == PENDING
    ensures KeepsMember(c, s, op, cut, url)
  {
    match op {
      case Lease(_) =>
      case Nack(_) =>
      case Promote(_, _) =>
      case Reap(_, _) =>
      case Sweep(_) =>
    }
  }

  lemma SettleStaysPending(c: Config, s: Store, op: Op, cut: nat, url: string)
    requires c.Valid() && Legal(c, s, op) && RowSound(s, url) && (op.Ack? || op.Complete? || op.Terminal?)
    requires var t := Do(c, s, op, cut); url in t.next && t.next[url] == PENDING
    ensures KeepsMember(c, s, op, cut, url)
  {
    match op {
      case Ack(_) =>
      case Complete(_, _, _) =>
      case Terminal(_, _, _) =>
    }
  }

  lemma OtherStaysPending(c: Config, s: Store, op: Op, cut: nat, url: string)
    requires c.Valid() && (op.AdmitVideo? || op.SeedListing?)
    requires var t := Do(c, s, op, cut); url in t.next && t.next[url] == PENDING
    ensures KeepsMember(c, s, op, cut, url)
  {
  }

  // A listing PENDING after any write keeps a member.
  lemma StaysPending(c: Config, s: Store, op: Op, cut: nat, url: string)
    requires c.Valid() && Legal(c, s, op) && RowSound(s, url) && (op.Schedule? ==> RowSound(s, op.url))
    requires var t := Do(c, s, op, cut); url in t.next && t.next[url] == PENDING
    ensures KeepsMember(c, s, op, cut, url)
  {
    if Moves(op) {
      MovesKeepTables(c, s, op, cut);
      MoveStaysPending(c, s, op, cut, url);
    } else if op.AdmitListing? {
      StartStaysPending(c, s, op, cut, url);
    } else if op.Schedule? {
      ScheduleStaysPending(c, s, op, cut, url);
    } else if op.Fail? {
      FailStaysPending(c, s, op, cut, url);
    } else if op.AdmitVideo? || op.SeedListing? {
      OtherStaysPending(c, s, op, cut, url);
    } else {
      SettleStaysPending(c, s, op, cut, url);
    }
  }

  lemma KeepsPendingLive(c: Config, s: Store, op: Op, cut: nat)
    requires c.Valid() && Weak(s) && Legal(c, s, op)
    ensures PendingLive(Do(c, s, op, cut))
  {
    var t := Do(c, s, op, cut);
    LedgerHolds(c, s, op, cut);
    forall url | url in t.next && t.next[url] == PENDING ensures UrlLive(t, url) {
      assert RowSound(s, url) && (op.Schedule? ==> RowSound(s, op.url));
      StaysPending(c, s, op, cut, url);
      var added := Added(c, s, op, cut);
      if added.Some? && added.value.url == url {
        assert IsLive(t, added.value);
      } else {
        var m :| IsLive(s, m) && m.url == url;
        assert IsLive(t, m);
      }
    }
  }

  lemma KeepsWeak(c: Config, s: Store, op: Op, cut: nat)
    requires c.Valid() && Weak(s) && Legal(c, s, op)
    ensures Weak(Do(c, s, op, cut))
  {
    KeepsQueue(c, s, op, cut);
    KeepsPendingLive(c, s, op, cut);
    forall url ensures RowSound(Do(c, s, op, cut), url) {
      assert op.Schedule? ==> RowSound(s, op.url);
      KeepsRow(c, s, op, cut, url);
    }
  }

  lemma EmptyIsWeak()
    ensures Weak(EMPTY)
  {
  }

  lemma {:induction false} RunKeepsWeak(c: Config, run: seq<Step>, tr: seq<Store>, i: nat)
    requires c.Valid() && Execution(c, run, tr) && Weak(tr[0]) && i <= |run|
    ensures Weak(tr[i])
  {
    if i > 0 {
      RunKeepsWeak(c, run, tr, i - 1);
      KeepsWeak(c, tr[i - 1], run[i - 1].op, run[i - 1].cut);
    }
  }
}
