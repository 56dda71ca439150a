/** First in first out, fencing and the lease window: what every run of the frontier
    guarantees about who gets a job and whose result counts, scripts broken off or not
    (internal/storage/frontier.go). */
module LeaseLaws {
  import opened Text
  import opened Keyspace
  import opened Scripts
  import opened JobQueue

  // --- order of the queue ---

  // In every reachable store ids fall along ready, then processing; none is repeated.
  lemma QueueOrder(c: Config, run: seq<Step>, tr: seq<Store>, i: nat)
    requires c.Valid() && Execution(c, run, tr) && tr[0] == EMPTY && i <= |run|
    ensures var s := tr[i]; var q := s.ready + s.processing;
      && (forall j, k | 0 <= j < k < |q| :: q[j].id > q[k].id)
      && (forall m, n | IsLive(s, m) && IsLive(s, n) && m.id == n.id :: m == n)
      && (forall m | IsLive(s, m) :: m.id <= s.lastId)
  {
    RunKeepsQueue(c, run, tr, i);
    var s := tr[i];
    var q := s.ready + s.processing;
    DescendingIds(q, s.lastId + 1);
    forall m, n | IsLive(s, m) && IsLive(s, n) && m.id == n.id ensures m == n {
      IdsDistinct(s, m, n);
    }
    assert forall m | m in s.ready || m in s.processing :: m in q;
  }

  lemma IdsDistinct(s: Store, m: Member, n: Member)
    requires Queue(s) && IsLive(s, m) && IsLive(s, n) && m.id == n.id
    ensures m == n
  {
    var q := s.ready + s.processing;
    DescendingIds(q, s.lastId + 1);
    assert m in s.ready || m in s.processing ==> m in q;
    assert n in s.ready || n in s.processing ==> n in q;
    if m in q && n in q {
      var i :| 0 <= i < |q| && q[i] == m;
      var j :| 0 <= j < |q| && q[j] == n;
    }
  }

  // --- first in, first out ---

  // m is in ready with k jobs to be leased before it.
  predicate Place(s: Store, m: Member, k: nat) {
    k < |s.ready| && s.ready[|s.ready| - 1 - k] == m
  }

  predicate Pops(step: Step) { step.op.Lease? && step.cut >= 1 }

  // How many of the first i steps took a job off ready.
  function PopCount(run: seq<Step>, i: nat): nat
    requires i <= |run|
  {
    if i == 0 then 0 else PopCount(run, i - 1) + if Pops(run[i - 1]) then 1 else 0
  }

  // t's ready list is s's, or s's behind one newly minted job.
  predicate Grew(s: Store, t: Store) {
    && t.lastId >= s.lastId
    && (t.ready == s.ready ||
        (t.ready != [] && t.lastId > s.lastId && t.ready == [Fresh(s, t.ready[0].url)] + s.ready))
  }

  lemma AdmissionsGrow(c: Config, s: Store, step: Step)
    requires c.Valid() && (step.op.AdmitVideo? || step.op.AdmitListing? || step.op.Schedule?)
    ensures Grew(s, Do(c, s, step.op, step.cut))
  {
    match step.op {
      case AdmitVideo(url, _) => assert Remove([Fresh(s, url)] + s.ready, Fresh(s, url)) == s.ready;
      case AdmitListing(_, _) =>
      case Schedule(_, _) =>
    }
  }

  lemma RequeuesGrow(c: Config, s: Store, step: Step)
    requires c.Valid() && (step.op.Nack? || step.op.Reap? || step.op.Sweep? || step.op.Promote?)
    ensures Grew(s, Do(c, s, step.op, step.cut))
  {
    if step.op.Promote? {
      assert Do(c, s, step.op, step.cut) == PromoteScript(s, step.op.job, step.cut);
    } else {
      RequeueGrows(s, step.op.job, step.cut);
    }
  }

  lemma RequeueGrows(s: Store, job: Member, cut: nat)
    ensures Grew(s, s) && Grew(s, RequeueScript(s, job, cut))
  {
  }

  lemma OthersGrow(c: Config, s: Store, step: Step)
    requires c.Valid() && !Pops(step)
    ensures Grew(s, Do(c, s, step.op, step.cut))
  {
    match step.op {
      case AdmitVideo(_, _) => AdmissionsGrow(c, s, step);
      case AdmitListing(_, _) => AdmissionsGrow(c, s, step);
      case Schedule(_, _) => AdmissionsGrow(c, s, step);
      case Nack(_) => RequeuesGrow(c, s, step);
      case Reap(_, _) => RequeuesGrow(c, s, step);
      case Sweep(_) => RequeuesGrow(c, s, step);
      case Promote(_, _) => RequeuesGrow(c, s, step);
      case Fail(_, _, _) =>
      case _ =>
    }
  }

  lemma PlaceStep(c: Config, s: Store, step: Step, m: Member, k: nat)
    requires c.Valid() && Place(s, m, k)
    ensures !Pops(step) ==> Place(Do(c, s, step.op, step.cut), m, k)
    ensures Pops(step) && k > 0 ==> Place(Do(c, s, step.op, step.cut), m, k - 1)
    ensures Pops(step) && k == 0 ==> Answer(c, s, step.op) == Leased(m)
  {
    if !Pops(step) {
      OthersGrow(c, s, step);
      GrownPlace(s, Do(c, s, step.op, step.cut), m, k);
    }
  }

  lemma GrownPlace(s: Store, t: Store, m: Member, k: nat)
    requires Grew(s, t) && Place(s, m, k)
    ensures Place(t, m, k)
  {
  }

  // Nothing but leases moves a waiting job, and each lease moves it up by one.
  lemma {:induction false} PlaceAfter(c: Config, run: seq<Step>, tr: seq<Store>, m: Member, k: nat, i: nat)
    requires c.Valid() && Execution(c, run, tr) && Place(tr[0], m, k) && i <= |run| && PopCount(run, i) <= k
    ensures Place(tr[i], m, k - PopCount(run, i))
  {
    if i > 0 {
      var j: nat := i - 1;
      PlaceAfter(c, run, tr, m, k, j);
      PlaceStep(c, tr[j], run[j], m, k - PopCount(run, j));
    }
  }

  lemma OnePlace(s: Store, m: Member, k: nat)
    requires Queue(s) && Place(s, m, k) && k > 0
    ensures !Place(s, m, 0)
  {
    var q, n := s.ready + s.processing, |s.ready|;
    DescendingIds(q, s.lastId + 1);
    assert q[n - 1] == s.ready[n - 1] && q[n - 1 - k] == m;
  }

  lemma PopAnswers(c: Config, s: Store, step: Step, m: Member, k: nat)
    requires Queue(s) && Place(s, m, k) && Pops(step)
    ensures Answer(c, s, step.op) == Leased(m) <==> k == 0
  {
    if k > 0 { OnePlace(s, m, k); }
  }

  // A job with k jobs ahead of it is what the (k+1)-th lease returns, and no other
  // lease before that, whatever else runs.
  lemma BoundedWait(c: Config, run: seq<Step>, tr: seq<Store>, m: Member, k: nat, i: nat)
    requires c.Valid() && Execution(c, run, tr) && Queue(tr[0]) && Place(tr[0], m, k)
    requires i < |run| && Pops(run[i]) && PopCount(run, i) <= k
    ensures Answer(c, tr[i], run[i].op) == Leased(m) <==> PopCount(run, i) == k
  {
    PlaceAfter(c, run, tr, m, k, i);
    RunKeepsQueue(c, run, tr, i);
    PopAnswers(c, tr[i], run[i], m, k - PopCount(run, i));
  }

  // --- fencing ---

  // The job a lease takes off ready.
  function Popped(s: Store, step: Step): Option<Member> {
    if Pops(step) && s.ready != [] then Some(s.ready[|s.ready| - 1]) else None
  }

  // The job a resolution or the reaper presents a lease for.
  function Presented(op: Op): Option<Member> {
    match op
    case Ack(job) => Some(job)
    case Complete(job, _, _) => Some(job)
    case Nack(job) => Some(job)
    case Fail(job, _, _) => Some(job)
    case Terminal(job, _, _) => Some(job)
    case Reap(job, _) => Some(job)
    case _ => None
  }

  // A claim: the step presented a live lease and its ZREM went through.
  predicate Claims(s: Store, step: Step) {
    Presented(step.op).Some? && Presented(step.op).value in s.lease && step.cut >= 1
  }

  // Only a lease script adds to the lease set, and only what it pops.
  lemma OthersRelease(c: Config, s: Store, step: Step)
    requires c.Valid() && !step.op.Lease?
    ensures Do(c, s, step.op, step.cut).lease.Keys <= s.lease.Keys
  {
    LeaseAfter(c, s, step.op, step.cut);
  }

  // What every other script does to the lease set: drop the job it claims, or nothing.
  lemma LeaseAfter(c: Config, s: Store, op: Op, cut: nat)
    requires c.Valid() && !op.Lease?
    ensures Do(c, s, op, cut).lease == if Claims(s, Step(op, cut)) then s.lease - {Presented(op).value} else s.lease
  {
    match op {
      case Fail(_, _, _) =>
      case Complete(_, _, _) => SettleLease(c, s, op, cut);
      case Terminal(_, _, _) => SettleLease(c, s, op, cut);
      case Ack(_) => SettleLease(c, s, op, cut);
      case Nack(_) => RequeueLease(c, s, op, cut);
      case Reap(_, _) => RequeueLease(c, s, op, cut);
      case Sweep(_) => RequeueLease(c, s, op, cut);
      case _ =>
    }
  }

  lemma SettleLease(c: Config, s: Store, op: Op, cut: nat)
    requires c.Valid() && (op.Ack? || op.Complete? || op.Terminal?)
    ensures Do(c, s, op, cut).lease == if Claims(s, Step(op, cut)) then s.lease - {Presented(op).value} else s.lease
  {
  }

  lemma RequeueLease(c: Config, s: Store, op: Op, cut: nat)
    requires c.Valid() && (op.Nack? || op.Reap? || op.Sweep?)
    ensures Do(c, s, op, cut).lease == if Claims(s, Step(op, cut)) then s.lease - {Presented(op).value} else s.lease
  {
    if op.Sweep? { assert s.lease - {op.job} == s.lease || op.job in s.lease; }
  }

  predicate Passed(s: Store, id: nat) { id <= s.lastId && !HasId(s.ready, id) }

  predicate Spent(s: Store, id: nat) {
    Passed(s, id) && forall m | m in s.lease :: m.id != id
  }

  lemma PassedStep(c: Config, s: Store, step: Step, id: nat)
    requires c.Valid() && Passed(s, id)
    ensures Passed(Do(c, s, step.op, step.cut), id)
  {
    var t := Do(c, s, step.op, step.cut);
    if Pops(step) {
      assert forall m | m in t.ready :: m in s.ready;
    } else {
      OthersGrow(c, s, step);
      GrownPassed(s, t, id);
    }
  }

  lemma GrownPassed(s: Store, t: Store, id: nat)
    requires Grew(s, t) && Passed(s, id)
    ensures Passed(t, id)
  {
  }

  lemma SpentStep(c: Config, s: Store, step: Step, id: nat)
    requires c.Valid() && Spent(s, id)
    ensures Spent(Do(c, s, step.op, step.cut), id)
  {
    PassedStep(c, s, step, id);
    if !step.op.Lease? { OthersRelease(c, s, step); }
  }

  lemma {:induction false} PassedAfter(c: Config, run: seq<Step>, tr: seq<Store>, id: nat, i: nat, j: nat)
    requires c.Valid() && Execution(c, run, tr) && i <= j <= |run| && Passed(tr[i], id)
    ensures Passed(tr[j], id)
    ensures Spent(tr[i], id) ==> Spent(tr[j], id)
    decreases j
  {
    if i < j {
      PassedAfter(c, run, tr, id, i, j - 1);
      PassedStep(c, tr[j - 1], run[j - 1], id);
      if Spent(tr[i], id) {
        SpentStep(c, tr[j - 1], run[j - 1], id);
      }
    }
  }

  lemma PopPasses(c: Config, s: Store, step: Step)
    requires c.Valid() && Queue(s) && Popped(s, step).Some?
    ensures Passed(Do(c, s, step.op, step.cut), Popped(s, step).value.id)
  {
    var n := |s.ready| - 1;
    var q := s.ready + s.processing;
    DescendingIds(q, s.lastId + 1);
    assert forall i | 0 <= i <= n :: q[i] == s.ready[i];
  }

  lemma ClaimSpends(c: Config, s: Store, step: Step)
    requires c.Valid() && Queue(s) && Claims(s, step)
    ensures Spent(Do(c, s, step.op, step.cut), Presented(step.op).value.id)
  {
    var job := Presented(step.op).value;
    LeaseIsUnique(s, job);
    PassedStep(c, s, step, job.id);
    OthersRelease(c, s, step);
    ClaimReleases(c, s, step);
  }

  lemma ClaimReleases(c: Config, s: Store, step: Step)
    requires c.Valid() && Claims(s, step)
    ensures Presented(step.op).value !in Do(c, s, step.op, step.cut).lease
  {
    LeaseAfter(c, s, step.op, step.cut);
  }

  lemma LeaseIsUnique(s: Store, job: Member)
    requires Queue(s) && job in s.lease
    ensures Passed(s, job.id) && forall m | m in s.lease && m.id == job.id :: m == job
  {
    ProcessingElsewhere(s, job);
    DescendingIds(s.ready + s.processing, s.lastId + 1);
    assert job in s.ready + s.processing;
    forall m | IsLive(s, m) && m.id == job.id ensures m == job {
      IdsDistinct(s, m, job);
    }
  }

  lemma SpentIsStale(c: Config, s: Store, step: Step)
    requires c.Valid() && Presented(step.op).Some? && Spent(s, Presented(step.op).value.id)
    ensures !Claims(s, step) && Answer(c, s, step.op) == Stale && Do(c, s, step.op, step.cut) == s
  {
  }

  // Over any run a job id is leased at most once.
  lemma LeasedOnce(c: Config, run: seq<Step>, tr: seq<Store>, i: nat, j: nat)
    requires c.Valid() && Execution(c, run, tr) && Queue(tr[0]) && i < j < |run|
    requires Popped(tr[i], run[i]).Some? && Popped(tr[j], run[j]).Some?
    ensures Popped(tr[i], run[i]).value.id != Popped(tr[j], run[j]).value.id
  {
    RunKeepsQueue(c, run, tr, i);
    PopPasses(c, tr[i], run[i]);
    PassedAfter(c, run, tr, Popped(tr[i], run[i]).value.id, i + 1, j);
  }

  // Once an id is claimed, presenting it again is STALE and changes nothing, for good;
  // so over any run an id is claimed at most once.
  lemma ClaimedOnce(c: Config, run: seq<Step>, tr: seq<Store>, i: nat, j: nat)
    requires c.Valid() && Execution(c, run, tr) && Queue(tr[0]) && i < j < |run|
    requires Claims(tr[i], run[i]) && Presented(run[j].op).Some?
    requires Presented(run[i].op).value.id == Presented(run[j].op).value.id
    ensures !Claims(tr[j], run[j])
    ensures Answer(c, tr[j], run[j].op) == Stale
    ensures tr[j + 1] == tr[j]
  {
    RunKeepsQueue(c, run, tr, i);
    ClaimSpends(c, tr[i], run[i]);
    PassedAfter(c, run, tr, Presented(run[i].op).value.id, i + 1, j);
    SpentIsStale(c, tr[j], run[j]);
  }

  // --- the lease window ---

  // Nobody but the holder presents the job, and no reaper's clock reaches `expiry`.
  predicate LeavesAlone(step: Step, job: Member, expiry: int) {
    && (step.op.Reap? ==> step.op.now < expiry)
    && (Presented(step.op) == Some(job) ==> step.op.Reap?)
  }

  predicate HeldUntil(s: Store, job: Member, expiry: int) {
    job in s.lease && s.lease[job] == expiry
  }

  lemma WindowStep(c: Config, s: Store, step: Step, job: Member, expiry: int)
    requires c.Valid() && Queue(s) && Legal(c, s, step.op) && LeavesAlone(step, job, expiry)
    requires HeldUntil(s, job, expiry)
    ensures HeldUntil(Do(c, s, step.op, step.cut), job, expiry)
  {
    if step.op.Lease? {
      if job in s.ready { ReadyElsewhere(s, job); }
    } else {
      LeaseAfter(c, s, step.op, step.cut);
    }
  }

  lemma {:induction false} WindowAfter(c: Config, run: seq<Step>, tr: seq<Store>, job: Member, expiry: int, i: nat)
    requires c.Valid() && Execution(c, run, tr) && Queue(tr[0]) && i <= |run|
    requires forall k | 0 <= k < i :: LeavesAlone(run[k], job, expiry)
    requires HeldUntil(tr[0], job, expiry)
    ensures HeldUntil(tr[i], job, expiry)
  {
    if i > 0 {
      WindowAfter(c, run, tr, job, expiry, i - 1);
      RunKeepsQueue(c, run, tr, i - 1);
      var t, step := tr[i - 1], run[i - 1];
      assert LeavesAlone(step, job, expiry) && Legal(c, t, step.op);
      WindowStep(c, t, step, job, expiry);
    }
  }

  // While no reaper's clock reaches its expiry, a leased job is held until exactly then,
  // and its holder's answer is not stale.
  lemma SafeLeaseWindow(c: Config, s: Store, now: int, run: seq<Step>, tr: seq<Store>, i: nat, resolution: Op)
    requires c.Valid() && Queue(s) && s.ready != []
    requires Execution(c, run, tr) && tr[0] == Do(c, s, Lease(now), WHOLE) && i <= |run|
    requires forall k | 0 <= k < i :: LeavesAlone(run[k], s.ready[|s.ready| - 1], now + c.leaseTimeout)
    requires Presented(resolution) == Some(s.ready[|s.ready| - 1])
    ensures HeldUntil(tr[i], s.ready[|s.ready| - 1], now + c.leaseTimeout)
    ensures Answer(c, tr[i], resolution) != Stale
  {
    KeepsQueue(c, s, Lease(now), WHOLE);
    WindowAfter(c, run, tr, s.ready[|s.ready| - 1], now + c.leaseTimeout, i);
  }
}
