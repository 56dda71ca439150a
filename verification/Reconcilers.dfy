/** Every call of a looping script is a legal stretch of a run, so what holds over all
    runs holds across the reconcilers' calls (internal/storage/frontier.go). */
module Reconcilers {
  import opened Keyspace
  import opened Scripts
  import opened JobQueue
  import opened Recovery
  import LeaseLaws

  // Iterations of one call: the same script, on different members or listings.
  predicate Siblings(a: Op, b: Op) {
    || (a.Schedule? && b.Schedule? && a.url != b.url)
    || (a.Promote? && b.Promote? && a.job != b.job)
    || (a.Reap? && b.Reap? && a.job != b.job)
    || (a.Sweep? && b.Sweep? && a.job != b.job)
  }

  // An iteration, broken off or not, leaves the others as the range query found them.
  lemma SiblingStaysLegal(c: Config, s: Store, op: Op, cut: nat, other: Op)
    requires c.Valid() && Queue(s) && Legal(c, s, op) && Legal(c, s, other) && Siblings(op, other)
    ensures Legal(c, Do(c, s, op, cut), other)
  {
    match op {
      case Schedule(_, _) => ScheduleSpares(c, s, op, cut, other);
      case Promote(_, _) =>
      case Reap(_, _) => LeaseLaws.LeaseAfter(c, s, op, cut);
      case Sweep(job) => SweepSpares(c, s, op, cut, other);
    }
  }

  lemma ScheduleSpares(c: Config, s: Store, op: Op, cut: nat, other: Op)
    requires c.Valid() && Legal(c, s, other) && op.Schedule? && other.Schedule? && op.url != other.url
    ensures Legal(c, Do(c, s, op, cut), other)
  {
  }

  lemma SweepSpares(c: Config, s: Store, op: Op, cut: nat, other: Op)
    requires c.Valid() && Queue(s) && Legal(c, s, op) && Legal(c, s, other)
    requires op.Sweep? && other.Sweep? && op.job != other.job
    ensures Legal(c, Do(c, s, op, cut), other)
  {
    ProcessingElsewhere(s, op.job);
  }

  ghost predicate AllLegal(c: Config, s: Store, ops: seq<Op>, j: nat) {
    forall i | j <= i < |ops| :: Legal(c, s, ops[i])
  }

  lemma {:induction false} LegalUpTo(c: Config, ops: seq<Op>, at: nat, cut: nat, tr: seq<Store>, j: nat)
    requires c.Valid() && Follows(c, Batch(ops, at, cut), tr) && j < |tr|
    requires forall i, k | 0 <= i < k < |ops| :: Siblings(ops[i], ops[k])
    requires Queue(tr[0]) && AllLegal(c, tr[0], ops, 0)
    ensures Queue(tr[j]) && AllLegal(c, tr[j], ops, j)
  {
    if j > 0 {
      LegalUpTo(c, ops, at, cut, tr, j - 1);
      BatchSteps(ops, at, cut);
      var s, step := tr[j - 1], Batch(ops, at, cut)[j - 1];
      assert step.op == ops[j - 1] && tr[j] == Do(c, s, step.op, step.cut);
      KeepsQueue(c, s, step.op, step.cut);
      forall i | j <= i < |ops| ensures Legal(c, tr[j], ops[i]) {
        assert Legal(c, s, ops[i]) && Siblings(ops[j - 1], ops[i]);
        SiblingStaysLegal(c, s, step.op, step.cut, ops[i]);
      }
    }
  }

  lemma BatchIsLegal(c: Config, ops: seq<Op>, at: nat, cut: nat, tr: seq<Store>)
    requires c.Valid() && Follows(c, Batch(ops, at, cut), tr)
    requires forall i, k | 0 <= i < k < |ops| :: Siblings(ops[i], ops[k])
    requires Queue(tr[0]) && AllLegal(c, tr[0], ops, 0)
    ensures Execution(c, Batch(ops, at, cut), tr)
  {
    var run := Batch(ops, at, cut);
    BatchSteps(ops, at, cut);
    forall i {:trigger run[i]} | 0 <= i < |run| ensures Legal(c, tr[i], run[i].op) {
      LegalUpTo(c, ops, at, cut, tr, i);
      assert run[i].op == ops[i];
    }
  }

  // --- the four calls ---

  lemma ScheduleCallIsLegal(c: Config, page: seq<string>, now: int, limit: int, at: nat, cut: nat, tr: seq<Store>)
    requires c.Valid() && Follows(c, Batch(ScheduleOps(page, now), at, cut), tr) && Queue(tr[0])
    requires 0 < now < PENDING && IsPage(tr[0].next, now, limit, page)
    ensures Execution(c, Batch(ScheduleOps(page, now), at, cut), tr)
  {
    BatchIsLegal(c, ScheduleOps(page, now), at, cut, tr);
  }

  lemma PromoteCallIsLegal(c: Config, page: seq<Member>, now: int, limit: nat, at: nat, cut: nat, tr: seq<Store>)
    requires c.Valid() && Follows(c, Batch(PromoteOps(page, now), at, cut), tr) && Queue(tr[0])
    requires IsPage(tr[0].delayed, now, limit, page)
    ensures Execution(c, Batch(PromoteOps(page, now), at, cut), tr)
  {
    BatchIsLegal(c, PromoteOps(page, now), at, cut, tr);
  }

  lemma ReapCallIsLegal(c: Config, page: seq<Member>, now: int, limit: nat, at: nat, cut: nat, tr: seq<Store>)
    requires c.Valid() && Follows(c, Batch(ReapOps(page, now), at, cut), tr) && Queue(tr[0])
    requires IsPage(tr[0].lease, now, limit, page)
    ensures Execution(c, Batch(ReapOps(page, now), at, cut), tr)
  {
    BatchIsLegal(c, ReapOps(page, now), at, cut, tr);
  }

  lemma SweepCallIsLegal(c: Config, limit: nat, at: nat, cut: nat, tr: seq<Store>)
    requires c.Valid() && tr != [] && Queue(tr[0])
    requires Follows(c, Batch(SweepOps(TailWindow(tr[0].processing, limit)), at, cut), tr)
    ensures Execution(c, Batch(SweepOps(TailWindow(tr[0].processing, limit)), at, cut), tr)
  {
    WindowDistinct(tr[0], limit);
    BatchIsLegal(c, SweepOps(TailWindow(tr[0].processing, limit)), at, cut, tr);
  }
}
