/** What workers report (internal/crawler/worker.go) against what they were answered: the
    child count of every completion is the number of New answers its worker got since it
    leased the page, so the barren count (internal/storage/frontier.go) counts visits in a
    row that found nothing new. */
module Reckoning {
  import opened Text
  import opened Keyspace
  import opened Scripts
  import opened Completeness
  import opened Worker
  import opened Crew
  import Accounting

  // One past the last Lease that worker w made before step j.
  function LastLease(run: seq<Step>, makers: seq<Option<nat>>, w: nat, j: nat): (l: nat)
    requires j <= |run| <= |makers|
    ensures l <= j
  {
    if j == 0 then 0
    else if makers[j - 1] == Some(w) && run[j - 1].op.Lease? then j
    else LastLease(run, makers, w, j - 1)
  }

  // The New answers to w's steps from l up to, not including, j.
  function NewsOf(
      c: Config, run: seq<Step>, tr: seq<Store>, makers: seq<Option<nat>>, w: nat, l: nat, j: nat): nat
    requires j <= |run| <= |tr| && |run| <= |makers|
  {
    if j <= l then 0
    else
      NewsOf(c, run, tr, makers, w, l, j - 1) +
      (if makers[j - 1] == Some(w) && ReplyOf(c, tr[j - 1], run[j - 1].op, run[j - 1].cut) == New then 1 else 0)
  }

  // What w has been answered New since its last lease.
  function Found(c: Config, run: seq<Step>, tr: seq<Store>, makers: seq<Option<nat>>, w: nat, j: nat): nat
    requires j <= |run| <= |tr| && |run| <= |makers|
  {
    NewsOf(c, run, tr, makers, w, LastLease(run, makers, w, j), j)
  }

  // --- they only look back ---

  lemma {:induction false} LastLeasePrefix(
      run: seq<Step>, makers: seq<Option<nat>>, run': seq<Step>, makers': seq<Option<nat>>, w: nat, j: nat)
    requires j <= |run| <= |makers| && |run'| <= |makers'| && run <= run' && makers <= makers'
    ensures LastLease(run', makers', w, j) == LastLease(run, makers, w, j)
  {
    if j > 0 { LastLeasePrefix(run, makers, run', makers', w, j - 1); }
  }

  lemma {:induction false} NewsOfPrefix(
      c: Config, run: seq<Step>, tr: seq<Store>, makers: seq<Option<nat>>,
      run': seq<Step>, tr': seq<Store>, makers': seq<Option<nat>>, w: nat, l: nat, j: nat)
    requires j <= |run| <= |tr| && |run| <= |makers| && |run'| <= |tr'| && |run'| <= |makers'|
    requires run <= run' && tr <= tr' && makers <= makers'
    ensures NewsOf(c, run', tr', makers', w, l, j) == NewsOf(c, run, tr, makers, w, l, j)
    decreases j
  {
    if j > l { NewsOfPrefix(c, run, tr, makers, run', tr', makers', w, l, j - 1); }
  }

  // Of the crawl so far.
  function FoundNow(c: Config, crawl: Crawl, w: nat): nat
    requires |crawl.run| <= |crawl.tr| && |crawl.run| <= |crawl.makers|
  {
    Found(c, crawl.run, crawl.tr, crawl.makers, w, |crawl.run|)
  }

  lemma FoundPrefix(c: Config, crawl: Crawl, who: Option<nat>, step: Step, t: Store, w: nat, j: nat)
    requires crawl.Shaped() && j <= |crawl.run|
    ensures var next := Grow(crawl, who, step, t);
      Found(c, next.run, next.tr, next.makers, w, j) == Found(c, crawl.run, crawl.tr, crawl.makers, w, j)
  {
    var next := Grow(crawl, who, step, t);
    LastLeasePrefix(crawl.run, crawl.makers, next.run, next.makers, w, j);
    NewsOfPrefix(
      c, crawl.run, crawl.tr, crawl.makers, next.run, next.tr, next.makers, w,
      LastLease(crawl.run, crawl.makers, w, j), j);
  }

  // One more step: a lease of w's starts over, another of w's adds its answer.
  lemma FoundNext(c: Config, crawl: Crawl, who: Option<nat>, step: Step, t: Store, w: nat)
    requires crawl.Shaped()
    ensures FoundNow(c, Grow(crawl, who, step, t), w) ==
      if who != Some(w) then FoundNow(c, crawl, w)
      else if step.op.Lease? then 0
      else FoundNow(c, crawl, w) + if ReplyOf(c, crawl.Now(), step.op, step.cut) == New then 1 else 0
  {
    var next := Grow(crawl, who, step, t);
    FoundPrefix(c, crawl, who, step, t, w, |crawl.run|);
    assert next.run[|crawl.run|] == step && next.tr[|crawl.run|] == crawl.Now() && next.makers[|crawl.run|] == who;
  }

  // --- every worker counts right ---

  ghost predicate CountsRight(c: Config, crawl: Crawl, w: nat)
    requires crawl.Shaped() && w < |crawl.phases|
  {
    var p := crawl.phases[w];
    && (p.Fetching? ==> FoundNow(c, crawl, w) == 0)
    && (p.Busy? && p.n.Some? ==> p.n.value == FoundNow(c, crawl, w))
  }

  // Completion j reports what its worker found.
  ghost predicate ReportsRight(c: Config, crawl: Crawl, j: nat)
    requires crawl.Shaped() && j < |crawl.run|
  {
    crawl.run[j].op.Complete? ==>
      crawl.makers[j].Some? &&
      crawl.run[j].op.children == Found(c, crawl.run, crawl.tr, crawl.makers, crawl.makers[j].value, j)
  }

  ghost predicate Reckoned(c: Config, crawl: Crawl) {
    && crawl.Shaped()
    && (forall w | 0 <= w < |crawl.phases| :: CountsRight(c, crawl, w))
    && (forall j | 0 <= j < |crawl.run| :: ReportsRight(c, crawl, j))
  }

  lemma GrowReports(c: Config, crawl: Crawl, who: Option<nat>, step: Step, t: Store, phases: seq<Phase>, j: nat)
    requires crawl.Shaped() && j <= |crawl.run| && (j < |crawl.run| ==> ReportsRight(c, crawl, j))
    requires step.op.Complete? ==> who.Some? && step.op.children == FoundNow(c, crawl, who.value)
    ensures ReportsRight(c, Grow(crawl, who, step, t).(phases := phases), j)
  {
    var next := Grow(crawl, who, step, t);
    if j < |crawl.run| {
      assert next.run[j] == crawl.run[j] && next.makers[j] == crawl.makers[j];
      if crawl.run[j].op.Complete? { FoundPrefix(c, crawl, who, step, t, crawl.makers[j].value, j); }
    } else {
      assert next.run[j] == step && next.makers[j] == who;
      if who.Some? { FoundPrefix(c, crawl, who, step, t, who.value, j); }
    }
  }

  lemma TurnCounts(c: Config, crawl: Crawl, w: nat, now: int, cut: nat, t: Store, reply: Reply, v: nat)
    requires crawl.Shaped() && w < |crawl.phases| && v < |crawl.phases| && !crawl.phases[w].Fetching?
    requires CountsRight(c, crawl, v)
    requires var op := NextOp(c, crawl.phases[w], now); reply == Error || reply == ReplyOf(c, crawl.Now(), op, cut)
    ensures var op := NextOp(c, crawl.phases[w], now);
      CountsRight(c, Turn(crawl, w, Step(op, cut), t, reply), v)
  {
    var op := NextOp(c, crawl.phases[w], now);
    FoundNext(c, crawl, Some(w), Step(op, cut), t, v);
  }

  // A worker that completes passes on its count.
  lemma CompletesWithCount(c: Config, crawl: Crawl, w: nat, now: int)
    requires crawl.Shaped() && w < |crawl.phases| && !crawl.phases[w].Fetching? && CountsRight(c, crawl, w)
    ensures var op := NextOp(c, crawl.phases[w], now);
      op.Complete? ==> op.children == FoundNow(c, crawl, w)
  {
  }

  lemma WorkIsReckoned(c: Config, site: string -> seq<string>, crawl: Crawl, w: nat, now: int, cut: nat, lost: bool)
    requires c.Valid() && Reckoned(c, crawl) && Enabled(c, site, crawl, Work(w, now, cut, lost))
    ensures Reckoned(c, Happens(c, site, crawl, Work(w, now, cut, lost)))
  {
    var op := NextOp(c, crawl.phases[w], now);
    var reply := if lost then Error else ReplyOf(c, crawl.Now(), op, cut);
    var t := Do(c, crawl.Now(), op, cut);
    var next := Happens(c, site, crawl, Work(w, now, cut, lost));
    assert next == Turn(crawl, w, Step(op, cut), t, reply);
    CompletesWithCount(c, crawl, w, now);
    forall v | 0 <= v < |next.phases| ensures CountsRight(c, next, v) {
      TurnCounts(c, crawl, w, now, cut, t, reply, v);
    }
    forall j | 0 <= j < |next.run| ensures ReportsRight(c, next, j) {
      GrowReports(c, crawl, Some(w), Step(op, cut), t, next.phases, j);
    }
  }

  lemma ServiceIsReckoned(c: Config, site: string -> seq<string>, crawl: Crawl, op: Op, cut: nat)
    requires c.Valid() && Reckoned(c, crawl) && Enabled(c, site, crawl, Service(op, cut))
    ensures Reckoned(c, Happens(c, site, crawl, Service(op, cut)))
  {
    var t := Do(c, crawl.Now(), op, cut);
    var next := Happens(c, site, crawl, Service(op, cut));
    assert next == Grow(crawl, None, Step(op, cut), t);
    forall v | 0 <= v < |next.phases| ensures CountsRight(c, next, v) {
      assert CountsRight(c, crawl, v);
      FoundNext(c, crawl, None, Step(op, cut), t, v);
    }
    forall j | 0 <= j < |next.run| ensures ReportsRight(c, next, j) {
      GrowReports(c, crawl, None, Step(op, cut), t, next.phases, j);
    }
  }

  // The worker's phase changes and nothing else.
  lemma RephasedIsReckoned(c: Config, crawl: Crawl, w: nat, p: Phase)
    requires Reckoned(c, crawl) && w < |crawl.phases|
    requires p.Polling? || (p.Busy? && p.n == Some(0) && crawl.phases[w].Fetching?)
    ensures Reckoned(c, crawl.(phases := crawl.phases[w := p]))
  {
    var next := crawl.(phases := crawl.phases[w := p]);
    forall v | 0 <= v < |next.phases| ensures CountsRight(c, next, v) {
      assert CountsRight(c, crawl, v);
    }
    forall j | 0 <= j < |next.run| ensures ReportsRight(c, next, j) {
      assert ReportsRight(c, crawl, j);
    }
  }

  lemma EventIsReckoned(c: Config, site: string -> seq<string>, crawl: Crawl, ev: Event)
    requires c.Valid() && Reckoned(c, crawl) && crawl.tr != [] && Enabled(c, site, crawl, ev)
    ensures Reckoned(c, Happens(c, site, crawl, ev))
  {
    match ev {
      case Work(w, now, cut, lost) => WorkIsReckoned(c, site, crawl, w, now, cut, lost);
      case Service(op, cut) => ServiceIsReckoned(c, site, crawl, op, cut);
      case Fetched(w, out, stored) => RephasedIsReckoned(c, crawl, w, Begun(crawl.phases[w].job, out, stored));
      case Restarted(w) => RephasedIsReckoned(c, crawl, w, Polling);
    }
  }

  // However the workers interleave, every completion reports exactly the New answers its
  // worker got since it leased the page.
  lemma {:induction false} CompletionsReportNew(
      c: Config, site: string -> seq<string>, workers: nat, evs: seq<Event>, crawls: seq<Crawl>, i: nat)
    requires c.Valid() && Story(c, site, evs, crawls) && crawls[0] == Beginning(workers) && i <= |evs|
    ensures Reckoned(c, crawls[i])
  {
    if i > 0 {
      CompletionsReportNew(c, site, workers, evs, crawls, i - 1);
      assert crawls[i - 1].tr != [] && Enabled(c, site, crawls[i - 1], evs[i - 1]);
      EventIsReckoned(c, site, crawls[i - 1], evs[i - 1]);
    }
  }

  // --- the barren count ---

  // Accepted completions of the listing in a row whose worker found nothing new on it.
  function FruitlessSince(c: Config, crawl: Crawl, url: string, i: nat): nat
    requires i <= |crawl.run| && |crawl.run| <= |crawl.tr| && |crawl.run| <= |crawl.makers|
  {
    if i == 0 then 0
    else
      var before := FruitlessSince(c, crawl, url, i - 1);
      if !Accounting.Completes(crawl.tr[i - 1], crawl.run[i - 1], url) then before
      else if crawl.makers[i - 1].Some? &&
        Found(c, crawl.run, crawl.tr, crawl.makers, crawl.makers[i - 1].value, i - 1) > 0 then 0
      else before + 1
  }

  lemma {:induction false} FruitlessIsBarren(c: Config, crawl: Crawl, url: string, i: nat)
    requires Reckoned(c, crawl) && i <= |crawl.run|
    ensures FruitlessSince(c, crawl, url, i) == Accounting.BarrenSince(crawl.run, crawl.tr, url, i)
  {
    if i > 0 {
      FruitlessIsBarren(c, crawl, url, i - 1);
      assert ReportsRight(c, crawl, i - 1);
    }
  }

  // In a crew's crawl without breaks the barren count is the visits in a row, up to now,
  // on which the worker was answered New for none of the listing's children.
  lemma BarrenMeansNothingNew(
      c: Config, site: string -> seq<string>, workers: nat, evs: seq<Event>, crawls: seq<Crawl>, url: string)
    requires c.Valid() && Story(c, site, evs, crawls) && crawls[0] == Beginning(workers)
    requires Atomic(crawls[|evs|].run)
    ensures var crawl := crawls[|evs|];
      crawl.Shaped() && Count(crawl.Now().barren, url) == FruitlessSince(c, crawl, url, |crawl.run|)
  {
    var crawl := crawls[|evs|];
    InterleavingIsOrderly(c, site, workers, evs, crawls, |evs|);
    CompletionsReportNew(c, site, workers, evs, crawls, |evs|);
    FruitlessIsBarren(c, crawl, url, |crawl.run|);
    Accounting.BarrenAccounting(c, crawl.run, crawl.tr, url, |crawl.run|);
  }
}
