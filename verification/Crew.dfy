/** Many workers at once (internal/crawler/worker.go): each leases, fetches, admits the
    children of its page one script at a time and resolves its job, while the others, the
    reconcilers and the seeding do the same in between. Whatever the interleaving, the
    steps form a legal run in which children come first; so the crawl is complete. */
module Crew {
  import opened Text
  import opened Keyspace
  import opened Scripts
  import opened Completeness
  import opened Worker

  // Where a worker is: polling for a job; fetching its page; or admitting child number k
  // and, after the last or after an error (n is None), resolving. n counts the New ones.
  datatype Phase =
    | Polling
    | Fetching(job: Member)
    | Busy(job: Member, out: PageOutcome, stored: bool, keys: seq<string>, k: nat, n: Option<nat>)
  {
    predicate Admits() { Busy? && n.Some? && k < |keys| }
  }

  function Begun(job: Member, out: PageOutcome, stored: bool): Phase {
    Busy(job, out, stored, Keys(Children(out, stored)), 0, Some(0))
  }

  datatype Event =
    | Work(w: nat, now: int, cut: nat, lost: bool)           // the worker's next script; its reply may be lost
    | Fetched(w: nat, out: PageOutcome, stored: bool)
    | Restarted(w: nat)                                      // the worker forgets what it was doing
    | Service(op: Op, cut: nat)                              // a reconciler's iteration, or seeding

  // The run so far, the stores it went through, which worker made each step if one did,
  // and where the workers are.
  datatype Crawl = Crawl(run: seq<Step>, tr: seq<Store>, makers: seq<Option<nat>>, phases: seq<Phase>)
  {
    ghost predicate Shaped() { |tr| == |run| + 1 && |makers| == |run| }

    function Now(): Store
      requires tr != []
    {
      tr[|tr| - 1]
    }
  }

  predicate IsService(op: Op) {
    op.Schedule? || op.Promote? || op.Reap? || op.Sweep? || op.SeedListing? || op.AdmitVideo? || op.AdmitListing?
  }

  function NextOp(c: Config, p: Phase, now: int): Op
    requires !p.Fetching?
  {
    match p
    case Polling => Lease(now)
    case Busy(job, out, stored, _, _, n) =>
      if p.Admits() then AdmitOp(p.keys[p.k], now) else Resolution(c, job, out, stored, n, now)
  }

  function AfterReply(p: Phase, reply: Reply): Phase
    requires !p.Fetching?
  {
    if p.Polling? then (if reply.Leased? then Fetching(reply.job) else Polling)
    else if !p.Admits() then Polling
    else if reply == Error then p.(n := None)
    else p.(k := p.k + 1, n := Some(p.n.value + if reply == New then 1 else 0))
  }

  // The page fits its URL, and its links are the site's.
  predicate Page(site: string -> seq<string>, url: string, out: PageOutcome) {
    Fits(url, out) && (out.PageVideo? || out.PageListing? ==> out.links == site(url))
  }

  predicate Timely(c: Config, now: int) { 0 < now && now + c.maxTtl < PENDING && now + c.quarantine < PENDING }

  predicate Enabled(c: Config, site: string -> seq<string>, crawl: Crawl, ev: Event)
    requires crawl.tr != []
  {
    match ev
    case Work(w, now, _, _) => w < |crawl.phases| && !crawl.phases[w].Fetching? && Timely(c, now)
    case Fetched(w, out, _) =>
      w < |crawl.phases| && crawl.phases[w].Fetching? && Page(site, crawl.phases[w].job.url, out)
    case Restarted(w) => w < |crawl.phases|
    case Service(op, _) => IsService(op) && Legal(c, crawl.Now(), op)
  }

  function Grow(crawl: Crawl, who: Option<nat>, step: Step, t: Store): Crawl {
    crawl.(run := crawl.run + [step], tr := crawl.tr + [t], makers := crawl.makers + [who])
  }

  // A worker's script ran, left the store t and was answered.
  function Turn(crawl: Crawl, w: nat, step: Step, t: Store, reply: Reply): Crawl
    requires w < |crawl.phases| && !crawl.phases[w].Fetching?
  {
    Grow(crawl, Some(w), step, t).(phases := crawl.phases[w := AfterReply(crawl.phases[w], reply)])
  }

  function Happens(c: Config, site: string -> seq<string>, crawl: Crawl, ev: Event): Crawl
    requires c.Valid() && crawl.tr != [] && Enabled(c, site, crawl, ev)
  {
    match ev
    case Work(w, now, cut, lost) =>
      var op := NextOp(c, crawl.phases[w], now);
      var reply := if lost then Error else ReplyOf(c, crawl.Now(), op, cut);
      Turn(crawl, w, Step(op, cut), Do(c, crawl.Now(), op, cut), reply)
    case Fetched(w, out, stored) =>
      crawl.(phases := crawl.phases[w := Begun(crawl.phases[w].job, out, stored)])
    case Restarted(w) => crawl.(phases := crawl.phases[w := Polling])
    case Service(op, cut) => Grow(crawl, None, Step(op, cut), Do(c, crawl.Now(), op, cut))
  }

  // crawls[0] to crawls[|evs|] are what the events make of the first one.
  ghost predicate Story(c: Config, site: string -> seq<string>, evs: seq<Event>, crawls: seq<Crawl>)
    requires c.Valid()
  {
    && |crawls| == |evs| + 1 && crawls[0].Shaped()
    && forall i {:trigger evs[i]} | 0 <= i < |evs| ::
         crawls[i].tr != [] && Enabled(c, site, crawls[i], evs[i]) &&
         crawls[i + 1] == Happens(c, site, crawls[i], evs[i])
  }

  function Beginning(workers: nat): Crawl { Crawl([], [EMPTY], [], seq(workers, _ => Polling)) }

  // --- what every interleaving keeps ---

  // A worker's record of its page is right, and every child it counts past was admitted.
  ghost predicate Tracked(c: Config, site: string -> seq<string>, run: seq<Step>, tr: seq<Store>, p: Phase)
    requires |run| <= |tr|
  {
    p.Busy? ==>
      && Page(site, p.job.url, p.out) && p.keys == Keys(Children(p.out, p.stored))
      && AllAdmitted(c, run, tr, p.keys, p.k)
  }

  ghost predicate AllAdmitted(c: Config, run: seq<Step>, tr: seq<Store>, keys: seq<string>, k: nat)
    requires |run| <= |tr|
  {
    k <= |keys| && forall i | 0 <= i < k :: AdmittedBefore(c, run, tr, keys[i], |run|)
  }

  ghost predicate Orderly(c: Config, site: string -> seq<string>, crawl: Crawl)
    requires c.Valid()
  {
    && crawl.Shaped() && crawl.tr[0] == EMPTY
    && Execution(c, crawl.run, crawl.tr)
    && ChildrenFirst(c, site, crawl.run, crawl.tr)
    && forall p | p in crawl.phases :: Tracked(c, site, crawl.run, crawl.tr, p)
  }

  lemma StillAdmitted(c: Config, run: seq<Step>, tr: seq<Store>, step: Step, t: Store, url: string, j: nat, j': nat)
    requires |tr| == |run| + 1 && j <= |run| && j <= j' <= |run| + 1 && AdmittedBefore(c, run, tr, url, j)
    ensures AdmittedBefore(c, run + [step], tr + [t], url, j')
  {
    var i :| 0 <= i < j && IsAdmission(run[i].op, url) && ReplyOf(c, tr[i], run[i].op, run[i].cut) != Error;
    assert (run + [step])[i] == run[i] && (tr + [t])[i] == tr[i];
  }

  lemma GrowIsLegal(c: Config, crawl: Crawl, who: Option<nat>, step: Step)
    requires c.Valid() && crawl.Shaped() && Execution(c, crawl.run, crawl.tr) && Legal(c, crawl.Now(), step.op)
    ensures var next := Grow(crawl, who, step, Do(c, crawl.Now(), step.op, step.cut));
      next.Shaped() && Execution(c, next.run, next.tr)
  {
  }

  // Only an ack or a completion has children to answer for.
  lemma GrowChildrenFirst(c: Config, site: string -> seq<string>, crawl: Crawl, who: Option<nat>, step: Step, t: Store)
    requires c.Valid() && crawl.Shaped() && ChildrenFirst(c, site, crawl.run, crawl.tr)
    requires step.op.Ack? || step.op.Complete? ==>
      forall url | LinksTo(site, step.op.job.url, url) :: AdmittedBefore(c, crawl.run, crawl.tr, url, |crawl.run|)
    ensures var next := Grow(crawl, who, step, t); ChildrenFirst(c, site, next.run, next.tr)
  {
    var next := Grow(crawl, who, step, t);
    forall j, url |
        0 <= j < |next.run| && (next.run[j].op.Ack? || next.run[j].op.Complete?) &&
        LinksTo(site, next.run[j].op.job.url, url)
      ensures AdmittedBefore(c, next.run, next.tr, url, j)
    {
      if j < |crawl.run| { assert next.run[j] == crawl.run[j]; }
      StillAdmitted(c, crawl.run, crawl.tr, step, t, url, j, j);
    }
  }

  lemma GrowAllAdmitted(c: Config, crawl: Crawl, who: Option<nat>, step: Step, t: Store, keys: seq<string>, k: nat)
    requires crawl.Shaped() && AllAdmitted(c, crawl.run, crawl.tr, keys, k)
    ensures var next := Grow(crawl, who, step, t); AllAdmitted(c, next.run, next.tr, keys, k)
  {
    var next := Grow(crawl, who, step, t);
    forall i | 0 <= i < k ensures AdmittedBefore(c, next.run, next.tr, keys[i], |next.run|) {
      StillAdmitted(c, crawl.run, crawl.tr, step, t, keys[i], |crawl.run|, |next.run|);
    }
  }

  lemma GrowTracks(
      c: Config, site: string -> seq<string>, crawl: Crawl, who: Option<nat>, step: Step, t: Store, p: Phase)
    requires crawl.Shaped() && Tracked(c, site, crawl.run, crawl.tr, p)
    ensures var next := Grow(crawl, who, step, t); Tracked(c, site, next.run, next.tr, p)
  {
    if p.Busy? { GrowAllAdmitted(c, crawl, who, step, t, p.keys, p.k); }
  }

  lemma JustAdmitted(c: Config, crawl: Crawl, who: Option<nat>, step: Step, t: Store, url: string)
    requires crawl.Shaped() && IsAdmission(step.op, url) && ReplyOf(c, crawl.Now(), step.op, step.cut) != Error
    ensures var next := Grow(crawl, who, step, t); AdmittedBefore(c, next.run, next.tr, url, |next.run|)
  {
    var next := Grow(crawl, who, step, t);
    assert next.run[|crawl.run|] == step && next.tr[|crawl.run|] == crawl.Now();
  }

  lemma OneMoreAdmitted(c: Config, run: seq<Step>, tr: seq<Store>, keys: seq<string>, k: nat)
    requires |run| <= |tr| && k < |keys| && AllAdmitted(c, run, tr, keys, k)
    requires AdmittedBefore(c, run, tr, keys[k], |run|)
    ensures AllAdmitted(c, run, tr, keys, k + 1)
  {
    forall i | 0 <= i < k + 1 ensures AdmittedBefore(c, run, tr, keys[i], |run|) {
      if i < k {
      } else {
        assert keys[i] == keys[k];
      }
    }
  }

  // The one step a worker counts past a child on is that child's answered admission.
  lemma ReplyTracks(
      c: Config, site: string -> seq<string>, crawl: Crawl, who: Option<nat>, p: Phase,
      op: Op, cut: nat, t: Store, reply: Reply)
    requires c.Valid() && crawl.Shaped() && Tracked(c, site, crawl.run, crawl.tr, p) && !p.Fetching?
    requires p.Admits() ==> IsAdmission(op, p.keys[p.k])
    requires reply != Error ==> ReplyOf(c, crawl.Now(), op, cut) != Error
    ensures var next := Grow(crawl, who, Step(op, cut), t); Tracked(c, site, next.run, next.tr, AfterReply(p, reply))
  {
    if p.Admits() {
      var next := Grow(crawl, who, Step(op, cut), t);
      GrowTracks(c, site, crawl, who, Step(op, cut), t, p);
      if reply != Error {
        JustAdmitted(c, crawl, who, Step(op, cut), t, p.keys[p.k]);
        OneMoreAdmitted(c, next.run, next.tr, p.keys, p.k);
      }
    }
  }

  lemma NextIsLegal(c: Config, s: Store, p: Phase, now: int)
    requires c.Valid() && !p.Fetching? && Timely(c, now) && (p.Busy? ==> Fits(p.job.url, p.out))
    ensures Legal(c, s, NextOp(c, p, now))
  {
    if p.Admits() {
      AdmissionIsLegal(c, s, p.keys[p.k], now);
    } else if p.Busy? {
      ResolutionIsLegal(c, s, p.job, p.out, p.stored, p.n, now);
    }
  }

  // A worker acks or completes only when it has counted past every child of its page.
  lemma DoneWithChildren(c: Config, site: string -> seq<string>, p: Phase, now: int)
    requires !p.Fetching? && (p.Busy? ==> Page(site, p.job.url, p.out) && p.k <= |p.keys|)
    requires NextOp(c, p, now).Ack? || NextOp(c, p, now).Complete?
    ensures p.Busy? && p.k == |p.keys| && NextOp(c, p, now).job == p.job
    ensures Children(p.out, p.stored) == site(p.job.url)
  {
  }

  lemma NextHasChildren(c: Config, site: string -> seq<string>, run: seq<Step>, tr: seq<Store>, p: Phase, url: string)
    requires |run| <= |tr| && Tracked(c, site, run, tr, p) && p.Busy? && p.k == |p.keys|
    requires Children(p.out, p.stored) == site(p.job.url) && LinksTo(site, p.job.url, url)
    ensures AdmittedBefore(c, run, tr, url, |run|)
  {
    KeysAre(site(p.job.url), url);
    var i :| 0 <= i < |p.keys| && p.keys[i] == url;
  }

  lemma WorkIsOrderly(c: Config, site: string -> seq<string>, crawl: Crawl, w: nat, now: int, cut: nat, lost: bool)
    requires c.Valid() && Orderly(c, site, crawl) && Enabled(c, site, crawl, Work(w, now, cut, lost))
    ensures Orderly(c, site, Happens(c, site, crawl, Work(w, now, cut, lost)))
  {
    var p := crawl.phases[w];
    var op := NextOp(c, p, now);
    var reply := if lost then Error else ReplyOf(c, crawl.Now(), op, cut);
    assert Tracked(c, site, crawl.run, crawl.tr, p);
    NextIsLegal(c, crawl.Now(), p, now);
    GrowIsLegal(c, crawl, Some(w), Step(op, cut));
    if op.Ack? || op.Complete? {
      DoneWithChildren(c, site, p, now);
      forall url | LinksTo(site, op.job.url, url) ensures AdmittedBefore(c, crawl.run, crawl.tr, url, |crawl.run|) {
        NextHasChildren(c, site, crawl.run, crawl.tr, p, url);
      }
    }
    var t := Do(c, crawl.Now(), op, cut);
    GrowChildrenFirst(c, site, crawl, Some(w), Step(op, cut), t);
    ReplyTracks(c, site, crawl, Some(w), p, op, cut, t, reply);
    var next := Happens(c, site, crawl, Work(w, now, cut, lost));
    forall q | q in next.phases ensures Tracked(c, site, next.run, next.tr, q) {
      if q != AfterReply(p, reply) {
        assert q in crawl.phases;
        GrowTracks(c, site, crawl, Some(w), Step(op, cut), t, q);
      }
    }
  }

  lemma ServiceIsOrderly(c: Config, site: string -> seq<string>, crawl: Crawl, op: Op, cut: nat)
    requires c.Valid() && Orderly(c, site, crawl) && Enabled(c, site, crawl, Service(op, cut))
    ensures Orderly(c, site, Happens(c, site, crawl, Service(op, cut)))
  {
    GrowIsLegal(c, crawl, None, Step(op, cut));
    var t := Do(c, crawl.Now(), op, cut);
    GrowChildrenFirst(c, site, crawl, None, Step(op, cut), t);
    forall q | q in crawl.phases
      ensures var next := Grow(crawl, None, Step(op, cut), t); Tracked(c, site, next.run, next.tr, q)
    {
      GrowTracks(c, site, crawl, None, Step(op, cut), t, q);
    }
  }

  lemma EventIsOrderly(c: Config, site: string -> seq<string>, crawl: Crawl, ev: Event)
    requires c.Valid() && Orderly(c, site, crawl) && Enabled(c, site, crawl, ev)
    ensures Orderly(c, site, Happens(c, site, crawl, ev))
  {
    match ev {
      case Work(w, now, cut, lost) => WorkIsOrderly(c, site, crawl, w, now, cut, lost);
      case Service(op, cut) => ServiceIsOrderly(c, site, crawl, op, cut);
      case Fetched(w, out, stored) =>
        var begun := Begun(crawl.phases[w].job, out, stored);
        forall q | q in crawl.phases[w := begun] ensures Tracked(c, site, crawl.run, crawl.tr, q) {
          assert q == begun || q in crawl.phases;
        }
      case Restarted(w) =>
        forall q | q in crawl.phases[w := Polling] ensures Tracked(c, site, crawl.run, crawl.tr, q) {
          assert q == Polling || q in crawl.phases;
        }
    }
  }

  // Any interleaving of the workers' programs and the services, from an empty frontier
  // with all workers polling, is a legal run with children first.
  lemma {:induction false} InterleavingIsOrderly(
      c: Config, site: string -> seq<string>, workers: nat, evs: seq<Event>, crawls: seq<Crawl>, i: nat)
    requires c.Valid() && Story(c, site, evs, crawls) && crawls[0] == Beginning(workers) && i <= |evs|
    ensures Orderly(c, site, crawls[i])
  {
    if i > 0 {
      InterleavingIsOrderly(c, site, workers, evs, crawls, i - 1);
      assert Enabled(c, site, crawls[i - 1], evs[i - 1]);
      EventIsOrderly(c, site, crawls[i - 1], evs[i - 1]);
    }
  }

  // So a crew's crawl that has come to rest is complete: on every way from a seed along
  // links all pages but the last were visited, and the last was visited, buried or lost.
  lemma CrewCompletesCrawl(
      c: Config, site: string -> seq<string>, workers: nat, evs: seq<Event>, crawls: seq<Crawl>,
      now: int, trail: seq<string>)
    requires c.Valid() && Story(c, site, evs, crawls) && crawls[0] == Beginning(workers)
    requires var crawl := crawls[|evs|]; crawl.Shaped() && Idle(crawl.Now()) && now > 0 && NothingDue(crawl.Now(), now)
    requires var crawl := crawls[|evs|]; var h := HistoryAt(c, crawl.run, crawl.tr, |crawl.run|);
      Trail(c, site, crawl.Now(), h, (iset url | Seeded(c, crawl.run, crawl.tr, url)), trail)
    ensures var crawl := crawls[|evs|]; var h := HistoryAt(c, crawl.run, crawl.tr, |crawl.run|);
      && (forall k | 0 <= k < |trail| - 1 :: Visited(h, trail[k]))
      && Settled(c, crawl.Now(), h, trail[|trail| - 1])
  {
    InterleavingIsOrderly(c, site, workers, evs, crawls, |evs|);
    var crawl := crawls[|evs|];
    CrawlComplete(c, site, crawl.run, crawl.tr, now, HistoryAt(c, crawl.run, crawl.tr, |crawl.run|), trail);
  }

  // --- one worker left alone ---

  // New answers among the crawl's steps so far.
  function News(c: Config, crawl: Crawl): nat
    requires |crawl.run| <= |crawl.tr|
  {
    NewCount(c, crawl.run, crawl.tr, |crawl.run|)
  }

  lemma NewsNext(c: Config, crawl: Crawl, who: Option<nat>, step: Step, t: Store)
    requires c.Valid() && crawl.Shaped()
    ensures News(c, Grow(crawl, who, step, t)) ==
      News(c, crawl) + if ReplyOf(c, crawl.Now(), step.op, step.cut) == New then 1 else 0
  {
    var next := Grow(crawl, who, step, t);
    NewCountPrefix(c, crawl.run, crawl.tr, next.run, next.tr, |crawl.run|);
  }

  // The events of a worker that handles its page without others in between.
  function HandlingEvents(
      w: nat, keys: seq<string>, clock: nat -> int, at: nat, cut: nat, now: int, last: nat): seq<Event>
  {
    var calls := if at < |keys| then at + 1 else |keys|;
    seq(calls, i requires 0 <= i < calls => Work(w, clock(i), if i == at then cut else WHOLE, i == at)) +
    [Work(w, now, last, false)]
  }

  // t is s after the worker, with p's page, admitted its first j children.
  ghost predicate Admitted(c: Config, s: Crawl, t: Crawl, w: nat, p: Phase, ops: seq<Op>, j: nat)
    requires p.Busy?
  {
    && s.Shaped() && t.Shaped() && s.tr <= t.tr && w < |t.phases|
    && j <= |ops| && t.run == s.run + Whole(ops[..j])
    && News(c, t) >= News(c, s)
    && t.phases[w] == p.(k := j, n := Some(News(c, t) - News(c, s)))
  }

  lemma AdmitsNext(c: Config, s: Crawl, t: Crawl, w: nat, p: Phase, ops: seq<Op>, j: nat, u: Store)
    requires c.Valid() && p.Busy? && j < |ops| == |p.keys| && Admitted(c, s, t, w, p, ops, j)
    requires ReplyOf(c, t.Now(), ops[j], WHOLE) != Error
    ensures Admitted(
      c, s, Turn(t, w, Step(ops[j], WHOLE), u, ReplyOf(c, t.Now(), ops[j], WHOLE)), w, p, ops, j + 1)
  {
    NewsNext(c, t, Some(w), Step(ops[j], WHOLE), u);
    WholeGrows(ops, j);
  }

  lemma WholeGrows(ops: seq<Op>, j: nat)
    requires j < |ops|
    ensures Whole(ops[..j + 1]) == Whole(ops[..j]) + [Step(ops[j], WHOLE)]
  {
    BatchSteps(ops[..j], j, 0);
    BatchSteps(ops[..j + 1], j + 1, 0);
  }

  lemma OpAt(c: Config, s: Crawl, t: Crawl, w: nat, p: Phase, clock: nat -> int, j: nat)
    requires p.Busy? && j < |p.keys| && Admitted(c, s, t, w, p, AdmitOps(p.keys, clock), j)
    ensures !t.phases[w].Fetching? && NextOp(c, t.phases[w], clock(j)) == AdmitOps(p.keys, clock)[j]
  {
  }

  lemma AdmittedNone(c: Config, s: Crawl, w: nat, p: Phase, ops: seq<Op>)
    requires s.Shaped() && w < |s.phases| && s.phases[w] == p && p.Busy? && p.k == 0 && p.n == Some(0)
    ensures Admitted(c, s, s, w, p, ops, 0)
  {
    BatchSteps(ops[..0], 0, 0);
    assert Whole(ops[..0]) == [];
  }

  lemma AloneAdmits(
      c: Config, site: string -> seq<string>, s: Crawl, t: Crawl, w: nat, p: Phase, clock: nat -> int, j: nat)
    requires c.Valid() && p.Busy? && j < |p.keys| && Admitted(c, s, t, w, p, AdmitOps(p.keys, clock), j)
    requires Enabled(c, site, t, Work(w, clock(j), WHOLE, false))
    ensures var u := Happens(c, site, t, Work(w, clock(j), WHOLE, false));
      Admitted(c, s, u, w, p, AdmitOps(p.keys, clock), j + 1)
  {
    var ops := AdmitOps(p.keys, clock);
    OpAt(c, s, t, w, p, clock, j);
    AdmissionAnswers(c, t.Now(), p.keys[j], clock(j));
    AdmitsNext(c, s, t, w, p, ops, j, Do(c, t.Now(), ops[j], WHOLE));
  }

  lemma {:induction false} AdmitsInTurn(
      c: Config, site: string -> seq<string>, crawls: seq<Crawl>, w: nat, p: Phase,
      clock: nat -> int, at: nat, cut: nat, now: int, last: nat, j: nat)
    requires c.Valid() && p.Busy? && p.k == 0 && p.n == Some(0) && j <= at && j <= |p.keys|
    requires Story(c, site, HandlingEvents(w, p.keys, clock, at, cut, now, last), crawls)
    requires w < |crawls[0].phases| && crawls[0].phases[w] == p
    ensures Admitted(c, crawls[0], crawls[j], w, p, AdmitOps(p.keys, clock), j)
  {
    if j == 0 {
      AdmittedNone(c, crawls[0], w, p, AdmitOps(p.keys, clock));
    } else {
      AdmitsInTurn(c, site, crawls, w, p, clock, at, cut, now, last, j - 1);
      var ev := HandlingEvents(w, p.keys, clock, at, cut, now, last)[j - 1];
      assert ev == Work(w, clock(j - 1), WHOLE, false);
      AloneAdmits(c, site, crawls[0], crawls[j - 1], w, p, clock, j - 1);
    }
  }

  lemma BatchEndsIn(ops: seq<Op>, at: nat, cut: nat)
    requires at < |ops|
    ensures Batch(ops, at, cut) == Whole(ops[..at]) + [Step(ops[at], cut)]
  {
    BatchSteps(ops, at, cut);
    BatchSteps(ops[..at], at, 0);
  }

  // t is s after the worker's admissions, `at` having been answered by an error.
  ghost predicate Ready(s: Crawl, t: Crawl, w: nat, p: Phase, run: seq<Step>, n: Option<nat>) {
    && s.Shaped() && t.Shaped() && s.tr <= t.tr && w < |t.phases| && t.run == s.run + run
    && p.Busy? && t.phases[w].Busy? && !t.phases[w].Admits()
    && t.phases[w] == p.(k := t.phases[w].k, n := n)
  }

  lemma ErrorIsReady(c: Config, s: Crawl, t: Crawl, w: nat, p: Phase, ops: seq<Op>, at: nat, cut: nat, u: Store)
    requires p.Busy? && at < |ops| == |p.keys| && Admitted(c, s, t, w, p, ops, at)
    ensures Ready(s, Turn(t, w, Step(ops[at], cut), u, Error), w, p, Batch(ops, at, cut), None)
  {
    BatchEndsIn(ops, at, cut);
  }

  lemma DoneIsReady(c: Config, s: Crawl, t: Crawl, w: nat, p: Phase, ops: seq<Op>, at: nat, cut: nat)
    requires p.Busy? && at >= |ops| == |p.keys| && Admitted(c, s, t, w, p, ops, |ops|)
    ensures t.phases[w].Busy? && t.phases[w].n.Some?
    ensures Ready(s, t, w, p, Batch(ops, at, cut), t.phases[w].n)
  {
    CleanBatch(ops, at, cut);
    assert ops[..|ops|] == ops;
  }

  lemma ReadyResolves(
      s: Crawl, t: Crawl, w: nat, p: Phase, run: seq<Step>, n: Option<nat>, step: Step, u: Store, reply: Reply)
    requires Ready(s, t, w, p, run, n)
    ensures var end := Turn(t, w, step, u, reply);
      && end.Shaped() && s.tr <= end.tr && t.tr <= end.tr
      && w < |end.phases| && end.phases[w] == Polling && end.run == s.run + (run + [step])
  {
  }

  lemma ReadyOp(c: Config, s: Crawl, t: Crawl, w: nat, p: Phase, run: seq<Step>, n: Option<nat>, now: int)
    requires Ready(s, t, w, p, run, n)
    ensures NextOp(c, t.phases[w], now) == Resolution(c, p.job, p.out, p.stored, n, now)
  {
  }

  // The store and the worker after one call of HandleOutcome, begun in s.
  ghost predicate Handled(
      c: Config, s: Crawl, end: Crawl, w: nat, p: Phase,
      clock: nat -> int, at: nat, cut: nat, n: Option<nat>, now: int, last: nat)
    requires p.Busy?
  {
    && s.Shaped() && end.Shaped() && s.tr <= end.tr && w < |end.phases| && end.phases[w] == Polling
    && end.run == s.run + Handling(c, p.job, p.out, p.stored, clock, at, cut, n, now, last)
  }

  lemma ResolvesHandled(
      c: Config, site: string -> seq<string>, s: Crawl, t: Crawl, w: nat, p: Phase,
      clock: nat -> int, at: nat, cut: nat, n: Option<nat>, now: int, last: nat)
    requires c.Valid() && p.Busy? && p.keys == Keys(Children(p.out, p.stored))
    requires Ready(s, t, w, p, Batch(AdmitOps(p.keys, clock), at, cut), n)
    requires Enabled(c, site, t, Work(w, now, last, false))
    ensures var end := Happens(c, site, t, Work(w, now, last, false));
      t.run <= end.run && t.tr <= end.tr && Handled(c, s, end, w, p, clock, at, cut, n, now, last)
  {
    var run := Batch(AdmitOps(p.keys, clock), at, cut);
    var op := NextOp(c, t.phases[w], now);
    ReadyOp(c, s, t, w, p, run, n, now);
    ReadyResolves(s, t, w, p, run, n, Step(op, last), Do(c, t.Now(), op, last), ReplyOf(c, t.Now(), op, last));
  }

  lemma AloneErrs(
      c: Config, site: string -> seq<string>, s: Crawl, t: Crawl, w: nat, p: Phase,
      clock: nat -> int, at: nat, cut: nat)
    requires c.Valid() && p.Busy? && at < |p.keys| && Admitted(c, s, t, w, p, AdmitOps(p.keys, clock), at)
    requires Enabled(c, site, t, Work(w, clock(at), cut, true))
    ensures var u := Happens(c, site, t, Work(w, clock(at), cut, true));
      Ready(s, u, w, p, Batch(AdmitOps(p.keys, clock), at, cut), None)
  {
    var ops := AdmitOps(p.keys, clock);
    OpAt(c, s, t, w, p, clock, at);
    ErrorIsReady(c, s, t, w, p, ops, at, cut, Do(c, t.Now(), ops[at], cut));
  }

  // The New answers that s's next steps got, read off those steps alone.
  lemma {:induction false} NewCountAfter(c: Config, run: seq<Step>, tr: seq<Store>, before: nat, i: nat)
    requires before + i <= |run| <= |tr|
    ensures NewCount(c, run[before..], tr[before..], i) ==
      NewCount(c, run, tr, before + i) - NewCount(c, run, tr, before)
  {
    if i > 0 { NewCountAfter(c, run, tr, before, i - 1); }
  }

  lemma NewsBefore(c: Config, s: Crawl, end: Crawl)
    requires s.Shaped() && end.Shaped() && s.tr <= end.tr && s.run <= end.run
    ensures News(c, s) == NewCount(c, end.run, end.tr, |s.run|)
  {
    NewCountPrefix(c, s.run, s.tr, end.run, end.tr, |s.run|);
  }

  lemma NewsBetween(c: Config, s: Crawl, t: Crawl, end: Crawl, run: seq<Step>, k: nat)
    requires s.Shaped() && t.Shaped() && end.Shaped() && end.run == s.run + run && |t.run| == |s.run| + k
    requires s.tr <= end.tr && t.tr <= end.tr && t.run <= end.run
    ensures NewCount(c, run, end.tr[|s.run|..], k) == News(c, t) - News(c, s)
  {
    NewsBefore(c, s, end);
    NewsBefore(c, t, end);
    assert end.run[|s.run|..] == run;
    NewCountAfter(c, end.run, end.tr, |s.run|, k);
  }

  // n is the number of New answers to the first k of the steps made since s.
  ghost predicate Counted(c: Config, s: Crawl, end: Crawl, run: seq<Step>, k: nat, n: Option<nat>) {
    && k <= |run| && |s.run| + k <= |end.tr|
    && n == Some(NewCount(c, run, end.tr[|s.run|..], k))
  }

  // t is s with k more steps, n of them answered New.
  ghost predicate Gained(c: Config, s: Crawl, t: Crawl, k: nat, n: Option<nat>) {
    && s.Shaped() && t.Shaped() && s.run <= t.run && s.tr <= t.tr && |t.run| == |s.run| + k
    && News(c, t) >= News(c, s) && n == Some(News(c, t) - News(c, s))
  }

  lemma AdmittedGained(c: Config, s: Crawl, t: Crawl, w: nat, p: Phase, ops: seq<Op>)
    requires p.Busy? && Admitted(c, s, t, w, p, ops, |ops|)
    ensures t.phases[w].Busy? && Gained(c, s, t, |ops|, t.phases[w].n)
  {
    Lengths(ops, |ops|, 0);
  }

  lemma GainedCounted(c: Config, s: Crawl, t: Crawl, end: Crawl, run: seq<Step>, k: nat, n: Option<nat>)
    requires Gained(c, s, t, k, n) && k <= |run|
    requires end.Shaped() && t.run <= end.run && t.tr <= end.tr && end.run == s.run + run
    ensures Counted(c, s, end, run, k, n)
  {
    NewsBetween(c, s, t, end, run, k);
  }

  lemma Lengths(ops: seq<Op>, at: nat, cut: nat)
    requires at >= |ops|
    ensures |Whole(ops[..|ops|])| == |ops| && |Batch(ops, at, cut)| == |ops|
  {
    BatchSteps(ops, at, cut);
    BatchSteps(ops[..|ops|], |ops|, 0);
  }

  lemma AloneFails(
      c: Config, site: string -> seq<string>, crawls: seq<Crawl>, w: nat, p: Phase,
      clock: nat -> int, at: nat, cut: nat, now: int, last: nat) returns (end: Crawl)
    requires c.Valid() && p.Busy? && p == Begun(p.job, p.out, p.stored) && at < |p.keys|
    requires Story(c, site, HandlingEvents(w, p.keys, clock, at, cut, now, last), crawls)
    requires w < |crawls[0].phases| && crawls[0].phases[w] == p
    ensures |crawls| == at + 3 && end == crawls[at + 2]
    ensures Handled(c, crawls[0], end, w, p, clock, at, cut, None, now, last)
  {
    var evs, s := HandlingEvents(w, p.keys, clock, at, cut, now, last), crawls[0];
    AdmitsInTurn(c, site, crawls, w, p, clock, at, cut, now, last, at);
    assert evs[at] == Work(w, clock(at), cut, true);
    AloneErrs(c, site, s, crawls[at], w, p, clock, at, cut);
    assert evs[at + 1] == Work(w, now, last, false);
    end := crawls[at + 2];
    ResolvesHandled(c, site, s, crawls[at + 1], w, p, clock, at, cut, None, now, last);
  }

  lemma AloneSucceeds(
      c: Config, site: string -> seq<string>, crawls: seq<Crawl>, w: nat, p: Phase,
      clock: nat -> int, at: nat, cut: nat, now: int, last: nat) returns (end: Crawl, n: Option<nat>)
    requires c.Valid() && p.Busy? && p == Begun(p.job, p.out, p.stored) && at >= |p.keys|
    requires Story(c, site, HandlingEvents(w, p.keys, clock, at, cut, now, last), crawls)
    requires w < |crawls[0].phases| && crawls[0].phases[w] == p
    ensures |crawls| == |p.keys| + 2 && end == crawls[|p.keys| + 1]
    ensures Handled(c, crawls[0], end, w, p, clock, at, cut, n, now, last)
    ensures var run := Handling(c, p.job, p.out, p.stored, clock, at, cut, n, now, last);
      Counted(c, crawls[0], end, run, |p.keys|, n)
  {
    var evs, s, t := HandlingEvents(w, p.keys, clock, at, cut, now, last), crawls[0], crawls[|p.keys|];
    AdmitsInTurn(c, site, crawls, w, p, clock, at, cut, now, last, |p.keys|);
    DoneIsReady(c, s, t, w, p, AdmitOps(p.keys, clock), at, cut);
    n := t.phases[w].n;
    assert evs[|p.keys|] == Work(w, now, last, false);
    end := crawls[|p.keys| + 1];
    ResolvesHandled(c, site, s, t, w, p, clock, at, cut, n, now, last);
    AdmittedGained(c, s, t, w, p, AdmitOps(p.keys, clock));
    Lengths(AdmitOps(p.keys, clock), at, cut);
    var run := Handling(c, p.job, p.out, p.stored, clock, at, cut, n, now, last);
    GainedCounted(c, s, t, end, run, |p.keys|, n);
  }

  // Then its steps are those of one call of HandleOutcome, the New count included.
  lemma AloneIsHandling(
      c: Config, site: string -> seq<string>, crawls: seq<Crawl>, w: nat, p: Phase,
      clock: nat -> int, at: nat, cut: nat, now: int, last: nat) returns (end: Crawl, n: Option<nat>)
    requires c.Valid() && p.Busy? && p == Begun(p.job, p.out, p.stored)
    requires Story(c, site, HandlingEvents(w, p.keys, clock, at, cut, now, last), crawls)
    requires w < |crawls[0].phases| && crawls[0].phases[w] == p
    ensures end == crawls[|crawls| - 1]
    ensures Handled(c, crawls[0], end, w, p, clock, at, cut, n, now, last)
    ensures var run := Handling(c, p.job, p.out, p.stored, clock, at, cut, n, now, last);
      if at < |p.keys| then n == None else Counted(c, crawls[0], end, run, |p.keys|, n)
  {
    if at < |p.keys| {
      n := None;
      end := AloneFails(c, site, crawls, w, p, clock, at, cut, now, last);
    } else {
      end, n := AloneSucceeds(c, site, crawls, w, p, clock, at, cut, now, last);
    }
  }
}
