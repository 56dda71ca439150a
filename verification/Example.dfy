/** A complete crawl by one worker: a seed listing that links to two videos, of which the
    second one's bits in the Bloom filter are the first one's too. It meets everything the
    theorems over runs ask for, and the second video is never fetched. */
module Example {
  import opened Text
  import opened Canonical
  import opened Keyspace
  import opened Scripts
  import opened Completeness
  import opened Worker
  import opened Crew

  predicate Trio(c: Config, seed: string, v: string, w: string) {
    && c.Valid() && Timely(c, 1)
    && !IsVideo(seed) && IsVideo(v) && IsVideo(w) && v != w
    && c.hash(v) != {} && c.hash(w) <= c.hash(v)
  }

  // DefaultFrontierConfig, with a hash that tells no two URLs apart.
  const CONFUSED := Config(600, 5, [300, 900, 2700], [60, 300, 1500], 259200, 86400, 1814400, 604800, {}, _ => {1})

  // There are such links: the start page and two videos, each its own key.
  lemma TrioExists() returns (seed: string, v: string, w: string)
    ensures Trio(CONFUSED, seed, v, w) && Canonicalize(v) == v && Canonicalize(w) == w
  {
    seed := StartPage();
    v := VideoEndingIn('x');
    w := VideoEndingIn('y');
    assert CONFUSED.Valid() && Timely(CONFUSED, 1);
    assert CONFUSED.hash(v) == {1} && CONFUSED.hash(w) == {1};
  }

  lemma StartPage() returns (seed: string)
    ensures !IsVideo(seed)
  {
    seed := BASE_URL;
    VideoHasQuery(seed);
    assert '?' !in BASE_URL;
  }

  lemma VideoEndingIn(last: char) returns (v: string)
    requires last != '#' && last != '&'
    ensures v != "" && v[|v| - 1] == last && IsVideo(v) && Canonicalize(v) == v
  {
    v := EMPTY_ID + [last];
    LinkWithId(v, [last]);
  }

  // A video link with nothing but an id is its own key.
  lemma LinkWithId(link: string, id: string)
    requires link == EMPTY_ID + id && id != "" && '#' !in id && '&' !in id
    ensures IsVideo(link) && Canonicalize(link) == link
  {
    VideoKeyIndex(id);
    assert '#' !in BASE_URL && '#' !in VIDEO_PATTERN;
    assert Before(link, '#') == link && VideoTail(link) == id && Before(id, '&') == id;
  }

  function Ops(seed: string, v: string, w: string): seq<Op> {
    [SeedListing(seed), Schedule(seed, 1), Lease(1), AdmitVideo(v, 1), AdmitVideo(w, 1),
     Complete(Member(1, seed), 1, 1), Lease(1), Ack(Member(2, v))]
  }

  // --- the stores: the seed dated, pending, leased; v admitted, w refused; ... ---

  function Store1(seed: string): Store { EMPTY.(next := map[seed := 0]) }

  function Store2(seed: string): Store {
    EMPTY.(lastId := 1, ready := [Member(1, seed)], next := map[seed := PENDING])
  }

  function Store3(c: Config, seed: string): Store {
    Store2(seed).(ready := [], processing := [Member(1, seed)], lease := map[Member(1, seed) := 1 + c.leaseTimeout])
  }

  function Store4(c: Config, seed: string, v: string): Store {
    Store3(c, seed).(lastId := 2, ready := [Member(2, v)], bits := c.hash(v))
  }

  function Store5(c: Config, seed: string, v: string): Store { Store4(c, seed, v).(lastId := 3) }

  // ... the listing completed, v leased, v acked.
  function Store6(c: Config, seed: string, v: string): Store {
    EMPTY.(lastId := 3, ready := [Member(2, v)], bits := c.hash(v), barren := map[seed := 0],
           next := map[seed := 1 + Ttl(BaseTtl(c, seed), c.maxTtl, 0)])
  }

  function Store7(c: Config, seed: string, v: string): Store {
    Store6(c, seed, v).(ready := [], processing := [Member(2, v)], lease := map[Member(2, v) := 1 + c.leaseTimeout])
  }

  function Store8(c: Config, seed: string, v: string): Store { Store6(c, seed, v).(ready := []) }

  function Stores(c: Config, seed: string, v: string): seq<Store> {
    [EMPTY, Store1(seed), Store2(seed), Store3(c, seed), Store4(c, seed, v),
     Store5(c, seed, v), Store6(c, seed, v), Store7(c, seed, v), Store8(c, seed, v)]
  }

  // The script may run in s, takes it to t and answers.
  predicate Goes(c: Config, s: Store, op: Op, t: Store, reply: Reply)
    requires c.Valid()
  {
    Legal(c, s, op) && t == Do(c, s, op, WHOLE) && reply == ReplyOf(c, s, op, WHOLE)
  }

  // The run and its stores.
  ghost predicate Laid(c: Config, seed: string, v: string, w: string, run: seq<Step>, tr: seq<Store>) {
    Trio(c, seed, v, w) && run == Whole(Ops(seed, v, w)) && tr == Stores(c, seed, v)
  }

  // Script r of the run goes as told.
  predicate GoesAt(c: Config, run: seq<Step>, tr: seq<Store>, r: nat, op: Op, reply: Reply)
    requires c.Valid()
  {
    r < |run| && r + 1 < |tr| && run[r] == Step(op, WHOLE) && Goes(c, tr[r], op, tr[r + 1], reply)
  }

  lemma Lengths(c: Config, seed: string, v: string, w: string, run: seq<Step>, tr: seq<Store>)
    requires Laid(c, seed, v, w, run, tr)
    ensures |run| == 8 && |tr| == 9 && forall r | 0 <= r < 8 :: run[r] == Step(Ops(seed, v, w)[r], WHOLE)
  {
    BatchSteps(Ops(seed, v, w), 8, 0);
  }

  lemma Goes0(c: Config, seed: string, v: string, w: string, run: seq<Step>, tr: seq<Store>)
    requires Laid(c, seed, v, w, run, tr)
    ensures GoesAt(c, run, tr, 0, SeedListing(seed), Ok)
  {
    Lengths(c, seed, v, w, run, tr);
  }

  lemma Goes1(c: Config, seed: string, v: string, w: string, run: seq<Step>, tr: seq<Store>)
    requires Laid(c, seed, v, w, run, tr)
    ensures GoesAt(c, run, tr, 1, Schedule(seed, 1), New)
  {
    Lengths(c, seed, v, w, run, tr);
  }

  lemma Goes2(c: Config, seed: string, v: string, w: string, run: seq<Step>, tr: seq<Store>)
    requires Laid(c, seed, v, w, run, tr)
    ensures GoesAt(c, run, tr, 2, Lease(1), Leased(Member(1, seed)))
  {
    Lengths(c, seed, v, w, run, tr);
  }

  lemma Goes3(c: Config, seed: string, v: string, w: string, run: seq<Step>, tr: seq<Store>)
    requires Laid(c, seed, v, w, run, tr)
    ensures GoesAt(c, run, tr, 3, AdmitVideo(v, 1), New)
  {
    Lengths(c, seed, v, w, run, tr);
  }

  lemma Goes4(c: Config, seed: string, v: string, w: string, run: seq<Step>, tr: seq<Store>)
    requires Laid(c, seed, v, w, run, tr)
    ensures GoesAt(c, run, tr, 4, AdmitVideo(w, 1), Suppressed)
  {
    Lengths(c, seed, v, w, run, tr);
    assert c.hash(v) + c.hash(w) == c.hash(v);
  }

  lemma Goes5(c: Config, seed: string, v: string, w: string, run: seq<Step>, tr: seq<Store>)
    requires Laid(c, seed, v, w, run, tr)
    ensures GoesAt(c, run, tr, 5, Complete(Member(1, seed), 1, 1), Ok)
  {
    Lengths(c, seed, v, w, run, tr);
  }

  lemma Goes6(c: Config, seed: string, v: string, w: string, run: seq<Step>, tr: seq<Store>)
    requires Laid(c, seed, v, w, run, tr)
    ensures GoesAt(c, run, tr, 6, Lease(1), Leased(Member(2, v)))
  {
    Lengths(c, seed, v, w, run, tr);
  }

  lemma Goes7(c: Config, seed: string, v: string, w: string, run: seq<Step>, tr: seq<Store>)
    requires Laid(c, seed, v, w, run, tr)
    ensures GoesAt(c, run, tr, 7, Ack(Member(2, v)), Ok)
  {
    Lengths(c, seed, v, w, run, tr);
  }

  // --- the worker's part ---

  function Site(seed: string, rawV: string, rawW: string): string -> seq<string> {
    url => if url == seed then [rawV, rawW] else []
  }

  lemma KeyOfOne(raw: string)
    requires Canonicalize(raw) != ""
    ensures Keys([raw]) == [Canonicalize(raw)]
  {
    assert [raw][1..] == [];
  }

  lemma KeysOfTwo(a: string, b: string)
    requires Canonicalize(a) != "" && Keys([b]) == [Canonicalize(b)]
    ensures Keys([a, b]) == [Canonicalize(a), Canonicalize(b)]
  {
    assert [a, b][1..] == [b];
  }

  // The seeding and the scheduler make the first two steps, the worker all others.
  function Makers(n: nat): seq<Option<nat>> { seq(n, i => if i < 2 then None else Some(0)) }

  // The worker after r scripts of the crawl.
  function Snap(run: seq<Step>, tr: seq<Store>, r: nat, p: Phase): Crawl
    requires r <= |run| && r < |tr|
  {
    Crawl(run[..r], tr[..r + 1], Makers(r), [p])
  }

  // The events take one polling worker at an empty frontier to `end`.
  ghost predicate Told(c: Config, site: string -> seq<string>, evs: seq<Event>, crawls: seq<Crawl>, end: Crawl)
    requires c.Valid()
  {
    Story(c, site, evs, crawls) && crawls[0] == Beginning(1) && crawls[|evs|] == end
  }

  lemma Tell(c: Config, site: string -> seq<string>, evs: seq<Event>, crawls: seq<Crawl>, s: Crawl, ev: Event, t: Crawl)
    requires c.Valid() && Told(c, site, evs, crawls, s)
    requires s.tr != [] && Enabled(c, site, s, ev) && t == Happens(c, site, s, ev)
    ensures Told(c, site, evs + [ev], crawls + [t], t)
  {
    var evs', crawls' := evs + [ev], crawls + [t];
    forall i {:trigger evs'[i]} | 0 <= i < |evs'|
      ensures crawls'[i].tr != [] && Enabled(c, site, crawls'[i], evs'[i])
      ensures crawls'[i + 1] == Happens(c, site, crawls'[i], evs'[i])
    {
      if i < |evs| { assert evs'[i] == evs[i]; }
    }
  }

  lemma TellService(
      c: Config, site: string -> seq<string>, evs: seq<Event>, crawls: seq<Crawl>,
      run: seq<Step>, tr: seq<Store>, r: nat, p: Phase, op: Op, reply: Reply)
    returns (evs': seq<Event>, crawls': seq<Crawl>)
    requires c.Valid() && r < |run| && r + 1 < |tr| && Told(c, site, evs, crawls, Snap(run, tr, r, p))
    requires r < 2 && run[r] == Step(op, WHOLE) && IsService(op) && Goes(c, tr[r], op, tr[r + 1], reply)
    ensures Told(c, site, evs', crawls', Snap(run, tr, r + 1, p))
  {
    var t := Snap(run, tr, r + 1, p);
    assert run[..r + 1] == run[..r] + [run[r]] && tr[..r + 2] == tr[..r + 1] + [tr[r + 1]];
    assert Makers(r + 1) == Makers(r) + [None];
    Tell(c, site, evs, crawls, Snap(run, tr, r, p), Service(op, WHOLE), t);
    evs', crawls' := evs + [Service(op, WHOLE)], crawls + [t];
  }

  lemma WorkHappens(
      c: Config, site: string -> seq<string>, run: seq<Step>, tr: seq<Store>, r: nat, p: Phase, op: Op, reply: Reply)
    requires c.Valid() && Timely(c, 1) && 2 <= r < |run| && r + 1 < |tr|
    requires run[r] == Step(op, WHOLE) && !p.Fetching? && op == NextOp(c, p, 1)
    requires Goes(c, tr[r], op, tr[r + 1], reply)
    ensures var s, ev := Snap(run, tr, r, p), Work(0, 1, WHOLE, false);
      Enabled(c, site, s, ev) && Happens(c, site, s, ev) == Snap(run, tr, r + 1, AfterReply(p, reply))
  {
    assert run[..r + 1] == run[..r] + [run[r]] && tr[..r + 2] == tr[..r + 1] + [tr[r + 1]];
    assert Makers(r + 1) == Makers(r) + [Some(0)];
    assert [p][0 := AfterReply(p, reply)] == [AfterReply(p, reply)];
  }

  lemma TellWork(
      c: Config, site: string -> seq<string>, evs: seq<Event>, crawls: seq<Crawl>,
      run: seq<Step>, tr: seq<Store>, r: nat, p: Phase, op: Op, reply: Reply)
    returns (evs': seq<Event>, crawls': seq<Crawl>)
    requires c.Valid() && Timely(c, 1) && r < |run| && r + 1 < |tr| && Told(c, site, evs, crawls, Snap(run, tr, r, p))
    requires r >= 2 && run[r] == Step(op, WHOLE) && !p.Fetching? && op == NextOp(c, p, 1)
    requires Goes(c, tr[r], op, tr[r + 1], reply)
    ensures Told(c, site, evs', crawls', Snap(run, tr, r + 1, AfterReply(p, reply)))
  {
    var t := Snap(run, tr, r + 1, AfterReply(p, reply));
    WorkHappens(c, site, run, tr, r, p, op, reply);
    Tell(c, site, evs, crawls, Snap(run, tr, r, p), Work(0, 1, WHOLE, false), t);
    evs', crawls' := evs + [Work(0, 1, WHOLE, false)], crawls + [t];
  }

  lemma TellFetched(
      c: Config, site: string -> seq<string>, evs: seq<Event>, crawls: seq<Crawl>,
      run: seq<Step>, tr: seq<Store>, r: nat, job: Member, out: PageOutcome)
    returns (evs': seq<Event>, crawls': seq<Crawl>)
    requires c.Valid() && r <= |run| && r < |tr| && Told(c, site, evs, crawls, Snap(run, tr, r, Fetching(job)))
    requires Page(site, job.url, out)
    ensures Told(c, site, evs', crawls', Snap(run, tr, r, Begun(job, out, true)))
  {
    var q := Begun(job, out, true);
    var t := Snap(run, tr, r, q);
    assert [Fetching(job)][0 := q] == [q];
    Tell(c, site, evs, crawls, Snap(run, tr, r, Fetching(job)), Fetched(0, out, true), t);
    evs', crawls' := evs + [Fetched(0, out, true)], crawls + [t];
  }

  // --- the crawl, told event by event ---

  // The worker with the seed's page, having admitted k of its links, and with the video's.
  function WithSeed(seed: string, links: seq<string>, v: string, w: string, k: nat, n: nat): Phase {
    Busy(Member(1, seed), PageListing(links), true, [v, w], k, Some(n))
  }

  function WithVideo(v: string): Phase { Busy(Member(2, v), PageVideo(Video(v, false), []), true, [], 0, Some(0)) }

  lemma Begins(
      c: Config, site: string -> seq<string>, seed: string, v: string, w: string, run: seq<Step>, tr: seq<Store>)
    returns (evs: seq<Event>, crawls: seq<Crawl>)
    requires Laid(c, seed, v, w, run, tr)
    ensures |run| == 8 && |tr| == 9 && Told(c, site, evs, crawls, Snap(run, tr, 0, Polling))
  {
    Lengths(c, seed, v, w, run, tr);
    evs, crawls := [], [Beginning(1)];
    assert tr[..1] == [EMPTY] && Beginning(1).phases == [Polling];
  }

  lemma Seeds(
      c: Config, site: string -> seq<string>, seed: string, v: string, w: string, run: seq<Step>, tr: seq<Store>)
    returns (evs: seq<Event>, crawls: seq<Crawl>)
    requires Laid(c, seed, v, w, run, tr)
    ensures |run| == 8 && |tr| == 9 && Told(c, site, evs, crawls, Snap(run, tr, 1, Polling))
  {
    evs, crawls := Begins(c, site, seed, v, w, run, tr);
    Goes0(c, seed, v, w, run, tr);
    evs, crawls := TellService(c, site, evs, crawls, run, tr, 0, Polling, SeedListing(seed), Ok);
  }

  lemma Schedules(
      c: Config, site: string -> seq<string>, seed: string, v: string, w: string, run: seq<Step>, tr: seq<Store>)
    returns (evs: seq<Event>, crawls: seq<Crawl>)
    requires Laid(c, seed, v, w, run, tr)
    ensures |run| == 8 && |tr| == 9 && Told(c, site, evs, crawls, Snap(run, tr, 2, Polling))
  {
    evs, crawls := Seeds(c, site, seed, v, w, run, tr);
    Goes1(c, seed, v, w, run, tr);
    evs, crawls := TellService(c, site, evs, crawls, run, tr, 1, Polling, Schedule(seed, 1), New);
  }

  lemma LeasesSeed(
      c: Config, site: string -> seq<string>, seed: string, v: string, w: string, run: seq<Step>, tr: seq<Store>)
    returns (evs: seq<Event>, crawls: seq<Crawl>)
    requires Laid(c, seed, v, w, run, tr)
    ensures |run| == 8 && |tr| == 9 && Told(c, site, evs, crawls, Snap(run, tr, 3, Fetching(Member(1, seed))))
  {
    evs, crawls := Schedules(c, site, seed, v, w, run, tr);
    Goes2(c, seed, v, w, run, tr);
    evs, crawls := TellWork(c, site, evs, crawls, run, tr, 2, Polling, Lease(1), Leased(Member(1, seed)));
  }

  lemma FetchesSeed(
      c: Config, site: string -> seq<string>, seed: string, v: string, w: string, run: seq<Step>, tr: seq<Store>)
    returns (evs: seq<Event>, crawls: seq<Crawl>)
    requires Laid(c, seed, v, w, run, tr) && Keys(site(seed)) == [v, w]
    ensures |run| == 8 && |tr| == 9
    ensures Told(c, site, evs, crawls, Snap(run, tr, 3, WithSeed(seed, site(seed), v, w, 0, 0)))
  {
    evs, crawls := LeasesSeed(c, site, seed, v, w, run, tr);
    evs, crawls := TellFetched(c, site, evs, crawls, run, tr, 3, Member(1, seed), PageListing(site(seed)));
  }

  lemma AdmitsV(
      c: Config, site: string -> seq<string>, evs: seq<Event>, crawls: seq<Crawl>,
      seed: string, links: seq<string>, v: string, w: string, run: seq<Step>, tr: seq<Store>)
    returns (evs': seq<Event>, crawls': seq<Crawl>)
    requires Laid(c, seed, v, w, run, tr) && |run| == 8 && |tr| == 9
    requires Told(c, site, evs, crawls, Snap(run, tr, 3, WithSeed(seed, links, v, w, 0, 0)))
    ensures Told(c, site, evs', crawls', Snap(run, tr, 4, WithSeed(seed, links, v, w, 1, 1)))
  {
    Goes3(c, seed, v, w, run, tr);
    var p := WithSeed(seed, links, v, w, 0, 0);
    evs', crawls' := TellWork(c, site, evs, crawls, run, tr, 3, p, AdmitVideo(v, 1), New);
  }

  lemma AdmitsW(
      c: Config, site: string -> seq<string>, evs: seq<Event>, crawls: seq<Crawl>,
      seed: string, links: seq<string>, v: string, w: string, run: seq<Step>, tr: seq<Store>)
    returns (evs': seq<Event>, crawls': seq<Crawl>)
    requires Laid(c, seed, v, w, run, tr) && |run| == 8 && |tr| == 9
    requires Told(c, site, evs, crawls, Snap(run, tr, 4, WithSeed(seed, links, v, w, 1, 1)))
    ensures Told(c, site, evs', crawls', Snap(run, tr, 5, WithSeed(seed, links, v, w, 2, 1)))
  {
    Goes4(c, seed, v, w, run, tr);
    var p := WithSeed(seed, links, v, w, 1, 1);
    evs', crawls' := TellWork(c, site, evs, crawls, run, tr, 4, p, AdmitVideo(w, 1), Suppressed);
  }

  lemma Completes(
      c: Config, site: string -> seq<string>, evs: seq<Event>, crawls: seq<Crawl>,
      seed: string, links: seq<string>, v: string, w: string, run: seq<Step>, tr: seq<Store>)
    returns (evs': seq<Event>, crawls': seq<Crawl>)
    requires Laid(c, seed, v, w, run, tr) && |run| == 8 && |tr| == 9
    requires Told(c, site, evs, crawls, Snap(run, tr, 5, WithSeed(seed, links, v, w, 2, 1)))
    ensures Told(c, site, evs', crawls', Snap(run, tr, 6, Polling))
  {
    Goes5(c, seed, v, w, run, tr);
    var p := WithSeed(seed, links, v, w, 2, 1);
    evs', crawls' := TellWork(c, site, evs, crawls, run, tr, 5, p, Complete(Member(1, seed), 1, 1), Ok);
  }

  lemma LeasesV(
      c: Config, site: string -> seq<string>, evs: seq<Event>, crawls: seq<Crawl>,
      seed: string, links: seq<string>, v: string, w: string, run: seq<Step>, tr: seq<Store>)
    returns (evs': seq<Event>, crawls': seq<Crawl>)
    requires Laid(c, seed, v, w, run, tr) && |run| == 8 && |tr| == 9
    requires Told(c, site, evs, crawls, Snap(run, tr, 6, Polling))
    ensures Told(c, site, evs', crawls', Snap(run, tr, 7, Fetching(Member(2, v))))
  {
    Goes6(c, seed, v, w, run, tr);
    evs', crawls' := TellWork(c, site, evs, crawls, run, tr, 6, Polling, Lease(1), Leased(Member(2, v)));
  }

  lemma FinishesV(
      c: Config, site: string -> seq<string>, evs: seq<Event>, crawls: seq<Crawl>,
      seed: string, v: string, w: string, run: seq<Step>, tr: seq<Store>)
    returns (evs': seq<Event>, crawls': seq<Crawl>)
    requires Laid(c, seed, v, w, run, tr) && |run| == 8 && |tr| == 9 && site(v) == []
    requires Told(c, site, evs, crawls, Snap(run, tr, 7, Fetching(Member(2, v))))
    ensures Told(c, site, evs', crawls', Snap(run, tr, 8, Polling))
  {
    var page := PageVideo(Video(v, false), []);
    evs', crawls' := TellFetched(c, site, evs, crawls, run, tr, 7, Member(2, v), page);
    Goes7(c, seed, v, w, run, tr);
    evs', crawls' := TellWork(c, site, evs', crawls', run, tr, 7, WithVideo(v), Ack(Member(2, v)), Ok);
  }

  // --- how it ends ---

  lemma Ends(c: Config, seed: string, v: string, w: string)
    requires Trio(c, seed, v, w)
    ensures var s := Store8(c, seed, v); Idle(s) && NothingDue(s, 1) && Positive(c, s, w)
    ensures forall i | 0 <= i <= 8 :: !UrlLive(Stores(c, seed, v)[i], w)
  {
  }

  lemma Remembers(c: Config, seed: string, v: string, w: string, run: seq<Step>, tr: seq<Store>)
    requires Laid(c, seed, v, w, run, tr)
    ensures |run| == 8 && |tr| == 9 && HistoryAt(c, run, tr, 8) == History({v}, {v}, {v}, {seed}, {})
  {
    Lengths(c, seed, v, w, run, tr);
    assert HistoryAt(c, run, tr, 1) == NOTHING;
    assert HistoryAt(c, run, tr, 2) == NOTHING;
    assert HistoryAt(c, run, tr, 3) == NOTHING;
    assert HistoryAt(c, run, tr, 4) == NOTHING.(queued := {v}, claimed := {v});
    assert HistoryAt(c, run, tr, 5) == HistoryAt(c, run, tr, 4);
    assert HistoryAt(c, run, tr, 6) == HistoryAt(c, run, tr, 4).(completed := {seed});
    assert HistoryAt(c, run, tr, 7) == HistoryAt(c, run, tr, 6);
  }

  lemma EndsLossy(c: Config, seed: string, v: string, w: string, run: seq<Step>, tr: seq<Store>)
    requires Laid(c, seed, v, w, run, tr)
    ensures |run| == 8 && |tr| == 9 && Snap(run, tr, 8, Polling) == Crawl(run, tr, Makers(8), [Polling])
    ensures Atomic(run) && Idle(tr[8]) && NothingDue(tr[8], 1)
    ensures var h := HistoryAt(c, run, tr, 8);
      Visited(h, seed) && Visited(h, v) && h.buried == {} && Lost(c, tr[8], h, w) && !EverLive(tr, w, 8)
  {
    Lengths(c, seed, v, w, run, tr);
    Ends(c, seed, v, w);
    Remembers(c, seed, v, w, run, tr);
    assert run[..8] == run && tr[..9] == tr;
  }

  // One worker's whole crawl: it ends idle with nothing due, the seed completed and the
  // first video acked, and the second was never given a job.
  lemma LossyCrawl(c: Config, seed: string, rawV: string, rawW: string)
    returns (evs: seq<Event>, crawls: seq<Crawl>, run: seq<Step>, tr: seq<Store>)
    requires Trio(c, seed, Canonicalize(rawV), Canonicalize(rawW))
    ensures Story(c, Site(seed, rawV, rawW), evs, crawls) && crawls[0] == Beginning(1)
    ensures |run| == 8 && |tr| == 9 && crawls[|evs|] == Crawl(run, tr, Makers(8), [Polling])
    ensures Atomic(run) && Idle(tr[8]) && NothingDue(tr[8], 1)
    ensures var h := HistoryAt(c, run, tr, 8); var w := Canonicalize(rawW);
      && Visited(h, seed) && Visited(h, Canonicalize(rawV)) && h.buried == {}
      && Lost(c, tr[8], h, w) && !EverLive(tr, w, 8)
  {
    var site, v, w := Site(seed, rawV, rawW), Canonicalize(rawV), Canonicalize(rawW);
    run, tr := Whole(Ops(seed, v, w)), Stores(c, seed, v);
    KeyOfOne(rawW);
    KeysOfTwo(rawV, rawW);
    evs, crawls := FetchesSeed(c, site, seed, v, w, run, tr);
    evs, crawls := AdmitsV(c, site, evs, crawls, seed, site(seed), v, w, run, tr);
    evs, crawls := AdmitsW(c, site, evs, crawls, seed, site(seed), v, w, run, tr);
    evs, crawls := Completes(c, site, evs, crawls, seed, site(seed), v, w, run, tr);
    evs, crawls := LeasesV(c, site, evs, crawls, seed, site(seed), v, w, run, tr);
    evs, crawls := FinishesV(c, site, evs, crawls, seed, v, w, run, tr);
    EndsLossy(c, seed, v, w, run, tr);
  }
}
