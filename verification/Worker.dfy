/** The worker's side (internal/crawler/worker.go): children are admitted one by one,
    then the leased job is resolved in the way its outcome and its URL's class allow. */
module Worker {
  import opened Text
  import opened Canonical
  import opened Keyspace
  import opened Scripts
  import opened Frontier
  import opened Completeness

  datatype Video = Video(url: string, isTarget: bool)

  // What fetching and parsing a page came to.
  datatype PageOutcome =
    | PageVideo(video: Video, links: seq<string>)
    | PageListing(links: seq<string>)
    | PageNotFound(reason: string)
    | PageRetryable(strikeable: bool)
    | PageUnknown
    | PageCancelled

  // process tells a video page from a listing by the job's URL.
  predicate Fits(url: string, out: PageOutcome) {
    (out.PageVideo? ==> IsVideo(url)) && (out.PageListing? ==> !IsVideo(url))
  }

  // --- admitting the children of a page ---

  // The URLs the links are admitted under, in order.
  function Keys(links: seq<string>): seq<string> {
    if links == [] then []
    else
      var key := Canonicalize(links[0]);
      (if key == "" then [] else [key]) + Keys(links[1..])
  }

  lemma {:induction false} KeysAre(links: seq<string>, url: string)
    ensures url in Keys(links) <==> url != "" && exists raw | raw in links :: Canonicalize(raw) == url
  {
    if links != [] {
      KeysAre(links[1..], url);
      assert links == [links[0]] + links[1..];
      assert forall raw :: raw in links <==> raw == links[0] || raw in links[1..];
    }
  }

  // In the order of the links, and as often as they come up.
  lemma {:induction false} KeysInOrder(before: seq<string>, after: seq<string>)
    ensures Keys(before + after) == Keys(before) + Keys(after)
    ensures forall raw :: Keys([raw]) == if Canonicalize(raw) == "" then [] else [Canonicalize(raw)]
  {
    if before == [] {
      assert before + after == after;
    } else {
      assert (before + after)[1..] == before[1..] + after;
      KeysInOrder(before[1..], after);
    }
  }

  function AdmitOp(url: string, now: int): Op {
    if IsVideo(url) then AdmitVideo(url, now) else AdmitListing(url, now)
  }

  // The clock is read once per admission.
  function AdmitOps(keys: seq<string>, clock: nat -> int): seq<Op> {
    seq(|keys|, i requires 0 <= i < |keys| => AdmitOp(keys[i], clock(i)))
  }

  // How many of the first i steps answered New.
  function NewCount(c: Config, run: seq<Step>, tr: seq<Store>, i: nat): nat
    requires i <= |run| && i <= |tr|
  {
    if i == 0 then 0
    else
      NewCount(c, run, tr, i - 1) +
      (if ReplyOf(c, tr[i - 1], run[i - 1].op, run[i - 1].cut) == New then 1 else 0)
  }

  lemma {:induction false} NewCountPrefix(
      c: Config, run: seq<Step>, tr: seq<Store>, run': seq<Step>, tr': seq<Store>, i: nat)
    requires i <= |run| && i <= |tr| && run <= run' && tr <= tr'
    ensures NewCount(c, run', tr', i) == NewCount(c, run, tr, i)
  {
    if i > 0 { NewCountPrefix(c, run, tr, run', tr', i - 1); }
  }

  lemma NewCountNext(c: Config, run: seq<Step>, tr: seq<Store>, i: nat, t: Store, reply: Reply)
    requires i < |run| && |tr| == i + 1 && reply == ReplyOf(c, tr[i], run[i].op, run[i].cut)
    ensures NewCount(c, run, tr + [t], i + 1) == NewCount(c, run, tr, i) + if reply == New then 1 else 0
  {
    NewCountPrefix(c, run, tr, run, tr + [t], i);
  }

  // --- resolving the job ---

  // handleOutcome's resolution: `n` is the New count, None after an admission error.
  function Resolution(c: Config, job: Member, out: PageOutcome, stored: bool, n: Option<nat>, now: int): Op {
    match out
    case PageVideo(_, _) => if stored && n.Some? then Ack(job) else Nack(job)
    case PageListing(_) => if n.Some? then Complete(job, n.value, now) else Nack(job)
    case PageNotFound(reason) => Terminal(job, reason, Deadline(c, job.url, now))
    case PageRetryable(strikeable) => Fail(job, strikeable, now)
    case PageUnknown => Fail(job, true, now)
    case PageCancelled => Nack(job)
  }

  // The links handleOutcome admits: none of a video that could not be stored.
  function Children(out: PageOutcome, stored: bool): seq<string> {
    match out
    case PageVideo(_, links) => if stored then links else []
    case PageListing(links) => links
    case _ => []
  }

  // The steps of one call of HandleOutcome.
  function Handling(
      c: Config, job: Member, out: PageOutcome, stored: bool, clock: nat -> int, at: nat, cut: nat,
      n: Option<nat>, now: int, last: nat): seq<Step>
  {
    Batch(AdmitOps(Keys(Children(out, stored)), clock), at, cut) +
    [Step(Resolution(c, job, out, stored, n, now), last)]
  }

  class Crawler {
    const frontier: Frontier
    var count: nat
    var targets: seq<Video>

    constructor (frontier: Frontier)
      ensures this.frontier == frontier && count == 0 && targets == []
    {
      this.frontier := frontier;
      count, targets := 0, [];
    }

    method RecordVideo(v: Video)
      modifies this
      ensures count == old(count) + 1
      ensures targets == if v.isTarget then old(targets) + [v] else old(targets)
    {
      count := count + 1;
      if v.isTarget { targets := targets + [v]; }
    }

    method AdmitUrl(raw: string, now: int, cut: nat) returns (reply: Reply)
      requires frontier.cfg.Valid()
      modifies frontier
      ensures var url := Canonicalize(raw);
        if url == "" then frontier.View() == old(frontier.View()) && reply == Suppressed
        else
          && frontier.View() == Do(frontier.cfg, old(frontier.View()), AdmitOp(url, now), cut)
          && reply == ReplyOf(frontier.cfg, old(frontier.View()), AdmitOp(url, now), cut)
    {
      var url := Canonicalize(raw);
      if url == "" { return Suppressed; }
      if IsVideo(url) {
        reply := frontier.AdmitVideo(url, now, cut);
      } else {
        reply := frontier.AdmitListing(url, now, cut);
      }
    }

    // Admission number `at` errors after `cut` writes, its answer lost; for at >= the
    // number of admissions none does.
    method EnqueueChildren(links: seq<string>, clock: nat -> int, at: nat, cut: nat)
      returns (n: Option<nat>, ghost tr: seq<Store>)
      requires frontier.cfg.Valid()
      modifies frontier
      ensures var run := Batch(AdmitOps(Keys(links), clock), at, cut);
        && Follows(frontier.cfg, run, tr) && tr[0] == old(frontier.View()) && frontier.View() == tr[|run|]
        && n == if at < |Keys(links)| then None else Some(NewCount(frontier.cfg, run, tr, |run|))
    {
      ghost var keys := Keys(links);
      ghost var run := Batch(AdmitOps(keys, clock), at, cut);
      BatchSteps(AdmitOps(keys, clock), at, cut);
      tr := [frontier.View()];
      var newCount, calls := 0, 0;
      for i := 0 to |links|
        invariant calls <= at && calls <= |keys| && keys[calls..] == Keys(links[i..])
        invariant FollowsTo(frontier.cfg, run, tr, calls)
        invariant tr[0] == old(frontier.View()) && frontier.View() == tr[calls]
        invariant newCount == NewCount(frontier.cfg, run, tr, calls)
      {
        var key := Canonicalize(links[i]);
        var reply := AdmitUrl(links[i], clock(calls), if calls == at then cut else WHOLE);
        NextKey(links, keys, i, calls);
        if key != "" {
          assert AdmitOps(keys, clock)[calls] == AdmitOp(key, clock(calls));
          FollowsNext(frontier.cfg, run, tr, calls, frontier.View());
          NewCountNext(frontier.cfg, run, tr, calls, frontier.View(), reply);
          tr := tr + [frontier.View()];
          if calls == at { return None, tr; }
          calls := calls + 1;
        }
        if reply == New { newCount := newCount + 1; }
      }
      n := Some(newCount);
    }

    // One answer to one leased job. `stored` is whether the video reached the database;
    // the resolution breaks off after `last` writes, or runs whole.
    method HandleOutcome(
        job: Member, out: PageOutcome, stored: bool, clock: nat -> int, at: nat, cut: nat, now: int, last: nat)
      returns (ghost n: Option<nat>, ghost tr: seq<Store>)
      requires frontier.cfg.Valid()
      modifies this, frontier
      ensures var ops := AdmitOps(Keys(Children(out, stored)), clock);
        var run := Handling(frontier.cfg, job, out, stored, clock, at, cut, n, now, last);
        && Follows(frontier.cfg, run, tr) && tr[0] == old(frontier.View()) && frontier.View() == tr[|run|]
        && n == if at < |ops| then None else Some(NewCount(frontier.cfg, run, tr, |ops|))
      ensures out.PageVideo? && stored ==>
        && count == old(count) + 1
        && targets == if out.video.isTarget then old(targets) + [out.video] else old(targets)
      ensures !(out.PageVideo? && stored) ==> count == old(count) && targets == old(targets)
    {
      n, tr := Some(0), [frontier.View()];
      match out {
        case PageVideo(video, links) => n, tr := HandleVideo(job, video, links, stored, clock, at, cut, last);
        case PageListing(links) => n, tr := HandleListing(job, links, clock, at, cut, now, last);
        case PageNotFound(reason) =>
          var reply := frontier.Terminal(job, reason, Deadline(frontier.cfg, job.url, now), last);
          tr := tr + [frontier.View()];
        case PageRetryable(strikeable) =>
          var reply := frontier.Fail(job, strikeable, now, last);
          tr := tr + [frontier.View()];
        case PageUnknown =>
          var reply := frontier.Fail(job, true, now, last);
          tr := tr + [frontier.View()];
        case PageCancelled =>
          var reply := frontier.Nack(job, last);
          tr := tr + [frontier.View()];
      }
    }

    // handleOutcome's cases for a video and for a listing.
    method HandleVideo(
        job: Member, video: Video, links: seq<string>, stored: bool, clock: nat -> int, at: nat, cut: nat, last: nat)
      returns (ghost n: Option<nat>, ghost tr: seq<Store>)
      requires frontier.cfg.Valid()
      modifies this, frontier
      ensures var ops := AdmitOps(Keys(if stored then links else []), clock);
        var run := Batch(ops, at, cut) + [Step(if stored && n.Some? then Ack(job) else Nack(job), last)];
        && Follows(frontier.cfg, run, tr) && tr[0] == old(frontier.View()) && frontier.View() == tr[|run|]
        && n == if at < |ops| then None else Some(NewCount(frontier.cfg, run, tr, |ops|))
      ensures count == old(count) + if stored then 1 else 0
      ensures targets == if stored && video.isTarget then old(targets) + [video] else old(targets)
    {
      n, tr := Some(0), [frontier.View()];
      if !stored {
        var reply := frontier.Nack(job, last);
        Resolved(frontier.cfg, [], tr, Step(Nack(job), last), frontier.View());
      } else {
        RecordVideo(video);
        var children;
        children, tr := EnqueueChildren(links, clock, at, cut);
        n := children;
        var reply;
        if children.None? {
          reply := frontier.Nack(job, last);
        } else {
          reply := frontier.Ack(job, last);
        }
        ghost var run := Batch(AdmitOps(Keys(links), clock), at, cut);
        Resolved(frontier.cfg, run, tr, Step(if n.Some? then Ack(job) else Nack(job), last), frontier.View());
      }
      tr := tr + [frontier.View()];
    }

    method HandleListing(
        job: Member, links: seq<string>, clock: nat -> int, at: nat, cut: nat, now: int, last: nat)
      returns (ghost n: Option<nat>, ghost tr: seq<Store>)
      requires frontier.cfg.Valid()
      modifies frontier
      ensures var ops := AdmitOps(Keys(links), clock);
        var run := Batch(ops, at, cut) + [Step(if n.Some? then Complete(job, n.value, now) else Nack(job), last)];
        && Follows(frontier.cfg, run, tr) && tr[0] == old(frontier.View()) && frontier.View() == tr[|run|]
        && n == if at < |ops| then None else Some(NewCount(frontier.cfg, run, tr, |ops|))
    {
      var children;
      children, tr := EnqueueChildren(links, clock, at, cut);
      n := children;
      var reply;
      if children.None? {
        reply := frontier.Nack(job, last);
      } else {
        reply := frontier.CompleteListing(job, children.value, now, last);
      }
      ghost var run := Batch(AdmitOps(Keys(links), clock), at, cut);
      ghost var op := if n.Some? then Complete(job, n.value, now) else Nack(job);
      Resolved(frontier.cfg, run, tr, Step(op, last), frontier.View());
      tr := tr + [frontier.View()];
    }
  }

  lemma NextKey(links: seq<string>, keys: seq<string>, i: nat, k: nat)
    requires i < |links| && k <= |keys| && keys[k..] == Keys(links[i..])
    ensures var key := Canonicalize(links[i]);
      if key == "" then keys[k..] == Keys(links[i + 1..])
      else k < |keys| && keys[k] == key && keys[k + 1..] == Keys(links[i + 1..])
  {
    assert links[i..][1..] == links[i + 1..];
    if Canonicalize(links[i]) != "" {
      assert keys[k + 1..] == keys[k..][1..];
      assert keys[k] == keys[k..][0];
    }
  }

  lemma Resolved(c: Config, run: seq<Step>, tr: seq<Store>, step: Step, t: Store)
    requires c.Valid() && Follows(c, run, tr) && t == Do(c, tr[|run|], step.op, step.cut)
    ensures Follows(c, run + [step], tr + [t])
    ensures NewCount(c, run + [step], tr + [t], |run|) == NewCount(c, run, tr, |run|)
  {
    NewCountPrefix(c, run, tr, run + [step], tr + [t], |run|);
  }

  // --- what the frontier may rely on ---

  // A worker admits and resolves by class, whatever the page comes to.
  lemma HandlingIsLegal(
      c: Config, job: Member, out: PageOutcome, stored: bool, clock: nat -> int, at: nat, cut: nat,
      n: Option<nat>, now: int, last: nat, tr: seq<Store>)
    requires c.Valid() && Fits(job.url, out) && forall i :: 0 < clock(i) < PENDING
    requires 0 < now && now + c.maxTtl < PENDING && now + c.quarantine < PENDING
    requires Follows(c, Handling(c, job, out, stored, clock, at, cut, n, now, last), tr)
    ensures Execution(c, Handling(c, job, out, stored, clock, at, cut, n, now, last), tr)
  {
    var run := Handling(c, job, out, stored, clock, at, cut, n, now, last);
    var keys := Keys(Children(out, stored));
    forall i {:trigger run[i]} | 0 <= i < |run| ensures Legal(c, tr[i], run[i].op) {
      if i < |run| - 1 {
        BatchSteps(AdmitOps(keys, clock), at, cut);
        AdmissionIsLegal(c, tr[i], keys[i], clock(i));
      } else {
        ResolutionIsLegal(c, tr[i], job, out, stored, n, now);
      }
    }
  }

  lemma AdmissionIsLegal(c: Config, s: Store, url: string, now: int)
    requires 0 < now < PENDING
    ensures Legal(c, s, AdmitOp(url, now))
  {
  }

  lemma ResolutionIsLegal(
      c: Config, s: Store, job: Member, out: PageOutcome, stored: bool, n: Option<nat>, now: int)
    requires c.Valid() && Fits(job.url, out)
    requires 0 < now && now + c.maxTtl < PENDING && now + c.quarantine < PENDING
    ensures Legal(c, s, Resolution(c, job, out, stored, n, now))
  {
    match out {
      case PageVideo(_, _) =>
      case PageListing(_) =>
      case PageNotFound(_) =>
      case PageRetryable(_) =>
      case PageUnknown =>
      case PageCancelled =>
    }
  }

  lemma AdmissionsAreAnswered(c: Config, keys: seq<string>, clock: nat -> int, run: seq<Step>, tr: seq<Store>)
    requires Whole(AdmitOps(keys, clock)) <= run && |run| <= |tr|
    ensures forall url | url in keys :: AdmittedBefore(c, run, tr, url, |keys|)
  {
    BatchSteps(AdmitOps(keys, clock), |keys|, 0);
    forall url | url in keys ensures AdmittedBefore(c, run, tr, url, |keys|) {
      var k :| 0 <= k < |keys| && keys[k] == url;
      assert run[k] == Whole(AdmitOps(keys, clock))[k] == Step(AdmitOp(url, clock(k)), WHOLE);
      AdmissionAnswers(c, tr[k], url, clock(k));
    }
  }

  lemma AdmissionAnswers(c: Config, s: Store, url: string, now: int)
    ensures IsAdmission(AdmitOp(url, now), url) && ReplyOf(c, s, AdmitOp(url, now), WHOLE) != Error
  {
  }

  // A job is acked or completed exactly when no admission erred and, for a video, the
  // store took it; all the children's admissions were answered before.
  lemma HandlingAnswersFirst(
      c: Config, job: Member, out: PageOutcome, stored: bool, clock: nat -> int, at: nat, cut: nat,
      n: Option<nat>, now: int, last: nat, tr: seq<Store>)
    requires c.Valid() && (n.None? <==> at < |Keys(Children(out, stored))|)
    requires |tr| >= |Handling(c, job, out, stored, clock, at, cut, n, now, last)|
    ensures var run := Handling(c, job, out, stored, clock, at, cut, n, now, last);
      var keys, op := Keys(Children(out, stored)), Resolution(c, job, out, stored, n, now);
      && (op.Ack? || op.Complete? <==> at >= |keys| && (out.PageListing? || (out.PageVideo? && stored)))
      && (op.Ack? || op.Complete? ==>
            |run| == |keys| + 1 && forall url | url in keys :: AdmittedBefore(c, run, tr, url, |keys|))
  {
    var run := Handling(c, job, out, stored, clock, at, cut, n, now, last);
    var keys := Keys(Children(out, stored));
    if at >= |keys| {
      CleanBatch(AdmitOps(keys, clock), at, cut);
      AdmissionsAreAnswered(c, keys, clock, run, tr);
    }
  }
}
