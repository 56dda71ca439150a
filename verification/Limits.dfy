/** Why the worker has to resolve a job by its URL's class (internal/storage/frontier.go,
    internal/crawler/worker.go). */
module Limits {
  import opened Canonical
  import opened Keyspace
  import opened Scripts
  import opened JobQueue
  import opened Exclusive

  // An accepted Ack keeps the frontier sound exactly for a video: a listing would stay
  // PENDING with no job, and nothing would ever start it again.
  lemma AckOnlyVideos(c: Config, s: Store, job: Member)
    requires c.Valid() && Strong(c, s) && job in s.lease
    ensures Strong(c, Do(c, s, Ack(job), WHOLE)) <==> IsVideo(job.url)
  {
    var t := Do(c, s, Ack(job), WHOLE);
    if IsVideo(job.url) {
      KeepsStrong(c, s, Ack(job));
    } else {
      assert IsLive(s, job);
      assert Row(c, s, job.url, UrlLive(s, job.url));
      ProcessingElsewhere(s, job);
      assert forall m | IsLive(t, m) :: IsLive(s, m) && m != job;
      assert !Row(c, t, job.url, UrlLive(t, job.url));
    }
  }

  // An accepted CompleteListing keeps it sound exactly for a listing: a video would get
  // a date and be scheduled as a listing.
  lemma CompleteOnlyListings(c: Config, s: Store, job: Member, children: nat, now: int)
    requires c.Valid() && Strong(c, s) && job in s.lease && 0 < now && now + c.maxTtl < PENDING
    ensures Strong(c, Do(c, s, Complete(job, children, now), WHOLE)) <==> !IsVideo(job.url)
  {
    var t := Do(c, s, Complete(job, children, now), WHOLE);
    if IsVideo(job.url) {
      assert !Row(c, t, job.url, UrlLive(t, job.url));
    } else {
      KeepsStrong(c, s, Complete(job, children, now));
    }
  }
}
