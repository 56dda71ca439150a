/** The Redis keyspace of the crawl frontier (internal/storage/frontier.go) and
    the Redis commands that need more than a map or sequence operator. */
module Keyspace {

  // A listing scored PENDING in listing:next has a live job.
  const PENDING: int := 253402300799

  // One job: "<id>|<url>".
  datatype Member = Member(id: nat, url: string)

  // One entry of the dead hash: "<reason>|<until>"; until == 0 means forever.
  datatype Verdict = Verdict(reason: string, until: int)

  // Lists are written head (LEFT) first.
  datatype Store = Store(
    lastId: nat,                  // crawler:job:seq
    ready: seq<Member>,
    processing: seq<Member>,
    lease: map<Member, int>,      // member -> expiry
    delayed: map<Member, int>,    // member -> next attempt
    dead: map<string, Verdict>,
    attempts: map<string, nat>,
    strikes: map<string, nat>,
    next: map<string, int>,       // listing -> due time, or PENDING
    barren: map<string, nat>,
    bits: set<nat>)               // the Bloom filter

  const EMPTY := Store(0, [], [], map[], map[], map[], map[], map[], map[], map[], {})

  datatype Config = Config(
    leaseTimeout: int,
    maxStrikes: int,
    rateLimitBackoff: seq<int>,
    strikeBackoff: seq<int>,
    baseTtl: int,
    seedTtl: int,
    maxTtl: int,
    quarantine: int,
    seeds: set<string>,
    hash: string -> set<nat>)     // the Bloom filter's hash functions
  {
    predicate Valid() {
      && maxStrikes >= 1
      && rateLimitBackoff != [] && strikeBackoff != []
      && baseTtl > 0 && seedTtl > 0 && maxTtl > 0
      && quarantine >= 0
    }
  }

  // A member on the move between ready, processing and delayed.
  predicate IsLive(s: Store, m: Member) {
    m in s.ready || m in s.processing || m in s.delayed
  }

  ghost predicate UrlLive(s: Store, url: string) {
    exists m :: IsLive(s, m) && m.url == url
  }

  datatype Stats = Stats(
    ready: nat, processing: nat, delayed: nat,
    listingsScheduled: nat, listingsPending: nat, dead: nat, strikes: nat)

  function Pending(s: Store): set<string> { set url | url in s.next && s.next[url] == PENDING }

  function Scheduled(s: Store): set<string> { set url | url in s.next && s.next[url] < PENDING }

  function StatsOf(s: Store): Stats {
    Stats(|s.ready|, |s.processing|, |s.delayed|, |Scheduled(s)|, |Pending(s)|, |s.dead|, |s.strikes|)
  }

  predicate Idle(s: Store) { s.ready == [] && s.processing == [] && s.delayed == map[] }

  predicate NothingDue(s: Store, now: int) { forall url | url in s.next :: s.next[url] > now }

  // What BF.EXISTS would answer.
  predicate Positive(c: Config, s: Store, url: string) { c.hash(url) <= s.bits }

  function Count(m: map<string, nat>, url: string): nat {
    if url in m then m[url] else 0
  }

  // LREM q 1 x: the first occurrence from the head goes.
  function Remove<T(==)>(q: seq<T>, x: T): (r: seq<T>)
    ensures x !in q ==> r == q
    ensures x in q ==> |r| == |q| - 1
  {
    if q == [] then []
    else if q[0] == x then q[1..]
    else [q[0]] + Remove(q[1..], x)
  }

  predicate Distinct<T(==)>(q: seq<T>) {
    forall i, j | 0 <= i < j < |q| :: q[i] != q[j]
  }

  // ZRANGEBYSCORE z -inf max LIMIT 0 limit: the lowest-scored keys within max, in
  // score order; a negative limit is none. Redis breaks ties by name; here any order of
  // equal scores will do.
  predicate IsPage<K(!new)>(z: map<K, int>, max: int, limit: int, page: seq<K>) {
    && Distinct(page)
    && (limit >= 0 ==> |page| <= limit)
    && (forall i | 0 <= i < |page| :: page[i] in z && z[page[i]] <= max)
    && (forall i, j | 0 <= i < j < |page| :: z[page[i]] <= z[page[j]])
    && (forall k | k in z && z[k] <= max && k !in page ::
          |page| == limit && forall i | 0 <= i < |page| :: z[page[i]] <= z[k])
  }

  // LRANGE q -limit -1: the limit oldest entries.
  function TailWindow<T>(q: seq<T>, limit: nat): seq<T> {
    if |q| <= limit then q else q[|q| - limit..]
  }

  method Earliest<K(==, !new)>(z: map<K, int>, keys: set<K>) returns (first: K)
    requires keys != {} && keys <= z.Keys
    ensures first in keys && forall k | k in keys :: z[first] <= z[k]
  {
    first :| first in keys;
    var rest := keys - {first};
    while rest != {}
      invariant rest <= keys && first in keys
      invariant forall k | k in keys - rest :: z[first] <= z[k]
    {
      var k :| k in rest;
      if z[k] < z[first] { first := k; }
      rest := rest - {k};
    }
  }

  method RangeByScore<K(==, !new)>(z: map<K, int>, max: int, limit: int) returns (page: seq<K>)
    ensures IsPage(z, max, limit, page)
  {
    page := [];
    var rest := set k | k in z && z[k] <= max;
    while (limit < 0 || |page| < limit) && rest != {}
      invariant limit >= 0 ==> |page| <= limit
      invariant Distinct(page)
      invariant rest == set k | k in z && z[k] <= max && k !in page
      invariant forall i | 0 <= i < |page| :: page[i] in z && z[page[i]] <= max
      invariant forall i, j | 0 <= i < j < |page| :: z[page[i]] <= z[page[j]]
      invariant forall i, k | 0 <= i < |page| && k in rest :: z[page[i]] <= z[k]
      decreases rest
    {
      var first := Earliest(z, rest);
      page := page + [first];
      rest := rest - {first};
    }
    assert limit < 0 ==> rest == {};
    assert forall k | k in z && z[k] <= max && k !in page :: k in rest;
  }

  // From head to tail the job ids fall strictly, and all are below `bound`.
  predicate Descending(q: seq<Member>, bound: nat) {
    q == [] || (q[0].id < bound && Descending(q[1..], q[0].id))
  }

  predicate HasId(q: seq<Member>, id: nat) { exists m | m in q :: m.id == id }

  lemma {:induction false} DescendingIds(q: seq<Member>, bound: nat)
    requires Descending(q, bound)
    ensures forall m | m in q :: m.id < bound
    ensures forall i, j | 0 <= i < j < |q| :: q[i].id > q[j].id
  {
    if q != [] {
      DescendingIds(q[1..], q[0].id);
      assert q == [q[0]] + q[1..];
    }
  }

  // Removing from a list without repetitions takes out the member and nothing else.
  lemma {:induction false} RemoveDescending(q: seq<Member>, bound: nat, x: Member)
    requires Descending(q, bound)
    ensures Descending(Remove(q, x), bound)
    ensures forall y :: y in Remove(q, x) <==> y in q && y != x
  {
    if q != [] {
      var tail := q[1..];
      DescendingIds(tail, q[0].id);
      assert q == [q[0]] + tail;
      RemoveDescending(tail, q[0].id, x);
      if q[0] == x {
        DescendingWider(tail, q[0].id, bound);
      } else {
        assert Remove(q, x)[1..] == Remove(tail, x);
      }
    }
  }

  lemma {:induction false} DescendingWider(q: seq<Member>, low: nat, high: nat)
    requires Descending(q, low) && low <= high
    ensures Descending(q, high)
  {
  }

  lemma {:induction false} DescendingDrop(front: seq<Member>, back: seq<Member>, bound: nat, x: Member)
    requires Descending(front + back, bound)
    ensures Descending(front + Remove(back, x), bound)
    ensures Descending(back, bound)
  {
    if front == [] {
      assert front + back == back;
      assert front + Remove(back, x) == Remove(back, x);
      RemoveDescending(back, bound, x);
    } else {
      assert (front + back)[1..] == front[1..] + back;
      assert (front + Remove(back, x))[1..] == front[1..] + Remove(back, x);
      DescendingDrop(front[1..], back, front[0].id, x);
      DescendingWider(back, front[0].id, bound);
    }
  }
}
