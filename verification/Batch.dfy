/** What a scheduling batch places when every dispatch is accepted and nobody interferes. */
module Batch {
  import opened Model
  import opened Placement
  import opened Tables
  import opened Database
  import opened Scheduler

  predicate Undisturbed(r: Round, cutoff: int) {
    r.before == [] && r.between == [] && r.cutoff == cutoff && Accepted(r.outcome)
  }

  /** A batch from a given state at one cutoff, without interference and with every dispatch accepted. */
  ghost predicate QuietBatch(s: Db, rounds: seq<Round>, first: Option<QueryId>, cutoff: int) {
    rounds == [] ||
    var n := |rounds| - 1;
    && QuietBatch(s, rounds[..n], first, cutoff)
    && Undisturbed(rounds[n], cutoff)
    && Claims(Rounds(s, rounds[..n]), RoundClaim(rounds[n], n, first))
  }

  /** Such a batch is what legal rounds are then. */
  lemma {:induction false} LegalIsQuietBatch(s: Db, rounds: seq<Round>, first: Option<QueryId>, cutoff: int)
    requires Legal(s, rounds, first) && forall k :: 0 <= k < |rounds| ==> Undisturbed(rounds[k], cutoff)
    ensures QuietBatch(s, rounds, first, cutoff)
    decreases |rounds|
  {
    if rounds == [] {
    } else {
      LegalIsQuietBatch(s, rounds[..|rounds| - 1], first, cutoff);
      assert Undisturbed(rounds[|rounds| - 1], cutoff);
    }
  }

  lemma QuietRound(s: Db, r: Round, cutoff: int)
    requires Undisturbed(r, cutoff)
    ensures After(s, r) == ClaimRow(s, r.q, r.w)
  {
  }

  ghost function Ids(rounds: seq<Round>): set<QueryId> {
    set k | 0 <= k < |rounds| :: rounds[k].q
  }

  /** What a list of placements adds to one worker's load. */
  function Added(s: Db, rounds: seq<Round>, w: WorkerId, m: Measure): int {
    if rounds == [] then 0 else
    var r := rounds[|rounds| - 1];
    Added(s, rounds[..|rounds| - 1], w, m) +
      if r.w != w || r.q !in s.queries then 0 else
      match m case Count => 1 case Total(x) => Coalesce(s.queries[r.q].request.Of(x), 0)
  }

  lemma ClaimEffect(s: Db, q: QueryId, w: WorkerId)
    requires IsPending(s, q)
    ensures PendingIds(ClaimRow(s, q, w)) == PendingIds(s) - {q}
    ensures RunningIds(ClaimRow(s, q, w)) == RunningIds(s) + {q}
    ensures SameFixedColumns(s, ClaimRow(s, q, w))
  {
  }

  /** The columns a claim never writes. */
  predicate SameFixedColumns(s: Db, t: Db) {
    && t.workers == s.workers && t.queries.Keys == s.queries.Keys
    && forall q :: q in s.queries ==>
         t.queries[q].createdAt == s.queries[q].createdAt && t.queries[q].request == s.queries[q].request
  }

  lemma {:induction false} BatchPrefix(s: Db, rounds: seq<Round>, k: nat, first: Option<QueryId>, cutoff: int)
    requires QuietBatch(s, rounds, first, cutoff) && k <= |rounds|
    ensures QuietBatch(s, rounds[..k], first, cutoff)
    decreases |rounds|
  {
    if k == |rounds| {
      assert rounds[..k] == rounds;
    } else {
      BatchPrefix(s, rounds[..|rounds| - 1], k, first, cutoff);
      assert rounds[..|rounds| - 1][..k] == rounds[..k];
    }
  }

  /** The batch moves its queries from pending to running and leaves every request, creation time and worker as it was. */
  lemma {:induction false} BatchEffect(s: Db, rounds: seq<Round>, first: Option<QueryId>, cutoff: int)
    requires QuietBatch(s, rounds, first, cutoff)
    ensures SameFixedColumns(s, Rounds(s, rounds))
    ensures Ids(rounds) <= PendingIds(s) && PendingIds(Rounds(s, rounds)) == PendingIds(s) - Ids(rounds)
    decreases |rounds|
  {
    if rounds == [] {
      assert Ids(rounds) == {};
    } else {
      var n := |rounds| - 1;
      var r := rounds[n];
      BatchEffect(s, rounds[..n], first, cutoff);
      var u := Rounds(s, rounds[..n]);
      QuietRound(u, r, cutoff);
      ClaimEffect(u, r.q, r.w);
      assert r.q in PendingIds(u);
      IdsSplit(rounds);
      TakeOne(PendingIds(s), Ids(rounds[..n]), r.q);
    }
  }

  lemma TakeOne(all: set<QueryId>, taken: set<QueryId>, q: QueryId)
    requires taken <= all && q in all - taken
    ensures taken + {q} <= all && all - taken - {q} == all - (taken + {q})
  {
  }

  lemma IdsSplit(rounds: seq<Round>)
    requires rounds != []
    ensures Ids(rounds) == Ids(rounds[..|rounds| - 1]) + {rounds[|rounds| - 1].q}
  {
    var n := |rounds| - 1;
    forall q | q in Ids(rounds) ensures q in Ids(rounds[..n]) + {rounds[n].q} {
      var k :| 0 <= k < |rounds| && rounds[k].q == q;
      assert k < n ==> rounds[..n][k].q == q;
    }
    forall q | q in Ids(rounds[..n]) ensures q in Ids(rounds) {
      var k :| 0 <= k < n && rounds[..n][k].q == q;
      assert rounds[k].q == q;
    }
  }

  lemma {:induction false} BatchLoads(
    s: Db, rounds: seq<Round>, first: Option<QueryId>, cutoff: int, w: WorkerId, m: Measure)
    requires QuietBatch(s, rounds, first, cutoff)
    ensures Load(Rounds(s, rounds).queries, w, m) == Load(s.queries, w, m) + Added(s, rounds, w, m)
    decreases |rounds|
  {
    if rounds == [] {
    } else {
      var n := |rounds| - 1;
      var r := rounds[n];
      BatchEffect(s, rounds[..n], first, cutoff);
      BatchLoads(s, rounds[..n], first, cutoff, w, m);
      var u := Rounds(s, rounds[..n]);
      QuietRound(u, r, cutoff);
      LoadUpdate(u.queries, r.q, ClaimRow(u, r.q, r.w).queries[r.q], w, m);
    }
  }

  /** Nothing pending outside `taken` is older than q. */
  ghost predicate OldestLeft(s: Db, taken: set<QueryId>, q: QueryId) {
    q in PendingIds(s) && q !in taken &&
    forall p :: p in PendingIds(s) && p !in taken ==> s.queries[q].createdAt <= s.queries[p].createdAt
  }

  lemma EachIsOldestLeft(s: Db, rounds: seq<Round>, cutoff: int, k: nat)
    requires QuietBatch(s, rounds, None, cutoff) && k < |rounds|
    ensures QuietBatch(s, rounds[..k], None, cutoff)
    ensures OldestLeft(s, Ids(rounds[..k]), rounds[k].q)
    ensures Best(Rounds(s, rounds[..k]), rounds[k].w, s.queries[rounds[k].q].request, cutoff)
    ensures Rounds(s, rounds[..k]).workers == s.workers
  {
    BatchPrefix(s, rounds, k + 1, None, cutoff);
    assert rounds[..k + 1][..k] == rounds[..k];
    BatchEffect(s, rounds[..k], None, cutoff);
    var t := Rounds(s, rounds[..k]);
    assert Claims(t, RoundClaim(rounds[k], k, None));
    HeadIsOldestLeft(s, t, Ids(rounds[..k]), rounds[k].q);
  }

  lemma HeadIsOldestLeft(s: Db, t: Db, taken: set<QueryId>, q: QueryId)
    requires SameFixedColumns(s, t) && PendingIds(t) == PendingIds(s) - taken && IsHead(t, q)
    ensures OldestLeft(s, taken, q)
  {
    assert q in PendingIds(t);
    forall p | p in PendingIds(s) && p !in taken ensures s.queries[q].createdAt <= s.queries[p].createdAt {
      assert p in PendingIds(t) && IsPending(t, p);
    }
  }

  /** Each claim takes a query no younger than any left, for a worker that is best for it given the loads before the
      batch plus what the batch has already added. */
  lemma EachPlacementIsGreedy(s: Db, rounds: seq<Round>, cutoff: int, k: nat)
    requires QuietBatch(s, rounds, None, cutoff) && k < |rounds|
    ensures OldestLeft(s, Ids(rounds[..k]), rounds[k].q)
    ensures Best(Rounds(s, rounds[..k]), rounds[k].w, s.queries[rounds[k].q].request, cutoff)
    ensures Rounds(s, rounds[..k]).workers == s.workers
    ensures forall w, m :: Load(Rounds(s, rounds[..k]).queries, w, m) ==
                           Load(s.queries, w, m) + Added(s, rounds[..k], w, m)
  {
    EachIsOldestLeft(s, rounds, cutoff, k);
    forall w, m
      ensures Load(Rounds(s, rounds[..k]).queries, w, m) == Load(s.queries, w, m) + Added(s, rounds[..k], w, m)
    {
      BatchLoads(s, rounds[..k], None, cutoff, w, m);
    }
  }

  // ----- The batch as a prefix of the queue -----

  /** A list of exactly these rows, each once, in created_at order; rows of one creation time may stand in any order. */
  ghost predicate Listing(s: Db, ids: set<QueryId>, list: seq<QueryId>) {
    && ids <= s.queries.Keys
    && (forall q :: q in list <==> q in ids)
    && (forall i, j :: 0 <= i < j < |list| ==> list[i] != list[j])
    && forall i, j :: 0 <= i < j < |list| && list[i] in ids && list[j] in ids ==>
         s.queries[list[i]].createdAt <= s.queries[list[j]].createdAt
  }

  ghost predicate QueueOf(s: Db, queue: seq<QueryId>) {
    Listing(s, PendingIds(s), queue)
  }

  lemma ListingPut(s: Db, ids: set<QueryId>, q: QueryId, list: seq<QueryId>)
    requires q in ids && ids <= s.queries.Keys && Listing(s, ids - {q}, list)
    requires forall p :: p in ids ==> s.queries[q].createdAt <= s.queries[p].createdAt
    ensures Listing(s, ids, [q] + list)
  {
    var longer := [q] + list;
    forall i, j | 0 <= i < j < |longer|
      ensures longer[i] != longer[j] && longer[i] in ids && longer[j] in ids
      ensures s.queries[longer[i]].createdAt <= s.queries[longer[j]].createdAt
    {
      assert longer[j] == list[j - 1] && list[j - 1] in list;
      if i > 0 {
        assert longer[i] == list[i - 1] && list[i - 1] in list;
      }
    }
    forall p ensures p in longer <==> p in ids {
      assert p in longer <==> p == q || p in list;
    }
  }

  lemma {:induction false} ListingExists(s: Db, ids: set<QueryId>) returns (list: seq<QueryId>)
    requires ids <= s.queries.Keys
    ensures Listing(s, ids, list)
    decreases |ids|
  {
    if ids == {} {
      list := [];
    } else {
      var q := OldestExists(s, ids);
      var rest := ListingExists(s, ids - {q});
      ListingPut(s, ids, q, rest);
      list := [q] + rest;
    }
  }

  /** A listing of what is left after a first part can be exchanged for any other. */
  lemma ListingTail(s: Db, ids: set<QueryId>, list: seq<QueryId>, n: nat, tail: seq<QueryId>)
    requires Listing(s, ids, list) && n <= |list|
    requires Listing(s, ids - (set q | q in list[..n]), tail)
    ensures Listing(s, ids, list[..n] + tail)
  {
    var front := list[..n];
    var longer := front + tail;
    assert forall i :: 0 <= i < n ==> front[i] == list[i] && list[i] in list;
    assert forall q :: q in longer <==> q in front || q in tail;
    forall i, j | 0 <= i < j < |longer|
      ensures longer[i] != longer[j] && longer[i] in ids && longer[j] in ids
      ensures s.queries[longer[i]].createdAt <= s.queries[longer[j]].createdAt
    {
      if j < n {
      } else {
        assert longer[j] == tail[j - n] && tail[j - n] in tail;
        if i < n {
          assert front[i] in front;
          TailIsLater(s, ids, list, n, i, longer[j]);
        } else {
          assert longer[i] == tail[i - n] && tail[i - n] in tail;
        }
      }
    }
  }

  lemma TailIsLater(s: Db, ids: set<QueryId>, list: seq<QueryId>, n: nat, i: nat, q: QueryId)
    requires Listing(s, ids, list) && i < n <= |list| && q in ids && q !in list[..n]
    ensures list[i] in ids && s.queries[list[i]].createdAt <= s.queries[q].createdAt
  {
    assert list[i] in list;
    assert list == list[..n] + list[n..] && q in list[n..];
    var j :| 0 <= j < |list[n..]| && list[n..][j] == q;
    assert list[n + j] == q;
  }

  /** The rounds are for the first queries of the queue, in order. */
  ghost predicate Heads(rounds: seq<Round>, queue: seq<QueryId>) {
    |rounds| <= |queue| && forall k :: 0 <= k < |rounds| ==> rounds[k].q == queue[k]
  }

  lemma IdsOfHeads(rounds: seq<Round>, queue: seq<QueryId>)
    requires Heads(rounds, queue)
    ensures Ids(rounds) == set q | q in queue[..|rounds|]
  {
    forall q | q in queue[..|rounds|] ensures q in Ids(rounds) {
      var k :| 0 <= k < |rounds| && queue[k] == q;
      assert rounds[k].q == q;
    }
  }

  lemma SameListing(s: Db, t: Db, ids: set<QueryId>, list: seq<QueryId>)
    requires SameFixedColumns(s, t)
    ensures Listing(s, ids, list) <==> Listing(t, ids, list)
  {
  }

  lemma BehindIsApart(list: seq<QueryId>, n: nat, q: QueryId)
    requires n <= |list| && q in list[n..]
    requires forall i, j :: 0 <= i < j < |list| ==> list[i] != list[j]
    ensures q !in list[..n]
  {
    var i :| n <= i < |list| && list[i] == q;
    assert forall j :: 0 <= j < n ==> list[..n][j] != list[i];
  }

  lemma BehindOrBefore(list: seq<QueryId>, n: nat, q: QueryId)
    requires n <= |list|
    ensures q in list <==> q in list[..n] || q in list[n..]
  {
    assert list == list[..n] + list[n..];
  }

  /** What is left of the queue behind a first part. */
  lemma ListingDrop(s: Db, ids: set<QueryId>, list: seq<QueryId>, n: nat)
    requires Listing(s, ids, list) && n <= |list|
    ensures Listing(s, ids - (set q | q in list[..n]), list[n..])
  {
    var rest, left := list[n..], ids - (set q | q in list[..n]);
    forall q ensures q in rest <==> q in left {
      BehindOrBefore(list, n, q);
      if q in rest {
        BehindIsApart(list, n, q);
      }
    }
    assert forall i :: 0 <= i < |rest| ==> rest[i] == list[n + i];
  }

  /** After the batch the pending queries are the rest of the queue. */
  lemma RestOfQueue(s: Db, rounds: seq<Round>, cutoff: int, queue: seq<QueryId>)
    requires QuietBatch(s, rounds, None, cutoff) && QueueOf(s, queue) && Heads(rounds, queue)
    ensures QueueOf(Rounds(s, rounds), queue[|rounds|..])
  {
    BatchEffect(s, rounds, None, cutoff);
    IdsOfHeads(rounds, queue);
    ListingDrop(s, PendingIds(s), queue, |rounds|);
    SameListing(s, Rounds(s, rounds), PendingIds(Rounds(s, rounds)), queue[|rounds|..]);
  }

  /** A queue whose first part is the batch can be continued with any query that may come next. */
  lemma QueueContinues(s: Db, rounds: seq<Round>, cutoff: int, queue: seq<QueryId>, q: QueryId)
    returns (next: seq<QueryId>)
    requires QuietBatch(s, rounds, None, cutoff) && QueueOf(s, queue) && Heads(rounds, queue)
    requires IsHead(Rounds(s, rounds), q)
    ensures QueueOf(s, next) && Heads(rounds, next) && |rounds| < |next| && next[|rounds|] == q
  {
    var t, n := Rounds(s, rounds), |rounds|;
    BatchEffect(s, rounds, None, cutoff);
    IdsOfHeads(rounds, queue);
    assert q in PendingIds(t);
    forall p | p in PendingIds(t) ensures t.queries[q].createdAt <= t.queries[p].createdAt {
      assert IsPending(t, p);
    }
    var rest := ListingExists(t, PendingIds(t) - {q});
    ListingPut(t, PendingIds(t), q, rest);
    SameListing(s, t, PendingIds(t), [q] + rest);
    ListingTail(s, PendingIds(s), queue, n, [q] + rest);
    next := queue[..n] + ([q] + rest);
  }

  /** The batch is a prefix of the pending queue in created_at order. */
  lemma {:induction false} BatchIsPrefix(s: Db, rounds: seq<Round>, cutoff: int) returns (queue: seq<QueryId>)
    requires QuietBatch(s, rounds, None, cutoff)
    ensures QueueOf(s, queue) && Heads(rounds, queue)
    decreases |rounds|
  {
    if rounds == [] {
      queue := ListingExists(s, PendingIds(s));
    } else {
      var n := |rounds| - 1;
      var shorter := BatchIsPrefix(s, rounds[..n], cutoff);
      queue := QueueContinues(s, rounds[..n], cutoff, shorter, rounds[n].q);
      assert forall k :: 0 <= k < n ==> rounds[..n][k] == rounds[k];
    }
  }

  /** ... and the longest one that could be placed: what stops a short batch is the end of the queue, or its next query,
      which has no eligible worker. */
  lemma BatchIsLongest(s: Db, rounds: seq<Round>, cutoff: int) returns (queue: seq<QueryId>)
    requires QuietBatch(s, rounds, None, cutoff) && NothingToClaim(Rounds(s, rounds), cutoff)
    ensures QueueOf(s, queue) && Heads(rounds, queue)
    ensures |rounds| < |queue| ==>
              IsPending(Rounds(s, rounds), queue[|rounds|]) && NoWorkerFor(Rounds(s, rounds), queue[|rounds|], cutoff)
  {
    queue := BatchIsPrefix(s, rounds, cutoff);
    var t := Rounds(s, rounds);
    if PendingIds(t) == {} {
      RestOfQueue(s, rounds, cutoff, queue);
      var rest := queue[|rounds|..];
      assert forall i :: 0 <= i < |rest| ==> rest[i] in PendingIds(t);
    } else {
      var head :| head in t.queries && IsHead(t, head) && NoWorkerFor(t, head, cutoff);
      queue := QueueContinues(s, rounds, cutoff, queue, head);
    }
  }

  ghost predicate DistinctTimes(s: Db, ids: set<QueryId>) {
    ids <= s.queries.Keys &&
    forall p, q :: p in ids && q in ids && s.queries[p].createdAt == s.queries[q].createdAt ==> p == q
  }

  lemma SameFirst(s: Db, ids: set<QueryId>, a: seq<QueryId>, b: seq<QueryId>)
    requires Listing(s, ids, a) && Listing(s, ids, b) && DistinctTimes(s, ids) && a != [] && b != []
    ensures a[0] == b[0]
  {
    assert a[0] in a && b[0] in b;
    FirstIsOldest(s, ids, a, b[0]);
    FirstIsOldest(s, ids, b, a[0]);
  }

  lemma ListingRest(s: Db, ids: set<QueryId>, list: seq<QueryId>)
    requires Listing(s, ids, list) && list != []
    ensures Listing(s, ids - {list[0]}, list[1..])
  {
    ListingDrop(s, ids, list, 1);
    assert (set q | q in list[..1]) == {list[0]} by { assert list[..1] == [list[0]]; }
  }

  /** With distinct creation times there is only one such order, so the batch is the prefix of it. */
  lemma {:induction false} QueueIsUnique(s: Db, ids: set<QueryId>, a: seq<QueryId>, b: seq<QueryId>)
    requires Listing(s, ids, a) && Listing(s, ids, b) && DistinctTimes(s, ids)
    ensures a == b
    decreases |a|
  {
    ListingOfNone(s, ids, a);
    ListingOfNone(s, ids, b);
    if a == [] {
    } else {
      SameFirst(s, ids, a, b);
      ListingRest(s, ids, a);
      ListingRest(s, ids, b);
      QueueIsUnique(s, ids - {a[0]}, a[1..], b[1..]);
      assert a == [a[0]] + a[1..] && b == [b[0]] + b[1..];
    }
  }

  lemma ListingOfNone(s: Db, ids: set<QueryId>, list: seq<QueryId>)
    requires Listing(s, ids, list)
    ensures list == [] <==> ids == {}
  {
    if list != [] {
      assert list[0] in list;
    }
  }

  lemma FirstIsOldest(s: Db, ids: set<QueryId>, list: seq<QueryId>, q: QueryId)
    requires Listing(s, ids, list) && q in list
    ensures list[0] in ids && q in ids && s.queries[list[0]].createdAt <= s.queries[q].createdAt
  {
    var i :| 0 <= i < |list| && list[i] == q;
    assert list[0] in list;
  }

  /** So with distinct creation times the batch is the longest placeable prefix of the queue. */
  lemma BatchIsThePrefix(s: Db, rounds: seq<Round>, cutoff: int, queue: seq<QueryId>)
    requires QuietBatch(s, rounds, None, cutoff) && QueueOf(s, queue) && DistinctTimes(s, PendingIds(s))
    ensures Heads(rounds, queue)
    ensures NothingToClaim(Rounds(s, rounds), cutoff) && |rounds| < |queue| ==>
              IsPending(Rounds(s, rounds), queue[|rounds|]) && NoWorkerFor(Rounds(s, rounds), queue[|rounds|], cutoff)
  {
    var some := BatchIsPrefix(s, rounds, cutoff);
    QueueIsUnique(s, PendingIds(s), queue, some);
    if NothingToClaim(Rounds(s, rounds), cutoff) {
      var longest := BatchIsLongest(s, rounds, cutoff);
      QueueIsUnique(s, PendingIds(s), queue, longest);
    }
  }

  // ----- The batch method -----

  /** schedule_pending_queries at one cutoff, with every dispatch accepted and nobody interfering: it claims the first
      queries of the pending queue in created_at order and leaves the rest of that queue pending; it stops early only at
      the end of the queue or at a query that no worker is eligible for. */
  method ScheduleUndisturbed(db: Store, maxBatch: nat, cutoff: int)
    returns (scheduled: nat, ghost rounds: seq<Round>, ghost queue: seq<QueryId>)
    modifies db
    ensures scheduled == |rounds| <= maxBatch
    ensures QuietBatch(old(db.State()), rounds, None, cutoff) && db.State() == Rounds(old(db.State()), rounds)
    ensures QueueOf(old(db.State()), queue) && Heads(rounds, queue) && QueueOf(db.State(), queue[scheduled..])
    ensures scheduled < maxBatch && scheduled < |queue| ==>
              IsPending(db.State(), queue[scheduled]) && NoWorkerFor(db.State(), queue[scheduled], cutoff)
  {
    ghost var last;
    scheduled, rounds, last := SchedulePendingQueries(db, None, maxBatch, _ => cutoff, _ => Answer(202), _ => ([], []));
    forall k | 0 <= k < |rounds| ensures Undisturbed(rounds[k], cutoff) {
      assert Given(rounds[k], cutoff, Answer(202), ([], []));
    }
    LegalIsQuietBatch(old(db.State()), rounds, None, cutoff);
    assert last == [] && Run(Rounds(old(db.State()), rounds), []) == db.State();
    if scheduled < maxBatch {
      queue := BatchIsLongest(old(db.State()), rounds, cutoff);
    } else {
      queue := BatchIsPrefix(old(db.State()), rounds, cutoff);
    }
    RestOfQueue(old(db.State()), rounds, cutoff, queue);
  }
}
