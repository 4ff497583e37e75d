/** Safety over whole runs of database calls. */
module Runs {
  import opened Model
  import opened Placement
  import opened Sums
  import opened Tables

  // ----- Row shape, ownership and the notification log -----

  predicate WellShaped(r: Query) {
    && (r.status.Pending? ==> r.worker.None? && r.startedAt.None?)
    && (r.status.Running? ==> r.worker.Some? && r.startedAt.Some?)
    && (r.completedAt.Some? <==> Terminal(r.status))
  }

  ghost predicate Shapely(s: Db) {
    forall q :: q in s.queries ==>
      WellShaped(s.queries[q]) && (s.queries[q].worker.Some? ==> s.queries[q].worker.value in s.workers)
  }

  /** No unreachable or stopped worker owns a running query. */
  ghost predicate Owned(s: Db) {
    forall q :: q in s.queries && s.queries[q].status.Running? && s.queries[q].worker.Some? &&
                s.queries[q].worker.value in s.workers ==>
      !s.workers[s.queries[q].worker.value].status.Unreachable? && !s.workers[s.queries[q].worker.value].status.Stopped?
  }

  function LastStatus(log: Log, q: QueryId): QueryStatus {
    var notes := Notes(log, q);
    if notes == [] then Pending else notes[|notes| - 1].status
  }

  /** Each row's status is that of its last notice, and notices exist only for rows. */
  ghost predicate LogAgrees(s: Db) {
    Agree(s.queries, s.log)
  }

  ghost predicate Agree(rows: map<QueryId, Query>, log: Log) {
    (forall q :: q in rows ==> LastStatus(log, q) == rows[q].status) && log.Keys <= rows.Keys
  }

  lemma LossKeepsShape(s: Db, ws: set<WorkerId>, status: WorkerStatus)
    requires Shapely(s)
    ensures Shapely(LoseWorkers(s, ws, status))
  {
  }

  lemma DoKeepsShape(s: Db, step: Step)
    requires Shapely(s)
    ensures Shapely(Do(s, step))
  {
    if step.MarkUnreachable? {
      LossKeepsShape(s, {step.w}, Unreachable);
    } else if step.Sweep? {
      LossKeepsShape(s, Stale(s, step.cutoff), Stopped);
    }
  }

  lemma DoKeepsOwners(s: Db, step: Step)
    requires Shapely(s) && Owned(s) && Sane(step)
    ensures Owned(Do(s, step))
  {
  }

  lemma PostMeaning(log: Log, q: QueryId, n: Notice)
    ensures LastStatus(Post(log, q, n), q) == n.status
    ensures forall p :: p != q ==> LastStatus(Post(log, q, n), p) == LastStatus(log, p)
  {
  }

  lemma PostAllMeaning(log: Log, qs: set<QueryId>, n: Notice)
    ensures forall p :: LastStatus(PostAll(log, qs, n), p) == if p in qs then n.status else LastStatus(log, p)
  {
  }

  lemma RowEditKeepsLog(s: Db, q: QueryId, r: Query, n: Notice)
    requires LogAgrees(s) && q in s.queries && r.status == n.status
    ensures LogAgrees(s.(queries := s.queries[q := r], log := Post(s.log, q, n)))
  {
    PostMeaning(s.log, q, n);
  }

  lemma RequeueKeepsLog(s: Db, qs: set<QueryId>)
    requires LogAgrees(s) && qs <= s.queries.Keys
    ensures LogAgrees(RequeueAll(s, qs))
  {
    PostAllMeaning(s.log, qs, Notice(Pending, LOST_WORKER, None));
  }

  lemma LossKeepsLog(s: Db, ws: set<WorkerId>, status: WorkerStatus)
    requires LogAgrees(s)
    ensures LogAgrees(LoseWorkers(s, ws, status))
  {
    RequeueKeepsLog(SetStatus(s, ws, status), HeldBy(s, ws));
  }

  lemma SweepKeepsLog(s: Db, cutoff: int)
    requires LogAgrees(s)
    ensures LogAgrees(SweepStaleWorkers(s, cutoff))
  {
    LossKeepsLog(s, Stale(s, cutoff), Stopped);
  }

  lemma CreateKeepsLog(s: Db, q: QueryId, sql: string, req: Request, user: Option<UserId>)
    requires LogAgrees(s)
    ensures LogAgrees(CreateQuery(s, q, sql, req, user))
  {
    assert q !in s.queries ==> Notes(s.log, q) == [];
  }

  lemma RevertKeepsLog(s: Db, q: QueryId)
    requires LogAgrees(s)
    ensures LogAgrees(RevertQueryToPending(s, q))
  {
    if q in s.queries {
      RowEditKeepsLog(s, q, Requeued(s.queries[q]), Notice(Pending, None, None));
    }
  }

  lemma CompleteKeepsLog(s: Db, q: QueryId, v: Verdict, error: Option<string>, count: Option<int>)
    requires LogAgrees(s)
    ensures LogAgrees(CompleteQuery(s, q, v, error, count))
  {
    if CompleteAnswer(s, q, v) {
      RowEditKeepsLog(s, q, CompleteQuery(s, q, v, error, count).queries[q], Notice(v, error, count));
      assert s.queries[q := s.queries[q]] == s.queries;
    }
  }

  lemma CancelKeepsLog(s: Db, q: QueryId, error: Option<string>)
    requires LogAgrees(s)
    ensures LogAgrees(MarkQueryCancelled(s, q, error))
  {
    if Active(s, q) {
      var r := MarkQueryCancelled(s, q, error).queries[q];
      RowEditKeepsLog(s, q, r, Notice(Cancelled, r.error, None));
    }
  }

  lemma ClaimKeepsLog(s: Db, q: QueryId, w: WorkerId)
    requires LogAgrees(s)
    ensures LogAgrees(ClaimRow(s, q, w))
  {
    if q in s.queries {
      RowEditKeepsLog(s, q, ClaimRow(s, q, w).queries[q], Notice(Running, None, None));
    }
  }

  lemma DoKeepsLog(s: Db, step: Step)
    requires LogAgrees(s)
    ensures LogAgrees(Do(s, step))
  {
    match step
    case Tick(_) =>
    case Register(_, _, _, _) =>
    case Heartbeat(_, _) =>
    case Ready(_) =>
    case Shutdown(_) =>
    case MarkUnreachable(w) => LossKeepsLog(s, {w}, Unreachable);
    case Sweep(cutoff) => SweepKeepsLog(s, cutoff);
    case Create(q, sql, req, user) => CreateKeepsLog(s, q, sql, req, user);
    case Complete(q, v, error, count) => CompleteKeepsLog(s, q, v, error, count);
    case Cancel(q, error) => CancelKeepsLog(s, q, error);
    case Revert(q) => RevertKeepsLog(s, q);
    case ClaimHead(q, w, _) => ClaimKeepsLog(s, q, w);
    case ClaimById(q, w, _) => ClaimKeepsLog(s, q, w);
  }

  // ----- The same over runs from empty tables -----

  lemma {:induction false} ReachableShape(now: int, steps: seq<Step>)
    ensures Shapely(Run(Empty(now), steps))
    decreases |steps|
  {
    if steps == [] {
    } else {
      ReachableShape(now, steps[..|steps| - 1]);
      DoKeepsShape(Run(Empty(now), steps[..|steps| - 1]), steps[|steps| - 1]);
    }
  }

  /** In every run, no unreachable or stopped worker owns a running query. */
  lemma {:induction false} LostWorkersOwnNothing(now: int, steps: seq<Step>)
    requires AllSane(steps)
    ensures Shapely(Run(Empty(now), steps)) && Owned(Run(Empty(now), steps))
    decreases |steps|
  {
    if steps == [] {
    } else {
      LostWorkersOwnNothing(now, steps[..|steps| - 1]);
      DoKeepsShape(Run(Empty(now), steps[..|steps| - 1]), steps[|steps| - 1]);
      DoKeepsOwners(Run(Empty(now), steps[..|steps| - 1]), steps[|steps| - 1]);
    }
  }

  /** In every run, a row's status is that of its last notification, pending if it has none. */
  lemma {:induction false} NotificationsAgree(now: int, steps: seq<Step>)
    ensures LogAgrees(Run(Empty(now), steps))
    decreases |steps|
  {
    if steps == [] {
    } else {
      NotificationsAgree(now, steps[..|steps| - 1]);
      DoKeepsLog(Run(Empty(now), steps[..|steps| - 1]), steps[|steps| - 1]);
    }
  }

  // ----- Recovery -----

  /** After a sweep every running query sits on an initializing worker or on one heard from since the cutoff. */
  lemma SweepRecovers(s: Db, cutoff: int, q: QueryId)
    requires Shapely(s) && Owned(s)
    requires q in s.queries
    ensures
      var t := SweepStaleWorkers(s, cutoff);
      q in t.queries && (t.queries[q].status.Running? ==>
        && t.queries[q].worker.Some? && t.queries[q].worker.value in t.workers
        && var worker := t.workers[t.queries[q].worker.value];
           worker.status.Initializing? || worker.lastHeartbeat >= cutoff)
  {
    LossMovesExactly(s, Stale(s, cutoff), Stopped);
    if s.queries[q].status.Running? {
      var w := s.queries[q].worker.value;
      assert w in Stale(s, cutoff) ==> q in HeldBy(s, Stale(s, cutoff));
    }
  }

  /** Requeuing a set of running rows moves exactly them to pending. */
  lemma RequeueMovesExactly(s: Db, held: set<QueryId>)
    requires held <= RunningIds(s)
    ensures PendingIds(RequeueAll(s, held)) == PendingIds(s) + held
    ensures RunningIds(RequeueAll(s, held)) == RunningIds(s) - held
  {
    var t := RequeueAll(s, held);
    assert t.queries.Keys == s.queries.Keys;
    assert forall q :: q in s.queries ==> t.queries[q].status == if q in held then Pending else s.queries[q].status;
  }

  lemma DisjointUnionSize(a: set<QueryId>, b: set<QueryId>)
    requires a !! b
    ensures |a + b| == |a| + |b|
  {
  }

  lemma LossMovesExactly(s: Db, ws: set<WorkerId>, status: WorkerStatus)
    ensures PendingIds(LoseWorkers(s, ws, status)) == PendingIds(s) + HeldBy(s, ws)
    ensures RunningIds(LoseWorkers(s, ws, status)) == RunningIds(s) - HeldBy(s, ws)
    ensures forall q :: q in s.queries ==>
              q in LoseWorkers(s, ws, status).queries &&
              LoseWorkers(s, ws, status).queries[q] ==
              if q in HeldBy(s, ws)
              then s.queries[q].(status := Pending, worker := None, startedAt := None,
                                 error := Some("Worker became unreachable"))
              else s.queries[q]
  {
    if ws != {} {
      var u := SetStatus(s, ws, status);
      assert PendingIds(u) == PendingIds(s) && RunningIds(u) == RunningIds(s);
      RequeueMovesExactly(u, HeldBy(s, ws));
    }
  }

  /** From s to t exactly these workers take on this status, and exactly what they were running goes back to the queue
      with the lost-worker error and one notice. */
  ghost predicate Lost(s: Db, t: Db, ws: set<WorkerId>, status: WorkerStatus) {
    && t.now == s.now
    && WorkersAre(s.workers, t.workers, ws, status)
    && RowsLose(s.queries, t.queries, ws)
    && forall q :: Notes(t.log, q) == Notes(s.log, q) + LossNotices(s, q, ws)
  }

  predicate WorkersAre(a: map<WorkerId, Worker>, b: map<WorkerId, Worker>, ws: set<WorkerId>, status: WorkerStatus) {
    b.Keys == a.Keys && forall w :: w in a ==> b[w] == if w in ws then a[w].(status := status) else a[w]
  }

  predicate RowsLose(a: map<QueryId, Query>, b: map<QueryId, Query>, ws: set<WorkerId>) {
    b.Keys == a.Keys && forall q :: q in a ==> b[q] == AfterLoss(a[q], ws)
  }

  function LossNotices(s: Db, q: QueryId, ws: set<WorkerId>): seq<Notice> {
    if q in s.queries && OnOneOf(s.queries[q], ws) then [Notice(Pending, Some("Worker became unreachable"), None)] else []
  }

  predicate OnOneOf(r: Query, ws: set<WorkerId>) {
    r.status == Running && r.worker.Some? && r.worker.value in ws
  }

  function AfterLoss(r: Query, ws: set<WorkerId>): Query {
    if !OnOneOf(r, ws) then r else
    r.(status := Pending, worker := None, startedAt := None, error := Some("Worker became unreachable"))
  }

  lemma LosesExactly(s: Db, ws: set<WorkerId>, status: WorkerStatus)
    ensures Lost(s, LoseWorkers(s, ws, status), ws, status)
  {
    var t := LoseWorkers(s, ws, status);
    LossSetsStatus(s, ws, status);
    LossRequeues(s, ws, status);
    forall q ensures Notes(t.log, q) == Notes(s.log, q) + LossNotices(s, q, ws) {
      LossNotifies(s, ws, status, q);
    }
  }

  lemma LossSetsStatus(s: Db, ws: set<WorkerId>, status: WorkerStatus)
    ensures WorkersAre(s.workers, LoseWorkers(s, ws, status).workers, ws, status)
  {
  }

  lemma LossRequeues(s: Db, ws: set<WorkerId>, status: WorkerStatus)
    ensures RowsLose(s.queries, LoseWorkers(s, ws, status).queries, ws)
  {
    var t := LoseWorkers(s, ws, status);
    LossMovesExactly(s, ws, status);
    assert t.queries.Keys == s.queries.Keys;
    assert forall q :: q in s.queries ==> (q in HeldBy(s, ws) <==> OnOneOf(s.queries[q], ws));
  }

  lemma LossNotifies(s: Db, ws: set<WorkerId>, status: WorkerStatus, q: QueryId)
    ensures Notes(LoseWorkers(s, ws, status).log, q) == Notes(s.log, q) + LossNotices(s, q, ws)
  {
    assert q in HeldBy(s, ws) <==> q in s.queries && OnOneOf(s.queries[q], ws);
    if ws != {} {
      assert LoseWorkers(s, ws, status).log == PostAll(s.log, HeldBy(s, ws), Notice(Pending, LOST_WORKER, None));
    }
  }

  /** Marking loses the worker if it was running or shutting down, and otherwise does nothing. */
  lemma MarkLosesExactly(s: Db, w: WorkerId)
    ensures
      var t := MarkWorkerUnreachable(s, w);
      if w in s.workers && s.workers[w].status in {Online, ShuttingDown} then Lost(s, t, {w}, Unreachable) else t == s
  {
    LosesExactly(s, {w}, Unreachable);
  }

  /** A sweep loses the workers that are running, shutting down or unreachable and silent since the cutoff. */
  lemma SweepLosesExactly(s: Db, cutoff: int)
    ensures
      var stale := set w | w in s.workers && s.workers[w].status in {Online, ShuttingDown, Unreachable} &&
                           s.workers[w].lastHeartbeat < cutoff;
      Lost(s, SweepStaleWorkers(s, cutoff), stale, Stopped)
  {
    LosesExactly(s, Stale(s, cutoff), Stopped);
    assert Stale(s, cutoff) ==
           set w | w in s.workers && s.workers[w].status in {Online, ShuttingDown, Unreachable} &&
                   s.workers[w].lastHeartbeat < cutoff;
  }

  /** A sweep moves exactly the running queries of the workers it stops back to pending, and touches no other row. */
  lemma SweepMovesExactly(s: Db, cutoff: int)
    ensures
      var t, held := SweepStaleWorkers(s, cutoff), HeldBy(s, Stale(s, cutoff));
      && PendingIds(t) == PendingIds(s) + held && |PendingIds(t)| == |PendingIds(s)| + |held|
      && RunningIds(t) == RunningIds(s) - held
      && (forall q :: q in s.queries && q !in held ==> q in t.queries && t.queries[q] == s.queries[q])
      && held <= t.queries.Keys
      && (forall q :: q in held ==>
            t.queries[q] == s.queries[q].(status := Pending, worker := None, startedAt := None,
                                          error := Some("Worker became unreachable")))
  {
    LossMovesExactly(s, Stale(s, cutoff), Stopped);
    DisjointUnionSize(PendingIds(s), HeldBy(s, Stale(s, cutoff)));
  }

  /** Without any assumption on ownership: what a sweep leaves running is exactly what sits on an initializing worker, on
      one heard from since the cutoff, or on one that was stopped before. */
  lemma SweepLeavesExactly(s: Db, cutoff: int, q: QueryId)
    requires Shapely(s) && q in s.queries && s.queries[q].status.Running?
    ensures q in SweepStaleWorkers(s, cutoff).queries
    ensures
      var worker := s.workers[s.queries[q].worker.value];
      SweepStaleWorkers(s, cutoff).queries[q].status.Running? <==>
      worker.status.Initializing? || worker.status.Stopped? || worker.lastHeartbeat >= cutoff
  {
    LossMovesExactly(s, Stale(s, cutoff), Stopped);
    var w := s.queries[q].worker.value;
    assert q in HeldBy(s, Stale(s, cutoff)) <==> w in Stale(s, cutoff);
  }

  /** The same at the end of every run of calls that ends in a sweep. */
  lemma SweepRecoversInEveryRun(now: int, steps: seq<Step>, cutoff: int, q: QueryId)
    requires AllSane(steps)
    ensures
      var t := SweepStaleWorkers(Run(Empty(now), steps), cutoff);
      q in t.queries && t.queries[q].status.Running? ==>
        && t.queries[q].worker.Some? && t.queries[q].worker.value in t.workers
        && var worker := t.workers[t.queries[q].worker.value];
           worker.status.Initializing? || worker.lastHeartbeat >= cutoff
  {
    var s := Run(Empty(now), steps);
    LostWorkersOwnNothing(now, steps);
    if q in s.queries {
      SweepRecovers(s, cutoff, q);
    }
  }

  /** Exactly when a heartbeat keeps ownership: unless it reports unreachable or stopped for a worker holding a query. */
  lemma HeartbeatKeepsOwners(s: Db, w: WorkerId, v: Vitals)
    requires Shapely(s) && Owned(s) && w in s.workers
    ensures Owned(Do(s, Heartbeat(w, v))) <==>
            (v.status.Some? && (v.status.value.Unreachable? || v.status.value.Stopped?) ==> HeldBy(s, {w}) == {})
  {
    var t := Do(s, Heartbeat(w, v));
    assert t.queries == s.queries;
    if HeldBy(s, {w}) != {} {
      var q :| q in HeldBy(s, {w});
      assert t.queries[q].worker.value == w;
    } else {
      assert forall q :: q in s.queries && RunsOn(s.queries[q], w) ==> q in HeldBy(s, {w});
    }
  }

  // ----- Workers that are heard from -----

  /** A call by which the coordinator hears from a known worker and notes the time. */
  predicate Hears(s: Db, step: Step, w: WorkerId) {
    w in s.workers &&
    match step
    case Heartbeat(v, _) => v == w
    case Ready(v) => v == w && s.workers[w].status == Initializing
    case Shutdown(v) => v == w && s.workers[w].status == Online
    case Register(v, _, _, _) => v == w
    case _ => false
  }

  predicate HeardSince(s: Db, w: WorkerId, since: int) {
    w in s.workers && since <= s.workers[w].lastHeartbeat && since <= s.now
  }

  lemma HeardIsNoted(s: Db, step: Step, w: WorkerId)
    requires Hears(s, step, w)
    ensures HeardSince(Do(s, step), w, s.now) && Do(s, step).now == s.now
  {
  }

  lemma DoKeepsHeard(s: Db, step: Step, w: WorkerId, since: int)
    requires HeardSince(s, w, since)
    ensures HeardSince(Do(s, step), w, since)
  {
  }

  lemma {:induction false} HeardIsForever(s: Db, steps: seq<Step>, w: WorkerId, since: int)
    requires HeardSince(s, w, since)
    ensures HeardSince(Run(s, steps), w, since)
    decreases |steps|
  {
    if steps == [] {
    } else {
      HeardIsForever(s, steps[..|steps| - 1], w, since);
      DoKeepsHeard(Run(s, steps[..|steps| - 1]), steps[|steps| - 1], w, since);
    }
  }

  /** Once a worker is heard from, then whatever happens next, a sweep whose cutoff is no later than that moment leaves
      the worker and everything it runs alone, and a claim with such a cutoff does not find it stale. */
  lemma HeardIsSpared(s: Db, heard: Step, w: WorkerId, steps: seq<Step>, cutoff: int)
    requires Hears(s, heard, w) && cutoff <= s.now
    ensures
      var u := Run(Do(s, heard), steps);
      var t := SweepStaleWorkers(u, cutoff);
      && w in u.workers && w in t.workers && t.workers[w] == u.workers[w]
      && (forall q :: q in u.queries && RunsOn(u.queries[q], w) ==> q in t.queries && t.queries[q] == u.queries[q])
      && forall req :: Eligible(u, w, req, cutoff) <==> u.workers[w].status == Online && HasRoom(u, w, req)
  {
    var u := Run(Do(s, heard), steps);
    HeardIsNoted(s, heard, w);
    HeardIsForever(Do(s, heard), steps, w, s.now);
    SweepLosesExactly(u, cutoff);
    forall req ensures Eligible(u, w, req, cutoff) <==> u.workers[w].status == Online && HasRoom(u, w, req) {
      EligibleMeaning(u, w, req, cutoff);
    }
  }

  // ----- Terminal rows -----

  /** No call ever changes a terminal row in any column. */
  lemma DoKeepsTerminal(s: Db, step: Step, q: QueryId)
    requires q in s.queries
    ensures q in Do(s, step).queries
    ensures Terminal(s.queries[q].status) ==> Do(s, step).queries[q] == s.queries[q]
  {
  }

  lemma {:induction false} TerminalIsForever(s: Db, steps: seq<Step>, q: QueryId)
    requires q in s.queries
    ensures q in Run(s, steps).queries
    ensures Terminal(s.queries[q].status) ==> Run(s, steps).queries[q] == s.queries[q]
    decreases |steps|
  {
    if steps == [] {
    } else {
      TerminalIsForever(s, steps[..|steps| - 1], q);
      DoKeepsTerminal(Run(s, steps[..|steps| - 1]), steps[|steps| - 1], q);
    }
  }

  // ----- What a row keeps for good -----

  /** Owner, text, request and creation time. */
  predicate SameOrigin(a: Query, b: Query) {
    (b.user, b.sql, b.request, b.createdAt) == (a.user, a.sql, a.request, a.createdAt)
  }

  /** No call changes the owner, text, request or creation time of a row. */
  lemma DoKeepsOrigin(s: Db, step: Step, q: QueryId)
    requires q in s.queries
    ensures q in Do(s, step).queries && SameOrigin(s.queries[q], Do(s, step).queries[q])
  {
  }

  lemma {:induction false} OriginIsForever(s: Db, steps: seq<Step>, q: QueryId)
    requires q in s.queries
    ensures q in Run(s, steps).queries && SameOrigin(s.queries[q], Run(s, steps).queries[q])
    decreases |steps|
  {
    if steps == [] {
    } else {
      OriginIsForever(s, steps[..|steps| - 1], q);
      DoKeepsOrigin(Run(s, steps[..|steps| - 1]), steps[|steps| - 1], q);
    }
  }

  /** In every run the loads of all workers sum to all running queries. */
  lemma LoadsSumInEveryRun(now: int, steps: seq<Step>)
    ensures
      var s := Run(Empty(now), steps);
      Sum(LoadTable(s.queries, s.workers.Keys), Itself()) == |RunningIds(s)|
  {
    ReachableShape(now, steps);
    LoadsSumToRunning(Run(Empty(now), steps));
  }

  // ----- Unreachable until heard from -----

  /** A ready call, or a heartbeat that says the worker is running. */
  predicate HeardFrom(step: Step, w: WorkerId) {
    (step.Ready? && step.w == w) || (step.Heartbeat? && step.w == w && step.vitals.status == Some(Online))
  }

  predicate Quiet(s: Db, w: WorkerId) {
    w in s.workers ==> !s.workers[w].status.Online?
  }

  lemma {:induction false} StaysQuiet(s: Db, steps: seq<Step>, w: WorkerId)
    requires Quiet(s, w)
    requires forall i :: 0 <= i < |steps| ==> !HeardFrom(steps[i], w)
    ensures Quiet(Run(s, steps), w)
    decreases |steps|
  {
    if steps == [] {
    } else {
      StaysQuiet(s, steps[..|steps| - 1], w);
      assert !HeardFrom(steps[|steps| - 1], w);
    }
  }

  /** After mark_worker_unreachable(w), no claim picks w until a ready call for w or a heartbeat that says it is running,
      whatever else happens; other heartbeats do not matter, nor does the worker's status before the mark. */
  lemma UnreachableUntilHeard(s: Db, w: WorkerId, steps: seq<Step>, claim: Step)
    requires forall i :: 0 <= i < |steps| ==> !HeardFrom(steps[i], w)
    ensures Claims(Run(Do(s, MarkUnreachable(w)), steps), claim) ==> claim.w != w
  {
    StaysQuiet(Do(s, MarkUnreachable(w)), steps, w);
  }

  /** Exactly what ends the status unreachable: a heartbeat that carries another status, a registration, or a sweep that
      finds the worker silent since the cutoff. A heartbeat without a status does not. */
  lemma WhatEndsUnreachable(s: Db, w: WorkerId, step: Step)
    requires w in s.workers && s.workers[w].status.Unreachable?
    ensures w in Do(s, step).workers
    ensures !Do(s, step).workers[w].status.Unreachable? <==>
            || (step.Heartbeat? && step.w == w && step.vitals.status.Some? && !step.vitals.status.value.Unreachable?)
            || (step.Register? && step.w == w)
            || (step.Sweep? && s.workers[w].lastHeartbeat < step.cutoff)
  {
    match step
    case MarkUnreachable(v) => assert v != w ==> Do(s, step).workers[w] == s.workers[w];
    case Sweep(cutoff) => assert w in Stale(s, cutoff) <==> s.workers[w].lastHeartbeat < cutoff;
    case _ =>
  }

  // ----- Stranded on a stopped worker -----

  /** Only these calls change a query running on a stopped worker, or bring that worker back. */
  predicate Rescues(step: Step, q: QueryId, w: WorkerId) {
    || ((step.Complete? || step.Cancel? || step.Revert?) && step.q == q)
    || ((step.Register? || step.Heartbeat?) && step.w == w)
  }

  predicate Stranded(s: Db, q: QueryId, w: WorkerId) {
    q in s.queries && RunsOn(s.queries[q], w) && w in s.workers && s.workers[w].status.Stopped?
  }

  lemma LossLeavesStranded(s: Db, ws: set<WorkerId>, status: WorkerStatus, q: QueryId, w: WorkerId)
    requires Stranded(s, q, w) && w !in ws
    ensures Stranded(LoseWorkers(s, ws, status), q, w) && LoseWorkers(s, ws, status).queries[q] == s.queries[q]
  {
  }

  lemma StrandedStays(s: Db, step: Step, q: QueryId, w: WorkerId)
    requires Stranded(s, q, w) && !Rescues(step, q, w)
    ensures Stranded(Do(s, step), q, w) && Do(s, step).queries[q] == s.queries[q]
  {
    match step
    case MarkUnreachable(v) => LossLeavesStranded(s, {v} - {w}, Unreachable, q, w);
    case Sweep(cutoff) => LossLeavesStranded(s, Stale(s, cutoff), Stopped, q, w);
    case _ =>
  }

  /** A query running on a stopped worker stays as it is in every run without such calls: no sweep and no
      mark_worker_unreachable ever recovers it. */
  lemma {:induction false} StrandedUntilRescued(s: Db, steps: seq<Step>, q: QueryId, w: WorkerId)
    requires Stranded(s, q, w)
    requires forall i :: 0 <= i < |steps| ==> !Rescues(steps[i], q, w)
    ensures Stranded(Run(s, steps), q, w) && Run(s, steps).queries[q] == s.queries[q]
    decreases |steps|
  {
    if steps == [] {
    } else {
      StrandedUntilRescued(s, steps[..|steps| - 1], q, w);
      StrandedStays(Run(s, steps[..|steps| - 1]), steps[|steps| - 1], q, w);
    }
  }
}
