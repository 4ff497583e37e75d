/** The coordinator's database calls as updates of two tables in place, each proved to be one step of Tables. */
module Database {
  import opened Model
  import opened Placement
  import T = Tables

  class Store {
    var now: int
    var workers: map<WorkerId, Worker>
    var queries: map<QueryId, Query>
    var log: Log

    function State(): Db
      reads this
    {
      Db(now, workers, queries, log)
    }

    constructor (start: int)
      ensures State() == T.Empty(start)
    {
      now, workers, queries, log := start, map[], map[], map[];
    }

    method Notify(q: QueryId, status: QueryStatus, error: Option<string>, rowCount: Option<int>)
      modifies this`log
      ensures log == Post(old(log), q, Notice(status, error, rowCount))
    {
      log := Post(log, q, Notice(status, error, rowCount));
    }

    // ----- Workers -----

    method RegisterWorker(id: Option<WorkerId>, generated: WorkerId, endpoint: string, cap: Capacity, maxConcurrent: int)
      returns (w: WorkerId)
      modifies this`workers
      ensures w == (if id.Some? then id.value else generated) && w in workers
      ensures State() == T.RegisterWorker(old(State()), w, endpoint, cap, maxConcurrent)
      ensures
        var b := workers[w];
        && b.endpoint == endpoint && b.status.Initializing? && b.capacity == cap && b.maxConcurrent == maxConcurrent
        && b.lastHeartbeat == now
        && (w !in old(workers) ==> b.memoryUsed.None? && b.cpuUsage.None? && b.startedAt == now)
        && (w in old(workers) ==>
              var a := old(workers)[w];
              b.memoryUsed == a.memoryUsed && b.cpuUsage == a.cpuUsage && b.startedAt == a.startedAt)
      ensures workers - {w} == old(workers) - {w}
    {
      w := Coalesce(id, generated);
      if w in workers {
        workers := workers[w := workers[w].(endpoint := endpoint, status := Initializing, capacity := cap,
                                            maxConcurrent := maxConcurrent, lastHeartbeat := now)];
      } else {
        workers := workers[w := Worker(endpoint, Initializing, cap, maxConcurrent, None, None, now, now)];
      }
    }

    method HeartbeatWorker(w: WorkerId, v: T.Vitals) returns (found: bool)
      modifies this`workers
      ensures State() == T.HeartbeatWorker(old(State()), w, v)
      ensures found <==> w in old(workers)
      ensures !found ==> workers == old(workers)
      ensures w in workers <==> found
      ensures found ==>
                var a, b := old(workers)[w], workers[w];
                && b.lastHeartbeat == now
                && b.endpoint == a.endpoint && b.maxConcurrent == a.maxConcurrent && b.startedAt == a.startedAt
                && b.capacity.cpus == (if v.cpus.Some? then v.cpus.value else a.capacity.cpus)
                && b.capacity.memory == (if v.memory.Some? then v.memory.value else a.capacity.memory)
                && b.capacity.disk == (if v.disk.Some? then v.disk.value else a.capacity.disk)
                && b.status == (if v.status.Some? then v.status.value else a.status)
                && b.memoryUsed == (if v.memoryUsed.Some? then v.memoryUsed else a.memoryUsed)
                && b.cpuUsage == (if v.cpuUsage.Some? then v.cpuUsage else a.cpuUsage)
      ensures workers - {w} == old(workers) - {w}
    {
      found := w in workers;
      if found {
        var row := workers[w].(lastHeartbeat := now);
        row := row.(capacity := Capacity(Coalesce(v.cpus, row.capacity.cpus), Coalesce(v.memory, row.capacity.memory),
                                         Coalesce(v.disk, row.capacity.disk)));
        row := row.(status := Coalesce(v.status, row.status));
        row := row.(memoryUsed := OrElse(v.memoryUsed, row.memoryUsed), cpuUsage := OrElse(v.cpuUsage, row.cpuUsage));
        workers := workers[w := row];
      }
    }

    method ReadyWorker(w: WorkerId) returns (updated: bool)
      modifies this`workers
      ensures State() == T.ReadyWorker(old(State()), w)
      ensures updated <==> w in old(workers) && old(workers)[w].status.Initializing?
      ensures !updated ==> workers == old(workers)
      ensures updated ==> workers == old(workers)[w := old(workers)[w].(status := Online, lastHeartbeat := now)]
    {
      updated := w in workers && workers[w].status.Initializing?;
      if updated {
        workers := workers[w := workers[w].(status := Online, lastHeartbeat := now)];
      }
    }

    method ShutdownWorker(w: WorkerId) returns (updated: bool)
      modifies this`workers
      ensures State() == T.ShutdownWorker(old(State()), w)
      ensures updated <==> w in old(workers) && old(workers)[w].status.Online?
      ensures !updated ==> workers == old(workers)
      ensures updated ==> workers == old(workers)[w := old(workers)[w].(status := ShuttingDown, lastHeartbeat := now)]
    {
      updated := w in workers && workers[w].status.Online?;
      if updated {
        workers := workers[w := workers[w].(status := ShuttingDown, lastHeartbeat := now)];
      }
    }

    /** UPDATE queries ... RETURNING, then one notification per returned row. */
    method RequeueHeldBy(ws: set<WorkerId>)
      modifies this`queries, this`log
      ensures State() == T.RequeueAll(old(State()), T.HeldBy(old(State()), ws))
    {
      ghost var before := State();
      var reverted := T.HeldBy(State(), ws);
      queries := map q | q in queries ::
        if q in reverted then T.Requeued(queries[q]).(error := T.LOST_WORKER) else queries[q];
      var todo := reverted;
      while todo != {}
        modifies this`log
        invariant todo <= reverted
        invariant log == PostAll(before.log, reverted - todo, Notice(Pending, T.LOST_WORKER, None))
      {
        var q :| q in todo;
        Notify(q, Pending, T.LOST_WORKER, None);
        todo := todo - {q};
        assert reverted - todo == (reverted - (todo + {q})) + {q};
      }
      assert reverted - todo == reverted;
    }

    method MarkWorkerUnreachable(w: WorkerId)
      modifies this
      ensures State() == T.MarkWorkerUnreachable(old(State()), w)
    {
      if w in workers && T.Reachable(workers[w].status) {
        ghost var before := State();
        workers := workers[w := workers[w].(status := Unreachable)];
        assert workers == T.SetStatus(before, {w}, Unreachable).workers;
        assert T.HeldBy(State(), {w}) == T.HeldBy(before, {w});
        RequeueHeldBy({w});
      }
    }

    method SweepStaleWorkers(cutoff: int)
      modifies this
      ensures State() == T.SweepStaleWorkers(old(State()), cutoff)
    {
      ghost var before := State();
      var stale := T.Stale(State(), cutoff);
      if stale != {} {
        workers := map w | w in workers :: if w in stale then workers[w].(status := Stopped) else workers[w];
        assert T.HeldBy(State(), stale) == T.HeldBy(before, stale);
        RequeueHeldBy(stale);
      }
    }

    // ----- Queries -----

    method CreateQuery(generated: QueryId, sql: string, req: Request, user: Option<UserId>)
      modifies this`queries
      ensures State() == T.CreateQuery(old(State()), generated, sql, req, user)
      ensures generated in queries
      ensures generated in old(queries) ==> queries == old(queries)
      ensures generated !in old(queries) ==>
                var r := queries[generated];
                && r.status.Pending? && r.sql == sql && r.request == req && r.user == user && r.createdAt == now
                && r.worker.None? && r.error.None? && r.startedAt.None? && r.completedAt.None? && r.rowCount.None?
      ensures queries - {generated} == old(queries) - {generated}
    {
      if generated !in queries {
        queries := queries[generated := Query(None, user, Pending, sql, None, req, now, None, None, None)];
      }
    }

    function GetQuery(q: QueryId): Option<Query>
      reads this
    {
      if q in queries then Some(queries[q]) else None
    }

    /** True exactly when the row now has the reported status. */
    method CompleteQuery(q: QueryId, v: Verdict, error: Option<string>, rowCount: Option<int>) returns (ok: bool)
      modifies this`queries, this`log
      ensures State() == T.CompleteQuery(old(State()), q, v, error, rowCount)
      ensures ok <==> q in queries && queries[q].status == v
      ensures q in old(queries) && old(queries)[q].status in {Pending, Running} ==>
                var a, b := old(queries)[q], queries[q];
                && b.status == v && b.completedAt == (if a.completedAt.Some? then a.completedAt else Some(now))
                && b.rowCount == (if rowCount.Some? then rowCount else a.rowCount)
                && b.error == (if error.Some? then error else a.error)
                && b.worker == a.worker && b.startedAt == a.startedAt
      ensures !(q in old(queries) && old(queries)[q].status in {Pending, Running}) ==> queries == old(queries)
      ensures queries - {q} == old(queries) - {q}
      ensures log == if ok then old(log)[q := Notes(old(log), q) + [Notice(v, error, rowCount)]] else old(log)
    {
      if T.Active(State(), q) {
        var r := queries[q];
        queries := queries[q := r.(status := v, error := OrElse(error, r.error), rowCount := OrElse(rowCount, r.rowCount),
                                   completedAt := OrElse(r.completedAt, Some(now)))];
        Notify(q, v, error, rowCount);
        return true;
      }
      ok := q in queries && queries[q].status == v;
      if ok {
        Notify(q, v, error, rowCount);
      }
    }

    /** Returns the cancelled row, or None when there was no active row to cancel. */
    method MarkQueryCancelled(q: QueryId, error: Option<string>) returns (row: Option<Query>)
      modifies this`queries, this`log
      ensures State() == T.MarkQueryCancelled(old(State()), q, error)
      ensures row.Some? <==> q in old(queries) && old(queries)[q].status in {Pending, Running}
      ensures row.None? ==> State() == old(State())
      ensures row.Some? ==>
                var a := old(queries)[q];
                && queries == old(queries)[q := row.value]
                && row.value == a.(status := Cancelled, completedAt := Some(now),
                                   error := if error.Some? then error else a.error)
                && log == old(log)[q := Notes(old(log), q) + [Notice(Cancelled, row.value.error, None)]]
    {
      if T.Active(State(), q) {
        var r := queries[q];
        queries := queries[q := r.(status := Cancelled, error := OrElse(error, r.error), completedAt := Some(now))];
        Notify(q, Cancelled, queries[q].error, None);
        return Some(queries[q]);
      }
      return None;
    }

    method RevertQueryToPending(q: QueryId)
      modifies this`queries, this`log
      ensures State() == T.RevertQueryToPending(old(State()), q)
      ensures
        if q in old(queries) && old(queries)[q].status.Running? then
          && queries == old(queries)[q := old(queries)[q].(status := Pending, worker := None, startedAt := None)]
          && log == old(log)[q := Notes(old(log), q) + [Notice(Pending, None, None)]]
        else State() == old(State())
    {
      if q in queries && queries[q].status.Running? {
        queries := queries[q := queries[q].(status := Pending, worker := None, startedAt := None)];
        Notify(q, Pending, None, None);
      }
    }

    /** Place a pending row and mark it running; None when no worker is eligible. */
    method ClaimQuery(q: QueryId, cutoff: int) returns (c: Option<Claimed>)
      requires T.IsPending(State(), q)
      modifies this`queries, this`log
      ensures c.None? ==> State() == old(State()) && T.NoWorkerFor(old(State()), q, cutoff)
      ensures c.Some? ==>
                && c.value.query == q && T.CanClaim(old(State()), q, c.value.worker, cutoff)
                && T.HandsOver(old(State()), c.value)
                && State() == T.ClaimRow(old(State()), q, c.value.worker)
                && queries == old(queries)[q := old(queries)[q].(status := Running, worker := Some(c.value.worker),
                                                                 startedAt := Some(now))]
                && log == old(log)[q := Notes(old(log), q) + [Notice(Running, None, None)]]
    {
      var choice := WorkerForQuery(State(), queries[q].request, cutoff);
      if choice.None? {
        return None;
      }
      var w := choice.value;
      queries := queries[q := queries[q].(status := Running, worker := Some(w), startedAt := Some(now))];
      Notify(q, Running, None, None);
      return Some(Claimed(q, queries[q].sql, queries[q].request, w, workers[w].endpoint));
    }

    /** Only the oldest pending row is tried: if it cannot be placed, nothing is claimed. */
    method ClaimPendingQuery(cutoff: int) returns (c: Option<Claimed>)
      modifies this`queries, this`log
      ensures c.None? ==> State() == old(State()) && T.NothingToClaim(old(State()), cutoff)
      ensures c.Some? ==>
                && T.Claims(old(State()), T.ClaimHead(c.value.query, c.value.worker, cutoff))
                && T.HandsOver(old(State()), c.value)
                && State() == T.ClaimRow(old(State()), c.value.query, c.value.worker)
    {
      var pending := PendingIds(State());
      if pending == {} {
        return None;
      }
      ghost var first := OldestExists(State(), pending);
      var q :| q in pending && forall p :: p in pending ==> queries[q].createdAt <= queries[p].createdAt;
      c := ClaimQuery(q, cutoff);
    }

    method ClaimQueryById(q: QueryId, cutoff: int) returns (c: Option<Claimed>)
      modifies this`queries, this`log
      ensures c.None? ==> State() == old(State()) &&
                          (T.IsPending(old(State()), q) ==> T.NoWorkerFor(old(State()), q, cutoff))
      ensures c.Some? ==>
                && c.value.query == q && T.Claims(old(State()), T.ClaimById(q, c.value.worker, cutoff))
                && T.HandsOver(old(State()), c.value)
                && State() == T.ClaimRow(old(State()), q, c.value.worker)
    {
      if !T.IsPending(State(), q) {
        return None;
      }
      c := ClaimQuery(q, cutoff);
    }

    // ----- Other callers -----

    /** Perform one call for some other client; a claim makes its own choice of row and worker. */
    method Perform(call: T.Step) returns (ghost done: T.Step)
      modifies this
      ensures State() == T.Do(old(State()), done)
      ensures T.Carried(call, done) && (T.Sane(call) ==> T.Sane(done))
    {
      done := call;
      match call
      case Tick(d) => now := now + d;
      case Register(w, endpoint, cap, maxConcurrent) => var _ := RegisterWorker(Some(w), w, endpoint, cap, maxConcurrent);
      case Heartbeat(w, v) => var _ := HeartbeatWorker(w, v);
      case Ready(w) => var _ := ReadyWorker(w);
      case Shutdown(w) => var _ := ShutdownWorker(w);
      case MarkUnreachable(w) => MarkWorkerUnreachable(w);
      case Sweep(cutoff) => SweepStaleWorkers(cutoff);
      case Create(q, sql, req, user) => CreateQuery(q, sql, req, user);
      case Complete(q, v, error, count) => var _ := CompleteQuery(q, v, error, count);
      case Cancel(q, error) => var _ := MarkQueryCancelled(q, error);
      case Revert(q) => RevertQueryToPending(q);
      case ClaimHead(_, _, cutoff) =>
        var c := ClaimPendingQuery(cutoff);
        done := if c.Some? then T.ClaimHead(c.value.query, c.value.worker, cutoff) else T.Tick(0);
      case ClaimById(q, _, cutoff) =>
        var c := ClaimQueryById(q, cutoff);
        done := if c.Some? then T.ClaimById(q, c.value.worker, cutoff) else T.Tick(0);
    }

    /** What an await lets in: any calls of other clients, one after another. */
    method Others(calls: seq<T.Step>) returns (ghost done: seq<T.Step>)
      modifies this
      ensures State() == T.Run(old(State()), done)
      ensures T.AllCarried(calls, done)
      ensures T.AllSane(calls) ==> T.AllSane(done)
    {
      done := [];
      for i := 0 to |calls|
        invariant State() == T.Run(old(State()), done) && |done| == i
        invariant T.AllCarried(calls[..i], done)
        invariant T.AllSane(calls[..i]) ==> T.AllSane(done)
      {
        ghost var d := Perform(calls[i]);
        assert (done + [d])[..|done + [d]| - 1] == done;
        assert T.AllSane(calls[..i + 1]) ==> T.AllSane(calls[..i]) && T.Sane(calls[..i + 1][i]);
        done := done + [d];
      }
      assert calls[..|calls|] == calls;
    }
  }

  lemma {:induction false} OldestExists(s: Db, qs: set<QueryId>) returns (q: QueryId)
    requires qs != {} && qs <= s.queries.Keys
    ensures q in qs && forall p :: p in qs ==> s.queries[q].createdAt <= s.queries[p].createdAt
    decreases |qs|
  {
    q :| q in qs;
    if qs == {q} {
    } else {
      var r := OldestExists(s, qs - {q});
      if s.queries[r].createdAt < s.queries[q].createdAt {
        q := r;
      }
    }
  }
}
