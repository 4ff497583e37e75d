/** Every write the coordinator makes to its tables, one atomic function per database call,
    and runs as sequences of such calls in any order. */
module Tables {
  import opened Model
  import opened Placement

  const LOST_WORKER := Some("Worker became unreachable")

  // ----- Worker rows -----

  function RegisterWorker(s: Db, w: WorkerId, endpoint: string, cap: Capacity, maxConcurrent: int): Db {
    var row := Worker(endpoint, Initializing, cap, maxConcurrent, None, None, s.now, s.now);
    s.(workers := s.workers[w :=
      if w in s.workers then
        row.(memoryUsed := s.workers[w].memoryUsed, cpuUsage := s.workers[w].cpuUsage, startedAt := s.workers[w].startedAt)
      else row])
  }

  /** The optional fields of a heartbeat request. */
  datatype Vitals = Vitals(
    cpus: Option<int>, memory: Option<int>, disk: Option<int>, status: Option<WorkerStatus>,
    memoryUsed: Option<int>, cpuUsage: Option<real>)

  function HeartbeatWorker(s: Db, w: WorkerId, v: Vitals): Db {
    if w !in s.workers then s else
    var row := s.workers[w];
    s.(workers := s.workers[w := row.(
      lastHeartbeat := s.now,
      capacity := Capacity(Coalesce(v.cpus, row.capacity.cpus), Coalesce(v.memory, row.capacity.memory),
                           Coalesce(v.disk, row.capacity.disk)),
      status := Coalesce(v.status, row.status),
      memoryUsed := OrElse(v.memoryUsed, row.memoryUsed),
      cpuUsage := OrElse(v.cpuUsage, row.cpuUsage))])
  }

  function ReadyWorker(s: Db, w: WorkerId): Db {
    if w in s.workers && s.workers[w].status.Initializing?
    then s.(workers := s.workers[w := s.workers[w].(status := Online, lastHeartbeat := s.now)])
    else s
  }

  function ShutdownWorker(s: Db, w: WorkerId): Db {
    if w in s.workers && s.workers[w].status.Online?
    then s.(workers := s.workers[w := s.workers[w].(status := ShuttingDown, lastHeartbeat := s.now)])
    else s
  }

  // ----- Query rows -----

  function Requeued(r: Query): Query {
    r.(status := Pending, worker := None, startedAt := None)
  }

  /** Put running rows back in the queue with the lost-worker error, one notice each. */
  function RequeueAll(s: Db, qs: set<QueryId>): Db {
    s.(queries := map q | q in s.queries ::
         if q in qs then Requeued(s.queries[q]).(error := LOST_WORKER) else s.queries[q],
       log := PostAll(s.log, qs, Notice(Pending, LOST_WORKER, None)))
  }

  /** The running rows a set of workers holds. */
  function HeldBy(s: Db, ws: set<WorkerId>): set<QueryId> {
    set q | q in s.queries && s.queries[q].status.Running? && s.queries[q].worker.Some? && s.queries[q].worker.value in ws
  }

  function SetStatus(s: Db, ws: set<WorkerId>, status: WorkerStatus): Db {
    s.(workers := map w | w in s.workers :: if w in ws then s.workers[w].(status := status) else s.workers[w])
  }

  /** Take workers out of service and put what they were running back in the queue. */
  function LoseWorkers(s: Db, ws: set<WorkerId>, status: WorkerStatus): Db {
    if ws == {} then s else RequeueAll(SetStatus(s, ws, status), HeldBy(s, ws))
  }

  predicate Reachable(s: WorkerStatus) {
    s.Online? || s.ShuttingDown?
  }

  function MarkWorkerUnreachable(s: Db, w: WorkerId): Db {
    if w in s.workers && Reachable(s.workers[w].status)
    then LoseWorkers(s, {w}, Unreachable)
    else s
  }

  /** The workers a sweep stops: anything but initializing or stopped, last heard from before the cutoff. */
  function Stale(s: Db, cutoff: int): set<WorkerId> {
    set w | w in s.workers && (Reachable(s.workers[w].status) || s.workers[w].status.Unreachable?) &&
            s.workers[w].lastHeartbeat < cutoff
  }

  function SweepStaleWorkers(s: Db, cutoff: int): Db {
    LoseWorkers(s, Stale(s, cutoff), Stopped)
  }

  /** INSERT with a generated id; a duplicate id would be refused by the primary key. */
  function CreateQuery(s: Db, q: QueryId, sql: string, req: Request, user: Option<UserId>): Db {
    if q in s.queries then s else
    s.(queries := s.queries[q := Query(None, user, Pending, sql, None, req, s.now, None, None, None)])
  }

  predicate Active(s: Db, q: QueryId) {
    q in s.queries && (s.queries[q].status.Running? || s.queries[q].status.Pending?)
  }

  function CompleteQuery(s: Db, q: QueryId, v: Verdict, error: Option<string>, rowCount: Option<int>): Db {
    var notice := Notice(v, error, rowCount);
    if Active(s, q) then
      var r := s.queries[q];
      s.(queries := s.queries[q := r.(status := v, error := OrElse(error, r.error),
                                      rowCount := OrElse(rowCount, r.rowCount),
                                      completedAt := OrElse(r.completedAt, Some(s.now)))],
         log := Post(s.log, q, notice))
    else if q in s.queries && s.queries[q].status == v then
      s.(log := Post(s.log, q, notice))
    else s
  }

  /** What complete_query returns to its caller. */
  function CompleteAnswer(s: Db, q: QueryId, v: Verdict): bool {
    Active(s, q) || (q in s.queries && s.queries[q].status == v)
  }

  function MarkQueryCancelled(s: Db, q: QueryId, error: Option<string>): Db {
    if !Active(s, q) then s else
    var r := s.queries[q];
    var cancelled := r.(status := Cancelled, error := OrElse(error, r.error), completedAt := Some(s.now));
    s.(queries := s.queries[q := cancelled], log := Post(s.log, q, Notice(Cancelled, cancelled.error, None)))
  }

  /** No guard on the worker: whoever runs the query now loses it. */
  function RevertQueryToPending(s: Db, q: QueryId): Db {
    if q in s.queries && s.queries[q].status.Running?
    then s.(queries := s.queries[q := Requeued(s.queries[q])], log := Post(s.log, q, Notice(Pending, None, None)))
    else s
  }

  /** The UPDATE of a claim; like the statement itself it does not look at the row's status. */
  function ClaimRow(s: Db, q: QueryId, w: WorkerId): Db {
    if q !in s.queries then s else
    s.(queries := s.queries[q := s.queries[q].(status := Running, worker := Some(w), startedAt := Some(s.now))],
       log := Post(s.log, q, Notice(Running, None, None)))
  }

  predicate IsPending(s: Db, q: QueryId) {
    q in s.queries && s.queries[q].status.Pending?
  }

  /** q may be the row that ORDER BY created_at LIMIT 1 returns. */
  predicate IsHead(s: Db, q: QueryId) {
    IsPending(s, q) && forall p :: p in s.queries && IsPending(s, p) ==> s.queries[q].createdAt <= s.queries[p].createdAt
  }

  ghost predicate CanClaim(s: Db, q: QueryId, w: WorkerId, cutoff: int) {
    IsPending(s, q) && Best(s, w, s.queries[q].request, cutoff)
  }

  /** The claim carries its own row's text and request and its own worker's endpoint. */
  predicate HandsOver(s: Db, c: Claimed) {
    && c.query in s.queries && c.worker in s.workers
    && c.sql == s.queries[c.query].sql && c.request == s.queries[c.query].request
    && c.endpoint == s.workers[c.worker].endpoint
  }

  ghost predicate NoWorkerFor(s: Db, q: QueryId, cutoff: int)
    requires q in s.queries
  {
    forall w :: w in s.workers ==> !Eligible(s, w, s.queries[q].request, cutoff)
  }

  /** The oldest pending row, if any, has no eligible worker. */
  ghost predicate NothingToClaim(s: Db, cutoff: int) {
    PendingIds(s) == {} || exists q :: q in s.queries && IsHead(s, q) && NoWorkerFor(s, q, cutoff)
  }

  // ----- Steps and runs -----

  /** One database call. A claim names the row and worker the database picked; a sweep or claim
      carries the staleness cutoff its caller computed before the call. */
  datatype Step =
    | Tick(elapsed: nat)
    | Register(w: WorkerId, endpoint: string, capacity: Capacity, maxConcurrent: int)
    | Heartbeat(w: WorkerId, vitals: Vitals)
    | Ready(w: WorkerId)
    | Shutdown(w: WorkerId)
    | MarkUnreachable(w: WorkerId)
    | Sweep(cutoff: int)
    | Create(q: QueryId, sql: string, request: Request, user: Option<UserId>)
    | Complete(q: QueryId, verdict: Verdict, error: Option<string>, rowCount: Option<int>)
    | Cancel(q: QueryId, error: Option<string>)
    | Revert(q: QueryId)
    | ClaimHead(q: QueryId, w: WorkerId, cutoff: int)
    | ClaimById(q: QueryId, w: WorkerId, cutoff: int)

  predicate IsClaim(step: Step) {
    step.ClaimHead? || step.ClaimById?
  }

  ghost predicate Claims(s: Db, step: Step) {
    IsClaim(step) && CanClaim(s, step.q, step.w, step.cutoff) && (step.ClaimHead? ==> IsHead(s, step.q))
  }

  /** Total: a claim the database would not make leaves the tables alone, as a claim that finds nothing does. */
  ghost function Do(s: Db, step: Step): Db {
    match step
    case Tick(d) => s.(now := s.now + d)
    case Register(w, endpoint, cap, maxConcurrent) => RegisterWorker(s, w, endpoint, cap, maxConcurrent)
    case Heartbeat(w, v) => HeartbeatWorker(s, w, v)
    case Ready(w) => ReadyWorker(s, w)
    case Shutdown(w) => ShutdownWorker(s, w)
    case MarkUnreachable(w) => MarkWorkerUnreachable(s, w)
    case Sweep(cutoff) => SweepStaleWorkers(s, cutoff)
    case Create(q, sql, req, user) => CreateQuery(s, q, sql, req, user)
    case Complete(q, v, error, count) => CompleteQuery(s, q, v, error, count)
    case Cancel(q, error) => MarkQueryCancelled(s, q, error)
    case Revert(q) => RevertQueryToPending(s, q)
    case ClaimHead(q, w, _) => if Claims(s, step) then ClaimRow(s, q, w) else s
    case ClaimById(q, w, _) => if Claims(s, step) then ClaimRow(s, q, w) else s
  }

  ghost function Run(s: Db, steps: seq<Step>): Db {
    if steps == [] then s else Do(Run(s, steps[..|steps| - 1]), steps[|steps| - 1])
  }

  lemma {:induction false} RunAppend(s: Db, a: seq<Step>, b: seq<Step>)
    ensures Run(s, a + b) == Run(Run(s, a), b)
    decreases |b|
  {
    if b == [] {
      assert a + b == a;
    } else {
      RunAppend(s, a, b[..|b| - 1]);
      assert (a + b)[..|a + b| - 1] == a + b[..|b| - 1];
    }
  }

  /** The step that a call turns out to be: the call itself, or for a claim whatever claim was made, if any. */
  predicate Carried(call: Step, done: Step) {
    if IsClaim(call) then IsClaim(done) || done == Tick(0) else done == call
  }

  predicate AllCarried(calls: seq<Step>, done: seq<Step>) {
    |calls| == |done| && forall i :: 0 <= i < |calls| ==> Carried(calls[i], done[i])
  }

  function Empty(now: int): Db {
    Db(now, map[], map[], map[])
  }

  /** The statuses a worker sends with its heartbeats; the request model accepts any string. */
  predicate Sane(step: Step) {
    step.Heartbeat? && step.vitals.status.Some? ==> Reachable(step.vitals.status.value)
  }

  predicate AllSane(steps: seq<Step>) {
    forall i :: 0 <= i < |steps| ==> Sane(steps[i])
  }
}
