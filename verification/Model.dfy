/** The two tables the coordinator shares with its workers, and the notification channel beside them.
    Row identifiers stand for UUIDs and times for readings of one abstract clock. */
module Model {

  datatype Option<+T> = None | Some(value: T)

  /** SQL COALESCE with a last argument that is never NULL. */
  function Coalesce<T>(a: Option<T>, b: T): T {
    if a.Some? then a.value else b
  }

  function OrElse<T>(a: Option<T>, b: Option<T>): Option<T> {
    if a.Some? then a else b
  }

  type QueryId = nat
  type WorkerId = nat
  type UserId = nat

  datatype QueryStatus = Pending | Running | Completed | Failed | Cancelled

  /** `Online` is the status the workers table spells 'running'. */
  datatype WorkerStatus = Initializing | Online | ShuttingDown | Unreachable | Stopped

  predicate Terminal(s: QueryStatus) {
    s.Completed? || s.Failed? || s.Cancelled?
  }

  /** What a completion request may report. */
  type Verdict = s: QueryStatus | Terminal(s) witness Completed

  datatype Resource = Cpus | Memory | Disk

  /** A query's optional request; None is NULL, that is, no limit. */
  datatype Request = Request(cpus: Option<int>, memory: Option<int>, disk: Option<int>) {
    function Of(r: Resource): Option<int> {
      match r case Cpus => cpus case Memory => memory case Disk => disk
    }
  }

  datatype Capacity = Capacity(cpus: int, memory: int, disk: int) {
    function Of(r: Resource): int {
      match r case Cpus => cpus case Memory => memory case Disk => disk
    }
  }

  datatype Worker = Worker(
    endpoint: string, status: WorkerStatus, capacity: Capacity, maxConcurrent: int,
    memoryUsed: Option<int>, cpuUsage: Option<real>, startedAt: int, lastHeartbeat: int)

  datatype Query = Query(
    worker: Option<WorkerId>, user: Option<UserId>, status: QueryStatus, sql: string, error: Option<string>,
    request: Request, createdAt: int, startedAt: Option<int>, completedAt: Option<int>, rowCount: Option<int>)

  /** One payload of the query_status channel; its query id is the log key it is filed under. */
  datatype Notice = Notice(status: QueryStatus, error: Option<string>, rowCount: Option<int>)

  type Log = map<QueryId, seq<Notice>>

  datatype Db = Db(now: int, workers: map<WorkerId, Worker>, queries: map<QueryId, Query>, log: Log)

  /** What a successful claim hands to the dispatcher. */
  datatype Claimed = Claimed(query: QueryId, sql: string, request: Request, worker: WorkerId, endpoint: string)

  predicate RunsOn(r: Query, w: WorkerId) {
    r.status.Running? && r.worker == Some(w)
  }

  function Notes(log: Log, q: QueryId): seq<Notice> {
    if q in log then log[q] else []
  }

  function Post(log: Log, q: QueryId, n: Notice): Log {
    log[q := Notes(log, q) + [n]]
  }

  function PostAll(log: Log, qs: set<QueryId>, n: Notice): Log {
    map q | q in log.Keys + qs :: if q in qs then Notes(log, q) + [n] else log[q]
  }

  function PendingIds(s: Db): set<QueryId> {
    set q | q in s.queries && s.queries[q].status.Pending?
  }

  function RunningIds(s: Db): set<QueryId> {
    set q | q in s.queries && s.queries[q].status.Running?
  }

  function OnlineIds(s: Db): set<WorkerId> {
    set w | w in s.workers && s.workers[w].status.Online?
  }
}
