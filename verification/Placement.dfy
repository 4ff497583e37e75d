/** Worker choice: the grouped load query, its LEFT JOIN with the workers table, and what they mean. */
module Placement {
  import opened Model
  import opened Sums

  /** What a worker's load can be measured in: running queries, or the sum of one requested resource. */
  datatype Measure = Count | Total(resource: Resource)

  function Charge(r: Query, w: WorkerId, m: Measure): int {
    if !RunsOn(r, w) then 0 else
    match m
    case Count => 1
    case Total(x) => Coalesce(r.request.Of(x), 0)
  }

  function ChargeOf(w: WorkerId, m: Measure): Query -> int {
    r => Charge(r, w, m)
  }

  /** The reference meaning of load: recount the whole table for one worker. */
  ghost function Load(rows: map<QueryId, Query>, w: WorkerId, m: Measure): int {
    Sum(rows, ChargeOf(w, m))
  }

  ghost predicate Fits(rows: map<QueryId, Query>, w: WorkerId, cap: Capacity, req: Request, x: Resource) {
    req.Of(x).Some? ==> Load(rows, w, Total(x)) + req.Of(x).value <= cap.Of(x)
  }

  ghost predicate Eligible(s: Db, w: WorkerId, req: Request, cutoff: int) {
    && w in s.workers
    && s.workers[w].status.Online?
    && s.workers[w].lastHeartbeat >= cutoff
    && (forall x: Resource :: Fits(s.queries, w, s.workers[w].capacity, req, x))
    && Load(s.queries, w, Count) + 1 <= s.workers[w].maxConcurrent
  }

  /** The placement order: fewer running queries first, then the newer heartbeat. */
  ghost predicate Before(s: Db, v: WorkerId, w: WorkerId)
    requires v in s.workers && w in s.workers
  {
    var a, b := Load(s.queries, v, Count), Load(s.queries, w, Count);
    a < b || (a == b && s.workers[v].lastHeartbeat > s.workers[w].lastHeartbeat)
  }

  ghost predicate Best(s: Db, w: WorkerId, req: Request, cutoff: int) {
    && Eligible(s, w, req, cutoff)
    && forall v :: v in s.workers && Eligible(s, v, req, cutoff) ==> !Before(s, v, w)
  }

  // ----- The SQL form -----

  /** One row of the worker_load CTE before its COALESCEs; None is the SUM of no non-NULL value. */
  datatype LoadRow = LoadRow(queries: nat, sums: map<Resource, int>)

  /** GROUP BY worker_id: the NULL group is kept and never joined. */
  type LoadCte = map<Option<WorkerId>, LoadRow>

  function AddToRow(row: LoadRow, req: Request): LoadRow {
    LoadRow(row.queries + 1,
      map x: Resource | x in {Cpus, Memory, Disk} && (x in row.sums || req.Of(x).Some?) ::
        (if x in row.sums then row.sums[x] else 0) + Coalesce(req.Of(x), 0))
  }

  function GroupOf(cte: LoadCte, g: Option<WorkerId>): LoadRow {
    if g in cte then cte[g] else LoadRow(0, map[])
  }

  /** A measure as the outer query sees it through the LEFT JOIN and both COALESCEs. */
  function Joined(cte: LoadCte, w: WorkerId, m: Measure): int {
    if Some(w) !in cte then 0 else
    match m
    case Count => cte[Some(w)].queries
    case Total(x) => if x in cte[Some(w)].sums then cte[Some(w)].sums[x] else 0
  }

  /** The one-pass aggregation agrees with a recount for every worker, idle ones included. */
  method WorkerLoad(rows: map<QueryId, Query>) returns (cte: LoadCte)
    ensures forall w: WorkerId, m: Measure :: Joined(cte, w, m) == Load(rows, w, m)
  {
    cte := map[];
    var todo := rows.Keys;
    ghost var done: map<QueryId, Query> := map[];
    while todo != {}
      invariant todo <= rows.Keys && done == rows - todo
      invariant forall w: WorkerId, m: Measure :: Joined(cte, w, m) == Load(done, w, m)
    {
      var q :| q in todo;
      var r := rows[q];
      forall w: WorkerId, m: Measure
        ensures Load(done[q := r], w, m) == Load(done, w, m) + Charge(r, w, m)
      {
        SumUpdate(done, ChargeOf(w, m), q, r);
      }
      if r.status.Running? {
        cte := cte[r.worker := AddToRow(GroupOf(cte, r.worker), r.request)];
      }
      todo := todo - {q};
      done := done[q := r];
      assert done == rows - todo;
    }
    assert done == rows;
  }

  predicate Passes(workers: map<WorkerId, Worker>, cte: LoadCte, w: WorkerId, req: Request, cutoff: int)
    requires w in workers
  {
    && workers[w].status.Online?
    && workers[w].lastHeartbeat >= cutoff
    && (forall x: Resource :: PassesResource(workers[w], cte, w, req, x))
    && Joined(cte, w, Count) + 1 <= workers[w].maxConcurrent
  }

  /** One IS NULL OR COALESCE(...) + request <= capacity conjunct. */
  predicate PassesResource(worker: Worker, cte: LoadCte, w: WorkerId, req: Request, x: Resource) {
    req.Of(x).None? || Joined(cte, w, Total(x)) + req.Of(x).value <= worker.capacity.Of(x)
  }

  predicate Precedes(workers: map<WorkerId, Worker>, cte: LoadCte, v: WorkerId, w: WorkerId)
    requires v in workers && w in workers
  {
    var a, b := Joined(cte, v, Count), Joined(cte, w, Count);
    a < b || (a == b && workers[v].lastHeartbeat > workers[w].lastHeartbeat)
  }

  /** Any non-empty set of workers has a first one in the placement order. */
  lemma {:induction false} LeastExists(workers: map<WorkerId, Worker>, cte: LoadCte, ws: set<WorkerId>)
    returns (w: WorkerId)
    requires ws != {} && ws <= workers.Keys
    ensures w in ws && forall v | v in ws :: !Precedes(workers, cte, v, w)
    decreases |ws|
  {
    w :| w in ws;
    if ws == {w} {
    } else {
      var u := LeastExists(workers, cte, ws - {w});
      if !Precedes(workers, cte, w, u) {
        w := u;
      } else {
        forall v | v in ws ensures !Precedes(workers, cte, v, w) {
          assert v == w || !Precedes(workers, cte, v, u);
        }
      }
    }
  }

  /** The whole placement statement: CTE, join, filter, ORDER BY, LIMIT 1. */
  method WorkerForQuery(s: Db, req: Request, cutoff: int) returns (choice: Option<WorkerId>)
    ensures choice.Some? ==> Best(s, choice.value, req, cutoff)
    ensures choice.None? <==> forall v :: v in s.workers ==> !Eligible(s, v, req, cutoff)
  {
    var cte := WorkerLoad(s.queries);
    var ok := set w | w in s.workers && Passes(s.workers, cte, w, req, cutoff);
    forall w | w in s.workers ensures w in ok <==> Eligible(s, w, req, cutoff) {
      forall x: Resource
        ensures PassesResource(s.workers[w], cte, w, req, x) <==> Fits(s.queries, w, s.workers[w].capacity, req, x)
      {
        assert Joined(cte, w, Total(x)) == Load(s.queries, w, Total(x));
      }
      assert Joined(cte, w, Count) == Load(s.queries, w, Count);
    }
    if ok == {} {
      return None;
    }
    ghost var least := LeastExists(s.workers, cte, ok);
    var w :| w in ok && forall v | v in ok :: !Precedes(s.workers, cte, v, w);
    forall v | v in s.workers && Eligible(s, v, req, cutoff) ensures !Before(s, v, w) {
      assert v in ok && !Precedes(s.workers, cte, v, w);
      assert Joined(cte, v, Count) == Load(s.queries, v, Count) && Joined(cte, w, Count) == Load(s.queries, w, Count);
    }
    return Some(w);
  }

  // ----- What the choice means -----

  type Column = Query -> Option<int>

  function CpusAsked(): Column { (r: Query) => r.request.cpus }

  function MemoryAsked(): Column { (r: Query) => r.request.memory }

  function DiskAsked(): Column { (r: Query) => r.request.disk }

  function AskedOn(w: WorkerId, column: Column): Query -> int {
    (r: Query) => if r.status.Running? && r.worker == Some(w) && column(r).Some? then column(r).value else 0
  }

  /** What the running rows of a worker ask for, rows that ask for nothing being free. */
  ghost function Asked(rows: map<QueryId, Query>, w: WorkerId, column: Column): int {
    Sum(rows, AskedOn(w, column))
  }

  /** Room for one more query, and for each figure the request gives. */
  ghost predicate HasRoom(s: Db, w: WorkerId, req: Request)
    requires w in s.workers
  {
    var rows, cap := s.queries, s.workers[w].capacity;
    && |RowsOn(rows, {w})| < s.workers[w].maxConcurrent
    && (req.cpus.Some? ==> Asked(rows, w, CpusAsked()) + req.cpus.value <= cap.cpus)
    && (req.memory.Some? ==> Asked(rows, w, MemoryAsked()) + req.memory.value <= cap.memory)
    && (req.disk.Some? ==> Asked(rows, w, DiskAsked()) + req.disk.value <= cap.disk)
  }

  lemma LoadIsAsked(rows: map<QueryId, Query>, w: WorkerId)
    ensures Load(rows, w, Total(Cpus)) == Asked(rows, w, CpusAsked())
    ensures Load(rows, w, Total(Memory)) == Asked(rows, w, MemoryAsked())
    ensures Load(rows, w, Total(Disk)) == Asked(rows, w, DiskAsked())
  {
    AskedIsLoad(rows, w, Cpus, CpusAsked());
    AskedIsLoad(rows, w, Memory, MemoryAsked());
    AskedIsLoad(rows, w, Disk, DiskAsked());
  }

  lemma AskedIsLoad(rows: map<QueryId, Query>, w: WorkerId, x: Resource, column: Column)
    requires forall r :: column(r) == r.request.Of(x)
    ensures Load(rows, w, Total(x)) == Asked(rows, w, column)
  {
    SumSame(rows, ChargeOf(w, Total(x)), AskedOn(w, column));
  }

  /** A worker is eligible exactly when it is running, was heard from since the cutoff and has room. */
  lemma EligibleMeaning(s: Db, w: WorkerId, req: Request, cutoff: int)
    ensures Eligible(s, w, req, cutoff) <==>
            && w in s.workers && s.workers[w].status == Online && cutoff <= s.workers[w].lastHeartbeat
            && HasRoom(s, w, req)
  {
    if w in s.workers {
      CountIsCardinality(s.queries, w);
      LoadIsAsked(s.queries, w);
      var cap := s.workers[w].capacity;
      if Fits(s.queries, w, cap, req, Cpus) && Fits(s.queries, w, cap, req, Memory) && Fits(s.queries, w, cap, req, Disk) {
        forall x: Resource ensures Fits(s.queries, w, cap, req, x) {
          match x case Cpus => case Memory => case Disk =>
        }
      }
    }
  }

  /** A worker is best exactly when it is eligible and every other eligible one runs more queries, or as many and was not
      heard from later. */
  lemma BestMeaning(s: Db, w: WorkerId, req: Request, cutoff: int)
    ensures Best(s, w, req, cutoff) <==>
            && Eligible(s, w, req, cutoff)
            && forall v :: v in s.workers && Eligible(s, v, req, cutoff) ==>
                 var mine, theirs := |RowsOn(s.queries, {w})|, |RowsOn(s.queries, {v})|;
                 mine < theirs || (mine == theirs && s.workers[v].lastHeartbeat <= s.workers[w].lastHeartbeat)
  {
    forall v ensures Load(s.queries, v, Count) == |RowsOn(s.queries, {v})| {
      CountIsCardinality(s.queries, v);
    }
  }

  // ----- Counting laws -----

  ghost function RowsOn(rows: map<QueryId, Query>, ws: set<WorkerId>): set<QueryId> {
    set q | q in rows && rows[q].status.Running? && rows[q].worker.Some? && rows[q].worker.value in ws
  }

  lemma RowsOnSplit(rows: map<QueryId, Query>, ws: set<WorkerId>, q: QueryId)
    requires q in rows
    ensures |RowsOn(rows, ws)| == |RowsOn(rows - {q}, ws)| + (if q in RowsOn(rows, ws) then 1 else 0)
  {
    var rest := RowsOn(rows - {q}, ws);
    assert RowsOn(rows, ws) == if q in RowsOn(rows, ws) then rest + {q} else rest;
  }

  lemma {:induction false} CountIsCardinality(rows: map<QueryId, Query>, w: WorkerId)
    ensures Load(rows, w, Count) == |RowsOn(rows, {w})|
    decreases |rows|
  {
    if rows == map[] {
      assert RowsOn(rows, {w}) == {};
    } else {
      var q :| q in rows;
      SumSplit(rows, ChargeOf(w, Count), q);
      RowsOnSplit(rows, {w}, q);
      CountIsCardinality(rows - {q}, w);
    }
  }

  function Itself(): int -> int {
    x => x
  }

  ghost function LoadTable(rows: map<QueryId, Query>, ws: set<WorkerId>): map<WorkerId, int> {
    map w | w in ws :: Load(rows, w, Count)
  }

  lemma LoadTableSplit(rows: map<QueryId, Query>, ws: set<WorkerId>, q: QueryId)
    requires q in rows
    ensures Sum(LoadTable(rows, ws), Itself()) ==
            Sum(LoadTable(rows - {q}, ws), Itself()) + (if q in RowsOn(rows, ws) then 1 else 0)
  {
    var before := LoadTable(rows - {q}, ws);
    forall w ensures Load(rows, w, Count) == Load(rows - {q}, w, Count) + Charge(rows[q], w, Count) {
      SumSplit(rows, ChargeOf(w, Count), q);
    }
    if q in RowsOn(rows, ws) {
      var w := rows[q].worker.value;
      assert LoadTable(rows, ws) == before[w := before[w] + 1];
      SumUpdate(before, Itself(), w, before[w] + 1);
    } else {
      assert LoadTable(rows, ws) == before;
    }
  }

  /** Summed over any set of workers, the counts give the running queries those workers hold. */
  lemma {:induction false} LoadsSumToRows(rows: map<QueryId, Query>, ws: set<WorkerId>)
    ensures Sum(LoadTable(rows, ws), Itself()) == |RowsOn(rows, ws)|
    decreases |rows|
  {
    if rows == map[] {
      SumBounds(LoadTable(rows, ws), Itself(), 0, 0);
      assert RowsOn(rows, ws) == {};
    } else {
      var q :| q in rows;
      LoadTableSplit(rows, ws, q);
      RowsOnSplit(rows, ws, q);
      LoadsSumToRows(rows - {q}, ws);
    }
  }

  /** With every running query owned by a registered worker, the loads of all workers sum to all running queries. */
  lemma LoadsSumToRunning(s: Db)
    requires forall q :: q in s.queries && s.queries[q].status.Running? ==>
               s.queries[q].worker.Some? && s.queries[q].worker.value in s.workers
    ensures Sum(LoadTable(s.queries, s.workers.Keys), Itself()) == |RunningIds(s)|
  {
    LoadsSumToRows(s.queries, s.workers.Keys);
    assert RowsOn(s.queries, s.workers.Keys) == RunningIds(s);
  }

  datatype Listing = Listing(worker: Worker, runningQueries: nat)

  /** The workers page: COUNT(...) FILTER over the joined rows shows exactly the placement count. */
  function ListWorkers(s: Db): (listing: map<WorkerId, Listing>)
    ensures forall w :: w in listing <==> w in s.workers && !s.workers[w].status.Stopped?
    ensures forall w :: w in listing ==>
              listing[w].worker == s.workers[w] && listing[w].runningQueries == Load(s.queries, w, Count)
  {
    var page := map w | w in s.workers && !s.workers[w].status.Stopped? ::
      Listing(s.workers[w], |set q | q in s.queries && s.queries[q].worker == Some(w) && s.queries[q].status.Running?|);
    assert forall w :: w in page ==> page[w].runningQueries == Load(s.queries, w, Count) by {
      forall w | w in page ensures page[w].runningQueries == Load(s.queries, w, Count) {
        CountIsCardinality(s.queries, w);
        assert RowsOn(s.queries, {w}) ==
               set q | q in s.queries && s.queries[q].worker == Some(w) && s.queries[q].status.Running?;
      }
    }
    page
  }

  // ----- A single worker -----

  lemma IdleLoad(rows: map<QueryId, Query>, w: WorkerId, m: Measure)
    requires forall q :: q in rows ==> !RunsOn(rows[q], w)
    ensures Load(rows, w, m) == 0
  {
    SumBounds(rows, ChargeOf(w, m), 0, 0);
  }

  /** Where no other worker is running, being eligible is being best. */
  lemma OnlyChoice(s: Db, w: WorkerId, req: Request, cutoff: int)
    requires Eligible(s, w, req, cutoff) && forall v :: v in s.workers && v != w ==> !s.workers[v].status.Online?
    ensures Best(s, w, req, cutoff)
  {
    forall v | v in s.workers && Eligible(s, v, req, cutoff) ensures !Before(s, v, w) {
      assert v == w;
    }
  }

  // ----- How single-row edits move a load -----

  lemma LoadUpdate(rows: map<QueryId, Query>, q: QueryId, r: Query, w: WorkerId, m: Measure)
    ensures Load(rows[q := r], w, m) ==
            Load(rows, w, m) + Charge(r, w, m) - (if q in rows then Charge(rows[q], w, m) else 0)
  {
    SumUpdate(rows, ChargeOf(w, m), q, r);
  }
}
