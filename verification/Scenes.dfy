/** Runs of claim transactions that reach the limits of what is proved in Claims. */
module Scenes {
  import opened Model
  import opened Sums
  import opened Placement
  import opened Tables
  import opened Runs
  import opened Claims
  import opened Scheduler
  import opened Ownership

  // ----- Walks: runs together with the state they lead to -----

  datatype Path = Path(start: Fine, limit: nat, largest: Capacity, steps: seq<FineStep>, s: Fine)

  /** The steps lead to s, with sane heartbeats and within the assumptions of the overcommit bound. */
  ghost predicate Walks(p: Path) {
    p.s == FineRun(p.start, p.steps, p.limit) && AssumedFrom(p.start, p.steps, p.limit, p.largest) && AllFineSane(p.steps)
  }

  /** Walks, folded away: only FoldedMeaning looks into a walk, so that proofs about where one leads stay small. */
  ghost predicate Folded(p: Path, folds: nat)
    decreases folds
  {
    if folds == 0 then Walks(p) else Folded(p, folds - 1)
  }

  lemma {:induction false} FoldedMeaning(p: Path, folds: nat)
    ensures Folded(p, folds) <==> Walks(p)
    decreases folds
  {
    if folds == 0 {
    } else {
      FoldedMeaning(p, folds - 1);
    }
  }

  type Walk = p: Path | Folded(p, |p.steps| + 3)
    ghost witness (FoldedMeaning(Path(Start(0), 0, Capacity(0, 0, 0), [], Start(0)), 3);
                   Path(Start(0), 0, Capacity(0, 0, 0), [], Start(0)))

  ghost function From(s: Fine, limit: nat, largest: Capacity): (p: Walk)
    ensures p.start == s && p.limit == limit && p.largest == largest && p.s == s
  {
    FoldedMeaning(Path(s, limit, largest, [], s), 3);
    Path(s, limit, largest, [], s)
  }

  /** What a walk is, for its steps. */
  lemma WalkMeaning(p: Walk)
    ensures Walks(p)
  {
    FoldedMeaning(p, |p.steps| + 3);
  }

  predicate Continues(p: Path, r: Path) {
    r.start == p.start && r.limit == p.limit && r.largest == p.largest
  }

  ghost function Then(p: Walk, step: FineStep): (r: Walk)
    requires Assumed(p.s, step, p.limit, p.largest) && FineSane(step)
    ensures Continues(p, r) && r.s == FineDo(p.s, step, p.limit) && r.steps == p.steps + [step]
  {
    WalkMeaning(p);
    OneStepMore(p, step);
    FoldedMeaning(Path(p.start, p.limit, p.largest, p.steps + [step], FineDo(p.s, step, p.limit)), |p.steps + [step]| + 3);
    Path(p.start, p.limit, p.largest, p.steps + [step], FineDo(p.s, step, p.limit))
  }

  lemma OneStepMore(p: Path, step: FineStep)
    requires Walks(p) && Assumed(p.s, step, p.limit, p.largest) && FineSane(step)
    ensures Walks(Path(p.start, p.limit, p.largest, p.steps + [step], FineDo(p.s, step, p.limit)))
  {
    assert (p.steps + [step])[..|p.steps + [step]| - 1] == p.steps;
  }

  /** A claim up to its choice. */
  lemma OpenClaim(p: Walk, t: TxId, q: QueryId, w: WorkerId, cutoff: int) returns (r: Walk)
    requires |p.s.open| < p.limit && t !in p.s.open && !IsLocked(p.s.open, q) && CanClaim(p.s.db, q, w, cutoff)
    ensures Continues(p, r)
    ensures r.s.db == p.s.db && r.s.open == p.s.open[t := Chosen(q, p.s.db.queries[q].request, w)]
  {
    var tx := Locked(q, p.s.db.queries[q].request);
    var locked := Then(p, Begin(t, q));
    assert locked.s == p.s.(open := p.s.open[t := tx]);
    r := Then(locked, Choose(t, w, cutoff));
    assert p.s.open[t := tx][t := Chosen(q, tx.request, w)] == p.s.open[t := Chosen(q, tx.request, w)];
  }

  lemma CommitClaim(p: Walk, t: TxId) returns (r: Walk)
    requires t in p.s.open && p.s.open[t].Chosen?
    ensures Continues(p, r) && r.s == Fine(ClaimRow(p.s.db, p.s.open[t].q, p.s.open[t].w), p.s.open - {t})
    ensures r.steps == p.steps + [Commit(t)]
  {
    r := Then(p, Commit(t));
  }

  /** Another client's call that leaves the limits of the workers it keeps and asks for no more than the largest. */
  lemma MakeCall(p: Walk, call: Step) returns (r: Walk)
    requires !IsClaim(call) && !Waits(p.s, call) && !IsBulk(call) && Sane(call)
    requires NothingShrinks(p.s.db, Do(p.s.db, call)) && (call.Create? ==> Within(call.request, p.largest))
    ensures Continues(p, r) && r.s == p.s.(db := Do(p.s.db, call))
  {
    assert FineDo(p.s, Other(call, {}), p.limit) == p.s.(db := Do(p.s.db, call));
    r := Then(p, Other(call, {}));
  }

  lemma SweepShrinksNothing(s: Fine, cutoff: int, missed: set<QueryId>, limit: nat)
    ensures FineDo(s, Other(Sweep(cutoff), missed), limit) == s.(db := Miss(s.db, SweepStaleWorkers(s.db, cutoff), missed))
    ensures NothingShrinks(s.db, FineDo(s, Other(Sweep(cutoff), missed), limit).db)
  {
    LossShrinksNothing(s.db, Stale(s.db, cutoff), Stopped);
  }

  lemma LossShrinksNothing(s: Db, ws: set<WorkerId>, status: WorkerStatus)
    ensures NothingShrinks(s, LoseWorkers(s, ws, status))
  {
  }

  lemma MakeSweep(p: Walk, cutoff: int, missed: set<QueryId>) returns (r: Walk)
    ensures Continues(p, r) && r.s == p.s.(db := Miss(p.s.db, SweepStaleWorkers(p.s.db, cutoff), missed))
  {
    SweepShrinksNothing(p.s, cutoff, missed, p.limit);
    r := Then(p, Other(Sweep(cutoff), missed));
  }

  // ----- Claims pile up on one worker -----

  function Asked(s: Db, qs: seq<QueryId>, m: Measure): int {
    if qs == [] then 0 else
    var q := qs[|qs| - 1];
    Asked(s, qs[..|qs| - 1], m) + if q in s.queries then AskOf(s.queries[q].request, m) else 0
  }

  ghost predicate PiledUp(p: Path, r: Path, qs: seq<QueryId>, w: WorkerId) {
    && Continues(p, r) && r.s.db == p.s.db && |r.s.open| == |qs|
    && (forall t :: t in r.s.open ==> t < |qs| && r.s.open[t].q == qs[t])
    && (forall m :: InFlight(r.s.open, w, m) == Asked(p.s.db, qs, m))
  }

  /** Open claims can all choose one worker that suits each of their queries by itself. */
  lemma {:induction false} ClaimsPileUp(p: Walk, qs: seq<QueryId>, w: WorkerId, cutoff: int) returns (r: Walk)
    requires |qs| <= p.limit && p.s.open == map[]
    requires forall i, j :: 0 <= i < j < |qs| ==> qs[i] != qs[j]
    requires forall i :: 0 <= i < |qs| ==> CanClaim(p.s.db, qs[i], w, cutoff)
    ensures PiledUp(p, r, qs, w)
    decreases |qs|
  {
    if qs == [] {
      r := p;
    } else {
      var n := |qs| - 1;
      var v := ClaimsPileUp(p, qs[..n], w, cutoff);
      assert !IsLocked(v.s.open, qs[n]);
      r := OpenClaim(v, n, qs[n], w, cutoff);
      PileGrows(p, v, r, qs, w);
    }
  }

  lemma PileGrows(p: Path, v: Path, r: Path, qs: seq<QueryId>, w: WorkerId)
    requires qs != [] && PiledUp(p, v, qs[..|qs| - 1], w) && Continues(v, r)
    requires qs[|qs| - 1] in p.s.db.queries
    requires r.s.db == v.s.db
    requires r.s.open == v.s.open[|qs| - 1 := Chosen(qs[|qs| - 1], p.s.db.queries[qs[|qs| - 1]].request, w)]
    ensures PiledUp(p, r, qs, w)
  {
    var n := |qs| - 1;
    assert n !in v.s.open;
    var tx := Chosen(qs[n], p.s.db.queries[qs[n]].request, w);
    assert r.s.open == v.s.open[n := tx];
    forall m ensures InFlight(r.s.open, w, m) == Asked(p.s.db, qs, m) {
      OneMoreInFlight(v.s.open, n, tx, w, m);
      assert InFlight(v.s.open, w, m) == Asked(p.s.db, qs[..n], m);
    }
  }

  lemma OneMoreInFlight(open: map<TxId, Tx>, t: TxId, tx: Tx, w: WorkerId, m: Measure)
    requires t !in open && tx.Chosen? && tx.w == w
    ensures InFlight(open[t := tx], w, m) == InFlight(open, w, m) + AskOf(tx.request, m)
  {
    SumUpdate(open, TxCharge(w, m), t, tx);
  }

  // ----- One worker, n queries for the largest request, the first k of them running there -----

  function Ask(largest: Capacity): Request {
    Request(Some(largest.cpus), Some(largest.memory), Some(largest.disk))
  }

  /** n times a unit. */
  function Repeat(n: nat, unit: int): int {
    if n == 0 then 0 else Repeat(n - 1, unit) + unit
  }

  lemma {:induction false} RepeatIsTimes(n: nat, unit: int)
    ensures Repeat(n, unit) == n * unit
    decreases n
  {
    if n == 0 {
    } else {
      RepeatIsTimes(n - 1, unit);
      OneMoreTimes(n - 1, unit);
    }
  }

  function Times(n: nat, largest: Capacity): Capacity {
    Capacity(Repeat(n, largest.cpus), Repeat(n, largest.memory), Repeat(n, largest.disk))
  }

  ghost predicate Scene(s: Fine, now: int, n: nat, k: nat, max: nat, largest: Capacity) {
    && s.open == map[] && s.db.now == now && s.db.workers.Keys == {0}
    && s.db.workers[0].status.Online? && s.db.workers[0].lastHeartbeat == now
    && s.db.workers[0].maxConcurrent == max && s.db.workers[0].capacity == Times(max, largest)
    && (forall q: QueryId :: q in s.db.queries <==> q < n)
    && (forall q :: q in s.db.queries ==> s.db.queries[q].request == Ask(largest))
    && (forall q :: q in s.db.queries && q < k ==> RunsOn(s.db.queries[q], 0))
    && (forall q :: q in s.db.queries && k <= q ==> s.db.queries[q].status.Pending?)
    && (forall m :: Load(s.db.queries, 0, m) == Repeat(k, Unit(largest, m)))
  }

  predicate Natural(largest: Capacity) {
    0 <= largest.cpus && 0 <= largest.memory && 0 <= largest.disk
  }

  lemma {:induction false} FitsOneMore(k: nat, max: nat, unit: int)
    requires k < max && 0 <= unit
    ensures Repeat(k, unit) + unit <= Repeat(max, unit)
    decreases max
  {
    if k + 1 == max {
    } else {
      FitsOneMore(k, max - 1, unit);
    }
  }

  lemma {:induction false} RepeatOnes(n: nat)
    ensures Repeat(n, 1) == n
    decreases n
  {
    if n == 0 {
    } else {
      RepeatOnes(n - 1);
    }
  }

  /** While fewer than the maximum run there, the worker suits any of the queries. */
  lemma SceneCanClaim(s: Fine, now: int, n: nat, k: nat, max: nat, largest: Capacity, q: QueryId)
    requires Scene(s, now, n, k, max, largest) && Natural(largest) && k <= q < n && k < max
    ensures CanClaim(s.db, q, 0, now)
  {
    forall x: Resource ensures Fits(s.db.queries, 0, s.db.workers[0].capacity, Ask(largest), x) {
      FitsOneMore(k, max, largest.Of(x));
      assert Load(s.db.queries, 0, Total(x)) == Repeat(k, Unit(largest, Total(x)));
    }
    assert Load(s.db.queries, 0, Count) == Repeat(k, Unit(largest, Count));
    RepeatOnes(k);
    OnlyChoice(s.db, 0, Ask(largest), now);
  }

  lemma SceneCreate(s: Fine, t: Fine, now: int, n: nat, max: nat, largest: Capacity)
    requires 0 < n && Scene(s, now, n - 1, 0, max, largest)
    requires t == s.(db := CreateQuery(s.db, n - 1, "", Ask(largest), None))
    ensures Scene(t, now, n, 0, max, largest)
  {
    forall m ensures Load(t.db.queries, 0, m) == Repeat(0, Unit(largest, m)) {
      LoadUpdate(s.db.queries, n - 1, t.db.queries[n - 1], 0, m);
    }
  }

  lemma SceneInsert(p: Walk, now: int, n: nat, max: nat) returns (r: Walk)
    requires 0 < n && Natural(p.largest) && Scene(p.s, now, n - 1, 0, max, p.largest)
    ensures Continues(p, r) && Scene(r.s, now, n, 0, max, p.largest)
  {
    AskIsWithin(p.largest);
    r := MakeCall(p, Create(n - 1, "", Ask(p.largest), None));
    SceneCreate(p.s, r.s, now, n, max, p.largest);
  }

  /** One registered worker that is ready. */
  lemma SceneOfWorker(now: int, max: nat, largest: Capacity, limit: nat) returns (p: Walk)
    ensures p.start == Start(now) && p.limit == limit && p.largest == largest && Scene(p.s, now, 0, 0, max, largest)
  {
    p := From(Start(now), limit, largest);
    var registered := RegisterWorker(Empty(now), 0, "", Times(max, largest), max);
    p := MakeCall(p, Register(0, "", Times(max, largest), max));
    assert p.s == Fine(registered, map[]);
    p := MakeCall(p, Ready(0));
    assert p.s == Fine(ReadyWorker(registered, 0), map[]);
    FirstScene(p.s, now, max, largest);
  }

  lemma FirstScene(s: Fine, now: int, max: nat, largest: Capacity)
    requires s == Fine(ReadyWorker(RegisterWorker(Empty(now), 0, "", Times(max, largest), max), 0), map[])
    ensures Scene(s, now, 0, 0, max, largest)
  {
    assert s.open == map[] && s.db.now == now && s.db.queries == map[];
    assert s.db.workers == map[0 := Worker("", Online, Times(max, largest), max, None, None, now, now)];
    forall m ensures Load(s.db.queries, 0, m) == Repeat(0, Unit(largest, m)) {
      IdleLoad(s.db.queries, 0, m);
    }
  }

  lemma AskIsWithin(largest: Capacity)
    requires Natural(largest)
    ensures Within(Ask(largest), largest)
  {
  }

  lemma {:induction false} SceneOfPending(p: Walk, now: int, n: nat, max: nat) returns (r: Walk)
    requires Natural(p.largest) && Scene(p.s, now, 0, 0, max, p.largest)
    ensures Continues(p, r) && Scene(r.s, now, n, 0, max, p.largest)
    decreases n
  {
    if n == 0 {
      r := p;
    } else {
      r := SceneOfPending(p, now, n - 1, max);
      r := SceneInsert(r, now, n, max);
    }
  }

  lemma SceneCommit(s: Fine, open: Fine, t: Fine, tx: TxId, now: int, n: nat, k: nat, max: nat, largest: Capacity)
    requires 0 < k <= n && Scene(s, now, n, k - 1, max, largest)
    requires open.db == s.db && open.open.Keys == {tx} && open.open[tx].Chosen?
    requires open.open[tx].q == k - 1 && open.open[tx].w == 0
    requires t == Fine(ClaimRow(open.db, open.open[tx].q, open.open[tx].w), open.open - {tx})
    ensures Scene(t, now, n, k, max, largest)
  {
    assert t.open == map[] && t.db == ClaimRow(s.db, k - 1, 0);
    forall m ensures Load(t.db.queries, 0, m) == Repeat(k, Unit(largest, m)) {
      LoadUpdate(s.db.queries, k - 1, t.db.queries[k - 1], 0, m);
      assert Load(s.db.queries, 0, m) == Repeat(k - 1, Unit(largest, m));
    }
  }

  lemma SceneOpen(p: Walk, tx: TxId, now: int, n: nat, q: QueryId, k: nat, max: nat) returns (r: Walk)
    requires k <= q < n && k < max && 0 < p.limit && Natural(p.largest) && Scene(p.s, now, n, k, max, p.largest)
    ensures Continues(p, r) && r.s.db == p.s.db && r.s.open.Keys == {tx}
    ensures r.s.open[tx].Chosen? && r.s.open[tx].q == q && r.s.open[tx].w == 0
  {
    SceneCanClaim(p.s, now, n, k, max, p.largest, q);
    r := OpenClaim(p, tx, q, 0, now);
  }

  /** The k-th claim from start to end. */
  lemma SceneClaim(p: Walk, now: int, n: nat, k: nat, max: nat) returns (r: Walk)
    requires 0 < k <= n && k <= max && 0 < p.limit && Natural(p.largest) && Scene(p.s, now, n, k - 1, max, p.largest)
    ensures Continues(p, r) && Scene(r.s, now, n, k, max, p.largest)
  {
    var open := SceneOpen(p, 0, now, n, k - 1, k - 1, max);
    r := CommitClaim(open, 0);
    SceneCommit(p.s, open.s, r.s, 0, now, n, k, max, p.largest);
  }

  /** Claims one after another, until k run. */
  lemma {:induction false} SceneOfRunning(p: Walk, now: int, n: nat, j: nat, k: nat, max: nat) returns (r: Walk)
    requires Natural(p.largest) && Scene(p.s, now, n, j, max, p.largest) && j <= k <= n && k <= max && 0 < p.limit
    ensures Continues(p, r) && Scene(r.s, now, n, k, max, p.largest)
    decreases k - j
  {
    if j == k {
      r := p;
    } else {
      var q := SceneClaim(p, now, n, j + 1, max);
      r := SceneOfRunning(q, now, n, j + 1, k, max);
    }
  }

  lemma MakeScene(now: int, n: nat, k: nat, max: nat, largest: Capacity, limit: nat) returns (p: Walk)
    requires Natural(largest) && k <= n && k <= max && 0 < limit
    ensures p.start == Start(now) && p.limit == limit && p.largest == largest && Scene(p.s, now, n, k, max, largest)
  {
    p := SceneOfWorker(now, max, largest, limit);
    p := SceneOfPending(p, now, n, max);
    p := SceneOfRunning(p, now, n, 0, k, max);
  }

  // ----- The overcommit bound is attained -----

  lemma {:induction false} AskedAlike(s: Db, qs: seq<QueryId>, m: Measure, req: Request)
    requires forall i :: 0 <= i < |qs| ==> qs[i] in s.queries && s.queries[qs[i]].request == req
    ensures Asked(s, qs, m) == |qs| * AskOf(req, m)
    decreases |qs|
  {
    if qs == [] {
    } else {
      AskedAlike(s, qs[..|qs| - 1], m, req);
      OneMoreTimes(|qs| - 1, AskOf(req, m));
    }
  }

  lemma Distribute(k: int, limit: int, unit: int)
    ensures k * unit + limit * unit == (k + 1) * unit + (limit - 1) * unit
  {
  }

  /** For every maximum, limit and largest request there is a run that meets every assumption of the overcommit bound
      and attains it in every measure at once: no smaller bound holds. */
  lemma BoundIsAttained(now: int, max: nat, limit: nat, largest: Capacity) returns (steps: seq<FineStep>)
    requires 0 < max && 0 < limit && Natural(largest)
    ensures AllAssumed(now, steps, limit, largest)
    ensures AtTheBound(FineRun(Start(now), steps, limit), max, limit, largest)
  {
    var k := max - 1;
    var p := MakeScene(now, k + limit, k, max, largest, limit);
    var qs: seq<QueryId> := seq(limit, i requires 0 <= i < limit => k + i);
    forall i | 0 <= i < |qs| ensures CanClaim(p.s.db, qs[i], 0, now) {
      SceneCanClaim(p.s, now, k + limit, k, max, largest, qs[i]);
    }
    var r := ClaimsPileUp(p, qs, 0, now);
    PileIsAtTheBound(p, r, now, qs, max, largest);
    WalkMeaning(r);
    steps := r.steps;
  }

  ghost predicate AtTheBound(s: Fine, max: nat, limit: nat, largest: Capacity) {
    && 0 in s.db.workers && s.db.workers[0].maxConcurrent == max && s.db.workers[0].capacity == Times(max, largest)
    && forall m :: Occupied(s, 0, m) == CapacityOf(s.db.workers[0], m) + (limit - 1) * Unit(largest, m)
  }

  lemma PileIsAtTheBound(p: Path, r: Path, now: int, qs: seq<QueryId>, max: nat, largest: Capacity)
    requires 0 < max && Scene(p.s, now, max - 1 + |qs|, max - 1, max, largest) && PiledUp(p, r, qs, 0)
    requires forall i :: 0 <= i < |qs| ==> qs[i] in p.s.db.queries
    ensures AtTheBound(r.s, max, |qs|, largest)
  {
    forall m ensures Occupied(r.s, 0, m) == CapacityOf(r.s.db.workers[0], m) + (|qs| - 1) * Unit(largest, m) {
      AskedAlike(p.s.db, qs, m, Ask(largest));
      assert Load(p.s.db.queries, 0, m) == Repeat(max - 1, Unit(largest, m));
      assert InFlight(r.s.open, 0, m) == |qs| * Unit(largest, m);
      RepeatIsTimes(max - 1, Unit(largest, m));
      RepeatIsTimes(max, Unit(largest, m));
      Distribute(max - 1, |qs|, Unit(largest, m));
    }
  }

  // ----- Ownership is lost -----

  /** One running worker, heard from before the cutoff, and one pending query. */
  ghost predicate OneOfEach(s: Db, cutoff: int) {
    && s.workers.Keys == {0} && s.workers[0].status.Online? && s.workers[0].lastHeartbeat < cutoff
    && s.queries.Keys == {0} && s.queries[0].status.Pending?
  }

  lemma SceneOfOpenClaim(now: int, limit: nat) returns (p: Walk)
    requires 0 < limit
    ensures p.start == Start(now) && p.limit == limit && OneOfEach(p.s.db, now + 1)
    ensures p.s.open.Keys == {0} && p.s.open[0].Chosen? && p.s.open[0].q == 0 && p.s.open[0].w == 0
  {
    p := MakeScene(now, 1, 0, 1, Capacity(0, 0, 0), limit);
    SceneCanClaim(p.s, now, 1, 0, 1, Capacity(0, 0, 0), 0);
    p := OpenClaim(p, 0, 0, 0, now);
    p := MakeCall(p, Tick(1));
  }

  lemma SweptThenCommitted(s: Db, cutoff: int)
    requires OneOfEach(s, cutoff)
    ensures Stranded(ClaimRow(Miss(s, SweepStaleWorkers(s, cutoff), {}), 0, 0), 0, 0)
  {
    assert 0 in Stale(s, cutoff);
  }

  lemma CommittedThenSwept(s: Db, cutoff: int)
    requires OneOfEach(s, cutoff)
    ensures
      var claimed := ClaimRow(s, 0, 0);
      Stranded(Miss(claimed, SweepStaleWorkers(claimed, cutoff), {0}), 0, 0)
  {
    assert 0 in Stale(ClaimRow(s, 0, 0), cutoff);
  }

  /** A sweep between a claim's choice and its commit: the query ends up running on a stopped worker. */
  lemma CommitCanStrand(now: int, limit: nat) returns (steps: seq<FineStep>)
    requires 0 < limit
    ensures AllFineSane(steps) && steps != [] && steps[|steps| - 1] == Commit(0)
    ensures Stranded(FineRun(Start(now), steps, limit).db, 0, 0) && !Owned(FineRun(Start(now), steps, limit).db)
  {
    var p := SceneOfOpenClaim(now, limit);
    SweptThenCommitted(p.s.db, now + 1);
    p := MakeSweep(p, now + 1, {});
    p := CommitClaim(p, 0);
    WalkMeaning(p);
    StrandedIsNotOwned(p.s.db, 0, 0);
    steps := p.steps;
  }

  /** A claim that commits after a sweep has read the running rows and before it commits: the sweep misses the row. */
  lemma MissedRowIsStranded(now: int, limit: nat) returns (steps: seq<FineStep>)
    requires 0 < limit
    ensures AllFineSane(steps)
    ensures Stranded(FineRun(Start(now), steps, limit).db, 0, 0) && !Owned(FineRun(Start(now), steps, limit).db)
  {
    var p := SceneOfOpenClaim(now, limit);
    CommittedThenSwept(p.s.db, now + 1);
    p := CommitClaim(p, 0);
    p := MakeSweep(p, now + 1, {0});
    WalkMeaning(p);
    StrandedIsNotOwned(p.s.db, 0, 0);
    steps := p.steps;
  }

  lemma StrandedStaysSettled(s: Fine, q: QueryId, w: WorkerId, o: Outcome, missed: set<QueryId>, limit: nat)
    requires Stranded(s.db, q, w) && LosesWorker(o)
    ensures Stranded(FineSettle(s, q, w, o, missed, limit).db, q, w)
  {
    FineSettleStrands(s, q, w, o, missed, limit);
  }

  /** When the dispatch of that claim then loses its worker, its query stays stranded: the worker is stopped already, so
      marking it unreachable does nothing. */
  lemma FailedDispatchCanStrand(now: int, limit: nat, o: Outcome) returns (steps: seq<FineStep>)
    requires 0 < limit && LosesWorker(o)
    ensures AllFineSane(steps) && steps != [] && steps[|steps| - 1] == Commit(0)
    ensures Stranded(FineRun(Start(now), steps, limit).db, 0, 0)
    ensures Stranded(FineSettle(FineRun(Start(now), steps, limit), 0, 0, o, {}, limit).db, 0, 0)
  {
    steps := CommitCanStrand(now, limit);
    StrandedStaysSettled(FineRun(Start(now), steps, limit), 0, 0, o, {}, limit);
  }
}
