/** The worker's bounded connection pool, its map of active queries and the admission check. */
module Executor {
  import opened Model

  /** A connection object; duckdb.connect never returns the same one twice. */
  type Conn = nat

  /** How far one execution has come; between two stages any other execution may move. */
  datatype Stage = Queued | Got(c: Conn) | Registered(c: Conn) | Popped(c: Conn, discard: bool)

  /** `size` and `maxConcurrent` are the settings; `made` counts the connections ever made. */
  datatype Pool = Pool(
    size: int, maxConcurrent: int, available: seq<Conn>, active: map<QueryId, Conn>,
    stage: map<QueryId, Stage>, tasks: set<QueryId>, made: nat)

  /** connection_pool_size or max_concurrent_queries: zero counts as unset. */
  function PoolSize(configured: Option<int>, maxConcurrent: int): int {
    if configured.Some? && configured.value != 0 then configured.value else maxConcurrent
  }

  /** How many connections warm_pool opens. */
  function Connections(size: int): nat {
    if size > 0 then size else 0
  }

  /** A queue with a maximum of zero or less is unbounded. */
  predicate PutBlocks(s: Pool) {
    s.size > 0 && |s.available| >= s.size
  }

  datatype PoolStep =
    | Admit(q: QueryId, shuttingDown: bool)
    | Acquire(q: QueryId)
    | Register(q: QueryId)
    | Pop(q: QueryId, interrupted: bool)
    | Release(q: QueryId)
    | Report(q: QueryId)

  /** The HTTP status of a dispatch; no id is dispatched again while it is in flight here. */
  function AdmitCode(s: Pool, shuttingDown: bool): int {
    if shuttingDown then 503 else if |s.tasks| >= s.maxConcurrent then 429 else 202
  }

  predicate At(s: Pool, q: QueryId) {
    q in s.stage
  }

  /** Total: an execution that would block, or is not at that stage, does not move. */
  function PoolDo(s: Pool, step: PoolStep): Pool {
    match step
    case Admit(q, down) =>
      if AdmitCode(s, down) == 202 && q !in s.tasks
      then s.(tasks := s.tasks + {q}, stage := s.stage[q := Queued]) else s
    case Acquire(q) =>
      if At(s, q) && s.stage[q].Queued? && s.available != []
      then s.(available := s.available[1..], stage := s.stage[q := Got(s.available[0])]) else s
    case Register(q) =>
      if At(s, q) && s.stage[q].Got?
      then s.(active := s.active[q := s.stage[q].c], stage := s.stage[q := Registered(s.stage[q].c)]) else s
    case Pop(q, interrupted) =>
      if At(s, q) && s.stage[q].Registered?
      then s.(active := s.active - {q}, stage := s.stage[q := Popped(s.stage[q].c, interrupted)]) else s
    case Release(q) =>
      if At(s, q) && s.stage[q].Popped? && !PutBlocks(s) then
        if s.stage[q].discard
        then s.(available := s.available + [s.made], stage := s.stage - {q}, made := s.made + 1)
        else s.(available := s.available + [s.stage[q].c], stage := s.stage - {q})
      else s
    case Report(q) => if q !in s.stage then s.(tasks := s.tasks - {q}) else s
  }

  /** The pool as warm_pool leaves it. */
  function Warm(size: int, maxConcurrent: int): Pool {
    Pool(size, maxConcurrent, seq(Connections(size), i => i), map[], map[], {}, Connections(size))
  }

  function PoolFrom(s: Pool, steps: seq<PoolStep>): Pool {
    if steps == [] then s else PoolDo(PoolFrom(s, steps[..|steps| - 1]), steps[|steps| - 1])
  }

  function PoolRun(size: int, maxConcurrent: int, steps: seq<PoolStep>): Pool {
    PoolFrom(Warm(size, maxConcurrent), steps)
  }

  lemma PoolFromExtends(s: Pool, steps: seq<PoolStep>, step: PoolStep)
    ensures PoolFrom(s, steps + [step]) == PoolDo(PoolFrom(s, steps), step)
  {
    assert (steps + [step])[..|steps + [step]| - 1] == steps;
  }

  // ----- Conservation -----

  predicate Holds(g: Stage) {
    !g.Queued?
  }

  function Holders(stage: map<QueryId, Stage>): set<QueryId> {
    set q | q in stage && Holds(stage[q])
  }

  /** Idle and held connections are distinct, and together they are as many as were opened at the start. */
  ghost predicate Conserved(s: Pool) {
    && |s.available| + |Holders(s.stage)| == Connections(s.size)
    && (forall i, j :: 0 <= i < j < |s.available| ==> s.available[i] != s.available[j])
    && (forall c :: c in s.available ==> c < s.made)
    && (forall q :: q in s.stage && Holds(s.stage[q]) ==> s.stage[q].c < s.made && s.stage[q].c !in s.available)
    && (forall p, q :: p in s.stage && q in s.stage && p != q && Holds(s.stage[p]) && Holds(s.stage[q]) ==>
          s.stage[p].c != s.stage[q].c)
  }

  /** The active map lists exactly the executions between register and pop, with the connection each holds. */
  ghost predicate ActiveIsRegistered(s: Pool) {
    && (forall q :: q in s.active <==> q in s.stage && s.stage[q].Registered?)
    && (forall q :: q in s.active ==> q in s.stage && Holds(s.stage[q]) && s.active[q] == s.stage[q].c)
  }

  ghost predicate Admitted(s: Pool) {
    s.stage.Keys <= s.tasks && (s.tasks != {} ==> |s.tasks| <= s.maxConcurrent)
  }

  lemma HoldersChange(stage: map<QueryId, Stage>, q: QueryId, g: Stage)
    ensures Holders(stage[q := g]) == if Holds(g) then Holders(stage) + {q} else Holders(stage) - {q}
    ensures Holders(stage - {q}) == Holders(stage) - {q}
  {
  }

  lemma AcquireConserves(s: Pool, q: QueryId)
    requires Conserved(s)
    ensures Conserved(PoolDo(s, Acquire(q)))
  {
    if At(s, q) && s.stage[q].Queued? && s.available != [] {
      TakenConserves(s, PoolDo(s, Acquire(q)), q, s.available[0], s.available[1..]);
    }
  }

  lemma TakenConserves(s: Pool, t: Pool, q: QueryId, c: Conn, rest: seq<Conn>)
    requires Conserved(s) && s.available == [c] + rest && q in s.stage && s.stage[q].Queued?
    requires t.available == rest && t.made == s.made && t.size == s.size && t.stage == s.stage[q := Got(c)]
    ensures Conserved(t)
  {
    HoldersChange(s.stage, q, Got(c));
    assert q !in Holders(s.stage);
    FirstIsDistinct(s.available, c, rest);
    forall p, r | p in t.stage && r in t.stage && p != r && Holds(t.stage[p]) && Holds(t.stage[r])
      ensures t.stage[p].c != t.stage[r].c
    {
      assert p != q ==> s.stage[p].c !in s.available;
      assert r != q ==> s.stage[r].c !in s.available;
    }
  }

  lemma FirstIsDistinct(available: seq<Conn>, c: Conn, rest: seq<Conn>)
    requires available == [c] + rest
    requires forall i, j :: 0 <= i < j < |available| ==> available[i] != available[j]
    ensures c in available && c !in rest && (forall d :: d in rest ==> d in available)
    ensures forall i, j :: 0 <= i < j < |rest| ==> rest[i] != rest[j]
  {
    assert available[0] == c;
    assert forall i :: 0 <= i < |rest| ==> rest[i] == available[i + 1];
  }

  lemma ReleaseConserves(s: Pool, q: QueryId)
    requires Conserved(s)
    ensures Conserved(PoolDo(s, Release(q)))
  {
    if At(s, q) && s.stage[q].Popped? && !PutBlocks(s) {
      var t := PoolDo(s, Release(q));
      var c := if s.stage[q].discard then s.made else s.stage[q].c;
      HoldersChange(s.stage, q, Queued);
      assert q in Holders(s.stage);
      assert t.available == s.available + [c] && c !in s.available;
    }
  }

  /** An execution that moves on with the connection it holds conserves the pool. */
  lemma MovingOnConserves(s: Pool, t: Pool, q: QueryId, g: Stage)
    requires Conserved(s) && q in s.stage && Holds(s.stage[q]) && Holds(g) && g.c == s.stage[q].c
    requires t.available == s.available && t.made == s.made && t.size == s.size && t.stage == s.stage[q := g]
    ensures Conserved(t)
  {
    HoldersChange(s.stage, q, g);
    assert q in Holders(s.stage) && Holders(s.stage) + {q} == Holders(s.stage);
  }

  lemma AdmitConserves(s: Pool, q: QueryId, shuttingDown: bool)
    requires Conserved(s) && Admitted(s)
    ensures Conserved(PoolDo(s, Admit(q, shuttingDown)))
  {
    HoldersChange(s.stage, q, Queued);
    assert q !in s.tasks ==> Holders(s.stage) - {q} == Holders(s.stage);
  }

  lemma StepConserves(s: Pool, step: PoolStep)
    requires Conserved(s) && Admitted(s)
    ensures Conserved(PoolDo(s, step))
  {
    match step
    case Admit(q, down) => AdmitConserves(s, q, down);
    case Acquire(q) => AcquireConserves(s, q);
    case Register(q) =>
      if At(s, q) && s.stage[q].Got? {
        MovingOnConserves(s, PoolDo(s, step), q, Registered(s.stage[q].c));
      }
    case Pop(q, interrupted) =>
      if At(s, q) && s.stage[q].Registered? {
        MovingOnConserves(s, PoolDo(s, step), q, Popped(s.stage[q].c, interrupted));
      }
    case Release(q) => ReleaseConserves(s, q);
    case Report(_) =>
  }

  lemma StepKeepsActive(s: Pool, step: PoolStep)
    requires ActiveIsRegistered(s) && Admitted(s)
    ensures ActiveIsRegistered(PoolDo(s, step))
  {
  }

  lemma AdmitKeepsAdmitted(s: Pool, q: QueryId, shuttingDown: bool)
    requires Admitted(s)
    ensures Admitted(PoolDo(s, Admit(q, shuttingDown)))
  {
    if AdmitCode(s, shuttingDown) == 202 && q !in s.tasks {
      assert |s.tasks + {q}| == |s.tasks| + 1;
    }
  }

  lemma ReportKeepsAdmitted(s: Pool, q: QueryId)
    requires Admitted(s)
    ensures Admitted(PoolDo(s, Report(q)))
  {
    if q in s.tasks {
      assert |s.tasks - {q}| == |s.tasks| - 1;
    } else {
      assert s.tasks - {q} == s.tasks;
    }
  }

  lemma StepKeepsAdmitted(s: Pool, step: PoolStep)
    requires Admitted(s)
    ensures Admitted(PoolDo(s, step))
  {
    match step
    case Admit(q, down) => AdmitKeepsAdmitted(s, q, down);
    case Report(q) => ReportKeepsAdmitted(s, q);
    case Acquire(_) =>
    case Register(_) =>
    case Pop(_, _) =>
    case Release(_) =>
  }

  ghost predicate Sound(s: Pool) {
    Conserved(s) && ActiveIsRegistered(s) && Admitted(s)
  }

  lemma WarmIsSound(size: int, maxConcurrent: int)
    ensures Sound(Warm(size, maxConcurrent))
  {
    assert Holders(Warm(size, maxConcurrent).stage) == {};
  }

  lemma StepIsSound(s: Pool, step: PoolStep)
    requires Sound(s)
    ensures Sound(PoolDo(s, step))
    ensures PoolDo(s, step).size == s.size && PoolDo(s, step).maxConcurrent == s.maxConcurrent
  {
    StepConserves(s, step);
    StepKeepsActive(s, step);
    StepKeepsAdmitted(s, step);
  }

  /** In every interleaving of executions, idle plus held connections are the warmed number of distinct connections,
      the active map is exactly the registered executions, and at most max_concurrent_queries tasks are in flight. */
  lemma {:induction false} PoolIsConserved(size: int, maxConcurrent: int, steps: seq<PoolStep>)
    ensures Sound(PoolRun(size, maxConcurrent, steps))
    ensures PoolRun(size, maxConcurrent, steps).size == size
    ensures PoolRun(size, maxConcurrent, steps).maxConcurrent == maxConcurrent
    decreases |steps|
  {
    if steps == [] {
      WarmIsSound(size, maxConcurrent);
    } else {
      PoolIsConserved(size, maxConcurrent, steps[..|steps| - 1]);
      StepIsSound(PoolRun(size, maxConcurrent, steps[..|steps| - 1]), steps[|steps| - 1]);
    }
  }

  /** The bounded put of a release never blocks. */
  lemma ReleaseNeverBlocks(size: int, maxConcurrent: int, steps: seq<PoolStep>, q: QueryId)
    requires var s := PoolRun(size, maxConcurrent, steps); q in s.stage && s.stage[q].Popped?
    ensures !PutBlocks(PoolRun(size, maxConcurrent, steps))
  {
    PoolIsConserved(size, maxConcurrent, steps);
    assert q in Holders(PoolRun(size, maxConcurrent, steps).stage);
  }

  lemma SubsetSize(a: set<QueryId>, b: set<QueryId>)
    requires a <= b
    ensures |a| <= |b|
  {
    if a != b {
      assert b == a + (b - a);
    }
  }

  /** With at least max_concurrent_queries connections, an admitted execution finds one at once. */
  lemma AcquireNeverBlocks(size: int, maxConcurrent: int, steps: seq<PoolStep>, q: QueryId)
    requires Connections(size) >= maxConcurrent
    requires var s := PoolRun(size, maxConcurrent, steps); q in s.stage && s.stage[q].Queued?
    ensures PoolRun(size, maxConcurrent, steps).available != []
  {
    PoolIsConserved(size, maxConcurrent, steps);
    var s := PoolRun(size, maxConcurrent, steps);
    SubsetSize(Holders(s.stage), s.tasks - {q});
    assert |s.tasks - {q}| == |s.tasks| - 1;
  }

  /** The default pool size is enough for that; a smaller configured pool is not. */
  lemma DefaultPoolNeverBlocks(configured: Option<int>, maxConcurrent: int)
    requires maxConcurrent > 0
    ensures Connections(PoolSize(configured, maxConcurrent)) >= maxConcurrent <==>
            configured.None? || configured.value == 0 || configured.value >= maxConcurrent
  {
  }

  // ----- Interrupted connections -----

  /** Neither idle nor held by any execution, and never made again. */
  ghost predicate Gone(s: Pool, c: Conn) {
    c < s.made && c !in s.available && forall q :: q in s.stage && Holds(s.stage[q]) ==> s.stage[q].c != c
  }

  lemma StepKeepsGone(s: Pool, step: PoolStep, c: Conn)
    requires Gone(s, c)
    ensures Gone(PoolDo(s, step), c)
  {
  }

  lemma {:induction false} GoneIsForever(s: Pool, steps: seq<PoolStep>, c: Conn)
    requires Gone(s, c)
    ensures Gone(PoolFrom(s, steps), c)
    decreases |steps|
  {
    if steps == [] {
    } else {
      GoneIsForever(s, steps[..|steps| - 1], c);
      StepKeepsGone(PoolFrom(s, steps[..|steps| - 1]), steps[|steps| - 1], c);
    }
  }

  /** A connection that was interrupted is discarded by its release, and no execution ever holds it again. */
  lemma InterruptedIsGone(size: int, maxConcurrent: int, steps: seq<PoolStep>, q: QueryId, later: seq<PoolStep>)
    requires var s := PoolRun(size, maxConcurrent, steps); q in s.stage && s.stage[q].Popped? && s.stage[q].discard
    ensures
      var s := PoolRun(size, maxConcurrent, steps);
      var t := PoolFrom(PoolDo(s, Release(q)), later);
      s.stage[q].c !in t.available && forall p :: p in t.stage && Holds(t.stage[p]) ==> t.stage[p].c != s.stage[q].c
  {
    var s := PoolRun(size, maxConcurrent, steps);
    PoolIsConserved(size, maxConcurrent, steps);
    ReleaseNeverBlocks(size, maxConcurrent, steps, q);
    GoneIsForever(PoolDo(s, Release(q)), later, s.stage[q].c);
  }

  predicate Waiting(s: Pool, q: QueryId) {
    q in s.stage && s.stage[q].Queued? && s.available == []
  }

  /** The first k queries take k connections, and nobody gives one back. */
  lemma {:induction false} TakeConnections(size: int, maxConcurrent: int, k: nat) returns (steps: seq<PoolStep>)
    requires k <= Connections(size) < maxConcurrent
    ensures
      var s := PoolRun(size, maxConcurrent, steps);
      && s.maxConcurrent == maxConcurrent && s.tasks == s.stage.Keys
      && |s.tasks| == k && (forall q :: q in s.tasks ==> q < k)
      && |s.available| == Connections(size) - k
    decreases k
  {
    if k == 0 {
      steps := [];
    } else {
      var before := TakeConnections(size, maxConcurrent, k - 1);
      var admit, acquire := Admit(k - 1, false), Acquire(k - 1);
      PoolFromExtends(Warm(size, maxConcurrent), before, admit);
      PoolFromExtends(Warm(size, maxConcurrent), before + [admit], acquire);
      steps := before + [admit] + [acquire];
    }
  }

  /** With fewer connections than admission allows, an admitted execution can find none: admission does not bound the pool. */
  lemma SmallPoolBlocks(size: int, maxConcurrent: int) returns (steps: seq<PoolStep>, q: QueryId)
    requires Connections(size) < maxConcurrent
    ensures Waiting(PoolRun(size, maxConcurrent, steps), q)
  {
    q := Connections(size);
    var before := TakeConnections(size, maxConcurrent, q);
    PoolFromExtends(Warm(size, maxConcurrent), before, Admit(q, false));
    steps := before + [Admit(q, false)];
  }

  /** Admission keeps executions from waiting, in every interleaving, exactly when the pool is large enough. */
  lemma NobodyWaits(size: int, maxConcurrent: int)
    ensures (forall steps, q :: !Waiting(PoolRun(size, maxConcurrent, steps), q)) <==> Connections(size) >= maxConcurrent
  {
    if Connections(size) >= maxConcurrent {
      forall steps, q ensures !Waiting(PoolRun(size, maxConcurrent, steps), q) {
        var s := PoolRun(size, maxConcurrent, steps);
        if q in s.stage && s.stage[q].Queued? {
          AcquireNeverBlocks(size, maxConcurrent, steps, q);
        }
      }
    } else {
      var steps, q := SmallPoolBlocks(size, maxConcurrent);
      assert Waiting(PoolRun(size, maxConcurrent, steps), q);
    }
  }

  /** The lookup of a cancellation finds the connection held by exactly that query's execution, and no other. */
  lemma CancelFindsItsOwn(size: int, maxConcurrent: int, steps: seq<PoolStep>, q: QueryId)
    requires q in PoolRun(size, maxConcurrent, steps).active
    ensures
      var s := PoolRun(size, maxConcurrent, steps);
      && q in s.stage && s.stage[q] == Registered(s.active[q])
      && s.active[q] !in s.available
      && forall p :: p in s.stage && p != q && Holds(s.stage[p]) ==> s.stage[p].c != s.active[q]
  {
    PoolIsConserved(size, maxConcurrent, steps);
  }

  // ----- The worker -----

  /** The executor's queue and active map beside the worker's task table. Each method is one indivisible move of an
      execution; `stage` remembers which move each execution makes next. */
  class WorkerProcess {
    const size: int
    const maxConcurrent: int
    var available: seq<Conn>
    var active: map<QueryId, Conn>
    var tasks: set<QueryId>
    var made: nat
    var stage: map<QueryId, Stage>

    function State(): Pool
      reads this
    {
      Pool(size, maxConcurrent, available, active, stage, tasks, made)
    }

    constructor (configured: Option<int>, maxConcurrent: int)
      ensures State() == Pool(PoolSize(configured, maxConcurrent), maxConcurrent, [], map[], map[], {}, 0)
      ensures size == if configured.Some? && configured.value != 0 then configured.value else maxConcurrent
    {
      this.size := PoolSize(configured, maxConcurrent);
      this.maxConcurrent := maxConcurrent;
      available, active, tasks, made, stage := [], map[], {}, 0, map[];
    }

    method Connect() returns (c: Conn)
      modifies this`made
      ensures c == old(made) && made == old(made) + 1
    {
      c, made := made, made + 1;
    }

    method WarmPool()
      requires State() == Pool(size, maxConcurrent, [], map[], map[], {}, 0)
      modifies this`available, this`made
      ensures State() == Warm(size, maxConcurrent)
      ensures |available| == if size > 0 then size else 0
      ensures forall i :: 0 <= i < |available| ==> available[i] == i
    {
      var i := 0;
      while i < size
        invariant 0 <= i && (i <= size || i == 0)
        invariant available == seq(i, k requires 0 <= k => k) && made == i
      {
        var c := Connect();
        available := available + [c];
        i := i + 1;
      }
    }

    /** The dispatch endpoint, up to creating the task; q is not in flight here. */
    method RunQuery(q: QueryId, shuttingDown: bool) returns (code: int)
      requires q !in tasks
      modifies this`tasks, this`stage
      ensures code in {202, 429, 503}
      ensures code == 503 <==> shuttingDown
      ensures code == 429 <==> !shuttingDown && |old(tasks)| >= maxConcurrent
      ensures code == 202 ==> tasks == old(tasks) + {q} && stage == old(stage)[q := Queued]
      ensures code != 202 ==> tasks == old(tasks) && stage == old(stage)
      ensures State() == PoolDo(old(State()), Admit(q, shuttingDown))
    {
      if shuttingDown {
        return 503;
      }
      if |tasks| >= maxConcurrent {
        return 429;
      }
      tasks := tasks + {q};
      stage := stage[q := Queued];
      return 202;
    }

    /** Where the blocking get of an execution returns. */
    method TakeConnection(q: QueryId) returns (c: Conn)
      requires q in stage && stage[q].Queued? && available != []
      modifies this`available, this`stage
      ensures State() == PoolDo(old(State()), Acquire(q))
      ensures c == old(available)[0] && available == old(available)[1..] && stage == old(stage)[q := Got(c)]
    {
      c := available[0];
      available := available[1..];
      stage := stage[q := Got(c)];
    }

    method SetActive(q: QueryId, c: Conn)
      requires q in stage && stage[q] == Got(c)
      modifies this`active, this`stage
      ensures State() == PoolDo(old(State()), Register(q))
      ensures active == old(active)[q := c] && stage == old(stage)[q := Registered(c)]
    {
      active := active[q := c];
      stage := stage[q := Registered(c)];
    }

    method PopActive(q: QueryId, interrupted: bool)
      requires q in stage && stage[q].Registered?
      modifies this`active, this`stage
      ensures State() == PoolDo(old(State()), Pop(q, interrupted))
      ensures active == old(active) - {q} && stage == old(stage)[q := Popped(old(stage)[q].c, interrupted)]
    {
      active := active - {q};
      stage := stage[q := Popped(stage[q].c, interrupted)];
    }

    /** The put cannot block: what the run theorems prove of every reachable state is enough here. */
    method GiveBack(q: QueryId, c: Conn, discard: bool)
      requires q in stage && stage[q] == Popped(c, discard) && Sound(State())
      modifies this`available, this`made, this`stage
      ensures State() == PoolDo(old(State()), Release(q))
      ensures discard ==> made == old(made) + 1 && available == old(available) + [old(made)]
      ensures !discard ==> made == old(made) && available == old(available) + [c]
      ensures stage == old(stage) - {q}
    {
      assert q in Holders(stage);
      assert !PutBlocks(State());
      var conn := c;
      if discard {
        conn := Connect();
      }
      available := available + [conn];
      stage := stage - {q};
    }

    method FinishTask(q: QueryId)
      requires q !in stage
      modifies this`tasks
      ensures State() == PoolDo(old(State()), Report(q))
      ensures tasks == old(tasks) - {q}
    {
      tasks := tasks - {q};
    }

    /** The connection to interrupt: that of the query's execution while it is between register and pop, not idle and
        held by no other execution. */
    method Cancel(q: QueryId) returns (conn: Option<Conn>)
      requires Sound(State())
      ensures conn.Some? <==> q in stage && stage[q].Registered?
      ensures conn.Some? ==> stage[q] == Registered(conn.value) && conn.value !in available
      ensures conn.Some? ==> forall p :: p in stage && p != q && Holds(stage[p]) ==> stage[p].c != conn.value
    {
      conn := if q in active then Some(active[q]) else None;
    }

    /** One move of some execution, or of the admission check; one that would block is not made. */
    method Move(step: PoolStep)
      requires Sound(State())
      modifies this
      ensures State() == PoolDo(old(State()), step) && Sound(State())
    {
      StepIsSound(State(), step);
      match step
      case Admit(q, down) =>
        if q !in tasks {
          var _ := RunQuery(q, down);
        }
      case Acquire(q) =>
        if q in stage && stage[q].Queued? && available != [] {
          var _ := TakeConnection(q);
        }
      case Register(q) =>
        if q in stage && stage[q].Got? {
          SetActive(q, stage[q].c);
        }
      case Pop(q, interrupted) =>
        if q in stage && stage[q].Registered? {
          PopActive(q, interrupted);
        }
      case Release(q) =>
        if q in stage && stage[q].Popped? {
          GiveBack(q, stage[q].c, stage[q].discard);
        }
      case Report(q) =>
        if q !in stage {
          FinishTask(q);
        }
    }

    /** Any moves of executions, one after another. */
    method Moves(steps: seq<PoolStep>, ghost start: Pool, ghost trace: seq<PoolStep>) returns (ghost longer: seq<PoolStep>)
      requires Sound(State()) && State() == PoolFrom(start, trace)
      modifies this
      ensures Sound(State()) && State() == PoolFrom(start, longer) && trace <= longer
    {
      longer := trace;
      for i := 0 to |steps|
        invariant Sound(State()) && State() == PoolFrom(start, longer) && trace <= longer
      {
        PoolFromExtends(start, longer, steps[i]);
        Move(steps[i]);
        longer := longer + [steps[i]];
      }
    }

    /** Some moves, then the lookup for one query: None if it is not active then. */
    method CancelLater(q: QueryId, steps: seq<PoolStep>, ghost start: Pool, ghost trace: seq<PoolStep>)
      returns (conn: Option<Conn>, ghost longer: seq<PoolStep>)
      requires Sound(State()) && State() == PoolFrom(start, trace)
      modifies this
      ensures Sound(State()) && State() == PoolFrom(start, longer) && trace <= longer
      ensures Looked(start, longer, q, conn)
    {
      longer := Moves(steps, start, trace);
      conn := Cancel(q);
    }

    /** Cancel every query active at the snapshot, while executions move on between the lookups. Each lookup happens at a
        moment of the run, given by `when`; what it interrupts is the connection that the query's execution holds then,
        and a query that is no longer active then is skipped. */
    method CancelAll(env: nat -> seq<PoolStep>)
      returns (ids: set<QueryId>, interrupted: map<QueryId, Conn>, ghost trace: seq<PoolStep>, ghost when: map<QueryId, nat>)
      requires Sound(State())
      modifies this
      ensures Sound(State()) && State() == PoolFrom(old(State()), trace)
      ensures ids == old(active).Keys == when.Keys && interrupted.Keys <= ids
      ensures LookedAll(old(State()), trace, when, interrupted)
    {
      ids := active.Keys;
      var todo, round := ids, 0;
      trace, interrupted, when := [], map[], map[];
      while todo != {}
        invariant Sound(State()) && State() == PoolFrom(old(State()), trace)
        invariant todo <= ids && when.Keys == ids - todo && interrupted.Keys <= when.Keys
        invariant LookedAll(old(State()), trace, when, interrupted)
        decreases |todo|
      {
        var q :| q in todo;
        ghost var before := trace;
        var conn;
        conn, trace := CancelLater(q, env(round), old(State()), trace);
        LookedOneMore(old(State()), before, trace, when, interrupted, q, conn);
        if conn.Some? {
          interrupted := interrupted[q := conn.value];
        }
        when := when[q := |trace|];
        todo, round := todo - {q}, round + 1;
      }
    }
  }

  /** What cancelling q after these moves finds. */
  ghost predicate Looked(start: Pool, trace: seq<PoolStep>, q: QueryId, found: Option<Conn>) {
    var s := PoolFrom(start, trace);
    && Sound(s)
    && (found.Some? <==> q in s.stage && s.stage[q].Registered?)
    && (found.Some? ==> s.stage[q] == Registered(found.value))
  }

  ghost predicate LookedAll(start: Pool, trace: seq<PoolStep>, when: map<QueryId, nat>, interrupted: map<QueryId, Conn>) {
    forall q :: q in when ==>
      when[q] <= |trace| &&
      Looked(start, trace[..when[q]], q, if q in interrupted then Some(interrupted[q]) else None)
  }

  lemma LookedOneMore(start: Pool, before: seq<PoolStep>, trace: seq<PoolStep>, when: map<QueryId, nat>,
                      interrupted: map<QueryId, Conn>, q: QueryId, found: Option<Conn>)
    requires LookedAll(start, before, when, interrupted) && before <= trace && q !in when && q !in interrupted
    requires Looked(start, trace, q, found)
    ensures LookedAll(start, trace, when[q := |trace|],
                      if found.Some? then interrupted[q := found.value] else interrupted)
  {
    assert trace[..|trace|] == trace;
    forall p | p in when ensures trace[..when[p]] == before[..when[p]] {
    }
  }
}
