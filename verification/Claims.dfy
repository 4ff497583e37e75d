/** Claims at the grain of their transactions under Read Committed: lock a pending row with SKIP LOCKED, read the
    committed loads, write and commit, interleaved with other claims and with every other update.
    Sections 13.2.1 and 13.3.2 of the PostgreSQL manual give the rules: an UPDATE that matches a row locked by
    another transaction waits, one that does not match it passes by. */
module Claims {
  import opened Model
  import opened Sums
  import opened Placement
  import opened Tables
  import opened Runs

  type TxId = nat

  /** An open claim: it holds the lock on q; once chosen, its UPDATE is made but not committed. */
  datatype Tx =
    | Locked(q: QueryId, request: Request)
    | Chosen(q: QueryId, request: Request, w: WorkerId)

  /** The committed tables and the open claim transactions. */
  datatype Fine = Fine(db: Db, open: map<TxId, Tx>)

  datatype FineStep =
    | Begin(t: TxId, q: QueryId)
    | Choose(t: TxId, w: WorkerId, cutoff: int)
    | Abort(t: TxId)
    | Commit(t: TxId)
    | Other(step: Step, missed: set<QueryId>)

  predicate IsLocked(open: map<TxId, Tx>, q: QueryId) {
    exists t :: t in open && open[t].q == q
  }

  /** The WHERE clause of a completion or cancellation matches a locked pending row, so it waits. */
  predicate Waits(s: Fine, step: Step) {
    (step.Complete? || step.Cancel?) && IsLocked(s.open, step.q)
  }

  predicate IsBulk(step: Step) {
    step.MarkUnreachable? || step.Sweep?
  }

  /** A bulk revert does not see rows committed after its snapshot: they keep what they had. */
  function Miss(before: Db, after: Db, missed: set<QueryId>): Db {
    after.(
      queries := map q | q in after.queries :: if q in missed && q in before.queries then before.queries[q] else after.queries[q],
      log := map q | q in after.log :: if q in missed then Notes(before.log, q) else after.log[q])
  }

  /** Total: a step whose transaction cannot move now changes nothing. At most `limit` claims are open at once. */
  ghost function FineDo(s: Fine, step: FineStep, limit: nat): Fine {
    match step
    case Begin(t, q) =>
      if |s.open| < limit && t !in s.open && IsPending(s.db, q) && !IsLocked(s.open, q)
      then s.(open := s.open[t := Locked(q, s.db.queries[q].request)]) else s
    case Choose(t, w, cutoff) =>
      if t in s.open && s.open[t].Locked? && Best(s.db, w, s.open[t].request, cutoff)
      then s.(open := s.open[t := Chosen(s.open[t].q, s.open[t].request, w)]) else s
    case Abort(t) => s.(open := s.open - {t})
    case Commit(t) =>
      if t in s.open && s.open[t].Chosen?
      then Fine(ClaimRow(s.db, s.open[t].q, s.open[t].w), s.open - {t}) else s
    case Other(other, missed) =>
      if IsClaim(other) || Waits(s, other) then s
      else if IsBulk(other) then s.(db := Miss(s.db, Do(s.db, other), missed))
      else s.(db := Do(s.db, other))
  }

  ghost function FineRun(s: Fine, steps: seq<FineStep>, limit: nat): Fine {
    if steps == [] then s else FineDo(FineRun(s, steps[..|steps| - 1], limit), steps[|steps| - 1], limit)
  }

  predicate FineSane(step: FineStep) {
    step.Other? ==> Sane(step.step)
  }

  predicate AllFineSane(steps: seq<FineStep>) {
    forall i :: 0 <= i < |steps| ==> FineSane(steps[i])
  }

  function Start(now: int): Fine {
    Fine(Empty(now), map[])
  }

  // ----- Exclusivity -----

  /** No two open claims hold one row, and every row held is a pending row with the request that was read. */
  ghost predicate Exclusive(s: Fine) {
    && (forall t, u :: t in s.open && u in s.open && s.open[t].q == s.open[u].q ==> t == u)
    && (forall t :: t in s.open ==>
          IsPending(s.db, s.open[t].q) && s.db.queries[s.open[t].q].request == s.open[t].request)
  }

  /** Other updates leave a locked pending row as it is. */
  lemma OthersRespectLocks(s: Fine, step: FineStep, limit: nat, q: QueryId)
    requires step.Other? && IsLocked(s.open, q) && IsPending(s.db, q)
    ensures q in FineDo(s, step, limit).db.queries && FineDo(s, step, limit).db.queries[q] == s.db.queries[q]
  {
  }

  lemma FineKeepsExclusive(s: Fine, step: FineStep, limit: nat)
    requires Exclusive(s)
    ensures Exclusive(FineDo(s, step, limit))
  {
    if step.Other? {
      forall t | t in s.open
        ensures s.open[t].q in FineDo(s, step, limit).db.queries
        ensures FineDo(s, step, limit).db.queries[s.open[t].q] == s.db.queries[s.open[t].q]
      {
        OthersRespectLocks(s, step, limit, s.open[t].q);
      }
    }
  }

  lemma FineKeepsTerminal(s: Fine, step: FineStep, limit: nat, q: QueryId)
    requires Exclusive(s) && q in s.db.queries
    ensures q in FineDo(s, step, limit).db.queries
    ensures Terminal(s.db.queries[q].status) ==> FineDo(s, step, limit).db.queries[q] == s.db.queries[q]
  {
    if step.Other? {
      DoKeepsTerminal(s.db, step.step, q);
    }
  }

  /** Under every interleaving the locks are exclusive and a held row is still pending, so the unguarded UPDATE of a
      commit always finds the pending row it locked. */
  lemma {:induction false} ClaimsAreExclusive(now: int, steps: seq<FineStep>, limit: nat)
    ensures Exclusive(FineRun(Start(now), steps, limit))
    decreases |steps|
  {
    if steps == [] {
    } else {
      ClaimsAreExclusive(now, steps[..|steps| - 1], limit);
      FineKeepsExclusive(FineRun(Start(now), steps[..|steps| - 1], limit), steps[|steps| - 1], limit);
    }
  }

  /** Under every interleaving a row that is terminal at some point keeps every column from then on. */
  lemma {:induction false} NoStepLeavesTerminal(now: int, steps: seq<FineStep>, limit: nat, i: nat, q: QueryId)
    requires i <= |steps| && q in FineRun(Start(now), steps[..i], limit).db.queries
    ensures q in FineRun(Start(now), steps, limit).db.queries
    ensures Terminal(FineRun(Start(now), steps[..i], limit).db.queries[q].status) ==>
              FineRun(Start(now), steps, limit).db.queries[q] == FineRun(Start(now), steps[..i], limit).db.queries[q]
    decreases |steps|
  {
    if i == |steps| {
      assert steps[..i] == steps;
    } else {
      var n := |steps| - 1;
      assert steps[..n][..i] == steps[..i];
      NoStepLeavesTerminal(now, steps[..n], limit, i, q);
      ClaimsAreExclusive(now, steps[..n], limit);
      FineKeepsTerminal(FineRun(Start(now), steps[..n], limit), steps[n], limit, q);
    }
  }

  /** The claim does not lock the worker's row, so at this grain ownership is kept exactly when the worker it chose
      has not been lost before the commit. */
  lemma CommitKeepsOwners(s: Fine, t: TxId, limit: nat)
    requires Exclusive(s) && Owned(s.db)
    requires t in s.open && s.open[t].Chosen? && s.open[t].w in s.db.workers
    ensures Owned(FineDo(s, Commit(t), limit).db) <==>
            !s.db.workers[s.open[t].w].status.Unreachable? && !s.db.workers[s.open[t].w].status.Stopped?
  {
    var u := FineDo(s, Commit(t), limit);
    var q := s.open[t].q;
    assert q in u.db.queries && RunsOn(u.db.queries[q], s.open[t].w);
    assert forall p :: p in u.db.queries && p != q ==> u.db.queries[p] == s.db.queries[p];
  }

  // ----- Bounded overcommit -----

  function AskOf(req: Request, m: Measure): int {
    match m case Count => 1 case Total(x) => Coalesce(req.Of(x), 0)
  }

  function TxCharge(w: WorkerId, m: Measure): Tx -> int {
    (tx: Tx) => if tx.Chosen? && tx.w == w then AskOf(tx.request, m) else 0
  }

  /** What open claims are about to add to a worker. */
  ghost function InFlight(open: map<TxId, Tx>, w: WorkerId, m: Measure): int {
    Sum(open, TxCharge(w, m))
  }

  ghost function Occupied(s: Fine, w: WorkerId, m: Measure): int {
    Load(s.db.queries, w, m) + InFlight(s.open, w, m)
  }

  /** The largest request of each resource. */
  function Unit(largest: Capacity, m: Measure): int {
    match m case Count => 1 case Total(x) => largest.Of(x)
  }

  function CapacityOf(worker: Worker, m: Measure): int {
    match m case Count => worker.maxConcurrent case Total(x) => worker.capacity.Of(x)
  }

  predicate Within(req: Request, largest: Capacity) {
    forall x: Resource :: 0 <= Coalesce(req.Of(x), 0) <= largest.Of(x)
  }

  ghost predicate RequestsWithin(s: Fine, largest: Capacity) {
    && (forall q :: q in s.db.queries ==> Within(s.db.queries[q].request, largest))
    && (forall t :: t in s.open ==> Within(s.open[t].request, largest))
  }

  /** Existing workers keep at least the limits they had. */
  predicate NothingShrinks(s: Db, t: Db) {
    forall w :: w in s.workers && w in t.workers ==>
      && s.workers[w].maxConcurrent <= t.workers[w].maxConcurrent
      && forall x: Resource :: s.workers[w].capacity.Of(x) <= t.workers[w].capacity.Of(x)
  }

  ghost predicate Assumed(s: Fine, step: FineStep, limit: nat, largest: Capacity) {
    && NothingShrinks(s.db, FineDo(s, step, limit).db)
    && (step.Other? && step.step.Create? ==> Within(step.step.request, largest))
  }

  /** Every step of the run meets the assumptions where it is taken. */
  ghost predicate AssumedFrom(s: Fine, steps: seq<FineStep>, limit: nat, largest: Capacity) {
    steps == [] ||
    (AssumedFrom(s, steps[..|steps| - 1], limit, largest) &&
     Assumed(FineRun(s, steps[..|steps| - 1], limit), steps[|steps| - 1], limit, largest))
  }

  ghost predicate AllAssumed(now: int, steps: seq<FineStep>, limit: nat, largest: Capacity) {
    AssumedFrom(Start(now), steps, limit, largest)
  }

  ghost predicate Fitting(s: Fine, w: WorkerId, m: Measure, limit: nat, largest: Capacity) {
    Occupied(s, w, m) == 0 ||
    (w in s.db.workers && Occupied(s, w, m) <= CapacityOf(s.db.workers[w], m) + (limit - 1) * Unit(largest, m))
  }

  ghost predicate Bounded(s: Fine, limit: nat, largest: Capacity) {
    && |s.open| <= limit
    && RequestsWithin(s, largest)
    && forall w, m :: Fitting(s, w, m, limit, largest)
  }

  lemma OccupiedIsNatural(s: Fine, w: WorkerId, m: Measure, largest: Capacity)
    requires RequestsWithin(s, largest)
    ensures Load(s.db.queries, w, m) >= 0 && InFlight(s.open, w, m) >= 0
    ensures InFlight(s.open, w, m) <= |s.open| * Unit(largest, m)
  {
    LoadIsNatural(s.db.queries, w, m, largest);
    forall t | t in s.open ensures 0 <= TxCharge(w, m)(s.open[t]) <= Unit(largest, m) {
      assert Within(s.open[t].request, largest);
      assert m.Total? ==> 0 <= Coalesce(s.open[t].request.Of(m.resource), 0) <= largest.Of(m.resource);
      UnitIsNatural(s.open[t].request, largest, m);
    }
    SumBounds(s.open, TxCharge(w, m), 0, Unit(largest, m));
  }

  lemma UnitIsNatural(req: Request, largest: Capacity, m: Measure)
    requires Within(req, largest)
    ensures 0 <= AskOf(req, m) <= Unit(largest, m)
  {
    if m.Total? {
      assert 0 <= Coalesce(req.Of(m.resource), 0) <= largest.Of(m.resource);
    }
  }

  lemma LoadIsNatural(rows: map<QueryId, Query>, w: WorkerId, m: Measure, largest: Capacity)
    requires forall q :: q in rows ==> Within(rows[q].request, largest)
    ensures Load(rows, w, m) >= 0
  {
    var top := if m.Count? then 1 else largest.Of(m.resource);
    forall q | q in rows ensures 0 <= ChargeOf(w, m)(rows[q]) <= top || top < 0 {
      UnitIsNatural(rows[q].request, largest, m);
    }
    if rows != map[] {
      var q :| q in rows;
      UnitIsNatural(rows[q].request, largest, m);
      SumBounds(rows, ChargeOf(w, m), 0, top);
    }
  }

  /** Claims and insertions apart, a call leaves a row alone or leaves it not running. */
  lemma RowAloneOrIdle(s: Db, step: Step)
    requires !IsClaim(step) && !step.Create?
    ensures Do(s, step).queries.Keys == s.queries.Keys
    ensures forall q :: q in s.queries ==>
              Do(s, step).queries[q] == s.queries[q] || !Do(s, step).queries[q].status.Running?
  {
  }

  lemma LoadOnlyFalls(a: map<QueryId, Query>, b: map<QueryId, Query>, w: WorkerId, m: Measure, largest: Capacity)
    requires a.Keys == b.Keys
    requires forall q :: q in a ==> Within(a[q].request, largest) && (b[q] == a[q] || !b[q].status.Running?)
    ensures Load(b, w, m) <= Load(a, w, m)
  {
    forall q | q in b ensures ChargeOf(w, m)(b[q]) <= ChargeOf(w, m)(a[q]) {
      UnitIsNatural(a[q].request, largest, m);
    }
    SumMono(b, a, ChargeOf(w, m));
  }

  /** Claims apart, no call adds to any worker's load. */
  lemma OthersNeverAddLoad(s: Db, step: Step, missed: set<QueryId>, w: WorkerId, m: Measure, largest: Capacity)
    requires !IsClaim(step)
    requires forall q :: q in s.queries ==> Within(s.queries[q].request, largest)
    ensures Load(Do(s, step).queries, w, m) <= Load(s.queries, w, m)
    ensures IsBulk(step) ==> Load(Miss(s, Do(s, step), missed).queries, w, m) <= Load(s.queries, w, m)
  {
    var t := Do(s, step);
    if step.Create? {
      if step.q !in s.queries {
        LoadUpdate(s.queries, step.q, t.queries[step.q], w, m);
      }
    } else {
      RowAloneOrIdle(s, step);
      LoadOnlyFalls(s.queries, t.queries, w, m, largest);
      LoadOnlyFalls(s.queries, Miss(s, t, missed).queries, w, m, largest);
    }
  }

  lemma FewerTimesUnit(n: int, limit: int, unit: int)
    requires n <= limit && unit >= 0
    ensures n * unit <= limit * unit
  {
  }

  lemma OtherKeepsFitting(s: Fine, step: FineStep, limit: nat, largest: Capacity, w: WorkerId, m: Measure)
    requires step.Other? && Exclusive(s) && Bounded(s, limit, largest) && Assumed(s, step, limit, largest)
    ensures Fitting(FineDo(s, step, limit), w, m, limit, largest)
  {
    var t := FineDo(s, step, limit);
    assert Fitting(s, w, m, limit, largest);
    assert t.open == s.open;
    OccupiedIsNatural(s, w, m, largest);
    if !IsClaim(step.step) && !Waits(s, step.step) {
      OthersNeverAddLoad(s.db, step.step, step.missed, w, m, largest);
    }
    assert Occupied(t, w, m) <= Occupied(s, w, m);
    OthersKeepRequests(s, step, limit, largest);
    OccupiedIsNatural(t, w, m, largest);
  }

  lemma OthersKeepRequests(s: Fine, step: FineStep, limit: nat, largest: Capacity)
    requires step.Other? && RequestsWithin(s, largest) && Assumed(s, step, limit, largest)
    ensures RequestsWithin(FineDo(s, step, limit), largest)
    ensures s.db.workers.Keys <= FineDo(s, step, limit).db.workers.Keys
  {
    var t := FineDo(s, step, limit);
    RequestsAreFixed(s.db, step.step);
    forall q | q in t.db.queries ensures Within(t.db.queries[q].request, largest) {
      assert q in s.db.queries ==> Within(s.db.queries[q].request, largest);
    }
  }

  /** No call changes a request, and only an insertion brings a new one; no call removes a row. */
  lemma RequestsAreFixed(s: Db, step: Step)
    ensures s.workers.Keys <= Do(s, step).workers.Keys && s.queries.Keys <= Do(s, step).queries.Keys
    ensures forall q :: q in s.queries ==> Do(s, step).queries[q].request == s.queries[q].request
    ensures forall q :: q in Do(s, step).queries && q !in s.queries ==>
              step.Create? && Do(s, step).queries[q].request == step.request
  {
  }

  /** An open claim that has not chosen yet leaves at most limit - 1 others in flight. */
  lemma InFlightOfTheRest(s: Fine, t: TxId, limit: nat, largest: Capacity, w: WorkerId, m: Measure)
    requires |s.open| <= limit && RequestsWithin(s, largest)
    requires t in s.open && s.open[t].Locked?
    ensures InFlight(s.open, w, m) <= (limit - 1) * Unit(largest, m)
  {
    SumSplit(s.open, TxCharge(w, m), t);
    var rest := Fine(s.db, s.open - {t});
    OccupiedIsNatural(rest, w, m, largest);
    UnitIsNatural(s.open[t].request, largest, m);
    assert |s.open - {t}| == |s.open| - 1;
    FewerTimesUnit(|s.open| - 1, limit - 1, Unit(largest, m));
  }

  /** What eligibility promises in each measure: room for the request, unless it asks for nothing. */
  lemma EligibleHasRoom(s: Db, w: WorkerId, req: Request, cutoff: int, m: Measure)
    requires Eligible(s, w, req, cutoff)
    ensures Load(s.queries, w, m) + AskOf(req, m) <= CapacityOf(s.workers[w], m) || AskOf(req, m) == 0
  {
    if m.Total? {
      assert Fits(s.queries, w, s.workers[w].capacity, req, m.resource);
    }
  }

  lemma ChooseKeepsFitting(s: Fine, t: TxId, v: WorkerId, cutoff: int, limit: nat, largest: Capacity, w: WorkerId, m: Measure)
    requires Bounded(s, limit, largest)
    requires t in s.open && s.open[t].Locked? && Best(s.db, v, s.open[t].request, cutoff)
    ensures Fitting(FineDo(s, Choose(t, v, cutoff), limit), w, m, limit, largest)
  {
    assert Fitting(s, w, m, limit, largest);
    SumUpdate(s.open, TxCharge(w, m), t, Chosen(s.open[t].q, s.open[t].request, v));
    if v == w {
      InFlightOfTheRest(s, t, limit, largest, w, m);
      EligibleHasRoom(s.db, w, s.open[t].request, cutoff, m);
    }
  }

  lemma CommitKeepsOccupied(s: Fine, t: TxId, limit: nat, w: WorkerId, m: Measure)
    requires Exclusive(s) && t in s.open && s.open[t].Chosen?
    ensures Occupied(FineDo(s, Commit(t), limit), w, m) == Occupied(s, w, m)
  {
    var q := s.open[t].q;
    LoadUpdate(s.db.queries, q, ClaimRow(s.db, q, s.open[t].w).queries[q], w, m);
    SumSplit(s.open, TxCharge(w, m), t);
  }

  lemma AbortKeepsFitting(s: Fine, t: TxId, limit: nat, largest: Capacity, w: WorkerId, m: Measure)
    requires Bounded(s, limit, largest)
    ensures Fitting(s.(open := s.open - {t}), w, m, limit, largest)
  {
    assert Fitting(s, w, m, limit, largest);
    var rest := s.(open := s.open - {t});
    OccupiedIsNatural(rest, w, m, largest);
    if t in s.open {
      SumSplit(s.open, TxCharge(w, m), t);
      UnitIsNatural(s.open[t].request, largest, m);
    } else {
      assert rest.open == s.open;
    }
  }

  lemma StepKeepsFitting(s: Fine, step: FineStep, limit: nat, largest: Capacity, w: WorkerId, m: Measure)
    requires Exclusive(s) && Bounded(s, limit, largest) && Assumed(s, step, limit, largest)
    ensures Fitting(FineDo(s, step, limit), w, m, limit, largest)
  {
    assert Fitting(s, w, m, limit, largest);
    match step
    case Begin(t, q) =>
      if IsPending(s.db, q) && t !in s.open {
        SumUpdate(s.open, TxCharge(w, m), t, Locked(q, s.db.queries[q].request));
      }
    case Choose(t, v, cutoff) =>
      if t in s.open && s.open[t].Locked? && Best(s.db, v, s.open[t].request, cutoff) {
        ChooseKeepsFitting(s, t, v, cutoff, limit, largest, w, m);
      }
    case Abort(t) => AbortKeepsFitting(s, t, limit, largest, w, m);
    case Commit(t) =>
      if t in s.open && s.open[t].Chosen? {
        CommitKeepsOccupied(s, t, limit, w, m);
      }
    case Other(_, _) => OtherKeepsFitting(s, step, limit, largest, w, m);
  }

  lemma StepKeepsBounded(s: Fine, step: FineStep, limit: nat, largest: Capacity)
    requires Exclusive(s) && Bounded(s, limit, largest) && Assumed(s, step, limit, largest)
    ensures Bounded(FineDo(s, step, limit), limit, largest)
  {
    forall w, m ensures Fitting(FineDo(s, step, limit), w, m, limit, largest) {
      StepKeepsFitting(s, step, limit, largest, w, m);
    }
    StepKeepsCount(s, step, limit);
    if step.Other? {
      OthersKeepRequests(s, step, limit, largest);
    }
  }

  lemma StepKeepsCount(s: Fine, step: FineStep, limit: nat)
    requires |s.open| <= limit
    ensures |FineDo(s, step, limit).open| <= limit
  {
    if step.Abort? || step.Commit? {
      assert (s.open - {step.t}).Keys == s.open.Keys - {step.t};
      assert |s.open - {step.t}| == |(s.open - {step.t}).Keys| && |s.open| == |s.open.Keys|;
    }
  }

  /** With at most `limit` claims open, in every run a worker's running queries plus the open claims that chose it stay
      within its maximum plus limit - 1, and every resource within its capacity plus limit - 1 largest requests. */
  lemma {:induction false} OvercommitIsBounded(now: int, steps: seq<FineStep>, limit: nat, largest: Capacity)
    requires AllAssumed(now, steps, limit, largest)
    ensures Bounded(FineRun(Start(now), steps, limit), limit, largest)
    decreases |steps|
  {
    if steps == [] {
    } else {
      var n := |steps| - 1;
      OvercommitIsBounded(now, steps[..n], limit, largest);
      ClaimsAreExclusive(now, steps[..n], limit);
      StepKeepsBounded(FineRun(Start(now), steps[..n], limit), steps[n], limit, largest);
    }
  }

  /** One claim at a time never exceeds a capacity. */
  lemma SerialClaimsNeverOvercommit(now: int, steps: seq<FineStep>, largest: Capacity, w: WorkerId, m: Measure)
    requires AllAssumed(now, steps, 1, largest)
    ensures
      var s := FineRun(Start(now), steps, 1);
      Load(s.db.queries, w, m) == 0 ||
      (w in s.db.workers && Load(s.db.queries, w, m) <= CapacityOf(s.db.workers[w], m))
  {
    OvercommitIsBounded(now, steps, 1, largest);
    var s := FineRun(Start(now), steps, 1);
    assert Fitting(s, w, m, 1, largest);
    OccupiedIsNatural(s, w, m, largest);
  }
}
