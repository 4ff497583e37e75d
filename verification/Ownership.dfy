/** Who may own a running query under Read Committed: when exactly a step, and a run, keeps unreachable and stopped
    workers from owning one. */
module Ownership {
  import opened Model
  import opened Placement
  import opened Tables
  import opened Runs
  import opened Claims
  import opened Scheduler

  /** Every worker an open claim has chosen is registered. */
  ghost predicate ChosenKnown(s: Fine) {
    forall t :: t in s.open && s.open[t].Chosen? ==> s.open[t].w in s.db.workers
  }

  ghost predicate Consistent(s: Fine) {
    Exclusive(s) && Shapely(s.db) && ChosenKnown(s)
  }

  predicate Lost(worker: Worker) {
    worker.status.Unreachable? || worker.status.Stopped?
  }

  /** The workers a bulk step takes out of service. */
  function TakenOut(s: Db, step: Step): set<WorkerId> {
    match step
    case MarkUnreachable(w) => if w in s.workers && Reachable(s.workers[w].status) then {w} else {}
    case Sweep(cutoff) => Stale(s, cutoff)
    case _ => {}
  }

  /** The exact condition: a commit must not land on a worker lost meanwhile, and a bulk step must not miss a row that a
      worker it takes out is running. No other step can fail. */
  predicate KeepsOwners(s: Fine, step: FineStep) {
    match step
    case Commit(t) =>
      t in s.open && s.open[t].Chosen? && s.open[t].w in s.db.workers ==> !Lost(s.db.workers[s.open[t].w])
    case Other(call, missed) => HeldBy(s.db, TakenOut(s.db, call)) !! missed
    case _ => true
  }

  // ----- Consistency at this grain -----

  lemma DoKeepsWorkers(s: Db, step: Step)
    ensures s.workers.Keys <= Do(s, step).workers.Keys
  {
  }

  lemma MissKeepsShape(a: Db, b: Db, missed: set<QueryId>)
    requires Shapely(a) && Shapely(b) && a.workers.Keys <= b.workers.Keys
    ensures Shapely(Miss(a, b, missed))
  {
  }

  lemma OtherKeepsConsistent(s: Fine, call: Step, missed: set<QueryId>, limit: nat)
    requires Consistent(s)
    ensures Shapely(FineDo(s, Other(call, missed), limit).db) && ChosenKnown(FineDo(s, Other(call, missed), limit))
  {
    if !IsClaim(call) && !Waits(s, call) {
      DoKeepsShape(s.db, call);
      DoKeepsWorkers(s.db, call);
      if IsBulk(call) {
        MissKeepsShape(s.db, Do(s.db, call), missed);
      }
    }
  }

  lemma StepKeepsConsistent(s: Fine, step: FineStep, limit: nat)
    requires Consistent(s)
    ensures Consistent(FineDo(s, step, limit))
  {
    FineKeepsExclusive(s, step, limit);
    match step
    case Begin(_, _) =>
    case Choose(_, _, _) =>
    case Abort(_) =>
    case Commit(t) =>
      if t in s.open && s.open[t].Chosen? {
        var u := FineDo(s, step, limit);
        assert forall p :: p in u.db.queries && p != s.open[t].q ==> u.db.queries[p] == s.db.queries[p];
      }
    case Other(call, missed) => OtherKeepsConsistent(s, call, missed, limit);
  }

  // ----- One step -----

  lemma LossEffect(s: Db, ws: set<WorkerId>, status: WorkerStatus, missed: set<QueryId>)
    requires ws <= s.workers.Keys
    ensures
      var t := Miss(s, LoseWorkers(s, ws, status), missed);
      && t.workers.Keys == s.workers.Keys && t.queries.Keys == s.queries.Keys
      && (forall w :: w in ws ==> t.workers[w].status == status)
      && (forall w :: w in s.workers && w !in ws ==> t.workers[w] == s.workers[w])
      && (forall q :: q in s.queries && q in HeldBy(s, ws) && q !in missed ==> t.queries[q].status.Pending?)
      && (forall q :: q in s.queries && (q !in HeldBy(s, ws) || q in missed) ==> t.queries[q] == s.queries[q])
  {
    LossMovesExactly(s, ws, status);
  }

  lemma MissingLosesOwners(s: Db, t: Db, ws: set<WorkerId>, q: QueryId)
    requires q in HeldBy(s, ws) && q in t.queries && t.queries[q] == s.queries[q]
    requires forall w :: w in ws ==> w in t.workers && Lost(t.workers[w])
    ensures !Owned(t)
  {
    assert s.queries[q].worker.value in ws;
  }

  lemma LossIsOwned(s: Db, ws: set<WorkerId>, status: WorkerStatus, missed: set<QueryId>)
    requires Shapely(s) && Owned(s) && (status.Unreachable? || status.Stopped?) && ws <= s.workers.Keys
    ensures Owned(Miss(s, LoseWorkers(s, ws, status), missed)) <==> HeldBy(s, ws) !! missed
  {
    var t := Miss(s, LoseWorkers(s, ws, status), missed);
    LossEffect(s, ws, status, missed);
    if q :| q in HeldBy(s, ws) && q in missed {
      MissingLosesOwners(s, t, ws, q);
    } else {
      ElsewhereIsOwned(s, t, ws);
    }
  }

  /** Where the rows of lost workers are all requeued, the other rows keep their owners. */
  lemma ElsewhereIsOwned(s: Db, t: Db, ws: set<WorkerId>)
    requires Owned(s) && t.queries.Keys == s.queries.Keys && t.workers.Keys == s.workers.Keys
    requires forall w :: w in s.workers && w !in ws ==> t.workers[w] == s.workers[w]
    requires forall q :: q in s.queries ==>
               if q in HeldBy(s, ws) then t.queries[q].status.Pending? else t.queries[q] == s.queries[q]
    ensures Owned(t)
  {
    forall q | q in t.queries && t.queries[q].status.Running? && t.queries[q].worker.Some? &&
               t.queries[q].worker.value in t.workers
      ensures !Lost(t.workers[t.queries[q].worker.value])
    {
      assert q !in HeldBy(s, ws) && s.queries[q].worker.value !in ws;
    }
  }

  lemma NothingIsOwned(s: Db, missed: set<QueryId>)
    ensures Miss(s, s, missed).queries == s.queries && Miss(s, s, missed).workers == s.workers
    ensures HeldBy(s, {}) == {}
  {
  }

  /** Exactly when a step keeps unreachable and stopped workers from owning running queries. */
  lemma OwnersKeptExactly(s: Fine, step: FineStep, limit: nat)
    requires Consistent(s) && Owned(s.db) && FineSane(step)
    ensures Owned(FineDo(s, step, limit).db) <==> KeepsOwners(s, step)
  {
    match step
    case Begin(_, _) =>
    case Choose(_, _, _) =>
    case Abort(_) =>
    case Commit(t) =>
      if t in s.open && s.open[t].Chosen? {
        CommitKeepsOwners(s, t, limit);
      }
    case Other(call, missed) => OtherKeepsExactly(s, call, missed, limit);
  }

  lemma OtherKeepsExactly(s: Fine, call: Step, missed: set<QueryId>, limit: nat)
    requires Consistent(s) && Owned(s.db) && Sane(call)
    ensures Owned(FineDo(s, Other(call, missed), limit).db) <==> HeldBy(s.db, TakenOut(s.db, call)) !! missed
  {
    if IsBulk(call) {
      assert FineDo(s, Other(call, missed), limit).db == Miss(s.db, Do(s.db, call), missed);
      BulkKeepsExactly(s.db, call, missed);
    } else {
      NothingIsOwned(s.db, missed);
      if !IsClaim(call) && !Waits(s, call) {
        assert FineDo(s, Other(call, missed), limit).db == Do(s.db, call);
        DoKeepsOwners(s.db, call);
      }
    }
  }

  lemma BulkKeepsExactly(s: Db, call: Step, missed: set<QueryId>)
    requires IsBulk(call) && Shapely(s) && Owned(s)
    ensures Owned(Miss(s, Do(s, call), missed)) <==> HeldBy(s, TakenOut(s, call)) !! missed
  {
    match call
    case MarkUnreachable(w) =>
      if w in s.workers && Reachable(s.workers[w].status) {
        LossIsOwned(s, {w}, Unreachable, missed);
      } else {
        NothingIsOwned(s, missed);
      }
    case Sweep(cutoff) => LossIsOwned(s, Stale(s, cutoff), Stopped, missed);
  }

  // ----- Runs -----

  lemma {:induction false} RunsAreConsistent(now: int, steps: seq<FineStep>, limit: nat)
    ensures Consistent(FineRun(Start(now), steps, limit))
    decreases |steps|
  {
    if steps == [] {
    } else {
      RunsAreConsistent(now, steps[..|steps| - 1], limit);
      StepKeepsConsistent(FineRun(Start(now), steps[..|steps| - 1], limit), steps[|steps| - 1], limit);
    }
  }

  /** After no step of the run does an unreachable or stopped worker own a running query. */
  ghost predicate OwnedThroughout(now: int, steps: seq<FineStep>, limit: nat) {
    Owned(FineRun(Start(now), steps, limit).db) &&
    (steps == [] || OwnedThroughout(now, steps[..|steps| - 1], limit))
  }

  ghost predicate AllKeepOwners(now: int, steps: seq<FineStep>, limit: nat) {
    steps == [] ||
    (AllKeepOwners(now, steps[..|steps| - 1], limit) &&
     KeepsOwners(FineRun(Start(now), steps[..|steps| - 1], limit), steps[|steps| - 1]))
  }

  /** A run is owned throughout if and only if each of its steps meets the condition where it is taken. */
  lemma {:induction false} OwnedThroughoutExactly(now: int, steps: seq<FineStep>, limit: nat)
    requires AllFineSane(steps)
    ensures OwnedThroughout(now, steps, limit) <==> AllKeepOwners(now, steps, limit)
    decreases |steps|
  {
    if steps == [] {
    } else {
      var n := |steps| - 1;
      var s := FineRun(Start(now), steps[..n], limit);
      OwnedThroughoutExactly(now, steps[..n], limit);
      RunsAreConsistent(now, steps[..n], limit);
      if Owned(s.db) {
        assert FineSane(steps[n]);
        OwnersKeptExactly(s, steps[n], limit);
      } else {
        NotOwnedThroughout(now, steps[..n], limit);
      }
    }
  }

  lemma NotOwnedThroughout(now: int, steps: seq<FineStep>, limit: nat)
    requires !Owned(FineRun(Start(now), steps, limit).db)
    ensures !OwnedThroughout(now, steps, limit)
  {
  }

  lemma StrandedIsNotOwned(s: Db, q: QueryId, w: WorkerId)
    requires Stranded(s, q, w)
    ensures !Owned(s)
  {
  }

  // ----- A failed dispatch at this grain -----

  /** What the coordinator writes once the outcome of a dispatch is known; the bulk revert may miss rows. */
  ghost function FineSettle(s: Fine, q: QueryId, w: WorkerId, o: Outcome, missed: set<QueryId>, limit: nat): Fine {
    if Accepted(o) then s
    else if LosesWorker(o) then FineDo(s, Other(MarkUnreachable(w), missed), limit)
    else FineDo(s, Other(Revert(q), {}), limit)
  }

  lemma FineSettleStrands(s: Fine, q: QueryId, w: WorkerId, o: Outcome, missed: set<QueryId>, limit: nat)
    requires q in s.db.queries && !Accepted(o)
    ensures q in FineSettle(s, q, w, o, missed, limit).db.queries
    ensures RunsOn(FineSettle(s, q, w, o, missed, limit).db.queries[q], w) <==>
            LosesWorker(o) && RunsOn(s.db.queries[q], w) &&
            (q in missed || !(w in s.db.workers && Reachable(s.db.workers[w].status)))
  {
    SettleStrands(s.db, q, w, o);
    var t := FineSettle(s, q, w, o, missed, limit);
    if LosesWorker(o) {
      assert t.db == Miss(s.db, Settle(s.db, q, w, o), missed);
    } else {
      assert t.db == Settle(s.db, q, w, o);
    }
  }

  lemma {:induction false} WorkersStay(s: Fine, steps: seq<FineStep>, limit: nat)
    ensures s.db.workers.Keys <= FineRun(s, steps, limit).db.workers.Keys
    decreases |steps|
  {
    if steps == [] {
    } else {
      WorkersStay(s, steps[..|steps| - 1], limit);
      StepKeepsWorkers(FineRun(s, steps[..|steps| - 1], limit), steps[|steps| - 1], limit);
    }
  }

  lemma StepKeepsWorkers(s: Fine, step: FineStep, limit: nat)
    ensures s.db.workers.Keys <= FineDo(s, step, limit).db.workers.Keys
  {
    if step.Other? {
      DoKeepsWorkers(s.db, step.step);
    }
  }

  lemma {:induction false} FineRunAppend(s: Fine, a: seq<FineStep>, b: seq<FineStep>, limit: nat)
    ensures FineRun(s, a + b, limit) == FineRun(FineRun(s, a, limit), b, limit)
    decreases |b|
  {
    if b == [] {
      assert a + b == a;
    } else {
      FineRunAppend(s, a, b[..|b| - 1], limit);
      assert (a + b)[..|a + b| - 1] == a + b[..|b| - 1];
    }
  }

  /** For every claim that commits in any run, and whatever steps come before its dispatch fails: the query still runs on
      that worker if and only if the worker was to be marked unreachable and the query is missed, or the worker is by then
      neither running nor shutting down: initializing, or lost already. */
  lemma FailedDispatchStrandsExactly(
    now: int, before: seq<FineStep>, t: TxId, between: seq<FineStep>, o: Outcome, missed: set<QueryId>, limit: nat)
    requires t in FineRun(Start(now), before, limit).open && FineRun(Start(now), before, limit).open[t].Chosen?
    requires !Accepted(o)
    ensures
      var tx := FineRun(Start(now), before, limit).open[t];
      var s := FineRun(Start(now), before + [Commit(t)] + between, limit);
      var u := FineSettle(s, tx.q, tx.w, o, missed, limit);
      && tx.q in s.db.queries && tx.w in s.db.workers && tx.q in u.db.queries
      && (RunsOn(u.db.queries[tx.q], tx.w) <==>
          LosesWorker(o) && RunsOn(s.db.queries[tx.q], tx.w) &&
          (tx.q in missed || !Reachable(s.db.workers[tx.w].status)))
  {
    var b := FineRun(Start(now), before, limit);
    var tx := b.open[t];
    var steps := before + [Commit(t)] + between;
    RunsAreConsistent(now, before, limit);
    assert steps == before + ([Commit(t)] + between);
    FineRunAppend(Start(now), before, [Commit(t)] + between, limit);
    WorkersStay(b, [Commit(t)] + between, limit);
    assert steps[..|before|] == before;
    NoStepLeavesTerminal(now, steps, limit, |before|, tx.q);
    FineSettleStrands(FineRun(Start(now), steps, limit), tx.q, tx.w, o, missed, limit);
  }

  // ----- Unreachable until heard from, at this grain -----

  predicate FineHeardFrom(step: FineStep, w: WorkerId) {
    step.Other? && HeardFrom(step.step, w)
  }

  lemma StepStaysQuiet(s: Fine, step: FineStep, w: WorkerId, limit: nat)
    requires Quiet(s.db, w) && !FineHeardFrom(step, w)
    ensures Quiet(FineDo(s, step, limit).db, w)
  {
    if step.Other? {
      StaysQuiet(s.db, [step.step], w);
      assert [step.step][..0] == [] && Run(s.db, [step.step]) == Do(s.db, step.step);
    }
  }

  lemma {:induction false} FineStaysQuiet(s: Fine, steps: seq<FineStep>, w: WorkerId, limit: nat)
    requires Quiet(s.db, w)
    requires forall i :: 0 <= i < |steps| ==> !FineHeardFrom(steps[i], w)
    ensures Quiet(FineRun(s, steps, limit).db, w)
    decreases |steps|
  {
    if steps == [] {
    } else {
      FineStaysQuiet(s, steps[..|steps| - 1], w, limit);
      assert !FineHeardFrom(steps[|steps| - 1], w);
      StepStaysQuiet(FineRun(s, steps[..|steps| - 1], limit), steps[|steps| - 1], w, limit);
    }
  }

  /** After mark_worker_unreachable(w) no claim chooses w until a ready call for it or a heartbeat that says it is running;
      a claim that had chosen it before may still commit. */
  lemma NotChosenUntilHeard(
    s: Fine, w: WorkerId, missed: set<QueryId>, steps: seq<FineStep>, t: TxId, cutoff: int, limit: nat)
    requires forall i :: 0 <= i < |steps| ==> !FineHeardFrom(steps[i], w)
    ensures
      var u := FineRun(FineDo(s, Other(MarkUnreachable(w), missed), limit), steps, limit);
      FineDo(u, Choose(t, w, cutoff), limit) == u
  {
    FineStaysQuiet(FineDo(s, Other(MarkUnreachable(w), missed), limit), steps, w, limit);
  }
}
