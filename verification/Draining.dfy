/** Repeated claim-and-dispatch rounds end, also while other clients go on completing, cancelling, losing workers and
    claiming. */
module Draining {
  import opened Model
  import opened Placement
  import opened Tables
  import opened Database
  import opened Runs
  import opened Scheduler

  // ----- One round on its own -----

  ghost predicate Descends(s: Db, t: Db) {
    |OnlineIds(t)| < |OnlineIds(s)| || (|OnlineIds(t)| == |OnlineIds(s)| && |PendingIds(t)| < |PendingIds(s)|)
  }

  lemma LosingDescends(s: Db, w: WorkerId)
    requires w in OnlineIds(s)
    ensures |OnlineIds(MarkWorkerUnreachable(s, w))| < |OnlineIds(s)|
    ensures PendingIds(MarkWorkerUnreachable(s, w)) + RunningIds(MarkWorkerUnreachable(s, w)) ==
            PendingIds(s) + RunningIds(s)
  {
    assert OnlineIds(MarkWorkerUnreachable(s, w)) == OnlineIds(s) - {w};
    LossMovesExactly(s, {w}, Unreachable);
  }

  lemma ClaimMoves(s: Db, q: QueryId, w: WorkerId)
    requires IsPending(s, q)
    ensures PendingIds(ClaimRow(s, q, w)) == PendingIds(s) - {q} && q in PendingIds(s)
    ensures RunningIds(ClaimRow(s, q, w)) == RunningIds(s) + {q}
  {
  }

  lemma AcceptingDescends(s: Db, q: QueryId, w: WorkerId)
    requires IsPending(s, q)
    ensures OnlineIds(ClaimRow(s, q, w)) == OnlineIds(s)
    ensures |PendingIds(ClaimRow(s, q, w))| < |PendingIds(s)|
    ensures PendingIds(ClaimRow(s, q, w)) + RunningIds(ClaimRow(s, q, w)) == PendingIds(s) + RunningIds(s)
  {
    ClaimMoves(s, q, w);
  }

  /** A round that ends in 202 or in a lost worker lowers (running workers, pending queries) lexicographically,
      although losing a worker may requeue more than was claimed; no query stops being pending or running. */
  lemma RoundDescends(s: Db, q: QueryId, w: WorkerId, cutoff: int, o: Outcome)
    requires CanClaim(s, q, w, cutoff) && (Accepted(o) || LosesWorker(o))
    ensures Descends(s, Settle(ClaimRow(s, q, w), q, w, o))
    ensures PendingIds(Settle(ClaimRow(s, q, w), q, w, o)) + RunningIds(Settle(ClaimRow(s, q, w), q, w, o)) ==
            PendingIds(s) + RunningIds(s)
  {
    AcceptingDescends(s, q, w);
    if LosesWorker(o) {
      assert w in OnlineIds(s);
      LosingDescends(ClaimRow(s, q, w), w);
    }
  }

  // ----- Rounds among other clients' calls -----

  /** The workers that can still be lost: running or shutting down. */
  function Serving(s: Db): set<WorkerId> {
    set w | w in s.workers && Reachable(s.workers[w].status)
  }

  /** Losing a worker requeues at most all queries, so it is worth more than all of them. */
  function Rank(s: Db): nat {
    |Serving(s)| * (|s.queries| + 1) + |PendingIds(s)|
  }

  /** Calls that bring no work: no new or reverted query, and no worker put into service. */
  predicate Calm(s: Db, step: Step) {
    && Sane(step) && !step.Create? && !step.Revert? && !step.Ready?
    && (step.Heartbeat? && step.w in s.workers && step.vitals.status.Some? ==> Reachable(s.workers[step.w].status))
  }

  ghost predicate AllCalm(s: Db, steps: seq<Step>) {
    steps == [] || (AllCalm(s, steps[..|steps| - 1]) && Calm(Run(s, steps[..|steps| - 1]), steps[|steps| - 1]))
  }

  ghost predicate Sound(s: Db) {
    Shapely(s) && Owned(s)
  }

  /** Neither the workers in service nor the pending queries grow, unless a worker goes out of service. */
  ghost predicate Falls(s: Db, t: Db) {
    && t.queries.Keys == s.queries.Keys && Serving(t) <= Serving(s)
    && (Serving(t) == Serving(s) ==> PendingIds(t) <= PendingIds(s))
  }

  lemma SmallerSet<T>(a: set<T>, b: set<T>)
    requires a <= b
    ensures |a| <= |b| && (a != b ==> |a| < |b|)
  {
    if a != b {
      assert b == a + (b - a);
    }
  }

  lemma FewerWorkers(a: nat, b: nat, n: nat, p: nat, q: nat)
    requires a < b && p <= n
    ensures a * (n + 1) + p < b * (n + 1) + q
  {
    assert b * (n + 1) == a * (n + 1) + (b - a) * (n + 1);
    assert (b - a) * (n + 1) >= n + 1 by {
      if b - a > 1 {
        assert (b - a) * (n + 1) == (n + 1) + (b - a - 1) * (n + 1);
      }
    }
  }

  lemma FallingRank(s: Db, t: Db)
    requires Falls(s, t)
    ensures Rank(t) <= Rank(s)
  {
    SmallerSet(Serving(t), Serving(s));
    assert PendingIds(t) <= t.queries.Keys;
    SmallerSet(PendingIds(t), t.queries.Keys);
    assert |t.queries| == |t.queries.Keys| && |s.queries| == |s.queries.Keys|;
    if Serving(t) == Serving(s) {
      SmallerSet(PendingIds(t), PendingIds(s));
    } else {
      FewerWorkers(|Serving(t)|, |Serving(s)|, |s.queries|, |PendingIds(t)|, |PendingIds(s)|);
    }
  }

  lemma HeldAreServing(s: Db, ws: set<WorkerId>, q: QueryId)
    requires Sound(s) && q in HeldBy(s, ws) && forall w :: w in ws && w in s.workers ==> !s.workers[w].status.Initializing?
    ensures s.queries[q].worker.value in Serving(s) && s.queries[q].worker.value in ws
  {
  }

  lemma LossFalls(s: Db, ws: set<WorkerId>, status: WorkerStatus)
    requires Sound(s) && ws <= s.workers.Keys && (status.Unreachable? || status.Stopped?)
    requires forall w :: w in ws ==> !s.workers[w].status.Initializing?
    ensures Falls(s, LoseWorkers(s, ws, status))
  {
    var t := LoseWorkers(s, ws, status);
    LossMovesExactly(s, ws, status);
    assert t.workers.Keys == s.workers.Keys;
    assert Serving(t) == Serving(s) - ws;
    forall q | q in HeldBy(s, ws) ensures s.queries[q].worker.value in Serving(s) - Serving(t) {
      HeldAreServing(s, ws, q);
    }
    if Serving(t) == Serving(s) {
      assert HeldBy(s, ws) == {};
    }
  }

  lemma CalmFalls(s: Db, step: Step)
    requires Sound(s) && Calm(s, step)
    ensures Sound(Do(s, step)) && Falls(s, Do(s, step))
  {
    DoKeepsShape(s, step);
    DoKeepsOwners(s, step);
    if step.MarkUnreachable? {
      MarkFalls(s, step.w);
    } else if step.Sweep? {
      LossFalls(s, Stale(s, step.cutoff), Stopped);
    } else {
      RestFalls(s, step);
    }
  }

  lemma RestFalls(s: Db, step: Step)
    requires Calm(s, step) && !step.MarkUnreachable? && !step.Sweep?
    ensures Falls(s, Do(s, step))
  {
  }

  lemma MarkFalls(s: Db, w: WorkerId)
    requires Sound(s)
    ensures Falls(s, MarkWorkerUnreachable(s, w))
  {
    if w in s.workers && Reachable(s.workers[w].status) {
      LossFalls(s, {w}, Unreachable);
    }
  }

  lemma {:induction false} CalmRunFalls(s: Db, steps: seq<Step>)
    requires Sound(s) && AllCalm(s, steps)
    ensures Sound(Run(s, steps)) && Rank(Run(s, steps)) <= Rank(s)
    decreases |steps|
  {
    if steps == [] {
    } else {
      var n := |steps| - 1;
      CalmRunFalls(s, steps[..n]);
      CalmFalls(Run(s, steps[..n]), steps[n]);
      FallingRank(Run(s, steps[..n]), Run(s, steps));
    }
  }

  lemma ClaimLowers(s: Db, step: Step)
    requires Sound(s) && Claims(s, step)
    ensures Sound(ClaimRow(s, step.q, step.w)) && Rank(ClaimRow(s, step.q, step.w)) == Rank(s) - 1
  {
    DoKeepsShape(s, step);
    DoKeepsOwners(s, step);
    assert Do(s, step) == ClaimRow(s, step.q, step.w);
    ClaimLowersRank(s, step.q, step.w);
  }

  lemma ClaimLowersRank(s: Db, q: QueryId, w: WorkerId)
    requires IsPending(s, q)
    ensures Rank(ClaimRow(s, q, w)) == Rank(s) - 1
  {
    ClaimMoves(s, q, w);
    var t := ClaimRow(s, q, w);
    assert Serving(t) == Serving(s);
    assert t.queries.Keys == s.queries.Keys;
    assert |t.queries| == |t.queries.Keys| && |s.queries| == |s.queries.Keys|;
  }

  ghost predicate CalmRound(s: Db, r: Round) {
    && AllCalm(s, r.before) && AllCalm(ClaimedAt(s, r), r.between)
    && (Accepted(r.outcome) || LosesWorker(r.outcome))
  }

  /** Every round lowers the rank, whatever calm calls come between its claim and its outcome. */
  lemma RoundLowers(s: Db, r: Round, k: nat, first: Option<QueryId>)
    requires Sound(s) && CalmRound(s, r) && Claims(Run(s, r.before), RoundClaim(r, k, first))
    ensures Sound(After(s, r)) && Rank(After(s, r)) < Rank(s)
  {
    CalmRunFalls(s, r.before);
    ClaimLowers(Run(s, r.before), RoundClaim(r, k, first));
    CalmRunFalls(ClaimedAt(s, r), r.between);
    SettlingLowers(Run(ClaimedAt(s, r), r.between), r.q, r.w, r.outcome);
  }

  lemma SettlingLowers(s: Db, q: QueryId, w: WorkerId, o: Outcome)
    requires Sound(s) && (Accepted(o) || LosesWorker(o))
    ensures Sound(Settle(s, q, w, o)) && Rank(Settle(s, q, w, o)) <= Rank(s)
  {
    if LosesWorker(o) {
      assert Do(s, MarkUnreachable(w)) == MarkWorkerUnreachable(s, w);
      CalmFalls(s, MarkUnreachable(w));
      FallingRank(s, MarkWorkerUnreachable(s, w));
    }
  }

  ghost predicate AllRoundsCalm(s: Db, rounds: seq<Round>) {
    rounds == [] ||
    (AllRoundsCalm(s, rounds[..|rounds| - 1]) && CalmRound(Rounds(s, rounds[..|rounds| - 1]), rounds[|rounds| - 1]))
  }

  /** No list of legal rounds is longer than the rank of the state it starts from, so scheduling reaches a claim that
      finds nothing, as long as dispatches end in 202 or a lost worker and other clients bring no work. */
  lemma {:induction false} RoundsAreBounded(s: Db, rounds: seq<Round>, first: Option<QueryId>)
    requires Sound(s) && Legal(s, rounds, first) && AllRoundsCalm(s, rounds)
    ensures Sound(Rounds(s, rounds)) && Rank(Rounds(s, rounds)) + |rounds| <= Rank(s)
    decreases |rounds|
  {
    if rounds == [] {
    } else {
      var n := |rounds| - 1;
      RoundsAreBounded(s, rounds[..n], first);
      RoundLowers(Rounds(s, rounds[..n]), rounds[n], n, first);
    }
  }

  // ----- Draining the queue -----

  lemma CarriedIsCalm(s: Db, call: Step, done: Step)
    requires Calm(s, call) && Carried(call, done)
    ensures Calm(s, done)
  {
  }

  lemma AllCalmExtends(s: Db, steps: seq<Step>, step: Step)
    requires AllCalm(s, steps) && Calm(Run(s, steps), step)
    ensures AllCalm(s, steps + [step]) && Run(s, steps + [step]) == Do(Run(s, steps), step)
  {
    assert (steps + [step])[..|steps + [step]| - 1] == steps;
  }

  lemma {:induction false} AllCalmAt(s: Db, steps: seq<Step>, i: nat)
    requires AllCalm(s, steps) && i < |steps|
    ensures Calm(Run(s, steps[..i]), steps[i])
    decreases |steps|
  {
    if i == |steps| - 1 {
    } else {
      AllCalmAt(s, steps[..|steps| - 1], i);
      assert steps[..|steps| - 1][..i] == steps[..i];
    }
  }

  predicate NoClaims(calls: seq<Step>) {
    forall i :: 0 <= i < |calls| ==> !IsClaim(calls[i])
  }

  /** Other clients' calls, as far as each is calm where it comes; the rest are not made. Any calm run can be had. */
  method CalmOthers(db: Store, calls: seq<Step>) returns (ghost done: seq<Step>)
    modifies db
    ensures db.State() == Run(old(db.State()), done) && AllCalm(old(db.State()), done)
    ensures AllCalm(old(db.State()), calls) && NoClaims(calls) ==> done == calls
  {
    done := [];
    for i := 0 to |calls|
      invariant db.State() == Run(old(db.State()), done) && AllCalm(old(db.State()), done)
      invariant AllCalm(old(db.State()), calls) && NoClaims(calls) ==> done == calls[..i]
    {
      if AllCalm(old(db.State()), calls) && NoClaims(calls) {
        AllCalmAt(old(db.State()), calls, i);
      }
      if Calm(db.State(), calls[i]) {
        ghost var s := db.State();
        ghost var step := db.Perform(calls[i]);
        CarriedIsCalm(s, calls[i], step);
        AllCalmExtends(old(db.State()), done, step);
        done := done + [step];
      }
    }
    assert calls[..|calls|] == calls;
  }

  /** Claim-and-dispatch rounds until a claim finds nothing, each at its own cutoff and among other clients' calm calls,
      heartbeats of workers in service included. There are at most as many rounds as the rank of the tables; with no other
      calls no query stops being pending or running. */
  method Drain(db: Store, cutoffs: nat -> int, outcomes: nat -> Outcome, others: nat -> (seq<Step>, seq<Step>))
    returns (rounds: nat)
    requires Sound(db.State())
    requires forall k: nat :: Accepted(outcomes(k)) || LosesWorker(outcomes(k))
    modifies db
    ensures NothingToClaim(db.State(), cutoffs(rounds)) && rounds <= old(Rank(db.State()))
    ensures (forall k: nat :: others(k) == ([], [])) ==>
              PendingIds(db.State()) + RunningIds(db.State()) == old(PendingIds(db.State()) + RunningIds(db.State()))
  {
    rounds := 0;
    while true
      invariant Sound(db.State()) && rounds + Rank(db.State()) <= old(Rank(db.State()))
      invariant (forall k: nat :: others(k) == ([], [])) ==>
                  PendingIds(db.State()) + RunningIds(db.State()) == old(PendingIds(db.State()) + RunningIds(db.State()))
      decreases Rank(db.State())
    {
      var more := DrainRound(db, cutoffs(rounds), outcomes(rounds), others(rounds));
      if !more {
        return;
      }
      rounds := rounds + 1;
    }
  }

  method DrainRound(db: Store, cutoff: int, outcome: Outcome, others: (seq<Step>, seq<Step>)) returns (more: bool)
    requires Sound(db.State()) && (Accepted(outcome) || LosesWorker(outcome))
    modifies db
    ensures Sound(db.State())
    ensures more ==> Rank(db.State()) < old(Rank(db.State()))
    ensures !more ==> Rank(db.State()) <= old(Rank(db.State())) && NothingToClaim(db.State(), cutoff)
    ensures others == ([], []) ==>
              PendingIds(db.State()) + RunningIds(db.State()) == old(PendingIds(db.State()) + RunningIds(db.State()))
  {
    ghost var s := db.State();
    ghost var before := CalmOthers(db, others.0);
    CalmRunFalls(s, before);
    var claimed := ClaimForRound(db, 0, None, cutoff);
    more := claimed.Some?;
    if more {
      ghost var u := db.State();
      ghost var between := CalmOthers(db, others.1);
      var _, _, sent := DispatchQuery(db, claimed.value, outcome, []);
      ghost var r := Round(before, claimed.value.query, claimed.value.worker, cutoff, sent, between, outcome);
      RoundLowers(s, r, 0, None);
      if others == ([], []) {
        RoundDescends(s, r.q, r.w, cutoff, outcome);
      }
    }
  }
}
