/** Dispatch and the scheduling batch, with any calls of other clients at every await. */
module Scheduler {
  import opened Model
  import opened Placement
  import opened Tables
  import opened Database
  import opened Runs
  import opened Urls

  // ----- One dispatch -----

  /** How the POST to a worker ends. */
  datatype Outcome = Answer(code: int) | TransportError

  predicate Accepted(o: Outcome) {
    o == Answer(202)
  }

  predicate LosesWorker(o: Outcome) {
    o == TransportError || o == Answer(502) || o == Answer(503)
  }

  /** What the coordinator writes once the outcome is known. */
  function Settle(s: Db, q: QueryId, w: WorkerId, o: Outcome): Db {
    if Accepted(o) then s
    else if LosesWorker(o) then MarkWorkerUnreachable(s, w)
    else RevertQueryToPending(s, q)
  }

  /** The body of the POST, and the URL it goes to. */
  datatype Message = Message(url: string, query: QueryId, sql: string, request: Request)

  /** What is sent is the claim's own query, to the query path of its own endpoint. */
  predicate Sends(m: Message, c: Claimed) {
    m.query == c.query && m.sql == c.sql && m.request == c.request && UrlOn(m.url, c.endpoint, "/query")
  }

  /** While the request is in flight any other calls may happen. */
  method DispatchQuery(db: Store, c: Claimed, o: Outcome, calls: seq<Step>)
    returns (ok: bool, ghost between: seq<Step>, ghost sent: Message)
    modifies db
    ensures Sends(sent, c)
    ensures ok <==> Accepted(o)
    ensures AllSane(calls) ==> AllSane(between)
    ensures AllCarried(calls, between)
    ensures db.State() == Settle(Run(old(db.State()), between), c.query, c.worker, o)
    ensures
      var s := Run(old(db.State()), between);
      match o
      case TransportError => !ok && db.State() == MarkWorkerUnreachable(s, c.worker)
      case Answer(code) =>
        && (ok <==> code == 202)
        && db.State() == if code == 202 then s
                         else if code in {502, 503} then MarkWorkerUnreachable(s, c.worker)
                         else RevertQueryToPending(s, c.query)
  {
    sent := Message(Url(c.endpoint, "/query"), c.query, c.sql, c.request);
    between := db.Others(calls);
    match o {
      case TransportError =>
        db.MarkWorkerUnreachable(c.worker);
        return false, between, sent;
      case Answer(code) =>
        if code != 202 {
          if code == 502 || code == 503 {
            db.MarkWorkerUnreachable(c.worker);
          } else {
            db.RevertQueryToPending(c.query);
          }
          return false, between, sent;
        }
        return true, between, sent;
    }
  }

  /** Exactly when a query still runs on its worker after a failed outcome, in any tables: the worker was to be marked
      unreachable, and it was neither running nor shutting down. */
  lemma SettleStrands(s: Db, q: QueryId, w: WorkerId, o: Outcome)
    requires q in s.queries && !Accepted(o)
    ensures q in Settle(s, q, w, o).queries
    ensures RunsOn(Settle(s, q, w, o).queries[q], w) <==>
            LosesWorker(o) && RunsOn(s.queries[q], w) && !(w in s.workers && Reachable(s.workers[w].status))
  {
    if LosesWorker(o) && w in s.workers && Reachable(s.workers[w].status) {
      LossMovesExactly(s, {w}, Unreachable);
    }
  }

  /** Where lost workers own nothing, that leaves an initializing worker. */
  lemma SettleStrandsOwned(s: Db, q: QueryId, w: WorkerId, o: Outcome)
    requires Shapely(s) && Owned(s) && q in s.queries && !Accepted(o)
    ensures q in Settle(s, q, w, o).queries
    ensures RunsOn(Settle(s, q, w, o).queries[q], w) <==>
            LosesWorker(o) && RunsOn(s.queries[q], w) && w in s.workers && s.workers[w].status.Initializing?
  {
    SettleStrands(s, q, w, o);
  }

  /** With atomic calls, when a dispatch fails, with any calls between the claim and the failure, the query still runs on that worker
      exactly if the worker was to be marked unreachable while it was initializing and holding the query. */
  lemma FailedDispatchStrandsNothingElse(now: int, before: seq<Step>, claim: Step, between: seq<Step>, o: Outcome)
    requires AllSane(before) && AllSane(between) && !Accepted(o)
    requires Claims(Run(Empty(now), before), claim)
    ensures
      var s := Run(Do(Run(Empty(now), before), claim), between);
      var t := Settle(s, claim.q, claim.w, o);
      && claim.q in s.queries && claim.q in t.queries
      && (RunsOn(t.queries[claim.q], claim.w) <==>
          LosesWorker(o) && RunsOn(s.queries[claim.q], claim.w) &&
          claim.w in s.workers && s.workers[claim.w].status.Initializing?)
  {
    var claimed := Run(Empty(now), before + [claim]);
    assert (before + [claim])[..|before + [claim]| - 1] == before;
    TerminalIsForever(claimed, between, claim.q);
    RunAppend(Empty(now), before + [claim], between);
    LostWorkersOwnNothing(now, before + [claim] + between);
    SettleStrandsOwned(Run(claimed, between), claim.q, claim.w, o);
  }

  /** The exception is real: a worker that registers again while the dispatch is in flight keeps the query. */
  lemma RegisteringAgainStrands(s: Db, claim: Step, endpoint: string, cap: Capacity, maxConcurrent: int, o: Outcome)
    requires Claims(s, claim) && LosesWorker(o)
    ensures
      var t := Settle(Do(Do(s, claim), Register(claim.w, endpoint, cap, maxConcurrent)), claim.q, claim.w, o);
      claim.q in t.queries && RunsOn(t.queries[claim.q], claim.w)
  {
  }

  // ----- A scheduling batch -----

  /** One round: other clients' calls, a claim with the cutoff computed for it, what is sent, other clients' calls while
      the request is in flight, and the outcome. */
  datatype Round = Round(
    before: seq<Step>, q: QueryId, w: WorkerId, cutoff: int, sent: Message, between: seq<Step>, outcome: Outcome)

  ghost function ClaimedAt(s: Db, r: Round): Db {
    ClaimRow(Run(s, r.before), r.q, r.w)
  }

  ghost function After(s: Db, r: Round): Db {
    Settle(Run(ClaimedAt(s, r), r.between), r.q, r.w, r.outcome)
  }

  /** The tables after a list of rounds. */
  ghost function Rounds(s: Db, rounds: seq<Round>): Db {
    if rounds == [] then s else After(Rounds(s, rounds[..|rounds| - 1]), rounds[|rounds| - 1])
  }

  /** The claim of round k: by id in the first round when an id was given, else the head of the queue. */
  function RoundClaim(r: Round, k: nat, first: Option<QueryId>): Step {
    if k == 0 && first.Some? then ClaimById(r.q, r.w, r.cutoff) else ClaimHead(r.q, r.w, r.cutoff)
  }

  /** The message of a round is its own row's text and request, sent to its own worker. */
  predicate SendsOwn(s: Db, r: Round) {
    && r.q in s.queries && r.w in s.workers
    && r.sent.query == r.q && r.sent.sql == s.queries[r.q].sql && r.sent.request == s.queries[r.q].request
    && UrlOn(r.sent.url, s.workers[r.w].endpoint, "/query")
  }

  /** Each round's claim is one the database could make where it is made, and sends what was claimed. */
  ghost predicate Legal(s: Db, rounds: seq<Round>, first: Option<QueryId>) {
    rounds == [] ||
    var n := |rounds| - 1;
    && Legal(s, rounds[..n], first)
    && Claims(Run(Rounds(s, rounds[..n]), rounds[n].before), RoundClaim(rounds[n], n, first))
    && (n == 0 && first.Some? ==> rounds[n].q == first.value)
    && SendsOwn(Run(Rounds(s, rounds[..n]), rounds[n].before), rounds[n])
  }

  lemma RoundsExtend(s: Db, rounds: seq<Round>, r: Round)
    ensures (rounds + [r])[..|rounds|] == rounds
    ensures Rounds(s, rounds + [r]) == After(Rounds(s, rounds), r)
  {
    assert (rounds + [r])[..|rounds|] == rounds;
  }

  lemma LegalExtends(s: Db, rounds: seq<Round>, r: Round, first: Option<QueryId>)
    requires Legal(s, rounds, first)
    requires Claims(Run(Rounds(s, rounds), r.before), RoundClaim(r, |rounds|, first))
    requires (rounds == [] && first.Some? ==> r.q == first.value) && SendsOwn(Run(Rounds(s, rounds), r.before), r)
    ensures Legal(s, rounds + [r], first)
  {
    assert (rounds + [r])[..|rounds|] == rounds;
  }

  lemma SettleKeepsOrigin(s: Db, q: QueryId, w: WorkerId, o: Outcome, p: QueryId)
    requires p in s.queries
    ensures p in Settle(s, q, w, o).queries && SameOrigin(s.queries[p], Settle(s, q, w, o).queries[p])
  {
    DoKeepsOrigin(s, MarkUnreachable(w), p);
    DoKeepsOrigin(s, Revert(q), p);
  }

  lemma {:induction false} RoundsKeepOrigin(s: Db, rounds: seq<Round>, q: QueryId)
    requires q in s.queries
    ensures q in Rounds(s, rounds).queries && SameOrigin(s.queries[q], Rounds(s, rounds).queries[q])
    decreases |rounds|
  {
    if rounds == [] {
    } else {
      var r := rounds[|rounds| - 1];
      var t := Rounds(s, rounds[..|rounds| - 1]);
      RoundsKeepOrigin(s, rounds[..|rounds| - 1], q);
      OriginIsForever(t, r.before, q);
      OriginIsForever(ClaimedAt(t, r), r.between, q);
      SettleKeepsOrigin(Run(ClaimedAt(t, r), r.between), r.q, r.w, r.outcome, q);
    }
  }

  lemma {:induction false} LegalAt(s: Db, rounds: seq<Round>, first: Option<QueryId>, k: nat)
    requires Legal(s, rounds, first) && k < |rounds|
    ensures Claims(Run(Rounds(s, rounds[..k]), rounds[k].before), RoundClaim(rounds[k], k, first))
    ensures SendsOwn(Run(Rounds(s, rounds[..k]), rounds[k].before), rounds[k])
    decreases |rounds|
  {
    if k == |rounds| - 1 {
    } else {
      LegalAt(s, rounds[..|rounds| - 1], first, k);
      assert rounds[..|rounds| - 1][..k] == rounds[..k];
    }
  }

  /** Whatever other clients do, every round of a batch sends the text and request its query was submitted with, to the
      query path of the worker that was chosen for it. */
  lemma BatchSendsOwnText(s: Db, rounds: seq<Round>, first: Option<QueryId>, k: nat)
    requires Legal(s, rounds, first) && k < |rounds|
    ensures
      var r, t := rounds[k], Run(Rounds(s, rounds[..k]), rounds[k].before);
      && r.sent.query == r.q
      && (r.q in s.queries ==> r.sent.sql == s.queries[r.q].sql && r.sent.request == s.queries[r.q].request)
      && CanClaim(t, r.q, r.w, r.cutoff)
      && UrlOn(r.sent.url, t.workers[r.w].endpoint, "/query")
  {
    var r := rounds[k];
    LegalAt(s, rounds, first, k);
    if r.q in s.queries {
      RoundsKeepOrigin(s, rounds[..k], r.q);
      OriginIsForever(Rounds(s, rounds[..k]), r.before, r.q);
    }
  }

  /** What a round was given: its cutoff, its outcome, and the calls other clients asked for. */
  predicate Given(r: Round, cutoff: int, outcome: Outcome, others: (seq<Step>, seq<Step>)) {
    r.cutoff == cutoff && r.outcome == outcome && AllCarried(others.0, r.before) && AllCarried(others.1, r.between)
  }

  ghost predicate AllGiven(rounds: seq<Round>, cutoffs: nat -> int, outcomes: nat -> Outcome,
                           others: nat -> (seq<Step>, seq<Step>)) {
    forall k :: 0 <= k < |rounds| ==> Given(rounds[k], cutoffs(k), outcomes(k), others(k))
  }

  lemma GivenOneMore(rounds: seq<Round>, longer: seq<Round>, cutoffs: nat -> int, outcomes: nat -> Outcome,
                     others: nat -> (seq<Step>, seq<Step>))
    requires AllGiven(rounds, cutoffs, outcomes, others)
    requires |longer| == |rounds| + 1 && longer[..|rounds|] == rounds
    requires Given(longer[|rounds|], cutoffs(|rounds|), outcomes(|rounds|), others(|rounds|))
    ensures AllGiven(longer, cutoffs, outcomes, others)
  {
    assert forall k :: 0 <= k < |rounds| ==> longer[k] == longer[..|rounds|][k];
  }

  /** The given query in the first round if there is one, else the head of the queue. */
  method ClaimForRound(db: Store, k: nat, first: Option<QueryId>, cutoff: int) returns (c: Option<Claimed>)
    modifies db
    ensures c.None? ==> db.State() == old(db.State()) && NothingFor(db.State(), k, first, cutoff)
    ensures c.Some? ==>
              && Claims(old(db.State()), if k == 0 && first.Some? then ClaimById(c.value.query, c.value.worker, cutoff)
                                         else ClaimHead(c.value.query, c.value.worker, cutoff))
              && (k == 0 && first.Some? ==> c.value.query == first.value)
              && HandsOver(old(db.State()), c.value)
              && db.State() == ClaimRow(old(db.State()), c.value.query, c.value.worker)
  {
    if first.Some? && k == 0 {
      c := db.ClaimQueryById(first.value, cutoff);
    } else {
      c := db.ClaimPendingQuery(cutoff);
    }
  }

  /** Why round k claimed nothing. */
  ghost predicate NothingFor(s: Db, k: nat, first: Option<QueryId>, cutoff: int) {
    if k == 0 && first.Some? then IsPending(s, first.value) ==> NoWorkerFor(s, first.value, cutoff)
    else NothingToClaim(s, cutoff)
  }

  method ScheduleRound(db: Store, k: nat, first: Option<QueryId>, cutoff: int, outcome: Outcome,
                       others: (seq<Step>, seq<Step>), ghost start: Db, ghost rounds: seq<Round>)
    returns (scheduled: bool, ghost longer: seq<Round>, ghost last: seq<Step>)
    requires k == |rounds| && Legal(start, rounds, first) && db.State() == Rounds(start, rounds)
    modifies db
    ensures Legal(start, longer, first) && db.State() == Run(Rounds(start, longer), last)
    ensures !scheduled ==> longer == rounds && AllCarried(others.0, last) && NothingFor(db.State(), k, first, cutoff)
    ensures scheduled ==> last == [] && |longer| == k + 1 && longer[..k] == rounds &&
                          Given(longer[k], cutoff, outcome, others)
  {
    last := db.Others(others.0);
    longer := rounds;
    var claimed := ClaimForRound(db, k, first, cutoff);
    scheduled := claimed.Some?;
    if scheduled {
      ghost var before := last;
      var ok;
      ghost var between, sent;
      ok, between, sent := DispatchQuery(db, claimed.value, outcome, others.1);
      ghost var r := Round(before, claimed.value.query, claimed.value.worker, cutoff, sent, between, outcome);
      RoundsExtend(start, rounds, r);
      LegalExtends(start, rounds, r, first);
      longer, last := rounds + [r], [];
    }
  }

  /** At most maxBatch rounds; fewer only when a claim found nothing. Whatever other clients do, everything that happened
      is a list of legal rounds, each with its own cutoff. */
  method SchedulePendingQueries(db: Store, first: Option<QueryId>, maxBatch: nat, cutoffs: nat -> int,
                                outcomes: nat -> Outcome, others: nat -> (seq<Step>, seq<Step>))
    returns (scheduled: nat, ghost rounds: seq<Round>, ghost last: seq<Step>)
    modifies db
    ensures scheduled == |rounds| <= maxBatch
    ensures Legal(old(db.State()), rounds, first)
    ensures db.State() == Run(Rounds(old(db.State()), rounds), last)
    ensures AllGiven(rounds, cutoffs, outcomes, others)
    ensures scheduled == maxBatch ==> last == []
    ensures scheduled < maxBatch ==>
              AllCarried(others(scheduled).0, last) && NothingFor(db.State(), scheduled, first, cutoffs(scheduled))
  {
    scheduled, rounds, last := 0, [], [];
    while scheduled < maxBatch
      invariant scheduled == |rounds| <= maxBatch
      invariant Legal(old(db.State()), rounds, first) && last == [] && db.State() == Rounds(old(db.State()), rounds)
      invariant AllGiven(rounds, cutoffs, outcomes, others)
    {
      var more;
      ghost var longer;
      more, longer, last := ScheduleRound(db, scheduled, first, cutoffs(scheduled), outcomes(scheduled), others(scheduled),
                                          old(db.State()), rounds);
      if !more {
        break;
      }
      GivenOneMore(rounds, longer, cutoffs, outcomes, others);
      rounds := longer;
      scheduled := scheduled + 1;
    }
  }
}
