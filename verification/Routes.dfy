/** The cancel endpoint under interference: between any two of its database calls other clients may make any others. */
module Routes {
  import opened Model
  import opened Tables
  import opened Database
  import opened Runs

  datatype Reply = Ok(row: Query) | HttpError(code: int)

  const POLLS := 20

  /** What other clients ask for during one await, and during some awaits in a row. */
  function Slot(env: seq<seq<Step>>, i: nat): seq<Step> {
    if i < |env| then env[i] else []
  }

  function Slots(env: seq<seq<Step>>, i: nat, j: nat): seq<Step>
    decreases j
  {
    if i >= j then [] else Slots(env, i, j - 1) + Slot(env, j - 1)
  }

  /** From a trace to a longer one only those calls were made. */
  predicate OnlyOthers(env: seq<seq<Step>>, i: nat, j: nat, trace: seq<Step>, longer: seq<Step>) {
    trace <= longer && AllCarried(Slots(env, i, j), longer[|trace|..])
  }

  /** From a trace to a longer one other clients' calls were made during the awaits i to j, then the cancellation of q for
      this reason, then other clients' calls during await j. */
  predicate CancelledBetween(env: seq<seq<Step>>, i: nat, j: nat, q: QueryId, why: string,
                             trace: seq<Step>, longer: seq<Step>)
  {
    var at := |trace| + |Slots(env, i, j)|;
    && at < |longer| && longer[at] == Cancel(q, Some(why))
    && OnlyOthers(env, i, j, trace, longer[..at]) && OnlyOthers(env, j, j + 1, longer[..at + 1], longer)
  }

  /** All that the handler and the others did up to await j, or through it behind a cancellation. */
  predicate Made(env: seq<seq<Step>>, j: nat, q: QueryId, why: Option<string>, trace: seq<Step>) {
    if why.Some? then CancelledBetween(env, 0, j, q, why.value, [], trace) else OnlyOthers(env, 0, j, [], trace)
  }

  /** Up to twenty awaits, or one more and then the handler's own cancellation. */
  predicate Polled(env: seq<seq<Step>>, i: nat, waited: nat, q: QueryId, trace: seq<Step>, longer: seq<Step>) {
    if waited <= 20 then OnlyOthers(env, i, i + waited, trace, longer)
    else waited == 21 && CancelledBetween(env, i, i + 21, q, "Cancelled by request", trace, longer)
  }

  lemma PolledLater(env: seq<seq<Step>>, i: nat, waited: nat, q: QueryId, trace: seq<Step>, longer: seq<Step>)
    requires OnlyOthers(env, 0, i, [], trace) && Polled(env, i, waited, q, trace, longer)
    ensures Made(env, i + waited, q, if waited <= 20 then None else Some("Cancelled by request"), longer)
  {
    if waited <= 20 {
      OnlyOthersAppend(env, 0, i, i + waited, [], trace, longer);
    } else {
      CancelledLater(env, 0, i, i + 21, q, "Cancelled by request", [], trace, longer);
    }
  }

  lemma {:induction false} SlotsAppend(env: seq<seq<Step>>, i: nat, j: nat, k: nat)
    requires i <= j <= k
    ensures Slots(env, i, j) + Slots(env, j, k) == Slots(env, i, k)
    decreases k
  {
    if j == k {
      assert Slots(env, i, j) + [] == Slots(env, i, j);
    } else {
      SlotsAppend(env, i, j, k - 1);
      var a, b, c := Slots(env, i, j), Slots(env, j, k - 1), Slot(env, k - 1);
      assert a + (b + c) == a + b + c;
    }
  }

  lemma OnlyOthersAppend(env: seq<seq<Step>>, i: nat, j: nat, k: nat, a: seq<Step>, b: seq<Step>, c: seq<Step>)
    requires i <= j <= k && OnlyOthers(env, i, j, a, b) && OnlyOthers(env, j, k, b, c)
    ensures OnlyOthers(env, i, k, a, c)
  {
    SlotsAppend(env, i, j, k);
    assert c[|a|..] == b[|a|..] + c[|b|..];
  }

  /** Awaits before those of such a stretch lengthen it. */
  lemma CancelledLater(env: seq<seq<Step>>, i: nat, j: nat, k: nat, q: QueryId, why: string,
                       a: seq<Step>, b: seq<Step>, c: seq<Step>)
    requires i <= j <= k && OnlyOthers(env, i, j, a, b) && CancelledBetween(env, j, k, q, why, b, c)
    ensures CancelledBetween(env, i, k, q, why, a, c)
  {
    var at := |b| + |Slots(env, j, k)|;
    SlotsAppend(env, i, j, k);
    OnlyOthersAppend(env, i, j, k, a, b, c[..at]);
  }

  /** One await: the other clients' calls of this slot take place. Rows are never removed and terminal rows never change. */
  method Await(db: Store, env: seq<seq<Step>>, slot: nat, ghost q: QueryId, ghost start: Db, ghost trace: seq<Step>)
    returns (ghost longer: seq<Step>)
    requires db.State() == Run(start, trace)
    modifies db
    ensures db.State() == Run(start, longer)
    ensures OnlyOthers(env, slot, slot + 1, trace, longer)
    ensures slot >= |env| || env[slot] == [] ==> db.State() == old(db.State())
    ensures q in old(db.queries) ==> q in db.queries && SameOrigin(old(db.queries)[q], db.queries[q])
    ensures q in old(db.queries) && Terminal(old(db.queries)[q].status) ==> db.queries[q] == old(db.queries)[q]
  {
    ghost var s := db.State();
    longer := trace;
    assert Slots(env, slot, slot + 1) == Slot(env, slot);
    if slot < |env| {
      ghost var others := db.Others(env[slot]);
      if q in s.queries {
        TerminalIsForever(s, others, q);
        OriginIsForever(s, others, q);
      }
      RunAppend(start, trace, others);
      longer := trace + others;
      assert longer[|trace|..] == others;
    }
  }

  lemma RunOne(s: Db, trace: seq<Step>, step: Step)
    ensures Run(s, trace + [step]) == Do(Run(s, trace), step)
  {
    assert (trace + [step])[..|trace + [step]| - 1] == trace;
  }

  /** What the handler does when nobody interferes. */
  function CancelAlone(s: Db, q: QueryId, user: UserId, workerAnswers: bool): (Reply, Db) {
    if q !in s.queries then (HttpError(404), s) else
    var row := s.queries[q];
    if row.user.Some? && row.user.value != user then (HttpError(403), s)
    else if Terminal(row.status) then (Ok(row), s)
    else
      var known := row.worker.Some? && row.worker.value in s.workers;
      if row.status.Running? && known && !workerAnswers then (HttpError(502), s)
      else
        var t := MarkQueryCancelled(s, q, Some(
          if row.status.Pending? then "Cancelled before dispatch" else if known then "Cancelled by request"
          else "Worker unavailable"));
        (Ok(t.queries[q]), t)
  }

  /** The row belongs to somebody else; rows without an owner belong to everybody. */
  predicate OthersRow(s: Db, q: QueryId, user: UserId) {
    q in s.queries && s.queries[q].user.Some? && s.queries[q].user.value != user
  }

  /** What is cancelled, for the stated reason: status and error change, the completion time is set, and one notice with
      that status and error is posted. */
  predicate CancelledFor(s: Db, t: Db, q: QueryId, why: string) {
    && q in s.queries
    && t == s.(queries := s.queries[q := s.queries[q].(status := Cancelled, error := Some(why), completedAt := Some(s.now))],
               log := s.log[q := Notes(s.log, q) + [Notice(Cancelled, Some(why), None)]])
  }

  /** Every answer that the handler gives when nobody interferes, and exactly when it gives it. */
  lemma CancelAloneMeaning(s: Db, q: QueryId, user: UserId, workerAnswers: bool)
    ensures
      var (reply, t) := CancelAlone(s, q, user, workerAnswers);
      && (reply == HttpError(404) <==> q !in s.queries)
      && (reply == HttpError(403) <==> OthersRow(s, q, user))
      && (reply == HttpError(502) <==>
            q in s.queries && !OthersRow(s, q, user) && s.queries[q].status.Running? && !workerAnswers &&
            s.queries[q].worker.Some? && s.queries[q].worker.value in s.workers)
      && (reply.HttpError? ==> t == s && reply.code in {403, 404, 502})
      && (reply.Ok? ==> q in s.queries && q in t.queries && reply.row == t.queries[q])
      && (reply.Ok? && s.queries[q].status in {Completed, Failed, Cancelled} ==> t == s)
      && (reply.Ok? && s.queries[q].status.Pending? ==> CancelledFor(s, t, q, "Cancelled before dispatch"))
      && (reply.Ok? && s.queries[q].status.Running? ==>
            CancelledFor(s, t, q, if s.queries[q].worker.Some? && s.queries[q].worker.value in s.workers
                                  then "Cancelled by request" else "Worker unavailable"))
  {
  }

  predicate Alone(env: seq<seq<Step>>) {
    forall k :: 0 <= k < |env| ==> env[k] == []
  }

  /** mark_query_cancelled, then a read of the row some calls later: it is terminal whether or not this call cancelled it. */
  method CancelAndRead(db: Store, q: QueryId, why: string, env: seq<seq<Step>>, slot: nat,
                       ghost start: Db, ghost trace: seq<Step>)
    returns (cancelled: bool, row: Query, ghost longer: seq<Step>)
    requires q in db.queries && db.State() == Run(start, trace)
    modifies db
    ensures db.State() == Run(start, longer)
    ensures q in db.queries && row == db.queries[q] && Terminal(row.status)
    ensures cancelled <==> Active(old(db.State()), q)
    ensures CancelledBetween(env, slot, slot, q, why, trace, longer)
    ensures Alone(env) ==> db.State() == MarkQueryCancelled(old(db.State()), q, Some(why))
  {
    RunOne(start, trace, Cancel(q, Some(why)));
    var done := db.MarkQueryCancelled(q, Some(why));
    longer := trace + [Cancel(q, Some(why))];
    cancelled := done.Some?;
    ghost var own := longer;
    longer := Await(db, env, slot, q, start, longer);
    assert longer[..|trace| + 1] == own && longer[..|trace|] == trace;
    row := db.GetQuery(q).value;
  }

  /** The poll, then the forced cancellation, once the worker has taken the request. */
  method AwaitCancellation(db: Store, q: QueryId, env: seq<seq<Step>>, slot: nat, ghost start: Db, ghost trace: seq<Step>)
    returns (reply: Reply, ghost longer: seq<Step>, ghost waited: nat)
    requires q in db.queries && db.State() == Run(start, trace)
    modifies db
    ensures db.State() == Run(start, longer)
    ensures q in db.queries && Terminal(db.queries[q].status)
    ensures reply == Ok(db.queries[q]) || reply == HttpError(409)
    ensures Polled(env, slot, waited, q, trace, longer) && 1 <= waited
    ensures waited <= 20 ==> reply.Ok? && reply.row.status.Cancelled?
    ensures Alone(env) && Active(old(db.State()), q) ==>
              db.State() == MarkQueryCancelled(old(db.State()), q, Some("Cancelled by request")) && reply.Ok?
  {
    longer := trace;
    for poll := 0 to POLLS
      invariant db.State() == Run(start, longer) && q in db.queries
      invariant Alone(env) ==> db.State() == old(db.State())
      invariant OnlyOthers(env, slot, slot + poll, trace, longer)
    {
      ghost var before := longer;
      longer := Await(db, env, slot + poll, q, start, longer);
      OnlyOthersAppend(env, slot, slot + poll, slot + poll + 1, trace, before, longer);
      var updated := db.GetQuery(q);
      if updated.Some? && updated.value.status.Cancelled? {
        return Ok(updated.value), longer, poll + 1;
      }
    }
    waited := POLLS + 1;
    ghost var before := longer;
    longer := Await(db, env, slot + POLLS, q, start, longer);
    OnlyOthersAppend(env, slot, slot + POLLS, slot + waited, trace, before, longer);
    before := longer;
    var cancelled, row;
    cancelled, row, longer := CancelAndRead(db, q, "Cancelled by request", env, slot + POLLS + 1, start, longer);
    CancelledLater(env, slot, slot + waited, slot + waited, q, "Cancelled by request", trace, before, longer);
    if !cancelled && !row.status.Cancelled? {
      return HttpError(409), longer, waited;
    }
    return Ok(row), longer, waited;
  }

  /** The handler from where it has read a pending row. */
  method CancelPending(db: Store, q: QueryId, env: seq<seq<Step>>, ghost start: Db, ghost trace: seq<Step>)
    returns (reply: Reply, ghost longer: seq<Step>)
    requires q in db.queries && db.State() == Run(start, trace) && OnlyOthers(env, 0, 2, [], trace)
    modifies db
    ensures db.State() == Run(start, longer)
    ensures q in db.queries && Terminal(db.queries[q].status)
    ensures reply == if Active(old(db.State()), q) then Ok(db.queries[q]) else HttpError(409)
    ensures Made(env, 2, q, Some("Cancelled before dispatch"), longer)
    ensures Alone(env) ==> db.State() == MarkQueryCancelled(old(db.State()), q, Some("Cancelled before dispatch"))
  {
    var cancelled, updated;
    cancelled, updated, longer := CancelAndRead(db, q, "Cancelled before dispatch", env, 2, start, trace);
    CancelledLater(env, 0, 2, 2, q, "Cancelled before dispatch", [], trace, longer);
    reply := if cancelled then Ok(updated) else HttpError(409);
  }

  /** The handler from where it has read a running row. */
  method CancelRunning(db: Store, q: QueryId, row: Query, workerAnswers: bool, env: seq<seq<Step>>,
                       ghost start: Db, ghost trace: seq<Step>)
    returns (reply: Reply, ghost longer: seq<Step>, ghost waited: nat, ghost why: Option<string>)
    requires q in db.queries && db.State() == Run(start, trace) && OnlyOthers(env, 0, 2, [], trace)
    modifies db
    ensures db.State() == Run(start, longer)
    ensures q in db.queries
    ensures reply.Ok? ==> reply.row == db.queries[q] && Terminal(reply.row.status)
    ensures reply == HttpError(409) ==> Terminal(db.queries[q].status)
    ensures reply.HttpError? ==> reply.code in {409, 502} && (why.Some? <==> reply.code == 409)
    ensures reply == HttpError(502) ==> !workerAnswers
    ensures Made(env, waited, q, why, longer) && 3 <= waited <= 24
    ensures why.Some? ==> why.value == if waited == 3 then "Worker unavailable" else "Cancelled by request"
    ensures why == Some("Cancelled by request") ==> waited == 24
    ensures Alone(env) && Active(old(db.State()), q) ==>
              var known := row.worker.Some? && row.worker.value in old(db.workers);
              if known && !workerAnswers then reply == HttpError(502) && db.State() == old(db.State())
              else reply == Ok(db.queries[q]) && db.State() == MarkQueryCancelled(old(db.State()), q,
                     Some(if known then "Cancelled by request" else "Worker unavailable"))
  {
    var known := row.worker.Some? && row.worker.value in db.workers;
    longer := Await(db, env, 2, q, start, trace);
    OnlyOthersAppend(env, 0, 2, 3, [], trace, longer);
    ghost var before := longer;
    waited, why := 3, None;
    if !known {
      var ignored;
      var updated;
      ignored, updated, longer := CancelAndRead(db, q, "Worker unavailable", env, 3, start, longer);
      CancelledLater(env, 0, 3, 3, q, "Worker unavailable", [], before, longer);
      return Ok(updated), longer, waited, Some("Worker unavailable");
    }
    if !workerAnswers {
      return HttpError(502), longer, waited, why;
    }
    ghost var polled;
    reply, longer, polled := AwaitCancellation(db, q, env, 3, start, longer);
    PolledLater(env, 3, polled, q, before, longer);
    waited, why := 3 + polled, if polled <= 20 then None else Some("Cancelled by request");
  }

  /** The handler from where it has read a row that is not terminal. */
  method CancelActive(db: Store, q: QueryId, row: Query, workerAnswers: bool, env: seq<seq<Step>>,
                      ghost start: Db, ghost trace: seq<Step>)
    returns (reply: Reply, ghost longer: seq<Step>, ghost waited: nat, ghost why: Option<string>)
    requires q in db.queries && db.State() == Run(start, trace) && OnlyOthers(env, 0, 1, [], trace)
    requires row.status.Pending? || row.status.Running?
    modifies db
    ensures db.State() == Run(start, longer)
    ensures q in db.queries
    ensures reply.Ok? ==> reply.row == db.queries[q] && Terminal(reply.row.status)
    ensures reply == HttpError(409) ==> Terminal(db.queries[q].status)
    ensures reply.HttpError? ==> reply.code in {409, 502} && (why.Some? <==> reply.code == 409)
    ensures reply == HttpError(502) ==> !workerAnswers
    ensures Made(env, waited, q, why, longer) && 2 <= waited <= 24
    ensures why.Some? ==> why.value in {"Cancelled before dispatch", "Cancelled by request", "Worker unavailable"}
    ensures why == Some("Cancelled by request") ==> waited == 24
    ensures Alone(env) && old(db.queries)[q] == row ==>
              var known := row.worker.Some? && row.worker.value in old(db.workers);
              if row.status.Running? && known && !workerAnswers then reply == HttpError(502) && db.State() == old(db.State())
              else reply == Ok(db.queries[q]) && db.State() == MarkQueryCancelled(old(db.State()), q, Some(
                     if row.status.Pending? then "Cancelled before dispatch" else if known then "Cancelled by request"
                     else "Worker unavailable"))
  {
    longer := Await(db, env, 1, q, start, trace);
    OnlyOthersAppend(env, 0, 1, 2, [], trace, longer);
    if row.status.Pending? {
      reply, longer := CancelPending(db, q, env, start, longer);
      return reply, longer, 2, Some("Cancelled before dispatch");
    }
    reply, longer, waited, why := CancelRunning(db, q, row, workerAnswers, env, start, longer);
  }

  /** Whatever other clients do: somebody else's query is refused with 403, and only that; 404 means there was no such row
      at the start. Every 200 carries the query's terminal row and every 409 means the row is terminal already, so only
      403, 404 and 502 can leave the query pending or running. Everything that happened is a run of the other clients' calls
      and at most one cancellation of this query, with none at all for 403, 404 and 502. */
  method CancelQuery(db: Store, q: QueryId, user: UserId, workerAnswers: bool, env: seq<seq<Step>>)
    returns (reply: Reply, ghost trace: seq<Step>, ghost waited: nat, ghost why: Option<string>)
    modifies db
    ensures db.State() == Run(old(db.State()), trace)
    ensures Made(env, waited, q, why, trace)
    ensures why.Some? ==> why.value in {"Cancelled before dispatch", "Cancelled by request", "Worker unavailable"}
    ensures reply.HttpError? ==> (why.Some? <==> reply.code == 409)
    ensures waited <= 24 && (why == Some("Cancelled by request") ==> waited == 24)
    ensures q in old(db.queries) && old(db.queries)[q].user.Some? && old(db.queries)[q].user.value != user ==>
              reply == HttpError(403)
    ensures reply == HttpError(403) ==> q in db.queries && db.queries[q].user.Some? && db.queries[q].user.value != user
    ensures reply == HttpError(404) ==> q !in old(db.queries) && q !in db.queries
    ensures reply in {HttpError(403), HttpError(404)} ==> waited == 1
    ensures Alone(env) ==>
              && (reply == HttpError(404) <==> q !in old(db.queries))
              && (reply == HttpError(403) <==> OthersRow(old(db.State()), q, user))
    ensures reply.Ok? ==> q in db.queries && reply.row == db.queries[q] && Terminal(reply.row.status)
    ensures reply == HttpError(409) ==> q in db.queries && Terminal(db.queries[q].status)
    ensures reply.HttpError? ==> reply.code in {403, 404, 409, 502}
    ensures reply == HttpError(502) ==> !workerAnswers
    ensures Alone(env) ==> (reply, db.State()) == CancelAlone(old(db.State()), q, user, workerAnswers)
  {
    ghost var start := db.State();
    why := None;
    trace := Await(db, env, 0, q, start, []);
    waited := 1;
    var found := db.GetQuery(q);
    if found.None? {
      return HttpError(404), trace, waited, why;
    }
    var row := found.value;
    if row.user.Some? && row.user.value != user {
      return HttpError(403), trace, waited, why;
    }
    if Terminal(row.status) {
      return Ok(row), trace, waited, why;
    }
    reply, trace, waited, why := CancelActive(db, q, row, workerAnswers, env, start, trace);
  }

  /** The completion endpoint answers 200 exactly when the row then has the reported status. */
  method CompleteQuery(db: Store, q: QueryId, v: Verdict, error: Option<string>, rowCount: Option<int>) returns (code: int)
    modifies db
    ensures db.State() == Do(old(db.State()), Complete(q, v, error, rowCount))
    ensures code == if q in db.queries && db.queries[q].status == v then 200 else 404
  {
    var updated := db.CompleteQuery(q, v, error, rowCount);
    code := if updated then 200 else 404;
  }
}
