/** Messages around the tables: dispatches and completion reports that may be lost, late or repeated,
    and notifications sent apart from the update they announce. */
module Delivery {
  import opened Model
  import opened Placement
  import opened Tables
  import opened Runs

  // ----- At-least-once execution, exactly-once completion -----

  datatype Report = Report(q: QueryId, verdict: Verdict, error: Option<string>, rowCount: Option<int>)

  /** Message pools only grow: a message may arrive any number of times, at any later moment, or never. */
  datatype Net = Net(db: Db, dispatched: set<(QueryId, WorkerId)>, started: set<(QueryId, WorkerId)>, reports: set<Report>)

  datatype NetStep =
    | Call(step: Step)
    | Deliver(q: QueryId, w: WorkerId)
    | Finish(w: WorkerId, report: Report)
    | Receive(report: Report)

  /** A claim sends a dispatch; a delivered dispatch starts an execution; an execution ends in a report;
      only a received report completes a query. */
  ghost function NetDo(s: Net, step: NetStep): Net {
    match step
    case Call(call) =>
      if call.Complete? then s else
      s.(db := Do(s.db, call),
         dispatched := if Claims(s.db, call) then s.dispatched + {(call.q, call.w)} else s.dispatched)
    case Deliver(q, w) => if (q, w) in s.dispatched then s.(started := s.started + {(q, w)}) else s
    case Finish(w, r) => if (r.q, w) in s.started then s.(reports := s.reports + {r}) else s
    case Receive(r) =>
      if r in s.reports then s.(db := CompleteQuery(s.db, r.q, r.verdict, r.error, r.rowCount)) else s
  }

  ghost function NetRun(now: int, steps: seq<NetStep>): Net {
    if steps == [] then Net(Empty(now), {}, {}, {})
    else NetDo(NetRun(now, steps[..|steps| - 1]), steps[|steps| - 1])
  }

  /** Step i of the run is a claim of q that takes effect. */
  ghost predicate ClaimsAt(now: int, steps: seq<NetStep>, i: nat, q: QueryId)
    requires i < |steps|
  {
    steps[i].Call? && Claims(NetRun(now, steps[..i]).db, steps[i].step) && steps[i].step.q == q
  }

  ghost predicate Claimed(now: int, steps: seq<NetStep>, q: QueryId) {
    exists i: nat :: i < |steps| && ClaimsAt(now, steps, i, q)
  }

  lemma ClaimedExtends(now: int, steps: seq<NetStep>, q: QueryId)
    requires steps != [] && Claimed(now, steps[..|steps| - 1], q)
    ensures Claimed(now, steps, q)
  {
    var n := |steps| - 1;
    var i: nat :| i < n && ClaimsAt(now, steps[..n], i, q);
    assert steps[..n][..i] == steps[..i];
    assert ClaimsAt(now, steps, i, q);
  }

  ghost predicate Traced(now: int, steps: seq<NetStep>) {
    var s := NetRun(now, steps);
    && (forall d :: d in s.dispatched ==> Claimed(now, steps, d.0))
    && s.started <= s.dispatched
    && (forall r :: r in s.reports ==> Claimed(now, steps, r.q))
    && (forall q :: q in s.db.queries && (s.db.queries[q].status.Completed? || s.db.queries[q].status.Failed?) ==>
          Claimed(now, steps, q))
  }

  /** Only a completion turns a row completed or failed. */
  lemma OnlyReportsComplete(s: Db, call: Step, q: QueryId)
    requires !call.Complete? && q in Do(s, call).queries
    requires Do(s, call).queries[q].status.Completed? || Do(s, call).queries[q].status.Failed?
    ensures q in s.queries && s.queries[q] == Do(s, call).queries[q]
  {
  }

  lemma CallsKeepTraces(now: int, steps: seq<NetStep>)
    requires steps != [] && steps[|steps| - 1].Call? && !steps[|steps| - 1].step.Complete?
    requires Traced(now, steps[..|steps| - 1])
    requires forall q :: Claimed(now, steps[..|steps| - 1], q) ==> Claimed(now, steps, q)
    ensures Traced(now, steps)
  {
    var n := |steps| - 1;
    var s, call, t := NetRun(now, steps[..n]), steps[n].step, NetRun(now, steps);
    assert t.started == s.started && t.reports == s.reports && t.db == Do(s.db, call);
    if Claims(s.db, call) {
      assert ClaimsAt(now, steps, n, call.q);
      assert t.dispatched == s.dispatched + {(call.q, call.w)};
    } else {
      assert t.dispatched == s.dispatched;
    }
    forall q | q in t.db.queries && (t.db.queries[q].status.Completed? || t.db.queries[q].status.Failed?)
      ensures Claimed(now, steps, q)
    {
      OnlyReportsComplete(s.db, call, q);
      assert Claimed(now, steps[..n], q);
    }
  }

  lemma MessagesKeepTraces(now: int, steps: seq<NetStep>)
    requires steps != [] && !steps[|steps| - 1].Call?
    requires Traced(now, steps[..|steps| - 1])
    requires forall q :: Claimed(now, steps[..|steps| - 1], q) ==> Claimed(now, steps, q)
    ensures Traced(now, steps)
  {
    var n := |steps| - 1;
    var s := NetRun(now, steps[..n]);
    if steps[n].Finish? && (steps[n].report.q, steps[n].w) in s.started {
      assert Claimed(now, steps[..n], (steps[n].report.q, steps[n].w).0);
    }
  }

  lemma {:induction false} RunsAreTraced(now: int, steps: seq<NetStep>)
    ensures Traced(now, steps)
    decreases |steps|
  {
    if steps == [] {
    } else {
      var n := |steps| - 1;
      RunsAreTraced(now, steps[..n]);
      forall q | Claimed(now, steps[..n], q) ensures Claimed(now, steps, q) {
        ClaimedExtends(now, steps, q);
      }
      if !steps[n].Call? {
        MessagesKeepTraces(now, steps);
      } else if !steps[n].step.Complete? {
        CallsKeepTraces(now, steps);
      }
    }
  }

  /** No query becomes completed or failed without an earlier claim of it. */
  lemma NoResultWithoutClaim(now: int, steps: seq<NetStep>, q: QueryId)
    requires q in NetRun(now, steps).db.queries
    requires NetRun(now, steps).db.queries[q].status.Completed? || NetRun(now, steps).db.queries[q].status.Failed?
    ensures exists i: nat :: i < |steps| && ClaimsAt(now, steps, i, q)
  {
    RunsAreTraced(now, steps);
    assert Claimed(now, steps, q);
  }

  lemma NetKeepsTerminal(s: Net, step: NetStep, q: QueryId)
    requires q in s.db.queries
    ensures q in NetDo(s, step).db.queries
    ensures Terminal(s.db.queries[q].status) ==> NetDo(s, step).db.queries[q] == s.db.queries[q]
  {
    if step.Call? {
      DoKeepsTerminal(s.db, step.step, q);
    }
  }

  /** The first terminal write fixes every column of the row for the rest of the run. */
  lemma {:induction false} FirstTerminalWriteWins(now: int, steps: seq<NetStep>, i: nat, q: QueryId)
    requires i <= |steps| && q in NetRun(now, steps[..i]).db.queries
    ensures q in NetRun(now, steps).db.queries
    ensures Terminal(NetRun(now, steps[..i]).db.queries[q].status) ==>
              NetRun(now, steps).db.queries[q] == NetRun(now, steps[..i]).db.queries[q]
    decreases |steps|
  {
    if i == |steps| {
      assert steps[..i] == steps;
    } else {
      var n := |steps| - 1;
      assert steps[..n][..i] == steps[..i];
      FirstTerminalWriteWins(now, steps[..n], i, q);
      NetKeepsTerminal(NetRun(now, steps[..n]), steps[n], q);
    }
  }

  /** complete_query answers true exactly when the row then has the reported status. */
  lemma AnswerIsStatus(s: Db, q: QueryId, v: Verdict, error: Option<string>, rowCount: Option<int>)
    ensures CompleteAnswer(s, q, v) <==>
            var t := CompleteQuery(s, q, v, error, rowCount); q in t.queries && t.queries[q].status == v
  {
  }

  /** A report answered with true is final, however often it is repeated and whatever arrives later. */
  lemma AcknowledgedReportIsFinal(now: int, steps: seq<NetStep>, i: nat)
    requires i < |steps| && steps[i].Receive?
    requires var r := steps[i].report;
      r in NetRun(now, steps[..i]).reports && CompleteAnswer(NetRun(now, steps[..i]).db, r.q, r.verdict)
    ensures steps[i].report.q in NetRun(now, steps).db.queries
    ensures NetRun(now, steps).db.queries[steps[i].report.q].status == steps[i].report.verdict
  {
    var r := steps[i].report;
    AnswerIsStatus(NetRun(now, steps[..i]).db, r.q, r.verdict, r.error, r.rowCount);
    assert steps[..i + 1][..i] == steps[..i];
    FirstTerminalWriteWins(now, steps, i + 1, r.q);
  }

  // ----- Each result is one report's -----

  /** Step i receives the report that this row's verdict, row count and error came from: it found the row active, and if
      it had no error the row kept the one it had. */
  ghost predicate ReportedAt(now: int, steps: seq<NetStep>, i: nat, q: QueryId, row: Query)
    requires i < |steps|
  {
    var s := NetRun(now, steps[..i]);
    && steps[i].Receive? && steps[i].report in s.reports && steps[i].report.q == q
    && q in s.db.queries && s.db.queries[q].status in {Pending, Running}
    && row.status == steps[i].report.verdict && row.rowCount == steps[i].report.rowCount
    && row.error == if steps[i].report.error.Some? then steps[i].report.error else s.db.queries[q].error
  }

  ghost predicate Reported(now: int, steps: seq<NetStep>, q: QueryId, row: Query) {
    exists i: nat :: i < |steps| && ReportedAt(now, steps, i, q, row)
  }

  lemma ReportedExtends(now: int, steps: seq<NetStep>, q: QueryId, row: Query)
    requires steps != [] && Reported(now, steps[..|steps| - 1], q, row)
    ensures Reported(now, steps, q, row)
  {
    var n := |steps| - 1;
    var i: nat :| i < n && ReportedAt(now, steps[..n], i, q, row);
    assert steps[..n][..i] == steps[..i];
    assert ReportedAt(now, steps, i, q, row);
  }

  /** No other call gives a row a count. */
  lemma CallsLeaveCounts(s: Db, call: Step, q: QueryId)
    requires !call.Complete? && q in Do(s, call).queries
    requires q in s.queries && s.queries[q].status in {Pending, Running} ==> s.queries[q].rowCount.None?
    ensures
      var row := Do(s, call).queries[q];
      (q in s.queries && row == s.queries[q]) || (row.rowCount.None? && row.status in {Pending, Running, Cancelled})
  {
  }

  /** In every run a row that is not terminal has no row count, and every terminal row carries the verdict, row count and
      error of one received report, unless it was cancelled by a call and has no row count. */
  lemma {:induction false} ResultsAreReported(now: int, steps: seq<NetStep>, q: QueryId)
    requires q in NetRun(now, steps).db.queries
    ensures
      var row := NetRun(now, steps).db.queries[q];
      if row.status in {Completed, Failed} then Reported(now, steps, q, row)
      else row.rowCount.None? || (row.status.Cancelled? && Reported(now, steps, q, row))
    decreases |steps|
  {
    if steps == [] {
    } else {
      var n := |steps| - 1;
      var s := NetRun(now, steps[..n]);
      if q in s.db.queries {
        ResultsAreReported(now, steps[..n], q);
        if Reported(now, steps[..n], q, s.db.queries[q]) {
          ReportedExtends(now, steps, q, s.db.queries[q]);
        }
      }
      match steps[n] {
        case Call(call) =>
          if !call.Complete? {
            CallsLeaveCounts(s.db, call, q);
          }
        case Receive(r) =>
          ReceivedReport(s, r, q);
          assert NetDo(s, steps[n]).db.queries[q] != s.db.queries[q] ==>
                 ReportedAt(now, steps, n, q, NetDo(s, steps[n]).db.queries[q]);
        case _ =>
      }
    }
  }

  lemma ReceivedReport(s: Net, r: Report, q: QueryId)
    requires q in NetDo(s, Receive(r)).db.queries
    requires q in s.db.queries && s.db.queries[q].status in {Pending, Running} ==> s.db.queries[q].rowCount.None?
    ensures q in s.db.queries
    ensures
      var before, after := s.db.queries[q], NetDo(s, Receive(r)).db.queries[q];
      after != before ==>
      && r in s.reports && r.q == q && before.status in {Pending, Running}
      && after.status == r.verdict && after.rowCount == r.rowCount
      && after.error == if r.error.Some? then r.error else before.error
  {
  }

  lemma NetRunOne(now: int, steps: seq<NetStep>, step: NetStep)
    ensures NetRun(now, steps + [step]) == NetDo(NetRun(now, steps), step)
  {
    assert (steps + [step])[..|steps + [step]| - 1] == steps;
  }

  /** Execution is only at least once: a dispatch can be running on its worker while the query is pending again. */
  lemma ExecutionMayBeRepeated(now: int, steps: seq<NetStep>, q: QueryId, w: WorkerId, cutoff: int)
    requires Claims(NetRun(now, steps).db, ClaimById(q, w, cutoff))
    ensures
      var t := NetRun(now, steps + [Call(ClaimById(q, w, cutoff))] + [Deliver(q, w)] + [Call(Revert(q))]);
      (q, w) in t.started && IsPending(t.db, q)
  {
    var a, b, c := Call(ClaimById(q, w, cutoff)), Deliver(q, w), Call(Revert(q));
    NetRunOne(now, steps, a);
    NetRunOne(now, steps + [a], b);
    NetRunOne(now, steps + [a] + [b], c);
  }

  function NoRequest(): Request {
    Request(None, None, None)
  }

  /** One pending query, and w the only running worker, with room for it. */
  ghost predicate OneWaiting(s: Db, w: WorkerId, now: int) {
    && s.now == now && s.queries.Keys == {0} && s.queries[0].status.Pending? && s.queries[0].request == NoRequest()
    && w in s.workers && s.workers[w].status.Online? && s.workers[w].lastHeartbeat == now && s.workers[w].maxConcurrent == 1
    && forall v :: v in s.workers && v != w ==> !s.workers[v].status.Online?
  }

  lemma OneWaitingIsClaimed(s: Db, w: WorkerId, now: int)
    requires OneWaiting(s, w, now)
    ensures Claims(s, ClaimById(0, w, now)) && Do(s, ClaimById(0, w, now)) == ClaimRow(s, 0, w)
  {
    IdleLoad(s.queries, w, Count);
    forall x: Resource ensures Fits(s.queries, w, s.workers[w].capacity, NoRequest(), x) {
    }
    OnlyChoice(s, w, NoRequest(), now);
  }

  function Joining(w: WorkerId): Step {
    Register(w, "", Capacity(0, 0, 0), 1)
  }

  lemma FirstWaits(now: int)
    ensures OneWaiting(Do(Do(Do(Empty(now), Joining(0)), Ready(0)), Create(0, "", NoRequest(), None)), 0, now)
  {
  }

  /** The worker that took the query is lost and another one joins. */
  lemma ReplacedWaits(s: Db, now: int)
    requires OneWaiting(s, 0, now) && 1 !in s.workers
    ensures OneWaiting(Do(Do(MarkWorkerUnreachable(ClaimRow(s, 0, 0), 0), Joining(1)), Ready(1)), 1, now)
  {
    LossMovesExactly(ClaimRow(s, 0, 0), {0}, Unreachable);
    assert 0 in HeldBy(ClaimRow(s, 0, 0), {0});
  }

  lemma NetCall(now: int, steps: seq<NetStep>, call: Step)
    requires !call.Complete?
    ensures
      var s, t := NetRun(now, steps), NetRun(now, steps + [Call(call)]);
      t.db == Do(s.db, call) && s.started <= t.started && s.dispatched <= t.dispatched &&
      (Claims(s.db, call) ==> (call.q, call.w) in t.dispatched)
  {
    NetRunOne(now, steps, Call(call));
  }

  /** Execution does get repeated: in this run two workers have both started the same query. */
  lemma TwoWorkersRunOne(now: int) returns (steps: seq<NetStep>)
    ensures (0, 0) in NetRun(now, steps).started && (0, 1) in NetRun(now, steps).started
  {
    steps := [];
    NetCall(now, steps, Joining(0));
    steps := steps + [Call(Joining(0))];
    NetCall(now, steps, Ready(0));
    steps := steps + [Call(Ready(0))];
    NetCall(now, steps, Create(0, "", NoRequest(), None));
    steps := steps + [Call(Create(0, "", NoRequest(), None))];
    FirstWaits(now);
    ReplacedWaits(NetRun(now, steps).db, now);
    steps := ClaimedAndStarted(now, steps, 0);
    steps := LostAndStartedAgain(now, steps, NetRun(now, steps).db);
  }

  lemma ClaimedAndStarted(now: int, steps: seq<NetStep>, w: WorkerId) returns (longer: seq<NetStep>)
    requires OneWaiting(NetRun(now, steps).db, w, now)
    ensures NetRun(now, longer).db == ClaimRow(NetRun(now, steps).db, 0, w)
    ensures NetRun(now, steps).started <= NetRun(now, longer).started && (0, w) in NetRun(now, longer).started
  {
    OneWaitingIsClaimed(NetRun(now, steps).db, w, now);
    NetCall(now, steps, ClaimById(0, w, now));
    NetRunOne(now, steps + [Call(ClaimById(0, w, now))], Deliver(0, w));
    longer := steps + [Call(ClaimById(0, w, now))] + [Deliver(0, w)];
  }

  lemma LostAndStartedAgain(now: int, steps: seq<NetStep>, claimed: Db) returns (longer: seq<NetStep>)
    requires NetRun(now, steps).db == claimed
    requires OneWaiting(Do(Do(MarkWorkerUnreachable(claimed, 0), Joining(1)), Ready(1)), 1, now)
    ensures NetRun(now, steps).started <= NetRun(now, longer).started && (0, 1) in NetRun(now, longer).started
  {
    NetCall(now, steps, MarkUnreachable(0));
    longer := steps + [Call(MarkUnreachable(0))];
    NetCall(now, longer, Joining(1));
    longer := longer + [Call(Joining(1))];
    NetCall(now, longer, Ready(1));
    longer := longer + [Call(Ready(1))];
    longer := ClaimedAndStarted(now, longer, 1);
  }

  // ----- UPDATE and NOTIFY as separate steps -----

  /** A notice on the channel, and which of its query's notices it is. */
  datatype Sent = Sent(q: QueryId, index: nat, notice: Notice)

  /** `db.log` holds the notices in the order their updates were made; `sent` those already on the channel. */
  datatype Split = Split(db: Db, sent: seq<Sent>)

  datatype SplitStep = Update(step: Step) | Send(q: QueryId, index: nat)

  ghost function SplitDo(s: Split, step: SplitStep): Split {
    match step
    case Update(call) => s.(db := Do(s.db, call))
    case Send(q, i) =>
      if i < |Notes(s.db.log, q)| then s.(sent := s.sent + [Sent(q, i, Notes(s.db.log, q)[i])]) else s
  }

  ghost function SplitRun(now: int, steps: seq<SplitStep>): Split {
    if steps == [] then Split(Empty(now), [])
    else SplitDo(SplitRun(now, steps[..|steps| - 1]), steps[|steps| - 1])
  }

  /** Every terminal notice made for a query carries its row's status. */
  ghost predicate TerminalNoticesAgree(s: Db) {
    forall q, i :: q in s.log && 0 <= i < |s.log[q]| && Terminal(s.log[q][i].status) ==>
      q in s.queries && s.queries[q].status == s.log[q][i].status
  }

  lemma LossAppends(s: Db, ws: set<WorkerId>, status: WorkerStatus, q: QueryId, i: nat)
    requires q in LoseWorkers(s, ws, status).log && i < |LoseWorkers(s, ws, status).log[q]|
    ensures i < |Notes(s.log, q)| ==> LoseWorkers(s, ws, status).log[q][i] == Notes(s.log, q)[i]
    ensures i >= |Notes(s.log, q)| ==> i == |LoseWorkers(s, ws, status).log[q]| - 1
  {
  }

  lemma NoticeComesFromUpdate(s: Db, call: Step, q: QueryId, i: nat)
    requires LogAgrees(s)
    requires q in Do(s, call).log && i < |Do(s, call).log[q]|
    ensures i < |Notes(s.log, q)| ==> Do(s, call).log[q][i] == Notes(s.log, q)[i]
    ensures i >= |Notes(s.log, q)| ==> i == |Do(s, call).log[q]| - 1
  {
    if call.MarkUnreachable? {
      if call.w in s.workers && Reachable(s.workers[call.w].status) {
        LossAppends(s, {call.w}, Unreachable, q, i);
      }
    } else if call.Sweep? {
      LossAppends(s, Stale(s, call.cutoff), Stopped, q, i);
    } else {
      CallAppends(s, call);
    }
  }

  /** The other calls post at most one notice. */
  lemma CallAppends(s: Db, call: Step)
    requires !call.MarkUnreachable? && !call.Sweep?
    ensures Do(s, call).log == s.log || exists p, n :: Do(s, call).log == Post(s.log, p, n)
  {
    match call
    case Complete(q, v, error, count) => assert Do(s, call).log in {s.log, Post(s.log, q, Notice(v, error, count))};
    case Cancel(q, error) =>
      if Active(s, q) {
        assert Do(s, call).log == Post(s.log, q, Notice(Cancelled, Do(s, call).queries[q].error, None));
      }
    case Revert(q) => assert Do(s, call).log in {s.log, Post(s.log, q, Notice(Pending, None, None))};
    case ClaimHead(q, _, _) => assert Do(s, call).log in {s.log, Post(s.log, q, Notice(Running, None, None))};
    case ClaimById(q, _, _) => assert Do(s, call).log in {s.log, Post(s.log, q, Notice(Running, None, None))};
    case _ =>
  }

  /** Every notice but possibly the last of each list was there before, at the same place. */
  ghost predicate AtMostOneNew(a: Log, b: Log) {
    forall q, i :: q in b && 0 <= i < |b[q]| ==> (i < |Notes(a, q)| && b[q][i] == Notes(a, q)[i]) || i == |b[q]| - 1
  }

  ghost predicate TerminalKept(a: map<QueryId, Query>, b: map<QueryId, Query>) {
    forall q :: q in a ==> q in b && (Terminal(a[q].status) ==> b[q] == a[q])
  }

  lemma NewNoticesAgree(s: Db, t: Db)
    requires TerminalNoticesAgree(s) && LogAgrees(t)
    requires AtMostOneNew(s.log, t.log) && TerminalKept(s.queries, t.queries)
    ensures TerminalNoticesAgree(t)
  {
    forall q, i | q in t.log && 0 <= i < |t.log[q]| && Terminal(t.log[q][i].status)
      ensures q in t.queries && t.queries[q].status == t.log[q][i].status
    {
      if i == |t.log[q]| - 1 {
        assert LastStatus(t.log, q) == t.log[q][i].status;
      }
    }
  }

  lemma UpdatesKeepTerminalNotices(s: Db, call: Step)
    requires TerminalNoticesAgree(s) && LogAgrees(s)
    ensures TerminalNoticesAgree(Do(s, call))
  {
    DoKeepsLog(s, call);
    NoticesAreAppended(s, call);
    TerminalRowsStay(s, call);
    NewNoticesAgree(s, Do(s, call));
  }

  lemma NoticesAreAppended(s: Db, call: Step)
    requires LogAgrees(s)
    ensures AtMostOneNew(s.log, Do(s, call).log)
  {
    var t := Do(s, call);
    forall q, i | q in t.log && 0 <= i < |t.log[q]|
      ensures (i < |Notes(s.log, q)| && t.log[q][i] == Notes(s.log, q)[i]) || i == |t.log[q]| - 1
    {
      NoticeComesFromUpdate(s, call, q, i);
    }
  }

  lemma TerminalRowsStay(s: Db, call: Step)
    ensures TerminalKept(s.queries, Do(s, call).queries)
  {
    forall q | q in s.queries
      ensures q in Do(s, call).queries
      ensures Terminal(s.queries[q].status) ==> Do(s, call).queries[q] == s.queries[q]
    {
      DoKeepsTerminal(s, call, q);
    }
  }

  /** However late and out of order notifications leave, every terminal one ever sent for a query
      carries the status its row has now. */
  lemma {:induction false} TerminalNoticesAreTrue(now: int, steps: seq<SplitStep>)
    ensures
      var s := SplitRun(now, steps);
      && LogAgrees(s.db) && TerminalNoticesAgree(s.db)
      && forall k :: 0 <= k < |s.sent| && Terminal(s.sent[k].notice.status) ==>
           s.sent[k].q in s.db.queries && s.db.queries[s.sent[k].q].status == s.sent[k].notice.status
    decreases |steps|
  {
    if steps == [] {
    } else {
      var n := |steps| - 1;
      var s := SplitRun(now, steps[..n]);
      TerminalNoticesAreTrue(now, steps[..n]);
      if steps[n].Update? {
        DoKeepsLog(s.db, steps[n].step);
        UpdatesKeepTerminalNotices(s.db, steps[n].step);
        forall k | 0 <= k < |s.sent| && Terminal(s.sent[k].notice.status)
          ensures s.sent[k].q in Do(s.db, steps[n].step).queries
          ensures Do(s.db, steps[n].step).queries[s.sent[k].q].status == s.sent[k].notice.status
        {
          DoKeepsTerminal(s.db, steps[n].step, s.sent[k].q);
        }
      }
    }
  }

  lemma NoticesOnlyGrow(s: Db, call: Step, q: QueryId)
    ensures Notes(s.log, q) <= Notes(Do(s, call).log, q)
  {
  }

  /** Every notice sent is the one made for its query at that place, and stays so. */
  lemma {:induction false} SentWasMade(now: int, steps: seq<SplitStep>, k: nat)
    requires k < |SplitRun(now, steps).sent|
    ensures
      var s := SplitRun(now, steps);
      s.sent[k].index < |Notes(s.db.log, s.sent[k].q)| &&
      s.sent[k].notice == Notes(s.db.log, s.sent[k].q)[s.sent[k].index]
    decreases |steps|
  {
    if steps == [] {
    } else {
      var s := SplitRun(now, steps[..|steps| - 1]);
      if k < |s.sent| {
        SentWasMade(now, steps[..|steps| - 1], k);
        if steps[|steps| - 1].Update? {
          NoticesOnlyGrow(s.db, steps[|steps| - 1].step, s.sent[k].q);
        }
      }
    }
  }

  /** k is the last notice sent for its query. */
  ghost predicate LastSent(s: Split, k: nat) {
    k < |s.sent| && forall j :: k < j < |s.sent| ==> s.sent[j].q != s.sent[k].q
  }

  /** In every run the last notice sent for a query tells the truth if and only if it has the status of the last one made;
      it does if it is the last one made. */
  lemma LastNoticeAgrees(now: int, steps: seq<SplitStep>, k: nat)
    requires LastSent(SplitRun(now, steps), k)
    ensures
      var s := SplitRun(now, steps);
      var e, made := s.sent[k], Notes(s.db.log, s.sent[k].q);
      && e.q in s.db.queries && made != []
      && (e.notice.status == s.db.queries[e.q].status <==> e.notice.status == made[|made| - 1].status)
      && (e.index == |made| - 1 ==> e.notice.status == s.db.queries[e.q].status)
  {
    SentWasMade(now, steps, k);
    TerminalNoticesAreTrue(now, steps);
  }

  /** Notices of one query leave in the order they were made. */
  ghost predicate InOrder(s: Split, q: QueryId) {
    forall j, k :: 0 <= j < k < |s.sent| && s.sent[j].q == q && s.sent[k].q == q ==> s.sent[j].index <= s.sent[k].index
  }

  /** Sent in order, the last notice of a query tells the truth as soon as the last one made has left. */
  lemma InOrderAgrees(now: int, steps: seq<SplitStep>, j: nat, k: nat)
    requires
      var s := SplitRun(now, steps);
      && LastSent(s, k) && j <= k && s.sent[j].q == s.sent[k].q && InOrder(s, s.sent[k].q)
      && s.sent[j].index == |Notes(s.db.log, s.sent[k].q)| - 1
    ensures
      var s := SplitRun(now, steps);
      s.sent[k].q in s.db.queries && s.sent[k].notice.status == s.db.queries[s.sent[k].q].status
  {
    SentWasMade(now, steps, k);
    LastNoticeAgrees(now, steps, k);
  }

  lemma SplitRunOne(now: int, steps: seq<SplitStep>, step: SplitStep)
    ensures SplitRun(now, steps + [step]) == SplitDo(SplitRun(now, steps), step)
  {
    assert (steps + [step])[..|steps + [step]| - 1] == steps;
  }

  lemma OneWaitingIsReached(now: int) returns (steps: seq<SplitStep>)
    ensures OneWaiting(SplitRun(now, steps).db, 0, now)
    ensures SplitRun(now, steps).db.log == map[] && SplitRun(now, steps).sent == []
  {
    var a, b, c := Update(Joining(0)), Update(Ready(0)), Update(Create(0, "", NoRequest(), None));
    SplitRunOne(now, [], a);
    SplitRunOne(now, [] + [a], b);
    SplitRunOne(now, [] + [a] + [b], c);
    FirstWaits(now);
    steps := [] + [a] + [b] + [c];
  }

  lemma RevertedWaits(s: Db, now: int)
    requires OneWaiting(s, 0, now)
    ensures OneWaiting(Do(ClaimRow(s, 0, 0), Revert(0)), 0, now)
  {
  }

  /** Agreement of the last notice does get lost: in this run, where every claim's notice leaves with the claim, that of a
      revert leaves after that of a newer claim, and the last notice sent says pending of a row that is running. */
  lemma LateNoticeMisleads(now: int) returns (steps: seq<SplitStep>)
    ensures
      var s := SplitRun(now, steps);
      && LastSent(s, 2) && s.sent[2] == Sent(0, 1, Notice(Pending, None, None))
      && s.sent[0] == Sent(0, 0, Notice(Running, None, None)) && s.sent[1] == Sent(0, 2, Notice(Running, None, None))
      && 0 in s.db.queries && s.db.queries[0].status.Running?
  {
    var before := OneWaitingIsReached(now);
    var claim, revert := Update(ClaimById(0, 0, now)), Update(Revert(0));
    var s := SplitRun(now, before);
    OneWaitingIsClaimed(s.db, 0, now);
    RevertedWaits(s.db, now);
    OneWaitingIsClaimed(Do(ClaimRow(s.db, 0, 0), Revert(0)), 0, now);
    SplitRunOne(now, before, claim);
    SplitRunOne(now, before + [claim], Send(0, 0));
    var sent := before + [claim] + [Send(0, 0)];
    SplitRunOne(now, sent, revert);
    SplitRunOne(now, sent + [revert], claim);
    var made := sent + [revert] + [claim];
    SplitRunOne(now, made, Send(0, 2));
    SplitRunOne(now, made + [Send(0, 2)], Send(0, 1));
    steps := made + [Send(0, 2)] + [Send(0, 1)];
  }
}
