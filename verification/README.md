# DuckLauncher in Dafny

DuckLauncher runs SQL on a fleet of DuckDB workers. A coordinator keeps two PostgreSQL tables, `workers` and `queries`,
places each pending query on a worker, sends it there over HTTP and waits for a completion report; state changes are
announced on a notification channel and streamed to browsers. This project models that protocol and the algorithms
around it, and proves what they keep over every run.

`dafny verify dfyconfig.toml` checks everything.

## How the model is laid out

| module | models |
|---|---|
| `Model` | rows, statuses, requests, notices: the two tables and the log beside them |
| `Tables` | each database call as one atomic function of the tables; runs as sequences of calls in any order |
| `Database` | the same calls as methods that update a `Store` in place, each proved equal to its function and stated column by column |
| `Placement`, `Sums` | the placement statement: its one-pass load aggregation against a recount, and the choice it makes |
| `Runs` | invariants over all runs: row shape, ownership, recovery, terminal rows, notifications, unreachable workers |
| `Urls` | the URL that a path makes on an endpoint |
| `Scheduler` | dispatch and the scheduling batch, with other clients' calls at every await |
| `Batch` | what a batch places when nobody interferes |
| `Draining` | repeated rounds end, also while other clients go on |
| `Routes` | the cancel endpoint with arbitrary other calls at every await, and the completion endpoint |
| `Claims` | claims at the grain of their transactions: row locks, exclusivity, bounded overcommit |
| `Ownership` | at that grain, when exactly lost workers own nothing |
| `Scenes` | runs that attain the overcommit bound, and runs that lose ownership |
| `Delivery` | lost, late and repeated messages; UPDATE and NOTIFY as separate steps |
| `Hub`, `Stream` | the in-process event hub as a heap structure, and the event stream of one query |
| `Executor` | the worker's connection pool, active map and admission check under every interleaving |
| `Catalog` | the three-level grouping of catalog rows |
| `Highlight` | the SQL highlighter of the web page |
| `Literals` | SQL string literals: escaping, and reading by the standard's rule |
| `InitScripts` | expansion, quoting and splitting of init scripts |

Two grains are used for the tables. At the coarse grain (`Tables`, `Database`, `Runs`, `Scheduler`, `Routes`) a database
call is one atomic step, as under serialisable transactions. At the fine grain (`Claims`) a claim is "lock the pending
row, read the committed loads, commit", interleaved with other claims and all other calls by the rules of sections
13.2.1 (Read Committed) and 13.3.2 (row-level locks) of the PostgreSQL manual. A bulk revert may miss rows that were
committed after it read the table; which ones, if any, is part of the step.

A claim does not lock the worker's row. So at the fine grain a query can end up running on a worker that is already lost,
in two ways: the claim commits after its worker was lost (`Scenes.CommitCanStrand`), or a sweep that loses the worker
misses the row (`Scenes.MissedRowIsStranded`). `Ownership.OwnersKeptExactly` gives the exact condition for every step and
`Ownership.OwnedThroughoutExactly` for every run. A query running on a stopped worker is then recovered by no sweep and by
no mark_worker_unreachable (`Runs.StrandedUntilRescued`).

A step is total: one that the database would not make, such as a claim of a row that is not pending, changes nothing. So
"every run" means every list of steps. Where `ORDER BY` leaves a tie, the step carries the row or worker that was picked
and any of the tied ones is allowed. Identifiers are numbers, times are readings of one clock that only moves forward,
and the staleness cutoff is a number its caller computed earlier. The worker status spelled `running` in the table is
called `Online`; no code sets `error`, so it is not a status here.

## Assumptions

- Heartbeats carry no status, `running` or `shutting_down` (ducklauncher/models.py:25), where ownership by lost workers
  is concerned. The request model accepts any string; `Runs.HeartbeatKeepsOwners` gives the exact condition.
- For the overcommit bound: requests are between zero and a largest request, no call lowers an existing worker's limits,
  and at most `limit` claims are open at once (ten for each coordinator, ducklauncher/db/pool.py:10-11).
- A query id is not dispatched to a worker while it is in flight there.
- No notification for a query falls between the snapshot read and the subscription of an event stream
  (ducklauncher/coordinator/routes.py:242 and 248), if the stream is to show every change.

## Where the code differs from what is said of it

- README.md:58 says a failed dispatch marks its worker unreachable until the next heartbeat. The code does so only for a
  worker that is running or shutting down; with any other the query stays on it, exactly under the condition of
  `Ownership.FailedDispatchStrandsExactly`. When calls are atomic that is only a worker that registered again meanwhile and
  is initializing (`Scheduler.FailedDispatchStrandsNothingElse`, `Scheduler.RegisteringAgainStrands`). Under Read Committed
  it is also a worker lost before the claim committed: the query of `Scenes.FailedDispatchCanStrand` is left on a stopped
  worker, and `Runs.StrandedUntilRescued` says what could still free it. What ends the status is a heartbeat that carries another one, a
  registration or a sweep (`Runs.WhatEndsUnreachable`); no claim chooses the worker before a ready call or a heartbeat that
  says it is running (`Runs.UnreachableUntilHeard`, `Ownership.NotChosenUntilHeard`), but one that chose it earlier may
  still commit.
- Each query's last notification carries its status while UPDATE and NOTIFY are one step. Sent apart, the last one sent
  does if and only if it has the status of the last one made (`Delivery.LastNoticeAgrees`), so it does when notices leave
  in order (`Delivery.InOrderAgrees`) and may not otherwise (`Delivery.LateNoticeMisleads`). Terminal notices always do
  (`Delivery.TerminalNoticesAreTrue`).
- In the expanded text a quoted placeholder reads back as its value unless the literal goes on behind its closing quote
  (`InitScripts.QuotedPlaceholderReadsBack`): with another quote at once, or with a separator that contains a newline and
  then a quote (`Literals.LiteralsAreJoined`). The text is then split at semicolons without regard to quotes, so in the
  statement that is run it does only if the value holds no semicolon either (`InitScripts.QuotedTemplateInItsStatement`;
  `InitScripts.SemicolonCutsTheLiteral` is an input that fails).
- A configured pool smaller than `max_concurrent_queries` lets an admitted execution find no connection
  (`Executor.SmallPoolBlocks`); `Executor.NobodyWaits` gives the exact condition.

## Model

| member | source | states |
|---|---|---|
| Placement.WorkerLoad | ducklauncher/db/queries.py:324-334 | The one-pass grouped aggregation, read through the LEFT JOIN and both COALESCEs, equals a recount of the whole table for every worker and every measure, idle workers and NULL requests included |
| Placement.WorkerForQuery | ducklauncher/db/queries.py:335-346 | The chosen worker is eligible and no eligible one comes before it by (load, newer heartbeat); nothing is chosen if and only if no worker is eligible |
| Placement.EligibleMeaning | ducklauncher/db/queries.py:335-343 | A worker is eligible if and only if it is running, was heard from since the cutoff, runs fewer queries than its maximum, and has each of CPUs, memory and disk left that the request names |
| Placement.BestMeaning | ducklauncher/db/queries.py:344-345 | A worker is best if and only if it is eligible and every other eligible one runs more queries, or as many and was not heard from later |
| Placement.CountIsCardinality | ducklauncher/db/queries.py:327-333 | A worker's count is the number of running rows it holds |
| Placement.LoadsSumToRows | ducklauncher/db/queries.py:324-334 | Over any set of workers the counts sum to the number of running rows those workers hold: no row is counted twice or missed |
| Placement.LoadsSumToRunning | ducklauncher/db/queries.py:324-334 | With every running row owned by a registered worker, the counts of all workers sum to all running queries |
| Runs.LoadsSumInEveryRun | ducklauncher/db/queries.py:324-334 | In every run the counts of all workers sum to all running queries |
| Placement.ListWorkers | ducklauncher/db/queries.py:97-120 | The workers page lists all but the stopped workers, each with its own row and exactly the count that placement uses |
| Tables.RunAppend | ducklauncher/db/queries.py:13-467 | A run of calls followed by another is one run |
| Database.Store.RegisterWorker | ducklauncher/db/queries.py:13-46 | The registration step; a given id is kept, otherwise a new one is used; the row is initializing, heard from now, with the given endpoint, figures and maximum, and a known worker keeps its usage figures and start time; no other row changes |
| Database.Store.HeartbeatWorker | ducklauncher/db/queries.py:49-80 | The heartbeat step; true exactly for a known worker, whose heartbeat time is then now; each figure given replaces the stored one and each absent one keeps it; endpoint, maximum, start time and every other row stay |
| Database.Store.ReadyWorker | ducklauncher/db/queries.py:83-94 | The ready step; true exactly for an initializing worker, which is then running and heard from now; nothing else changes |
| Database.Store.ShutdownWorker | ducklauncher/db/queries.py:170-180 | The shutdown step; true exactly for a running worker, which is then shutting down and heard from now; nothing else changes |
| Database.Store.RequeueHeldBy | ducklauncher/db/queries.py:149-167 | The bulk update and the loop of notifications requeue exactly the running rows those workers held before, one notice for each |
| Database.Store.MarkWorkerUnreachable | ducklauncher/db/queries.py:136-167 | The two updates and their notifications are one step: the worker is lost and what it ran is requeued, or nothing happens |
| Database.Store.SweepStaleWorkers | ducklauncher/db/queries.py:432-467 | The two updates and their notifications are one step that loses exactly the stale workers |
| Database.Store.CreateQuery | ducklauncher/db/queries.py:183-204 | Adds one pending row with the given text, request and owner, created now, all other columns empty, and changes nothing else |
| Database.Store.CompleteQuery | ducklauncher/db/queries.py:242-285 | An active row takes the verdict, a given row count and error replace its own and absent ones keep them, and a first completion time is set; any other row stays; true exactly when the row then has the reported status, and exactly then one notice with the given error and row count is posted |
| Database.Store.MarkQueryCancelled | ducklauncher/db/queries.py:288-304 | An active row becomes cancelled now with the given error, or its own if none is given, one notice carries that error, and the row is returned; otherwise nothing changes |
| Database.Store.RevertQueryToPending | ducklauncher/db/queries.py:307-320 | A running row loses status, worker and start, whoever runs it, and keeps its error, with one notice; otherwise nothing changes |
| Database.Store.ClaimQuery | ducklauncher/db/queries.py:349-385 | None exactly when no worker is eligible, and then nothing changes; otherwise the row runs from now on a best worker for it, and what is handed over is that row's text and request and that worker's endpoint |
| Database.Store.ClaimPendingQuery | ducklauncher/db/queries.py:388-407 | Claims an oldest pending row for a best worker and hands over that row's text and request and that worker's endpoint, or changes nothing because there is no pending row or the oldest cannot be placed |
| Database.Store.ClaimQueryById | ducklauncher/db/queries.py:410-429 | Claims that row for a best worker and hands over its text and request and that worker's endpoint, or changes nothing because it is not pending or cannot be placed |
| Database.Store.Perform | ducklauncher/db/queries.py:13-467 | Every call that changes the tables, whoever makes it, is one step of the specification |
| Database.Store.Others | ducklauncher/db/queries.py:13-467 | Whatever other clients do during an await is a run of steps, one for each of their calls |
| Runs.DoKeepsShape | ducklauncher/db/queries.py:13-467 | Every call keeps the row shape: pending rows have no worker and no start, running rows have both and a registered worker, completion time is set exactly on terminal rows |
| Runs.ReachableShape | ducklauncher/db/queries.py:13-467 | The row shape holds in every run from empty tables |
| Runs.DoKeepsOwners | ducklauncher/db/queries.py:136-180 | Every call keeps that no unreachable or stopped worker owns a running query |
| Runs.LostWorkersOwnNothing | ducklauncher/db/queries.py:136-167 | In every run no unreachable or stopped worker owns a running query |
| Runs.HeartbeatKeepsOwners | ducklauncher/db/queries.py:49-80 | A heartbeat keeps ownership if and only if it does not report unreachable or stopped for a worker that holds a query |
| Runs.LossMovesExactly | ducklauncher/db/queries.py:149-160 | Losing workers moves exactly the rows they run from running to pending and changes no other row |
| Runs.SweepMovesExactly | ducklauncher/db/queries.py:432-467 | Pending grows by exactly the number of running queries on the swept workers; every other row is unchanged |
| Runs.MarkLosesExactly | ducklauncher/db/queries.py:136-167 | A running or shutting-down worker becomes unreachable, and exactly what it runs goes back to the queue with the lost-worker error and one notice each, no other column changing; any other worker is left alone |
| Runs.SweepLosesExactly | ducklauncher/db/queries.py:432-467 | The same, with stopped, for exactly the workers that are running, shutting down or unreachable and were last heard from before the cutoff |
| Runs.SweepRecovers | ducklauncher/db/queries.py:432-467 | After a sweep a running query sits on an initializing worker or on one heard from since the cutoff |
| Runs.SweepRecoversInEveryRun | ducklauncher/db/queries.py:432-467 | The same for every run of calls that ends in a sweep |
| Runs.SweepLeavesExactly | ducklauncher/db/queries.py:432-467 | Without assuming ownership: what a sweep leaves running is exactly what sits on an initializing worker, on one heard from since the cutoff, or on one stopped before |
| Runs.HeardIsSpared | ducklauncher/db/queries.py:49-94 | Once a worker is heard from (heartbeat, ready, shutdown or registration), then after any further calls a sweep whose cutoff is no later than that moment leaves the worker and everything it runs alone, and to a claim with such a cutoff it is not stale |
| Runs.StrandedUntilRescued | ducklauncher/db/queries.py:136-167 | A query running on a stopped worker stays as it is in every run without a completion, cancellation or revert of it and without a registration or heartbeat of that worker |
| Runs.WhatEndsUnreachable | ducklauncher/db/queries.py:49-80 | A step ends the status unreachable if and only if it is a heartbeat that carries another status, a registration, or a sweep that finds the worker silent since the cutoff |
| Runs.DoKeepsTerminal | ducklauncher/db/queries.py:242-320 | No call changes any column of a terminal row, and none removes a row |
| Runs.TerminalIsForever | ducklauncher/db/queries.py:242-320 | A terminal row is the same after every run |
| Runs.DoKeepsOrigin | ducklauncher/db/queries.py:13-467 | No call changes the owner, text, request or creation time of a row |
| Runs.OriginIsForever | ducklauncher/db/queries.py:13-467 | Over every run a row keeps its owner, text, request and creation time |
| Runs.DoKeepsLog | ducklauncher/db/queries.py:242-385 | Every call keeps each row's status equal to that of its last notification |
| Runs.NotificationsAgree | ducklauncher/db/queries.py:242-385 | In every run a row's status is that of its last notification, pending if it has none |
| Runs.StaysQuiet | ducklauncher/db/queries.py:49-94 | A worker that is not running stays so over every run without a ready call for it or a heartbeat that says it is running |
| Runs.UnreachableUntilHeard | ducklauncher/db/queries.py:136-167 | After mark_worker_unreachable no claim picks the worker until a ready call for it or a heartbeat that says it is running, whatever registers, sweeps, shuts down, fails or otherwise reports in between |
| Scheduler.DispatchQuery | ducklauncher/coordinator/scheduler.py:13-45 | The claim's own query id, text and request go to the query path of its own endpoint; true exactly on 202; after any interleaved calls, 502, 503 and transport errors mark the worker unreachable, 202 changes nothing and any other code reverts the query |
| Urls.Url | ducklauncher/coordinator/scheduler.py:26-29 | The URL is the endpoint without exactly its trailing slashes, and then the path |
| Urls.UrlIsUnique | ducklauncher/coordinator/scheduler.py:26-29 | There is only one such URL |
| Scheduler.SettleStrands | ducklauncher/coordinator/scheduler.py:30-45 | In any tables, after a failed outcome the query runs on that worker if and only if it did before and the worker was to be marked unreachable while neither running nor shutting down |
| Scheduler.SettleStrandsOwned | ducklauncher/coordinator/scheduler.py:30-45 | Where lost workers own nothing, that is an initializing worker |
| Scheduler.FailedDispatchStrandsNothingElse | ducklauncher/coordinator/scheduler.py:28-45 | With atomic calls, for every claim in every run and any steps before the failure: the query stays on the worker if and only if that is initializing by then |
| Scheduler.RegisteringAgainStrands | ducklauncher/coordinator/scheduler.py:36-45 | The exception is real: registering again while the dispatch is in flight strands the query |
| Ownership.FailedDispatchStrandsExactly | ducklauncher/coordinator/scheduler.py:28-45 | Under Read Committed, for every claim that commits in every run and any steps before the failure: the query stays on the worker if and only if the worker was to be marked unreachable and the revert misses the row, or the worker is by then neither running nor shutting down |
| Scenes.FailedDispatchCanStrand | ducklauncher/coordinator/scheduler.py:42-45 | A run in which the dispatch of a claim that committed on a swept worker fails and the query stays on the stopped worker |
| Ownership.NotChosenUntilHeard | ducklauncher/db/queries.py:335-346 | Under Read Committed too, no claim chooses a worker marked unreachable until a ready call for it or a heartbeat that says it is running |
| Scheduler.ClaimForRound | ducklauncher/coordinator/scheduler.py:57-67 | The first round claims the given query if there is one, every other round the head of the queue; what is handed over is that row's text and request and that worker's endpoint |
| Scheduler.ScheduleRound | ducklauncher/coordinator/scheduler.py:56-71 | With other clients' calls before the claim and during the dispatch, a round extends the legal rounds by one, or finds nothing |
| Scheduler.SchedulePendingQueries | ducklauncher/coordinator/scheduler.py:48-72 | Whatever other clients do at every await, all that happens is a list of legal rounds, each with its own cutoff and outcome; there are fewer than the maximum only because a claim found nothing |
| Scheduler.BatchSendsOwnText | ducklauncher/coordinator/scheduler.py:48-72 | Whatever other clients do, every round of a batch sends the text and request its query was submitted with, to the worker chosen for it |
| Batch.LegalIsQuietBatch | ducklauncher/coordinator/scheduler.py:48-72 | Legal rounds without interference, at one cutoff and all accepted, are the batches of the following rows |
| Batch.BatchEffect | ducklauncher/coordinator/scheduler.py:55-72 | With dispatches accepted the batch takes exactly its queries out of pending and changes no request, creation time or worker |
| Batch.BatchLoads | ducklauncher/coordinator/scheduler.py:55-72 | Every load after the batch is the load before plus what its placements ask for |
| Batch.EachPlacementIsGreedy | ducklauncher/coordinator/scheduler.py:55-72 | Each claim takes a query no younger than any left, for a worker best for it against the loads left by the previous placements |
| Batch.BatchIsPrefix | ducklauncher/coordinator/scheduler.py:55-72 | The batch is a prefix of the pending queue in created_at order, rows of one creation time standing in some order |
| Batch.RestOfQueue | ducklauncher/coordinator/scheduler.py:55-72 | What is pending afterwards is the rest of that queue, in its order |
| Batch.BatchIsLongest | ducklauncher/coordinator/scheduler.py:68-72 | The prefix is the longest placeable one: a batch cut short leaves an empty queue or a next query with no eligible worker |
| Batch.QueueIsUnique | ducklauncher/db/queries.py:397-402 | With distinct creation times there is only one such order |
| Batch.BatchIsThePrefix | ducklauncher/coordinator/scheduler.py:55-72 | With distinct creation times the batch is the longest placeable prefix of the queue |
| Batch.ScheduleUndisturbed | ducklauncher/coordinator/scheduler.py:48-72 | The batch loop itself, at one cutoff, all accepted and undisturbed: it claims the first queries of the queue, leaves the rest of the queue pending, and stops early only at its end or at a query no worker is eligible for |
| Draining.RoundDescends | ducklauncher/coordinator/scheduler.py:58-71 | A round ending in 202 or in a lost worker lowers (running workers, pending queries) lexicographically and loses no query |
| Draining.LosingDescends | ducklauncher/db/queries.py:136-167 | Losing a running worker lowers the number of running workers, whatever it adds to pending |
| Draining.AcceptingDescends | ducklauncher/db/queries.py:364-374 | A claim lowers pending and leaves the workers alone |
| Draining.RoundLowers | ducklauncher/coordinator/scheduler.py:55-71 | Among other clients' calls that bring no work, every round lowers the rank of the tables: workers in service weighted above all queries, plus pending queries |
| Draining.RoundsAreBounded | ducklauncher/coordinator/scheduler.py:55-72 | So no list of legal rounds is longer than the rank of the state it starts from |
| Draining.CalmOthers | ducklauncher/coordinator/scheduler.py:29 | Other clients' calls as far as each brings no work where it comes; every such run can be had, heartbeats of workers in service included |
| Draining.Drain | ducklauncher/coordinator/scheduler.py:48-72 | Claim-and-dispatch rounds, each at its own cutoff and among such calls, reach a claim that finds nothing within that many rounds; without other calls every query is still pending or running |
| Routes.Await | ducklauncher/coordinator/routes.py:364-368 | An await adds exactly the other clients' calls; the query's row stays, keeps its owner and text, and stays as it is if it is terminal |
| Routes.CancelAndRead | ducklauncher/coordinator/routes.py:341-353 | A cancellation followed, any calls later, by a read of the row reads a terminal row whether or not this call cancelled it; nothing else is written |
| Routes.AwaitCancellation | ducklauncher/coordinator/routes.py:364-377 | Up to twenty polls write nothing and end with the cancelled row; after them comes one more await and one cancellation, and the answer is the terminal row, or 409 if that is not cancelled |
| Routes.CancelQuery | ducklauncher/coordinator/routes.py:329-377 | With any calls at each await: somebody else's query gets 403 and no other does; 404 means there was no such row at the start; every 200 carries the terminal row, every 409 means the row is terminal, so only 403, 404 and 502 can leave the query running; all that happened is the other clients' calls in order and at most one cancellation of this query, none for 403, 404 and 502; undisturbed, 404 and 403 are if-and-only-if on the row at the start |
| Routes.CancelAloneMeaning | ducklauncher/coordinator/routes.py:329-377 | Undisturbed, each answer in terms of the row: who gets 403, 404 and 502, a terminal row left as it is, and otherwise the cancellation with its reason, completion time and notice |
| Routes.CompleteQuery | ducklauncher/coordinator/routes.py:313-326 | 200 exactly when the row then has the reported status, otherwise 404 |
| Claims.OthersRespectLocks | ducklauncher/db/queries.py:242-320 | No other call changes a locked pending row: it waits for the lock or does not match the row |
| Claims.FineKeepsExclusive | ducklauncher/db/queries.py:388-429 | Every step keeps the locks exclusive and every locked row pending |
| Claims.ClaimsAreExclusive | ducklauncher/db/queries.py:349-429 | Under every interleaving no two claims hold one query, and a held row is still pending when its unguarded UPDATE fires |
| Claims.NoStepLeavesTerminal | ducklauncher/db/queries.py:349-429 | Under every interleaving a row that is terminal at some point keeps every column from then on |
| Claims.CommitKeepsOwners | ducklauncher/db/queries.py:354-374 | A commit keeps ownership if and only if the worker it chose has not become unreachable or stopped meanwhile |
| Ownership.RunsAreConsistent | ducklauncher/db/queries.py:349-429 | Under every interleaving the rows keep their shape, the locks are exclusive and every chosen worker is registered |
| Ownership.OwnersKeptExactly | ducklauncher/db/queries.py:136-167 | A step keeps ownership if and only if it is not a commit on a lost worker and not a bulk revert that misses a row its workers run |
| Ownership.OwnedThroughoutExactly | ducklauncher/db/queries.py:349-467 | In a run lost workers never own a running query if and only if each of its steps meets that condition |
| Scenes.CommitCanStrand | ducklauncher/db/queries.py:354-374 | A run in which a sweep comes between a claim's choice and its commit leaves the query running on a stopped worker |
| Scenes.MissedRowIsStranded | ducklauncher/db/queries.py:449-460 | A run in which a sweep misses a row committed meanwhile leaves it running on a stopped worker |
| Claims.OthersNeverAddLoad | ducklauncher/db/queries.py:136-320 | Claims apart, no call adds to any worker's load, not even a bulk revert that misses rows committed after its snapshot |
| Claims.EligibleHasRoom | ducklauncher/db/queries.py:338-343 | An eligible worker has room for the request in every measure, unless the request asks for none of it |
| Claims.InFlightOfTheRest | ducklauncher/db/pool.py:10-11 | While a claim has not chosen, what the others have in flight is at most limit - 1 largest requests |
| Claims.CommitKeepsOccupied | ducklauncher/db/queries.py:364-374 | A commit moves a claim from in flight to running without changing their sum |
| Claims.StepKeepsBounded | ducklauncher/db/queries.py:323-429 | Every step keeps the overcommit bound |
| Claims.OvercommitIsBounded | ducklauncher/db/queries.py:323-429 | In every run a worker's running queries plus claims in flight stay within max_concurrent_queries + limit - 1, and each resource within capacity + (limit - 1) largest requests; NULL requests count 0 |
| Claims.SerialClaimsNeverOvercommit | ducklauncher/db/queries.py:323-429 | With one claim at a time no maximum and no capacity is ever exceeded |
| Scenes.ClaimsPileUp | ducklauncher/db/queries.py:388-429 | Open claims can all take one worker that suits each of their queries by itself, and what they are about to add is what they ask for |
| Scenes.BoundIsAttained | ducklauncher/db/queries.py:323-429 | For every maximum, limit and largest request a run that meets all assumptions attains the bound in the count and in every resource at once |
| Delivery.RunsAreTraced | ducklauncher/worker/routes.py:97-140 | In every run with lost, late and repeated messages each dispatch, execution, report and result goes back to a claim |
| Delivery.NoResultWithoutClaim | ducklauncher/db/queries.py:242-285 | No query becomes completed or failed without an earlier claim of it |
| Delivery.FirstTerminalWriteWins | ducklauncher/db/queries.py:242-320 | The first terminal write fixes status, error, row count and completion time for the rest of the run |
| Delivery.AnswerIsStatus | ducklauncher/db/queries.py:264-285 | complete_query answers true exactly when the row then has the reported status |
| Delivery.AcknowledgedReportIsFinal | ducklauncher/coordinator/routes.py:313-326 | A report answered with true keeps its verdict, however often it is repeated and whatever arrives later |
| Delivery.ResultsAreReported | ducklauncher/db/queries.py:249-259 | In every run a row that is not terminal has no row count, and every completed or failed row carries the verdict, row count and error of one received report |
| Delivery.ExecutionMayBeRepeated | ducklauncher/coordinator/scheduler.py:28-45 | Execution is only at least once: a dispatch can be running on its worker while its query is pending again |
| Delivery.TwoWorkersRunOne | ducklauncher/coordinator/scheduler.py:28-45 | A run from empty tables in which two workers have started the same query |
| Delivery.NoticeComesFromUpdate | ducklauncher/db/queries.py:264-320 | A call adds at most one notice for a query and changes none |
| Delivery.TerminalNoticesAreTrue | ducklauncher/db/queries.py:242-320 | With UPDATE and NOTIFY apart, in any order and delay, every terminal notice ever sent carries its row's status |
| Delivery.SentWasMade | ducklauncher/db/queries.py:264-320 | Every notice sent is the one made for its query at its place, and stays so |
| Delivery.LastNoticeAgrees | ducklauncher/db/queries.py:264-320 | In every run with UPDATE and NOTIFY apart, the last notice sent for a query carries its row's status if and only if it has the status of the last one made |
| Delivery.InOrderAgrees | ducklauncher/db/queries.py:264-320 | It does when the query's notices leave in order and the last one made has left |
| Delivery.LateNoticeMisleads | ducklauncher/db/queries.py:307-320 | A run from empty tables, each claim's notice leaving with the claim, in which the last notice sent says pending of a row that is running |
| Hub.ListsAreTidy | ducklauncher/coordinator/events.py:16-34 | In every run no key maps to an empty list, no list names a queue twice, and a queue stands only under the key it was made for |
| Hub.OpEffect | ducklauncher/coordinator/events.py:20-43 | One operation puts a payload on a queue exactly if it is a dispatch for its query while it is subscribed |
| Hub.DeliversExactly | ducklauncher/coordinator/events.py:16-43 | What is ever put on a queue is exactly what was dispatched for its query during its subscription, in order and once each |
| Hub.UnsubscribingAllEmptiesTheHub | ducklauncher/coordinator/events.py:25-34 | When every subscription has been ended the hub holds no key |
| Hub.HeapHubDelivers | ducklauncher/coordinator/events.py:16-43 | After any calls of its methods, each queue of the hub on the heap was given exactly what was dispatched for its query during its subscription, and is listed exactly as long |
| Hub.QueryEventHub.constructor | ducklauncher/coordinator/events.py:17-18 | A new hub is the one the empty run leaves |
| Hub.QueryEventHub.Subscribe | ducklauncher/coordinator/events.py:20-23 | A new empty queue is subscribed; the hub on the heap is the specified one |
| Hub.QueryEventHub.Unsubscribe | ducklauncher/coordinator/events.py:25-34 | The hub on the heap is the specified one, also for an unknown key or queue |
| Hub.QueryEventHub.Dispatch | ducklauncher/coordinator/events.py:36-43 | Each queue of the query's list gets the payload once and every other queue is untouched, although the queues are shared objects |
| Hub.EventQueue.PutNowait | ducklauncher/coordinator/events.py:42-43 | A payload goes to the end of the queue and is remembered as put |
| Hub.EventQueue.Get | ducklauncher/coordinator/routes.py:258 | The oldest queued payload comes out; what was ever put stays remembered |
| Stream.DispatchAll | ducklauncher/coordinator/events.py:36-43 | A subscribed queue gains exactly the payloads of its query, in order |
| Stream.StreamTurn | ducklauncher/coordinator/routes.py:257-262 | A round sends the oldest queued event, or a keep-alive if nothing is queued |
| Stream.StreamLoop | ducklauncher/coordinator/routes.py:254-264 | The loop over the hub's queue sends exactly the specified frames, from any state of that queue |
| Stream.EventStream | ducklauncher/coordinator/routes.py:247-266 | The stream sends exactly the specified frames and leaves the hub's subscriptions as it found them |
| Stream.StreamSendsAPrefix | ducklauncher/coordinator/routes.py:247-266 | The events sent are the snapshot followed by a prefix of what was dispatched for the query, in order |
| Stream.StreamStopsAtFinal | ducklauncher/coordinator/routes.py:251-264 | Nothing follows the first terminal event |
| Stream.StreamRunsUntilGone | ducklauncher/coordinator/routes.py:254-264 | Without a terminal event there is one frame for each round until the client is gone |
| Stream.StreamKeepsAlive | ducklauncher/coordinator/routes.py:254-264 | A round sends a keep-alive if and only if everything dispatched for the query by then has been sent |
| Stream.FinalEventIsTrue | ducklauncher/coordinator/routes.py:258-264 | A terminal event on the stream carries the status of the query's row, however late it was sent |
| Executor.StepConserves | ducklauncher/worker/duckdb.py:57-103 | Every step keeps idle and held connections distinct and of constant number, discarded ones being replaced |
| Executor.PoolIsConserved | ducklauncher/worker/duckdb.py:33-103 | In every interleaving of executions idle plus held connections are the warmed number of distinct connections, the active map is exactly the registered executions, and admission bounds the tasks |
| Executor.ReleaseNeverBlocks | ducklauncher/worker/duckdb.py:60-67 | The bounded put of a release never blocks |
| Executor.AcquireNeverBlocks | ducklauncher/worker/routes.py:41-55 | With at least max_concurrent_queries connections an admitted execution finds one at once |
| Executor.DefaultPoolNeverBlocks | ducklauncher/config.py:93-94 | The pool is that large if and only if its size is unset, zero or at least max_concurrent_queries |
| Executor.SmallPoolBlocks | ducklauncher/worker/routes.py:41-55 | With fewer connections there is a run in which an admitted execution finds none |
| Executor.NobodyWaits | ducklauncher/worker/duckdb.py:57-58 | In no interleaving does an admitted execution find no connection, if and only if there are at least max_concurrent_queries of them |
| Executor.CancelFindsItsOwn | ducklauncher/worker/duckdb.py:227-234 | A cancellation looks up the connection held by exactly that query's execution: not idle and held by no other |
| Executor.InterruptedIsGone | ducklauncher/worker/duckdb.py:60-67 | In every run an interrupted connection is discarded by its release, and no execution ever holds it again |
| Executor.WorkerProcess.constructor | ducklauncher/worker/duckdb.py:25-31 | Starts with nothing idle, active or running, and the configured sizes; an unset or zero pool size is the maximum of concurrent queries |
| Executor.WorkerProcess.WarmPool | ducklauncher/worker/duckdb.py:33-36 | Leaves as many distinct idle connections as the size says, the state the run theorems start from |
| Executor.WorkerProcess.RunQuery | ducklauncher/worker/routes.py:41-55 | 503 exactly when shutting down, else 429 exactly at the maximum of tasks, else 202; a task exactly for 202 |
| Executor.WorkerProcess.TakeConnection | ducklauncher/worker/duckdb.py:57-58 | Where the blocking get returns, the state moves by the acquire step: the longest idle connection is taken |
| Executor.WorkerProcess.SetActive | ducklauncher/worker/duckdb.py:78-79 | The state moves by the register step, so runs of these methods are runs of the conserved pool |
| Executor.WorkerProcess.PopActive | ducklauncher/worker/duckdb.py:100-102 | The state moves by the pop step: the query stops being active before its connection is given back |
| Executor.WorkerProcess.GiveBack | ducklauncher/worker/duckdb.py:60-67 | In every state the run theorems allow, the put does not block; what comes back is the connection itself, or a new one for a discarded one |
| Executor.WorkerProcess.FinishTask | ducklauncher/worker/routes.py:118-119 | The state moves by the report step: a task leaves the table after its execution has released |
| Executor.WorkerProcess.Cancel | ducklauncher/worker/duckdb.py:227-234 | Finds a connection exactly while the query's execution is between register and pop: the one it holds, not idle and held by no other |
| Executor.WorkerProcess.Move | ducklauncher/worker/duckdb.py:57-103 | Every move of an execution, made by the methods above, is the specified step and keeps the pool sound |
| Executor.WorkerProcess.CancelAll | ducklauncher/worker/duckdb.py:236-241 | While executions move on between the lookups, each query of the snapshot is looked up at a moment of the run, and what is interrupted is the connection its execution holds then, or nothing if it is no longer active |
| Catalog.HeldNext | ducklauncher/worker/duckdb.py:140-158 | One row's updates keep the nested dictionaries and order lists equal to the grouping of the rows so far |
| Catalog.BuildMeaning | ducklauncher/worker/duckdb.py:160-186 | Assembling them gives the reference catalog |
| Catalog.IntrospectCatalog | ducklauncher/worker/duckdb.py:135-186 | The one-pass loop gives the catalog defined by grouping, for rows in any order |
| Catalog.SeenMeaning | ducklauncher/worker/duckdb.py:141-154 | Each database, schema and table that has a row is listed exactly once |
| Catalog.SeenIsFirstSeen | ducklauncher/worker/duckdb.py:141-154 | Names are listed in the order in which their first rows came |
| Catalog.CatalogIsTidy | ducklauncher/worker/duckdb.py:160-186 | At every level the catalog lists the names that have rows and no others, once each, in first-seen order; nothing in it is empty |
| Catalog.SortMeaning | ducklauncher/worker/duckdb.py:172-175 | Columns come by ordinal, none lost or repeated, equal ordinals in row order |
| Catalog.FlattenMeaning | ducklauncher/worker/duckdb.py:160-186 | Flattening the catalog gives the rows group by group, each name attached to its own rows |
| Catalog.CatalogKeepsRows | ducklauncher/worker/duckdb.py:135-186 | For rows in any order, flattening the catalog gives back the same multiset of rows |
| Catalog.CatalogRoundTrip | ducklauncher/worker/duckdb.py:114-186 | For rows in the statement's order, flattening the catalog gives back the rows in order |
| Highlight.EscapeIsSimultaneous | ducklauncher/static/index.html:553-558 | Three replaces in sequence equal one simultaneous map of characters |
| Highlight.DecodeUndoesEscape | ducklauncher/static/index.html:553-558 | Decoding the entities gives the text back |
| Highlight.StripRenderAll | ducklauncher/static/index.html:560-626 | Whatever the tokens, removing the tags of their HTML leaves their escaped text |
| Highlight.KeywordsInAnyCase | ducklauncher/static/index.html:614-616 | A word is a keyword if and only if it spells one of the keywords in any case |
| Highlight.Shown | ducklauncher/static/index.html:560-626 | What each kind of token is wrapped in |
| Highlight.TokenIsUnique | ducklauncher/static/index.html:560-626 | At most one token of one kind starts at a position of a text |
| Highlight.LexingIsUnique | ducklauncher/static/index.html:560-626 | A text can be cut into tokens in at most one way |
| Highlight.IndexOfNewline | ducklauncher/static/index.html:565-566 | The first newline from there, if there is one |
| Highlight.IndexOfCommentEnd | ducklauncher/static/index.html:572-573 | The first comment end from there, if there is one |
| Highlight.ScanSingleQuoted | ducklauncher/static/index.html:578-591 | Ends at the first quote that is not doubled, or at the end of the text |
| Highlight.ScanDoubleQuoted | ducklauncher/static/index.html:595-598 | Ends after the first double quote, or one past the end of the text |
| Highlight.ScanRun | ducklauncher/static/index.html:603-613 | Ends the longest run of one class of characters |
| Highlight.NextToken | ducklauncher/static/index.html:564-624 | What each branch cuts off is the grammar's token at that position, with its kind |
| Highlight.RenderedTextIsKept | ducklauncher/static/index.html:560-626 | The tokens of a lexing partition the text, and its HTML without tags is the escaped text |
| Highlight.HighlightSql | ducklauncher/static/index.html:560-626 | For every input, unterminated strings and comments included, the highlighter ends, its HTML renders the one lexing of the input, and stripping tags and decoding entities gives the input back |
| InitScripts.MatchMeaning | ducklauncher/config.py:8 | The greedy matcher finds a placeholder at a position if and only if a well-formed one stands there, and that one |
| InitScripts.CutIsUnique | ducklauncher/config.py:138 | There is exactly one leftmost cut of a text into placeholders and other characters; the single pass finds it and it spells the text |
| InitScripts.UnresolvedIsKept | ducklauncher/config.py:132-135 | What does not resolve is copied unchanged |
| InitScripts.ExpansionIsLocal | ducklauncher/config.py:128-138 | Wherever a resolvable placeholder stands, its escaped value takes its place, and the text before and after it is expanded as if it were not there: no value is read again |
| InitScripts.PlaceholderBecomes | ducklauncher/config.py:115-138 | A set variable's escaped value whatever the default, else the escaped default, else the placeholder itself; an unset ICEBERG_OAUTH_URI becomes the token URL on the endpoint, or stays if and only if there is no endpoint |
| Literals.ReadEscaped | ducklauncher/config.py:111-112 | Reading an escaped value by the literal rule of section 5.3 of ISO/IEC 9075-2 gives the value and leaves the reader just after it, whatever follows |
| Literals.ReadClosing | ducklauncher/config.py:111-112 | A literal ends at a closing quote if and only if no quote, and no separator with a newline and then a quote, follows |
| Literals.AddsNothingMeaning | ducklauncher/config.py:111-112 | Its value is complete there if and only if it does not go on, or only with empty parts |
| Literals.ReadBeforeSpaces | ducklauncher/config.py:158 | Whitespace behind a text does not change what its literal reads as |
| Literals.LiteralsAreJoined | ducklauncher/config.py:111-112 | Two literals with a newline between them read as one |
| InitScripts.ReadTemplate | ducklauncher/config.py:128-138 | The same for a template of characters and placeholders |
| InitScripts.QuotedTemplateReadsBack | ducklauncher/config.py:111-138 | In a script, the literal of a quoted template reads as the template with its values and ends at its closing quote if and only if what follows does not make it go on |
| InitScripts.QuotedPlaceholderReadsBack | ducklauncher/config.py:111-138 | A placeholder alone inside single quotes reads back as exactly the variable's value, which for a set variable is what it is set to, whatever the default, under the same condition |
| InitScripts.JoinRestores | ducklauncher/config.py:158 | Rejoining the unfiltered pieces with semicolons restores the expanded text, and no piece holds one |
| InitScripts.LoadsExactly | ducklauncher/config.py:153-161 | Loaded are, in order and one for one, exactly the trimmed pieces with an executable line, less those that mention cache_httpfs when that is switched off |
| InitScripts.ExecutableMeaning | ducklauncher/config.py:141-146 | A piece is executable if and only if on some line something other than a comment comes first |
| InitScripts.CacheIsOn | ducklauncher/config.py:149-150 | The extension is on unless the variable says 0, false or no, in any case |
| InitScripts.MentionsCache | ducklauncher/config.py:159-160 | A statement mentions the extension if and only if its name stands there, in any case |
| InitScripts.TrimMeaning | ducklauncher/config.py:158 | Trimming takes all the whitespace off the ends and nothing else |
| InitScripts.SplitsAtEverySemicolon | ducklauncher/config.py:158 | A text stays whole exactly when it holds no semicolon, quoted or not |
| InitScripts.QuotedTemplateInItsPiece | ducklauncher/config.py:153-158 | In the piece where a quoted template starts, its literal reads as the template with its values if and only if they hold no semicolon and what follows in the piece adds nothing |
| InitScripts.QuotedTemplateInItsStatement | ducklauncher/config.py:153-161 | The same in the trimmed statement that is loaded |
| InitScripts.SemicolonCutsTheLiteral | ducklauncher/config.py:158 | A value with a semicolon inside quotes is cut, and its literal no longer reads back |

## Left out

- Runs.LostWorkersOwnNothing: at the coarse grain; under Read Committed it fails, under the exact condition of Ownership.OwnedThroughoutExactly.
- Scheduler.FailedDispatchStrandsNothingElse: at the coarse grain; Ownership.FailedDispatchStrandsExactly is the statement under Read Committed.
- Runs.SweepRecovers: queries held by a worker that registered again, and so is initializing, are not recovered by the code and not claimed to be.
- Runs.NotificationsAgree: notifications are logged for each query separately; the order between different queries is not modelled.
- Draining.Drain: dispatches that end in another status requeue the query, and new, reverted or re-served work feeds the queue; rounds then need not end.
- Ownership.OwnersKeptExactly: which rows a bulk revert misses is left open; in PostgreSQL only rows committed after its snapshot can be.
- InitScripts.QuotedTemplateReadsBack: the reader starts at the template's opening quote; whether an SQL lexer takes that quote as the start of a literal depends on the text before it.
- Stream.EventStream: events dispatched between the snapshot read and the subscription are lost to the subscriber and not modelled.
- Executor.CancelFindsItsOwn: the moment of lookup; the interrupt itself is sent after the lock is released.
- Executor.WorkerProcess.RunQuery: the same query id in flight twice on one worker, which would overwrite its entries.
- Claims.OvercommitIsBounded: nothing is said of negative requests or of workers whose reported capacity shrinks.
- Exactly-once execution: the protocol does not give it; retries are at least once.
- Query submission, sheets, users, sessions, sign-in and access checks other than the one inside cancellation.
- Placement order of the workers page (`ORDER BY started_at`), the paging of queries and of result files.
- Running SQL in DuckDB, result files, and the choice between copying results and plain execution.
- Shutdown of a worker with its timeouts, closing of the executor, registration retries, metrics and signals.
- Real time: intervals, sleeps, timeouts and the scheduler's endless loop; an execution is a sequence of moves.
- Reading init-script files and resolving their paths; the variables are a map.
- Text is a sequence of characters; UTF-16 code units and upper or lower case outside ASCII are not modelled.
- HTTP, JSON and the database driver; a dispatch is an outcome, a request is a call.
