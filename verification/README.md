# Verified model of the vfront control plane

vfront is a serving front end for language models: it stores state in LMDB, runs background jobs, and
streams completions and responses. This project models the parts of it that carry state, loops or
interleavings, and proves what they keep over whole runs:

- **The TTL store** (`TtlTables`, `TtlStore`, `TtlHistory`, `TtlLastWrite`, `TtlReclaim`, `StoreDrain`).
  Three tables per namespace, cursor paging and a budgeted cleanup. A run with cleanup is
  indistinguishable from a plain map that is never cleaned, and what readers get is stated by the writes
  of the run alone: the last accepted write of a key, for exactly its retention. The expiry index is only
  included in the metadata, and what follows from that is exact: which rows a pass loses, which expired
  keys it misses, that a key without a row is never purged, and when an expired key is reclaimed. The
  operation gate is a small concurrency model with any number of operations and shutdown calls.
- **Created-at listing** (`CreatedAtIndex`). A batched index scan that equals sort, filter and take.
- **Background jobs** (`JobLease`, `JobRecords`, `JobProtocol`, `JobCalls`, `JobManyRunners`,
  `JobShutdown`, `JobPriority`, `JobRunner`). Leases shared by any number of runners, the durable records,
  the interleaving of API calls, runner loops and job bodies, one atomic store operation at a time, and
  the runner's own methods as runs of that protocol.
- **The Responses event stream** (`ResponseEvents`, `ResponseProtocol`, `ResponseGenerator`,
  `ResponseBracketing`, `ResponseRegularRuns`, `ResponseContents`, `ResponseMixedRuns`,
  `ResponseStreams`). The event protocol is stated as an acceptor that knows nothing of the generator; the
  generator is shown to refine it, and to say exactly what the engine's outputs say. The direct and
  agentic streams thread the numbers through prelude, tool rounds, answer and failure tail.
- **Legacy completions** (`CompletionInfill`, `CompletionStreaming`). Suffix trimming on cumulative text,
  delta streaming, and agreement with the non-streaming response.
- **The agentic tool loop, plain-text detection and context truncation** (`AgenticLoop`,
  `AssistantOutput`, `ContextTruncation`).

`KeyOrder` holds the order of keys that the store and the index share, `ToolCalls` the operations on call
lists that the loop and the agentic stream share.

Classes carry the fields their originals update in place; their methods are proved against functions on
values, and the lemmas are about those functions. Clock readings, engine output, tokenization, parsing
and tool results are parameters.

Where the code does something other than its own documentation or the obvious expectation says, the model
follows the code, and a theorem over all inputs says exactly when the expectation holds:

- `looks_like_tool_call_prefix` does not answer whether text *could still become* a tool call: it rejects
  blank text and proper prefixes of `<tool_call>` (`PrefixTestIsExact`). Tool-call text is therefore
  streamed as plain text exactly when the first non-blank text held only part of the tag
  (`ToolTextIsStreamedIff`).
- A cleanup pass that deletes fewer keys than its budget may still have missed an expired key that has an
  index row (`CountBelowBudgetIsNotComplete`): such a key survives exactly when its row lies beyond the
  room that the earlier namespaces leave (`SurvivesSweepIff`).
- A shutdown call fails exactly when two of them overlap (`FailsExactlyWhenOverlapping`).
- An older lease grant can be lost while it is unexpired, exactly when a newer promise to the same owner
  ends earlier (`GrantIsSecureIffNewestIsLongest`).
- With two runners, a claim decided on a check that another runner's complete job has overtaken brings
  the job back without its spec, although no lease runs out. A set of runners is safe exactly when it has
  at most one member (`SafeIffOneRunner`); with more, the runs in which no step overtakes another runner
  are (`ManyRunnersLoseNothing`).
- Pending client calls are not the unanswered ones exactly when one of them shares its id with a
  server-side call (`PendingIsUnanswered`, with runs of that kind in `SharedIdHidesPendingCall`).
- Mixing semantic deltas and plain text always breaks the event protocol (`AcceptedIffUnmixed`).
- On client calls the completed response never lists the items that were reported as done
  (`MixedOutputIff`), and with tools in the request it is only reached by calls of the engine's own parser
  (`TextCallsRaise`).
- A chat-fallback close tag that arrives in parts is partly shown (`SplitCloseTagIsTakenBack`,
  `OpenedVisibleGrowsIffSteady`); a stream is exact exactly when that never happens
  (`InfillStreamIsExactIff`).
- Plain text streamed after leading white space is not all of the message it belongs to
  (`RegularRunIsBracketed` and `StreamDirectResponse`, under the exact rule).

## Model

| member | source | states |
|---|---|---|
| TtlStore.StoreMutation.TxnPut | vfront/frontend/service/store/lmdb.py:414-440 | Writing drops every old index row and the old metadata of the key, then stores data, one new row and the new metadata together; the tables stay consistent |
| TtlStore.StoreMutation.TxnDelete | vfront/frontend/service/store/lmdb.py:446-461 | Deleting removes data, index row and metadata together and reports whether data existed |
| TtlStore.StoreMutation.Set | vfront/frontend/service/store/lmdb.py:62-82 | Each rejected write (retention, expiry overflow, key size, value size, empty key) leaves the tables untouched; an accepted one stores the value with its expiry |
| TtlStore.StoreMutation.Get | vfront/frontend/service/store/lmdb.py:58-60 | Returns the value a reader can see now, or nothing for absent and expired keys |
| TtlStore.StoreMutation.Delete | vfront/frontend/service/store/lmdb.py:84-93 | As TxnDelete, refusing the empty key |
| TtlStore.StoreMutation.Handle | vfront/frontend/service/store/lmdb.py:399-412 | A handler of any operations reports and leaves what performing them one after another does |
| TtlStore.StoreMutation.Purge | vfront/frontend/service/store/lmdb.py:502-527 | One namespace in a cleanup pass: afterwards the tables are those without the expired keys among the first due index rows, and the count is the number of keys removed |
| TtlStore.CollectDue | vfront/frontend/service/store/lmdb.py:507-516 | The collecting loop takes exactly the longest due prefix of the index that the remaining budget allows |
| TtlStore.DropRows | vfront/frontend/service/store/lmdb.py:517-527 | The deleting loop removes every collected row, and data and metadata exactly of the expired keys |
| TtlStore.PositionCursor | vfront/frontend/service/store/lmdb.py:473-496 | The cursor lands so that the rows strictly beyond the cursor key, whether or not that key exists, are exactly those from the position on in the direction of travel; not found means there are none |
| TtlStore.ScanKeys | vfront/frontend/service/store/lmdb.py:315-326 | The loop lists exactly the visible keys in byte order |
| TtlStore.ScanPage | vfront/frontend/service/store/lmdb.py:328-361 | The page is exactly the first limit visible items strictly beyond the cursor, and more is true iff another visible item exists |
| TtlStore.StoreService.Set | vfront/frontend/service/store/lmdb.py:227-251 | Outcome and effect of a set for every input, error order included; other namespaces are unchanged; what the stored expiry means is in TtlLastWrite |
| TtlStore.StoreService.Get | vfront/frontend/service/store/lmdb.py:253-261 | Returns what is visible at the time of the call |
| TtlStore.StoreService.Delete | vfront/frontend/service/store/lmdb.py:263-271 | Removes the key from all three tables of its namespace only |
| TtlStore.StoreService.ListKeys | vfront/frontend/service/store/lmdb.py:273-278 | All visible keys in byte order |
| TtlStore.StoreService.ListPage | vfront/frontend/service/store/lmdb.py:280-300 | The page contract of ScanPage, with the limit and namespace errors |
| TtlStore.StoreService.Mutate | vfront/frontend/service/store/lmdb.py:302-313 | A handler takes effect as a whole or, when it raises, not at all |
| TtlStore.StoreService.CleanupExpired | vfront/frontend/service/store/lmdb.py:498-529 | A pass visits the namespaces in order with one shared delete budget; its count is the number of entries deleted |
| TtlTables.MutationsConsistent | vfront/frontend/service/store/lmdb.py:414-461 | Put and remove keep the metadata equal to the non-zero expiries and the index inside the metadata |
| TtlTables.AtMostOneRow | vfront/frontend/service/store/lmdb.py:414-440 | In a consistent state a key has at most one index row |
| TtlTables.CleanConsistent | vfront/frontend/service/store/lmdb.py:498-527 | A cleanup pass keeps the invariant although it drops rows of live keys |
| TtlTables.CleanRemovesOnlyExpired | vfront/frontend/service/store/lmdb.py:517-527 | A pass deletes no live entry, changes none, and counts exactly what it deletes |
| TtlTables.TakenIsDue | vfront/frontend/service/store/lmdb.py:507-516 | A pass reaches min(budget, due) rows, all due ones when they fit |
| TtlTables.CleanComplete | vfront/frontend/service/store/lmdb.py:498-527 | One pass over one namespace with a given room: an expired key that still has a row survives iff the pass did not reach its row; none survives when the due rows fit the room |
| TtlTables.CountBelowBudgetIsNotComplete | vfront/frontend/service/store/lmdb.py:514-527 | Counterexample: a pass below its delete budget can leave an expired key that has a row, since rows of live keys use up the budget |
| TtlTables.LiveRowLost | vfront/frontend/service/store/lmdb.py:513-527 | A live key loses its index row iff a pass reaches it, which happens only in the minute of its expiry, and there always when the due rows fit |
| TtlStore.SweepRemovesOnlyExpired | vfront/frontend/service/store/lmdb.py:498-529 | Over all namespaces a sweep deletes at most the budget, never a live entry, and changes none |
| TtlStore.SweepAt | vfront/frontend/service/store/lmdb.py:498-529 | A sweep is one pass over each namespace with exactly the budget that the earlier namespaces leave |
| TtlStore.SurvivesSweepIff | vfront/frontend/service/store/lmdb.py:498-529 | After a sweep an expired key that has a row survives iff its row lies beyond the room left for its namespace |
| TtlStore.SweepComplete | vfront/frontend/service/store/lmdb.py:498-529 | When the due rows of all namespaces together fit the budget, no expired key with a row is left in any of them |
| TtlStore.SweepCounts | vfront/frontend/service/store/lmdb.py:498-529 | The count of a sweep is the number of entries that disappear over all its namespaces |
| TtlStore.CleanupReaches | vfront/frontend/service/store/lmdb.py:363-378 | The same three results for a cleanup pass of the service over all its namespaces |
| TtlHistory.RowlessIsNeverPurged | vfront/frontend/service/store/lmdb.py:363-378 | A key without a row keeps its entry through every run that does not write it, with any cleanup passes at any times |
| TtlHistory.ReachableConsistent | vfront/frontend/service/store/lmdb.py:414-461 | Every run of any operations keeps metadata, index and data of every namespace consistent |
| TtlHistory.StepSimulates | vfront/frontend/service/store/lmdb.py:227-361 | Every operation is simulated by one on a plain map of entries with expiry times: same observation, and stored rows differ only by expired ones |
| TtlHistory.CleanupIsInvisible | vfront/frontend/service/store/lmdb.py:315-361 | For every run on a non-decreasing clock, reads, listings, pages, handler observations and errors equal those of a plain map that is never cleaned |
| TtlLastWrite.GetReturnsLastWrite | vfront/frontend/service/store/lmdb.py:227-261 | In every run of a fresh store on a non-decreasing clock, a get returns the value of the last accepted write of the key, service or transaction, before t + 60 m for a retention of m minutes and for ever without one, and None otherwise |
| TtlLastWrite.RetentionIsExact | vfront/frontend/service/store/lmdb.py:227-261 | After an accepted set at t with m minutes, in every run that does not write the key, a get returns the value before t + 60 m and None from then on; without retention it always returns the value |
| TtlLastWrite.ListReportsLastWrites | vfront/frontend/service/store/lmdb.py:273-278 | Listing reports exactly the keys whose last accepted write still lasts |
| TtlLastWrite.TransactionReadsItsWrites | vfront/frontend/service/store/lmdb.py:58-93 | A get inside a transaction sees the last accepted write, those of the transaction so far included, committed or not |
| TtlLastWrite.RefusalIs | vfront/frontend/service/store/lmdb.py:235-251 | A set is refused for the first that applies of empty key, retention, expiry overflow, reserved namespace, key size and value size |
| TtlReclaim.ExpiredIsReclaimed | vfront/frontend/service/store/lmdb.py:363-378 | A write with retention is removed by every cleanup from its expiry on whose budget covers the due rows, if no cleanup fell into the part of the minute of its expiry before it |
| TtlTables.ListingResumes | vfront/frontend/service/store/lmdb.py:328-361 | Resuming after the last key of a page continues exactly where the page stopped |
| TtlTables.ChainIsListing | vfront/frontend/service/store/lmdb.py:328-361 | Chained pages of any limit, in both directions, concatenate to the whole visible listing |
| TtlTables.PageIs | vfront/frontend/service/store/lmdb.py:328-361 | A page holds visible items strictly beyond the cursor in strict order; one is left out only by a full page and comes after all of it; more tells whether one is |
| StoreDrain.OperationGate.EnterOperation | vfront/frontend/service/store/lmdb.py:605-610 | An operation is admitted iff the store is neither closing nor closed |
| StoreDrain.OperationGate.LeaveOperation | vfront/frontend/service/store/lmdb.py:613-617 | The drained flag is set when the last operation leaves |
| StoreDrain.OperationGate.RequestShutdown | vfront/frontend/service/store/lmdb.py:203-209 | Sets closing unless already closed |
| StoreDrain.OperationGate.CloseEnvironment | vfront/frontend/service/store/lmdb.py:213-220 | Syncs and closes an open environment; syncing a closed one raises and does not set closed |
| StoreDrain.AlwaysSafe | vfront/frontend/service/store/lmdb.py:203-221 | In every interleaving of operations and shutdown calls the counter and the drained flag are exact, and no operation ever touches a closed environment |
| StoreDrain.NothingStartsWhileClosing | vfront/frontend/service/store/lmdb.py:605-608 | Once closing is set no operation starts in any continuation |
| StoreDrain.FailsExactlyWhenOverlapping | vfront/frontend/service/store/lmdb.py:203-221 | Over all runs in which no shutdown call is left inside: a closed environment is synced iff some call passed its locked section while another was inside |
| StoreDrain.SerialShutdownsNeverFail | vfront/frontend/service/store/lmdb.py:203-221 | Any number of shutdown calls that do not overlap never fail, calls after closing included |
| StoreDrain.OverlappingShutdownsFail | vfront/frontend/service/store/lmdb.py:203-221 | From every reachable state with two shutdown calls past their locked section, letting operations leave and the calls go on makes one of them sync a closed environment |
| StoreDrain.DrainCompletes | vfront/frontend/service/store/lmdb.py:212-220 | A waiting shutdown is never stuck: letting the running operations leave closes the environment |
| CreatedAtIndex.KeyOrderIsTimeOrder | vfront/frontend/api/v1/helper/indexed_store.py:10-18 | Below 10^20, byte order of keys is numeric order of clamped scaled times, then order of ids |
| CreatedAtIndex.KeyIsInjective | vfront/frontend/api/v1/helper/indexed_store.py:10-18 | Below 10^20, keys are equal iff clamped scaled times and ids are |
| CreatedAtIndex.KeysFollowTimes | vfront/frontend/api/v1/helper/indexed_store.py:10-18 | Objects whose scaled times differ by at least one unit are listed in the order of their times; keys never contradict the order of times |
| CreatedAtIndex.KeyReadsBack | vfront/frontend/api/v1/helper/indexed_store.py:10-18 | A key reads back as twenty digits that denote the scaled time, a colon and the id |
| CreatedAtIndex.WideKeyOrder | vfront/frontend/api/v1/helper/indexed_store.py:17-18 | Where keys have different widths, from 10^20 on, the narrower one sorts first iff its time is below the leading digits of the other |
| CreatedAtIndex.ListCreatedAtModels | vfront/frontend/api/v1/helper/indexed_store.py:108-171 | The batched scan returns exactly the naive sort, filter and take page over the index, with more true iff another match exists; a missing cursor object gives the empty page |
| CreatedAtIndex.ScanIndex | vfront/frontend/api/v1/helper/indexed_store.py:132-171 | The scan loop terminates with the first limit matches beyond the cursor key |
| CreatedAtIndex.CollectPage | vfront/frontend/api/v1/helper/indexed_store.py:140-165 | The inner loop appends exactly the matches of the index items it has visited and stops early only with more than limit models |
| CreatedAtIndex.MatchesResume | vfront/frontend/api/v1/helper/indexed_store.py:121-131 | When index rows and objects agree, the cursor of the m-th match continues with match m + 1 |
| CreatedAtIndex.FollowingIdsIsComplete | vfront/frontend/api/v1/helper/indexed_store.py:108-171 | Following the last id of each page, in both directions, concatenates to all matches |
| CreatedAtIndex.MatchesAreExact | vfront/frontend/api/v1/helper/indexed_store.py:108-171 | A value is visited iff it is a live accepted object behind some index row |
| CreatedAtIndex.MatchesAreOrdered | vfront/frontend/api/v1/helper/indexed_store.py:108-171 | Visited objects have strictly ordered keys, so each is visited once |
| JobLease.JobLeaseService.Claim | vfront/frontend/service/jobs/lease.py:112-134 | A claim is refused iff another owner holds an unexpired lease; otherwise it stores a new lease and counts the attempt |
| JobLease.JobLeaseService.Heartbeat | vfront/frontend/service/jobs/lease.py:136-159 | Only the stored owner extends its lease, even an expired one; nothing else changes |
| JobLease.JobLeaseService.Release | vfront/frontend/service/jobs/lease.py:161-174 | Only the stored owner deletes the lease |
| JobLease.AlwaysExclusive | vfront/frontend/service/jobs/lease.py:112-174 | For any number of runners and any interleaving on a non-decreasing clock, the newest unexpired unreleased promise to an owner is the stored lease, and attempts count claims |
| JobLease.NoTwoOwners | vfront/frontend/service/jobs/lease.py:112-174 | Two owners never hold unexpired leases on one job at once |
| JobLease.AttemptCountsClaims | vfront/frontend/service/jobs/lease.py:112-134 | The stored attempt is the number of successful claims since the record was created |
| JobLease.EveryGrantIsBacked | vfront/frontend/service/jobs/lease.py:112-174 | With one lease duration per owner, every unexpired grant its owner has not released belongs to the stored owner |
| JobLease.GrantIsSecureIffNewestIsLongest | vfront/frontend/service/jobs/lease.py:112-174 | With arbitrary durations: no claim of another owner can take the job before an unexpired grant ends iff the newest promise to its owner does not end earlier |
| JobLease.ShorterHeartbeatRevokes | vfront/frontend/service/jobs/lease.py:136-159 | After any run, an owner that claims a free job and renews it for a shorter time can lose it to any other owner while its first grant is unexpired |
| JobLease.LeaseLastsItsSeconds | vfront/frontend/service/jobs/lease.py:112-159 | A granted claim or heartbeat gives the job to its owner for exactly the seconds asked: whatever the others do meanwhile, no claim of another succeeds before, and any does afterwards |
| JobRecords.JobStore.UpdateExecution | vfront/frontend/service/jobs/store.py:187-201 | Updates an existing execution only |
| JobRecords.JobStore.RequestCancel | vfront/frontend/service/jobs/store.py:203-228 | Marks a non-terminal execution, cancels a queued one at once, leaves terminal ones alone, and returns the previous status |
| JobRecords.CancelIs | vfront/frontend/service/jobs/store.py:203-228 | A waiting job is cancelled at once, a running one is only marked, a finished one and all others stay as they are |
| JobCalls.CancelStopsRunningJob | vfront/frontend/usecases/responses_admin.py:83-136 | A cancel call on a running job that runs through: the record ends cancelled without owner, the spec is gone, the lease free, the body done |
| JobCalls.CancelEndsQueuedJob | vfront/frontend/usecases/responses_admin.py:83-136 | A cancel call on a waiting job: it is cancelled at once, no runner can claim it, and the spec goes with a stored response |
| JobCalls.DeleteRemovesFinishedJob | vfront/frontend/usecases/responses_admin.py:61-80 | A delete call removes record, spec and lease of a job that is not active, and changes nothing of an active one |
| JobRecords.JobStore.ReleaseOwnedWork | vfront/frontend/service/jobs/runner.py:137-206 | The loop over a snapshot relinquishes exactly the executions running under the owner, drops exactly the specs of the cancelled ones and releases exactly its leases |
| JobRecords.ReleaseLeavesNothingRunning | vfront/frontend/service/jobs/runner.py:137-206 | Afterwards nothing runs under the owner: each job is queued with its spec untouched or cancelled without one, its lease is free, other jobs are unchanged |
| JobRunner.JobRunnerService.ClaimPending | vfront/frontend/service/jobs/runner.py:249-348 | One claim round takes the listed jobs that rank best by records and times, as many as fit, changes only those, and is a run of the protocol steps of the runner |
| JobRunner.JobRunnerService.ClaimCandidates | vfront/frontend/service/jobs/runner.py:282-310 | The loop over the sorted candidates takes exactly the first eligible ones that fit |
| JobPriority.FirstAreBest | vfront/frontend/service/jobs/runner.py:274-310 | By records and times alone: taken are listed, waiting, untracked jobs whose lease is free, each once, running ones first, then by later update, later creation and the order of the list; one is left out only when there is no room, and ranks behind all taken |
| JobRunner.JobRunnerService.ClaimJob | vfront/frontend/service/jobs/runner.py:321-348 | A claim fails iff another runner holds an unexpired lease; otherwise lease, running status and tracked job change together |
| JobRunner.JobRunnerService.HeartbeatAndPrune | vfront/frontend/service/jobs/runner.py:224-247 | Exactly the finished jobs are dropped, exactly the cancel-requested running ones are cancelled, and heartbeats go to exactly the jobs that are not finished; it is a run of the protocol |
| JobRunner.JobRunnerService.RunJob | vfront/frontend/service/jobs/runner.py:379-441 | An undisturbed job body ends completed, or failed with its error, without owner, spec and lease, on success, failure and missing spec; everything else is unchanged; it is a run of the protocol |
| JobRunner.JobRunnerService.Destroy | vfront/frontend/service/jobs/runner.py:113-206 | Stopping a runner that is idle or anywhere in a claim round, with job bodies at any await: every job running under it ends queued with its spec untouched, or cancelled without it, with its lease free, and every other record and spec is as before; it is a run of the protocol |
| JobRunner.ClaimedIs | vfront/frontend/service/jobs/runner.py:293-348 | Claims leave every other execution, lease and tracked job as it was |
| JobRunner.LeadsKeepsInv | vfront/frontend/service/jobs/runner.py:249-441 | Whatever is a run of one runner keeps the invariant of the protocol |
| JobProtocol.AlwaysInv | vfront/frontend/service/jobs/runner.py:249-441 | The per-job invariant over records, runner loop, job bodies and API calls holds in every interleaving with one runner |
| JobProtocol.ApiInv | vfront/frontend/usecases/responses_admin.py:61-136 | API creation, cancel and delete steps keep the invariant wherever they interleave |
| JobProtocol.ControlInv | vfront/frontend/service/jobs/runner.py:208-348 | Claim checks, lease claims, heartbeats, pruning, stopping and restarting keep the invariant |
| JobProtocol.WriteRunningInv | vfront/frontend/service/jobs/runner.py:321-348 | Writing the running status keeps the invariant even where the record was cancelled or deleted after the check |
| JobProtocol.FlushInv | vfront/frontend/service/jobs/runner.py:137-206 | The store operations of a shutdown keep the invariant while API calls interleave |
| JobProtocol.TaskInv | vfront/frontend/service/jobs/runner.py:379-441 | Each statement of a job body, and a cancellation at any await, keeps the invariant |
| JobProtocol.NoAcceptedJobIsLost | vfront/frontend/service/jobs/runner.py:321-441 | With one runner and any interleaving, shutdowns and restarts under its id included, a queued or running execution without a cancel request has its spec, and cancelled status and the missing-spec failure occur only after a cancel request |
| JobProtocol.TakeOver | vfront/frontend/service/jobs/runner.py:58-84 | A process that starts under an unused owner id inherits the invariant from one that is gone at any point |
| JobProtocol.NoJobIsLostAcrossProcesses | vfront/frontend/service/jobs/runner.py:58-84 | The same for any sequence of processes with owner ids of their own, one alive at a time |
| JobManyRunners.TwoRunnersLoseASpec | vfront/frontend/service/jobs/runner.py:292-348 | For any two runners and any job: a claim decided on a check that the complete job of the other runner has overtaken leaves the job running without its spec; no lease runs out |
| JobManyRunners.SafeIffOneRunner | vfront/frontend/service/jobs/runner.py:249-441 | A set of runners loses no accepted job in any interleaving iff it has at most one member |
| JobManyRunners.ManyRunnersLoseNothing | vfront/frontend/service/jobs/runner.py:249-441 | With any runners no job is lost in runs in which no runner changes the status of an uncancelled record under another one that counts on it |
| JobManyRunners.RunnerStepAllInv | vfront/frontend/service/jobs/runner.py:249-441 | Each runner step that overtakes nobody keeps the invariant of all runners |
| JobShutdown.NothingOwnedAfterShutdown | vfront/frontend/service/jobs/runner.py:137-206 | With any runners, API calls and interleaving, a runner that has worked off its shutdown plan owns no running execution |
| JobShutdown.ShutdownIsExact | vfront/frontend/service/jobs/runner.py:137-206 | Without other writers, any order of the store operations of a shutdown leads to the same records: owned jobs requeued with their spec or cancelled without, leases free, nothing else changed |
| JobProtocol.ParallelismIsBounded | vfront/frontend/service/jobs/runner.py:249-348 | In any interleaving of API calls and any number of runners, a runner never tracks more jobs than its limit and never starts a job it still tracks |
| JobProtocol.ParallelismFromStart | vfront/frontend/service/jobs/runner.py:249-348 | The same from the empty store, with no condition on the start |
| AssistantOutput.PrefixTestIsExact | vfront/adapter/assistant_output.py:24-27 | The test answers "could still become a tool-call payload", as its docstring promises, iff the stripped text is not a proper prefix (possibly empty) of the tag |
| AssistantOutput.AssistantOutputStreamState.Update | vfront/adapter/assistant_output.py:59-77 | State, decision and delta after each cumulative text |
| AssistantOutput.AssistantOutputStreamState.Finalize | vfront/adapter/assistant_output.py:79-88 | Normalized output and the text held back, which exists only if nothing was streamed |
| AssistantOutput.AfterSound | vfront/adapter/assistant_output.py:59-77 | Over growing texts: undecided text is blank, plain text is a blank part followed by exactly what was streamed, tool-call text streams nothing; a decision is final |
| AssistantOutput.StreamedTextIsComplete | vfront/adapter/assistant_output.py:59-88 | If the turn ends as plain text, the text is blank dropped + streamed + deferred and not both of the latter; the kind is decided at most once |
| AssistantOutput.ToolTextIsStreamedIff | vfront/adapter/assistant_output.py:59-88 | Over all growing runs that end as tool calls: text was streamed iff the first non-blank text, stripped, was a proper prefix of the tag |
| AssistantOutput.SplitTagIsStreamed | vfront/adapter/assistant_output.py:59-88 | A family of such runs: a tag that arrives in two parts is streamed as text although the turn ends as tool calls |
| ResponseEvents.BuildFunctionToolCallEvents | vfront/adapter/response_streaming.py:126-191 | The chunk loop yields the added event, the arguments in pieces of 32 with at least one, the done events, and the next number |
| ResponseEvents.PiecesAreFull | vfront/adapter/response_streaming.py:126-191 | Every piece of the arguments but the last has exactly 32 characters, in order and without gap |
| ResponseProtocol.AcceptedIsBracketed | vfront/adapter/response_streaming.py:1-10 | Meaning of the event protocol: in an accepted stream numbers have no gap or repeat, every item is added once and done once in turn, at consecutive output indices |
| ResponseProtocol.TerminalIsLast | vfront/adapter/response_streaming.py:1-10 | In an accepted stream a terminal event is the last event |
| ResponseProtocol.DeltasSpellItems | vfront/adapter/response_streaming.py:1-10 | In an accepted stream the deltas at an index concatenate to the content of the item done there |
| ResponseGenerator.ResponseEventStream.constructor | vfront/adapter/response_streaming.py:467-515 | Prelude and prefix calls are emitted as requested, and indices start behind the prefix calls |
| ResponseGenerator.ResponseEventStream.HandleReasoning | vfront/adapter/response_streaming.py:523-559 | Reasoning text: one added event and the new part as a delta |
| ResponseGenerator.ResponseEventStream.HandleToolDelta | vfront/adapter/response_streaming.py:592-663 | A tool delta closes a message or another tool, opens a tool only when it has a name, and adds its arguments |
| ResponseGenerator.ResponseEventStream.HandleContent | vfront/adapter/response_streaming.py:665-714 | Content closes a tool, opens a message if needed and streams the delta |
| ResponseGenerator.ResponseEventStream.HandlePlain | vfront/adapter/response_streaming.py:720-785 | Plain text ends the reasoning item, opens the message once and streams the delta |
| ResponseGenerator.ResponseEventStream.Close | vfront/adapter/response_streaming.py:806-1044 | The end of the stream: open items are closed, held-back text becomes a whole message, legacy tool-call text raises, and the final output is reported |
| ResponseGenerator.GenerateResponseStreamEvents | vfront/adapter/response_streaming.py:450-1044 | The generator over any engine stream, including one that breaks off, emits the events of the specification |
| ResponseBracketing.EveryRunIsNumbered | vfront/adapter/response_streaming.py:450-1044 | Every run, mixed or not, numbers its events without gap or repeat and ends with exactly one terminal event, the last, unless it raises |
| ResponseRegularRuns.StepTracks | vfront/adapter/response_streaming.py:517-788 | Each completion of a regular run moves the generator along the event protocol |
| ResponseRegularRuns.RegularRunIsBracketed | vfront/adapter/response_streaming.py:450-1044 | A run with growing text, reasoning frozen once output starts, and no mixing of semantic and plain text keeps the whole protocol, and the completed output is exactly the finished items; messages equal their deltas exactly unless leading white space was dropped, and then never |
| ResponseRegularRuns.CompletedRunListsItsItems | vfront/adapter/response_streaming.py:450-1044 | The completed output is the prefix calls followed by the items in done order, at consecutive indices, each spelled out by the deltas at its own index |
| ResponseContents.RegularRunSays | vfront/adapter/response_streaming.py:450-1044 | In terms of the engine outputs alone, a regular run reports the prefix calls, the last reasoning, and then per maximal run of content one message and per maximal run of deltas with one tool index one call, from its first name on, each with all its pieces; without semantic deltas the last text. A run that breaks off has said what the engine had sent; it raises iff its text is a tool call |
| ResponseContents.TurnsSplit | vfront/adapter/response_streaming.py:592-714 | The messages and calls of two parts that do not belong together are independent |
| ResponseContents.CallIdsAreDistinct | vfront/adapter/response_streaming.py:617-640 | In every run, regular or not, no two generated calls share a call id |
| ResponseMixedRuns.AcceptedIffUnmixed | vfront/adapter/response_streaming.py:450-1044 | A finished run with growing text and reasoning frozen once output starts is accepted by the event protocol iff it does not mix semantic deltas and streamed plain text, in either order |
| ResponseMixedRuns.MixSpoils | vfront/adapter/response_streaming.py:517-788 | The first mixing step breaks the protocol or leaves a message open that no later step closes |
| ResponseStreams.StreamDirectResponse | vfront/frontend/usecases/responses_streaming_direct.py:52-108 | Every direct stream is numbered 0, 1, 2, ... with exactly one terminal event, last; its events are those of the generator, with a failure tail where tokenizing or the generator raises; on a regular run it keeps the whole protocol, unless messages must equal their deltas exactly and a finished run dropped white space before plain text, and then it never does; a regular run that does not break off completes with what the engine outputs say, or fails iff that is a tool call in the text |
| ResponseStreams.RunRound | vfront/frontend/usecases/responses_streaming_agentic.py:109-230 | One tool round ends exactly as engine output, tool results and kind of calls decide; finished are the items of the MCP calls up to the first that raises, or of the client calls |
| ResponseStreams.StreamAgenticResponse | vfront/frontend/usecases/responses_streaming_agentic.py:78-302 | How the stream ends and each of its events follow from what engine and tools do; it is numbered 0, 1, 2, ... with exactly one terminal event, last. For outputs with one choice it keeps the whole protocol and is answered iff some output is answered from that is no tool call in the text; then it completes with the items of all MCP calls and what that output says. On client calls the mixed response is reported, and of the protocol only the rule that the output lists the finished items is broken, always |
| ResponseStreams.SoughtIs | vfront/frontend/usecases/responses_streaming_agentic.py:140-251 | The output that is answered from is that of the last round when it detected no calls; a further one is asked for only when the round limit is used up |
| ResponseStreams.DetectedIs | vfront/frontend/usecases/responses_streaming_agentic.py:120-128 | The calls of a round are those found in the text of its first choice, only the first when calls are serial, none without tools |
| ResponseStreams.ItemsSay | vfront/frontend/usecases/responses_streaming_agentic.py:305-311 | The items of calls carry their names, arguments and call ids, in order |
| ResponseStreams.MixedOutputIff | vfront/adapter/response.py:555-705 | The output reported on client calls never is the list of finished items; up to ids it is iff no MCP call was finished before, no reasoning was given, and all calls come from the engine parser |
| ResponseStreams.MixedSays | vfront/adapter/response.py:555-705 | For an output with one choice the mixed response is its reasoning, its text unless the calls were parsed out of it, and the client calls |
| ResponseStreams.TextCallsRaise | vfront/adapter/response.py:595-615 | When the request has tools, client calls found only in the text make building the response raise |
| ToolCalls.Split | vfront/frontend/usecases/responses_streaming_agentic.py:139-149 | Server-side and client-side calls, each in call order |
| ToolCalls.SplitKeepsOrder | vfront/frontend/usecases/responses_streaming_agentic.py:139-149 | Each call goes to its own side, and both sides keep the order of the calls |
| CompletionInfill.TrimSuffixOverlap | vfront/frontend/api/v1/helper/completion_infill.py:145-152 | The downward search removes exactly the longest tail that begins the suffix |
| CompletionInfill.TrimmedGrows | vfront/frontend/api/v1/helper/completion_infill.py:145-152 | The trimmed text of a longer text extends that of a shorter one; the longest overlap rises by at most one per character |
| CompletionInfill.WholeSuffixIsTrimmed | vfront/frontend/api/v1/helper/completion_infill.py:145-152 | A text that ends in the whole suffix loses exactly the suffix |
| CompletionInfill.ExtractVisibleText | vfront/frontend/api/v1/helper/completion_infill.py:121-142 | Visible text for both strategies, with missing tags, empty tags and finished text |
| CompletionInfill.BetweenTagsIsShown | vfront/frontend/api/v1/helper/completion_infill.py:121-142 | Chat fallback: exactly what stands between the first open tag and the first close tag behind it is shown, trimmed |
| CompletionInfill.UnopenedIsShownAtTheEnd | vfront/frontend/api/v1/helper/completion_infill.py:128-142 | Without the open tag nothing is shown until the text is finished, and then everything up to the close tag |
| CompletionInfill.NativeVisibleGrows | vfront/frontend/api/v1/helper/completion_infill.py:121-142 | Native infill: visible text only grows |
| CompletionInfill.ConstantAfterClose | vfront/frontend/api/v1/helper/completion_infill.py:139-141 | Chat fallback: once the close tag has appeared in full, visible text is constant |
| CompletionInfill.OpenedVisibleGrowsIffSteady | vfront/frontend/api/v1/helper/completion_infill.py:121-142 | After the open tag, visible text grows iff the close tag did not complete across the two texts, or its shown part was held back as suffix overlap |
| CompletionInfill.SplitCloseTagIsTakenBack | vfront/frontend/api/v1/helper/completion_infill.py:121-142 | Counterexample family: a close tag that arrives in two parts is shown in part and taken back |
| CompletionStreaming.StreamCompletion | vfront/adapter/streaming.py:596-697 | The loop with its two dictionaries emits exactly the deltas against the last text of each index, finish chunks, the usage of the token increments, and the error or done tail |
| CompletionStreaming.ExecuteNonStreamingCompletion | vfront/frontend/usecases/completions.py:116-177 | The returned choices of all prompts are numbered by position; prompt tokens and the tokens charged (all generated ones under best_of) are summed; it fails iff some prompt yields no output |
| CompletionStreaming.ChoiceAt | vfront/frontend/usecases/completions.py:123-163 | The k-th returned choice of a prompt stands behind those of the earlier prompts, with the prompt in front of its text iff echo is asked for |
| CompletionStreaming.ChargeIsAllTokens | vfront/frontend/usecases/completions.py:137-168 | All generated tokens are charged, with best_of although fewer choices are returned, and without it those of the returned choices |
| CompletionStreaming.TransformCompletionOutputStream | vfront/frontend/api/v1/helper/completion_infill.py:74-102 | With infill and a suffix every choice of every output has its text replaced by its visible text; otherwise the stream passes unchanged |
| CompletionStreaming.StreamedTextIsLast | vfront/adapter/streaming.py:615-644 | With growing texts, the streamed deltas of an index concatenate to its last text |
| CompletionStreaming.FinishesAreStreamed | vfront/adapter/streaming.py:630-660 | Every finish reason is streamed once, in order and behind the text of its choice, and nothing but text and finish chunks is |
| CompletionStreaming.CountedIsSum | vfront/adapter/streaming.py:621-624 | With non-decreasing counts, the counted tokens are the sum of the last counts |
| CompletionStreaming.StreamingAgrees | vfront/adapter/streaming.py:596-675 | For a last output that lists all choices in index order, streamed texts and usage equal those of the non-streaming response of a single prompt |
| CompletionStreaming.StreamIsExactIff | vfront/adapter/streaming.py:615-644 | For any texts of a choice, growing or not: the streamed text is the last one iff each text goes on from the one before with what the last text has there |
| CompletionStreaming.InfillStreamIsExactIff | vfront/frontend/api/v1/helper/completion_infill.py:74-102 | For growing raw texts of a choice: the streamed text is the visible text of its last raw text iff no part of the close tag was shown and taken back |
| CompletionStreaming.NativeInfillStreams | vfront/frontend/api/v1/helper/completion_infill.py:74-102 | Native infill: the streamed text is the last raw text without its longest tail that begins the suffix |
| AgenticLoop.RunAgenticLoop | vfront/frontend/service/mcp/executor.py:181-386 | At most max_rounds + 1 generations and at most max(0, max_tool_calls) executions; after complete rounds the loop ends exactly as the next output decides: with an exception of the engine, an answer, client calls left pending, or one further generation at a limit |
| AgenticLoop.ConversationIs | vfront/frontend/service/mcp/executor.py:134-178 | The conversation is the input, the told rounds, and then exactly one final turn unless client calls are pending: the text of the first choice, or its semantic content with its parsed calls and every given id kept; nothing when there is no choice |
| AgenticLoop.PlayedTells | vfront/frontend/service/mcp/executor.py:231-353 | Each round is one assistant message with the calls the engine reported, as many as serial limit and budget admit, and one tool message per server-side call, in order, with its id and what executing it returned |
| AgenticLoop.BudgetIsKept | vfront/frontend/service/mcp/executor.py:268-276 | Any run of admitted rounds stays within the tool budget |
| AgenticLoop.PlayedAppend | vfront/frontend/service/mcp/executor.py:231-353 | Runs of rounds compose: transcript, executions, numbering and pending calls |
| AgenticLoop.PendingIsUnanswered | vfront/frontend/service/mcp/executor.py:289-349 | The pending calls are exactly the calls of the last assistant message without a tool message iff no client call of that message shares its id with a server-side one |
| AgenticLoop.SharedIdHidesPendingCall | vfront/frontend/service/mcp/executor.py:289-349 | A family of runs in which a pending client call looks answered: the engine gives it the id of a server-side call of the same message |
| ContextTruncation.InjectToolsPrompt | vfront/adapter/response.py:339-360 | Edits in place: the prompt is appended to the first system message only, or put in front as a new one |
| ContextTruncation.InjectedIs | vfront/adapter/response.py:339-360 | The first system message keeps its content and gets the prompt behind it, all others stay as they are; without one, a new one with the prompt alone stands in front |
| ContextTruncation.BuildGenerationMessages | vfront/adapter/response.py:151-161 | Works on copies without the instructions mark, so the given messages are unchanged |
| ContextTruncation.GenerationIs | vfront/adapter/response.py:151-161 | Every message is in the generation input, in order, with its role and content, unmarked, and extended only if it is a system message and there are tools |
| ContextTruncation.TruncateMessagesForContext | vfront/adapter/response.py:164-196 | Returns the given messages when they fit or nothing is limited, otherwise all system messages and the first fitting suffix of the others; it returns the caller's own messages and changes none |
| ContextTruncation.TruncationIsLongest | vfront/adapter/response.py:183-196 | Any proper suffix that fits is no longer than the result, and then the result fits |
| ContextTruncation.TruncationKeepsSystemAndTail | vfront/adapter/response.py:180-196 | Every system message survives in front of the others, others are lost only from the front, and a result that does not fit has no conversation left |
| ContextTruncation.TruncationIsIdempotent | vfront/adapter/response.py:164-196 | Truncating twice changes nothing more |

## Left out

- HTTP routes, authentication, settings, logging, engines, tokenizers, templates and MCP transports.
- LMDB and CBOR internals: transactions are atomic, tables are maps and sets, encoding length is a function of the value.
- Exceptions inside one namespace of a cleanup pass, which the original logs before going on.
- The boolean result of a store delete is outside the comparison with the plain map: it tells whether cleanup has run.
- CreatedAtIndex.ListCreatedAtModels: reads both namespaces at one instant, while the original reads the clock at every store call; index rows are required to hold non-empty ids, as the functions that write them do.
- CreatedAtIndex.FollowingIdsIsComplete: is about an unchanging store, as following cursors over a changing one promises nothing.
- The functions that write and repair the created-at index.
- JobLease.EveryGrantIsBacked: excludes administrative clearing of leases.
- JobProtocol.NoAcceptedJobIsLost: creation and each store update are one step, records do not expire, and the expiry of another holder's lease is an arbitrary choice of each claim.
- JobProtocol.FlushInv: the snapshot a shutdown lists is taken in one step, so records created during the listing are not in it.
- JobRunner.JobRunnerService.ClaimPending: runs without other processes acting between its awaits (the steps of `JobProtocol` cover those), and sees the expiry of foreign leases as a parameter.
- JobRunner.JobRunnerService.HeartbeatAndPrune: names the jobs whose lease is extended; the extension itself is `JobLease.JobLeaseService.Heartbeat`.
- JobRunner.JobRunnerService.RunJob: covers the uninterrupted body; cancellation at its awaits is in `JobRunner.JobRunnerService.Destroy` and in the steps of `JobProtocol`.
- JobRunner.JobRunnerService.Destroy: runs without other processes acting between its awaits, as above; `JobShutdown.NothingOwnedAfterShutdown` covers them.
- CompletionStreaming.InfillStreamIsExactIff: assumes that no text counts as finished before its open tag while others follow.
- "A terminal job status never changes" is not claimed: a claim can overwrite a record that was cancelled after it was checked.
- ResponseGenerator.GenerateResponseStreamEvents: does not model usage numbers, time stamps and log probabilities of the events; uuids are consecutive fresh ids.
- ResponseRegularRuns.RegularRunIsBracketed: assumes growing text and that reasoning is frozen once output starts; what happens when reasoning resumes after that is not stated.
- ResponseContents.RegularRunSays: is about the same regular runs; what the items of mixed runs say is not stated.
- ResponseStreams.StreamAgenticResponse: leaves the conversation messages to the loop of `AgenticLoop`, and the status of a response that hit the token limit out.
- Persistence of responses, which happens before an event is yielded and is assumed not to raise.
- JSON and regular-expression parsing of tool calls, and the formatting of server-sent events.
- CompletionStreaming.StreamingAgrees: excludes `echo` and `best_of`, with which the original does not promise agreement.
- CompletionStreaming.ExecuteNonStreamingCompletion: the ranking of `best_of` by log probability is a parameter; log probabilities and finish-reason names are not modelled.
- CompletionInfill.ExtractVisibleText: preparing prompts and merging stop sequences is left out.
- AgenticLoop.RunAgenticLoop: tool execution never raises, as in the original, where errors become result texts.
- ContextTruncation.TruncateMessagesForContext: messages other than their role, content and instructions mark are left out.
- Chat-completion streaming, embeddings, LoRA and fill-in-the-middle reporting: they add easier members of the same kind.
