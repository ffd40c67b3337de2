# Alya in Dafny

Models and proofs for three parts of Alya: the batch processor in `jobs`, the compile-time
dependency-injection generator `cmd/alya-di`, and the timeout middleware in `router`.  Check
everything with `dafny verify dfyconfig.toml`.

## What is modelled

**The batch protocol** (`jobs_protocol.dfy`).  Any number of worker instances share the tables
`batches` and `batchrows` and, in Redis, a registry, one heartbeat and one set of tracked rows for
each instance.  The model is a transition system: a state holds both tables, every instance with
its loop position and Redis keys, open summarisation transactions and running recoveries.  One
step is one SQL transaction, one autocommitted statement or one Redis call; the summarisation
transaction is split where another session can run between two of its statements.  The steps and
their sources:

- `Submit`, `SubmitSlow`, `Append`, `WaitOff`, `Abort`: jobs/batch.go:66, jobs/slowquery.go:38,
  jobs/batch.go:402, jobs/batch.go:480, jobs/batch.go:286.
- `Claim`, `Track`, `EndBlock`: jobs/jobmanager.go:482-605 with
  jobs/pg/batchsqlc/batch.sql.go:124-131, 866-870 and 966-970; jobs/recovery.go:25-34;
  jobs/jobmanager.go:672-690.
- `Refuse`, `Call`, `Return`, `SlowFinish`, `Untrack`, `BulkFail`, `FailRow`, `FailBatch`,
  `FailSlowBatch`: a configuration error before the processor runs, the start of the processor, the
  write of its result or its panic, and what follows; jobs/jobmanager.go:707-766, 1056-1090, jobs/recovery.go:41-46, jobs/jobmanager.go:1304-1556.
- `Begin`, `CountQueued`, `CountInprog`, `TakeTally`, `CallMarkDone`, `Commit`, `Rollback`:
  jobs/batchsummary.go:22-325, jobs/jobmanager.go:1139-1265.
- `Sweep`: jobs/recovery.go:302-322 with jobs/pg/batchsqlc/batch.sql.go:469-477.
- `ReadIds`, `Reset`, `DeleteIds`, `Remove`: jobs/recovery.go:80-220 with
  jobs/pg/batchsqlc/batch.sql.go:597-601.  `Atomic` is all of it at once; `GiveUp` is a crash or
  an error between two of them.
- `Start`, `Stop`, `Crash`, `Expire`, `Deregister`: jobs/recovery.go:228-258 and 344-368, and
  what the environment does.

Row and batch records carry history that the tables do not have (last claimer, claims, resets,
started runs, commits, MarkDone calls, rows reset between the two counts); no step decides on it.

`jobs_structure`, `jobs_loop`, `jobs_noloss`, `jobs_summary`, `jobs_ownership`, `jobs_clean`,
`jobs_finality` and `jobs_rework` hold the inductive invariants, one concern each, and end in their
results; `jobs_history` says what the history fields count along a run and states the bounds over
the steps of a run.  `jobs_examples` holds concrete runs.  `jobs_manager` is one job manager as a class: the
loop over a block, the summary loop with its retries and the recovery loop, each proved against
what it leaves, and `jobs_refine` shows that the loop over a block, an attempt at a summary and a
recovery are runs of the protocol.  `jobs_batch` holds the calls of a batch's owner in the same way, `jobs_files` the assembly of
output files.

**The generator** (`di_*.dfy`).  `di_load` expands includes, `di_resolve` resolves dependencies
depth first, `di_names` chooses names, `di_plan` is the emitted Build function as a list of
statements with an interpreter, `di_intent` is what Build is meant to do, read off the resolved
graph alone, `di_emit` relates the two, `di_examples` has two graphs
for which it goes wrong, `di_generate` puts the parts together.  Types are keys with base names; Go syntax is not modelled.

**The timeout middleware** (`router_timeout.dfy`).  Handler and middleware goroutine with their
two buffered channels, the atomic flag and the request context, over all interleavings.

## Assumptions

- An instance registers and sets its heartbeat, in one step, before it claims rows.  A heartbeat
  is missing only for an instance that is dead or has stopped.  `Shutdown` runs after the loop has
  returned.
- `WaitOff` and `BatchAppend` are one atomic step each.  In the code their status check stands
  outside the transaction that writes (jobs/batch.go:410-421, jobs/batch.go:488-528).
- Processors return success, failed or aborted.  Statements and Redis calls succeed, and the set
  of tracked rows does not expire.
- Rows of an ordinary batch have a positive line in the table.  `BatchAppend` checks the line before
  it is cast to 32 bits, `BatchSubmit` does not check it.  A slow query is one row with line 0.
- App and op are attributes of the batch, so "all rows of the batch with the same app (and op)"
  means all rows of the batch.
- *Plain* runs, where a statement says so, have no abort and no configuration error; *clean* runs
  have recovery as one step besides.  All other statements are about every run.
- The model allows more than the code in places: a batch stays a candidate for summarisation, an
  attempt may be repeated without limit, and recovery and summarisation need no live process.
- File and object-store errors do not occur in a summary.

## Findings

- A batch can be done while one of its rows is queued: recovery may reset a row between the
  queued count and the inprog count, both of which then read zero.  In clean runs the rows left
  over are exactly those reset in that window (`PendingIsExactlyTheRace`).  From then on the
  counters add up to the number of rows exactly if there were none, and in an ordinary batch they
  are the tallies of the rows exactly as long as none of those has finished; once one has, never
  again (`SummaryAgreesIff`, `NeverAgreesAgain`).  Without such a reset a done batch has no pending row
  (`CalmFinished`); `DoneBatchWithQueuedRow` is a run.
- A crash after the claim has committed and before the row is tracked, or after the row is
  untracked and before its error handler has run, loses the row: it stays inprog and its batch is
  never done (`StrandedOnlyInWindows`, `StrandedForever`, `UntrackedClaimIsLost`).
- The comment at jobs/recovery.go:176-180 holds for finished rows only.  A second reset of the
  same dead instance takes a row from a live worker that has claimed it in between, and two
  workers then run it (`TwoOwnersWithSeparateRecovery`).  In plain runs every row that a worker has
  still to write is its own, throughout, exactly if no reset touches an inprog row whose last
  claimer is alive (`ExclusiveIff`).  An UPDATE that resets only rows last claimed by the instance
  being recovered would be enough (`GuardedIsExclusive`); recovery as one step is too
  (`CleanIsExclusive`).
- The name of a cleanup variable is not reserved.  With a type `CleanupFoo` beside a type `Foo`
  that has a cleanup, both use the local `cleanupFoo`, and the field `CleanupFoo` is set to the
  cleanup of `Foo` (`CleanupTakesLocal`).  Go's `:=` assigns to the earlier variable here and refuses
  the file unless `CleanupFoo` is a func type.  A bound concrete type that is also an input is built
  and then ignored (`InputTakesBinding`); the local of the built value, `dbValue` in that graph, is
  declared and not used, so Go refuses that file.
- Derived field names can coincide: `Foo`, `*Foo` and `Foo2` give `Foo2` twice (`FieldsCollide`).
- The documentation of the middleware says that a response the handler has written is used.  A
  body written without `WriteHeader` does not count, and a 504 follows (`BodyAloneIsNotSeen`).
- A panic before the deadline is not always raised again (`PanicMayBeSwallowed`).  While the select
  has the panic before it, the panic is the only thing it can take exactly as long as the handler
  goroutine has not signalled its end and the context is not done (`OnlyThePanicIff`); a panic goes
  by exactly if the select took one of the other two (`PanicRaisedIff`).
- `BatchAppend` checks a line and then casts it to 32 bits: 2^32 passes and is stored as 0, the mark
  of a slow query (`LargeLineIsLost`); a line is stored as given exactly if it fits (`LineKept`).
- `processBatchJob` stores the status that the processor returned even if it also returned an
  error, and the branch for an unknown configuration error is not reached by any error that the
  package makes; the model follows the code.

## Model

| member | source | states |
|---|---|---|
| BatchStructure.StepStructure | jobs/pg/batchsqlc/batch.sql.go:966-970 | every step keeps the shape of the tables (queued or waiting batch: all rows queued; doneat set exactly with a terminal status; block and lock bookkeeping) and never turns a terminal row back |
| BatchStructure.TerminalForever | jobs/pg/batchsqlc/batch.sql.go:597-601 | in every interleaving a terminal row stays terminal, and the pending rows of a batch not in wait only shrink while its set of rows is fixed |
| BatchStructure.NoStuckBatch | jobs/pg/batchsqlc/batch.sql.go:469-477 | a batch with rows and not in wait has a pending row, or is done, or is exactly one that the sweep query returns, in states left by any crash too |
| BatchLoop.StepLoops | jobs/jobmanager.go:624-662 | every step keeps: rows of a block whose iteration is over are terminal, and a recorded error key means that all rows of its batch are |
| BatchLoop.BlockCompletion | jobs/jobmanager.go:624-662 | when the loop over a block ends all its rows are terminal, and stay so, for any mix of results, panics and configuration errors |
| BatchLoop.EarlyReturnSkipsNothing | jobs/jobmanager.go:1428-1432 | returning early for a key seen before leaves no row of that batch unfinished |
| BatchNoLoss.StepInv | jobs/recovery.go:25-46 | every step, with recovery in separate crashable steps, keeps the account of where inprog rows are held |
| BatchNoLoss.NoRowLost | jobs/recovery.go:142-199 | every inprog row is in the unfinished block of the live instance that claimed it, or in the rows-set of that dead and still registered instance, or stranded |
| BatchNoLoss.StrandedOnlyInWindows | jobs/jobmanager.go:605-659 | a row becomes stranded only by a crash between claim commit and tracking, or between untracking and the error handler |
| BatchNoLoss.ResetNeverWaits | jobs/recovery.go:176-186 | in every reachable state a reset finds none of its rows locked by a summarisation |
| BatchNoLoss.LostRowComesBack | jobs/recovery.go:80-137 | in every reachable state an inprog row of a dead owner that is not stranded is queued again by one recovery after the heartbeat has expired, open summarisations or not |
| BatchSummary.StepInv | jobs/batchsummary.go:22-195 | every step keeps what an open summarisation knows at each of its statements while the batch record is locked |
| BatchSummary.CountPartition | jobs/batchsummary.go:327-339 | the three counters and the number of pending rows add up to the number of rows |
| BatchSummary.SummaryExactAtCommit | jobs/batchsummary.go:126-189 | in every interleaving a committed summary has the numbers of successful, failed and aborted rows, and the status is aborted if a row is aborted, else failed if a row is failed, else success; rows not counted are among those reset between the two counts |
| BatchSummary.FinishedMeansFinished | jobs/batchsummary.go:79-124 | once doneat is set it stays set, and pending rows of the batch, now and later, are among those reset between the two counts |
| BatchSummary.CalmFinished | jobs/batchsummary.go:79-124 | in a run without a reset between the two counts a done batch has no queued or inprog row |
| BatchSummary.AtMostOneSummary | jobs/batchsummary.go:22-61 | at most one summarisation of a batch commits, and MarkDone runs at most once more than it was followed by a lost transaction |
| BatchHistory.OneSummary | jobs/batchsummary.go:22-61 | in every run at most one step commits a summary of a batch, and MarkDone is called at most once more than a summary is rolled back |
| BatchOwnership.StepInv | jobs/jobmanager.go:482-662 | every plain step, with recovery in separate statements, keeps ownership if it resets no row of a live worker |
| BatchOwnership.LiveResetBreaks | jobs/pg/batchsqlc/batch.sql.go:597-601 | in every reachable state a reset of a live worker's row breaks ownership at once |
| BatchOwnership.ExclusiveIff | jobs/recovery.go:142-199 | along every plain run, with recovery in separate statements, each row that a worker has still to write is inprog, claimed last by it and nobody else's, throughout, exactly if no reset touches an inprog row whose last claimer is alive |
| BatchOwnership.GuardedIsExclusive | jobs/pg/batchsqlc/batch.sql.go:597-601 | a guard on the last claimer in the reset, which the UPDATE does not have, would make ownership hold throughout |
| BatchOwnership.WritesOnlyOwn | jobs/pg/batchsqlc/batch.sql.go:709-713 | while ownership holds a worker changes the status only of rows it has still to write, although the update has no guard |
| BatchClean.StepInv | jobs/recovery.go:80-199 | every clean step keeps ownership, what instances track and the fate of stranded rows |
| BatchClean.AtomicHitsOwn | jobs/pg/batchsqlc/batch.sql.go:597-601 | recovery of a dead instance as one step resets only rows that this instance claimed last, so it spares the live |
| BatchClean.CleanIsExclusive | jobs/recovery.go:142-199 | so ownership holds throughout every clean run |
| BatchClean.ExclusiveOwnership | jobs/jobmanager.go:482-662 | in clean runs a row that a live worker has still to write is inprog, is nobody else's to write, and is never reset by recovering a dead instance |
| BatchFinality.StepInv | jobs/batchsummary.go:126-195 | every clean step keeps what a committed summary has to do with the rows of its batch |
| BatchFinality.PendingIsExactlyTheRace | jobs/batchsummary.go:79-124 | in clean runs the rows still pending when a summary commits are exactly those reset between its counts, and the counters add up exactly when there are none |
| BatchFinality.SummaryAgreesIff | jobs/batchsummary.go:126-195 | in every clean state after the commit the counters add up to the number of rows exactly if none was raced, and in an ordinary batch are the tallies of the rows exactly as long as no raced row has finished |
| BatchFinality.NeverAgreesAgain | jobs/batchsummary.go:79-124 | once a raced row of an ordinary batch has finished, the counters are not the tallies of its rows in any later clean state |
| BatchFinality.SummaryFinality | jobs/batchsummary.go:126-195 | in clean runs the summary of an ordinary batch, committed without the race, agrees with its rows in every later state: the three numbers, and aborted before failed before success |
| BatchClean.StrandedForever | jobs/jobmanager.go:605-622 | a stranded row stays inprog in every clean continuation, and its batch is never done |
| BatchRework.ClaimsBounded | jobs/pg/batchsqlc/batch.sql.go:597-601 | in every interleaving a row is claimed at most once more than it was effectively reset |
| BatchRework.StepInv | jobs/jobmanager.go:482-662 | every clean step keeps the conservation of claims, resets and started processor runs |
| BatchRework.ReworkBounded | jobs/jobmanager.go:482-662 | in clean runs claims and processor runs, those cut off by a crash included, are at most the number of rows plus the block size for each crash |
| BatchHistory.RunCounts | jobs/jobmanager.go:482-662 | along every run the history fields count the starts of the processor, the claimed rows, the rows that went back to the queue, and no more instances than crashes |
| BatchHistory.RunsBounded | jobs/jobmanager.go:482-662 | in every clean run the steps that start the processor and the rows claimed are at most the number of rows plus the block size for each crash step |
| BatchExamples.SweepFinishes | jobs/recovery.go:302-322 | a batch that the sweep query returns can be summarised at once, with the counters and the status that its rows ask for |
| BatchExamples.DoneBatchWithQueuedRow | jobs/batchsummary.go:79-124 | a clean run that ends with a done batch and a queued row in it |
| BatchExamples.UntrackedClaimIsLost | jobs/jobmanager.go:605-622 | a crash before tracking leaves a row inprog in every clean continuation |
| BatchExamples.TwoOwnersWithSeparateRecovery | jobs/recovery.go:176-186 | a run in which the second of two recoveries resets the row of a live worker, which ends ownership, and the row goes to another live worker as well |
| JobManagers.IterationEndsRow | jobs/jobmanager.go:707-766 | an iteration ends its row, with the processor's status, or failed if there is none; any other row it changes was pending in the same batch and is failed, after a configuration error only |
| JobManagers.ConfigErrorEndsBatch | jobs/jobmanager.go:1391-1556 | a configuration error makes every row of the batch terminal and the batch failed and done, and changes no other finished row |
| JobManagers.RepeatedKeyIsIdempotent | jobs/jobmanager.go:1428-1432 | skipping a key seen before is the same as handling its error again |
| JobManagers.JobManager.ClaimBlock | jobs/jobmanager.go:513-594 | the rows of the block are in process, and so are those of its batches that were queued; nothing else changes |
| JobManagers.JobManager.TrackBlock | jobs/jobmanager.go:613-622 | the rows-set of the instance grows by the block, no other set changes |
| JobManagers.JobManager.ProcessBlock | jobs/jobmanager.go:624-662 | the loop leaves the tables that the outcomes of the block determine, and untracks every row |
| JobManagers.JobManager.RunOneIteration | jobs/jobmanager.go:419-705 | for any outcomes: each row of the block has its result or is failed; another row is failed exactly if it was pending in a batch with a configuration error; a batch is failed and done after such an error, has the result of its slow query, or is in process if it was queued; tracked rows and batches to summarise |
| JobManagers.BatchCompletes | jobs/jobmanager.go:624-662 | what each batch is after a block, said of the tables before it and the outcomes |
| JobManagers.IteratedIsNext | jobs/jobmanager.go:1391-1556 | one iteration extends the outcome of a prefix of the block by one row, errors seen before included |
| JobManagers.CalculateSummaryCounters | jobs/batchsummary.go:327-339 | the loop returns the numbers of successful, failed and aborted rows of the batch |
| JobManagers.SummaryIsFit | jobs/batchsummary.go:341-349 | the status is aborted if a row is aborted, else failed if a row is failed, else success |
| JobManagers.JobManager.SummarizeBatch | jobs/batchsummary.go:19-325 | one transaction summarises exactly a batch that is locked, not done, without pending rows and with an initialiser, and records what its rows ask for; which of the three other ends it has otherwise |
| JobManagers.JobManager.SummarizeWithRetries | jobs/jobmanager.go:1147-1257 | with the tables changing between the attempts, the first of five that neither misses the lock nor sees only rows in process decides, and the batch is summarised exactly if that one finds it ready |
| JobManagers.JobManager.SummarizeCompletedBatches | jobs/jobmanager.go:1139-1268 | for any order of the set and any tables found by the attempts, a batch gets the summary of the rows its deciding attempt sees and one MarkDone exactly when that attempt finds it ready |
| JobManagers.JobManager.RecoverRowsFromDeadInstance | jobs/recovery.go:142-199 | the inprog rows of the instance are queued, its set is deleted, and the size of the set is returned |
| JobManagers.JobManager.RecoverAbandonedRows | jobs/recovery.go:80-137 | exactly the registered instances without heartbeat other than this one lose their rows, set and entry; the result is the sum of the sizes of their sets, never less than the rows reset |
| BatchRefinement.RowRuns | jobs/jobmanager.go:628-662 | the protocol steps for one row lead to the tables, keys and tracked rows of the loop's iteration, in each of its cases |
| BatchRefinement.IterationIsRun | jobs/jobmanager.go:419-705 | an uninterrupted iteration is a run of the protocol that ends with the tables of RunOneIteration |
| BatchRefinement.SummaryRuns | jobs/batchsummary.go:22-325 | an uninterrupted attempt at a summary, whatever it finds, is a run of the protocol that ends with the tables of SummarizeBatch |
| BatchRefinement.RecoveryRuns | jobs/recovery.go:142-199 | read, reset, delete and deregister without interruption do what recovery as one step does |
| BatchCalls.BatchApi.BatchSubmit | jobs/batch.go:66-127 | adds the batch, queued or waiting, and for each input one queued row with its own line, as given if it fits into 32 bits; no other row is new or changed |
| BatchCalls.LineKept | jobs/batch.go:111 | a line is stored as given exactly if it fits into 32 bits, and else modulo 2^32 |
| BatchCalls.LargeLineIsLost | jobs/batch.go:433-443 | a line that passes the check and is stored as 0 |
| BatchCalls.BatchApi.BatchAppend | jobs/batch.go:402-478 | succeeds exactly for a batch in wait and positive lines, and adds each row with its own line; otherwise nothing changes, and the error is that of the first check that fails |
| BatchCalls.BatchApi.WaitOff | jobs/batch.go:480-542 | puts a batch in wait into the queue, leaves a queued one alone, refuses any other |
| BatchCalls.BatchApi.BatchAbort | jobs/batch.go:286-400 | aborts exactly the pending rows and records the tallies of all rows; a finished batch is left alone, one without pending rows is refused |
| BatchCalls.AbortIsStep | jobs/batch.go:286-400 | a successful abort is the protocol's step, and leaves no pending row in the batch |
| BatchCalls.SubmitIsStep | jobs/batch.go:66-127 | a submission whose stored lines are positive is the protocol's step, with each row's own line |
| BatchCalls.AppendIsStep | jobs/batch.go:402-478 | so is a successful append whose stored lines are positive |
| BatchCalls.WaitOffIsStep | jobs/batch.go:480-542 | the release of a batch in wait is the protocol's step, after which its rows can be claimed |
| OutputFiles.TrimSpaceCuts | jobs/batchsummary.go:400-403 | trimming removes exactly the white space at both ends |
| OutputFiles.NamesAreAsked | jobs/batchsummary.go:351-372 | a name has a file exactly when some row has a value other than the empty string for it |
| OutputFiles.NoContentDropped | jobs/batchsummary.go:389-415 | a file has text exactly when some row has text that is not blank for it, and then the first pass has made the file |
| OutputFiles.LineWritten | jobs/batchsummary.go:400-413 | a row adds its text without the white space at both ends and a newline, or nothing if it has only white space for the file |
| OutputFiles.ContentsInOrder | jobs/batchsummary.go:389-415 | what a row writes stands in the file right after all that earlier rows wrote |
| OutputFiles.CreateTemporaryFiles | jobs/batchsummary.go:351-375 | for any order of the maps, an empty file for each name with some non-empty value |
| OutputFiles.AppendBlobRowsToFiles | jobs/batchsummary.go:389-418 | for any order of the maps, each existing file is extended by its trimmed lines in row order; fails exactly on a value that is not a string |
| OutputFiles.AssembleFiles | jobs/batchsummary.go:157-170 | both passes together: which files exist and what they hold |
| DiModel.TableIgnoresOrder | cmd/alya-di/resolve.go:17-23 | the provider table does not depend on the order of declarations |
| DiLoader.ExpandableIff | cmd/alya-di/load.go:172-193 | expansion succeeds exactly when nothing reachable is malformed or missing and no include chain returns to a module |
| DiLoader.ErrorIsReal | cmd/alya-di/load.go:110-199 | an error names something malformed, missing or cyclic that some include path leads to |
| DiLoader.ExpansionInOrder | cmd/alya-di/load.go:124-171 | in each of the five lists the declarations of earlier options stand before those of later ones |
| DiLoader.IncludeInOrder | cmd/alya-di/load.go:172-193 | so do those of the modules named in one Include |
| DiLoader.OneExpansion | cmd/alya-di/load.go:124-193 | one option stands for its own declarations, or for those of the module it names |
| DiLoader.SeenIrrelevant | cmd/alya-di/load.go:185-192 | the set of modules on the path decides about cycles only, never about the result |
| DiLoader.IncludeIsInlining | cmd/alya-di/load.go:172-193 | including a module equals writing its options in the place of the Include |
| DiLoader.ExpandedTwiceIff | cmd/alya-di/load.go:172-193 | a module is expanded more than once exactly when two ways of includes, told apart by their positions, lead to it |
| DiLoader.ListedTwice | cmd/alya-di/load.go:172-193 | a module written twice in one list is reached in two ways |
| DiLoader.ProvidersRepeat | cmd/alya-di/load.go:148-153 | every expansion of a module adds its providers once more |
| DiLoader.DoubleIncludeIsAmbiguous | cmd/alya-di/load.go:172-193 | if a module with a provider is expanded more than once, two providers of the graph have the same key |
| DiLoader.Loader.MergeGraphExpr | cmd/alya-di/load.go:110-199 | each list of the shared model is followed by that of the depth-first expansion, or the first error is returned; ends because each include leaves fewer modules to enter |
| DiLoader.Loader.MergeIncludes | cmd/alya-di/load.go:172-193 | the same for the arguments of one Include |
| DiLoader.ParseGraph | cmd/alya-di/load.go:96-106 | succeeds exactly for a declared and expandable graph, with its expansion, in which declarations keep their order |
| DiResolver.ResolverState.ResolveDependency | cmd/alya-di/resolve.go:102-122 | an input wins over a binding and a binding over a provider of the type; the result is the input, or that of a provider which is by then in the order; an error names a defect that the type leads to |
| DiResolver.ResolverState.ResolveProvider | cmd/alya-di/resolve.go:125-150 | adds the provider after all it needs and nothing it does not need; a cycle error means a real cycle; ends because the unvisited provider types run out |
| DiResolver.ResolverState.MakeFieldName | cmd/alya-di/resolve.go:163-179 | the name of an output is its stem with its number among the outputs of that stem; a shared base name stands behind the package name |
| DiNames.FieldNameReads | cmd/alya-di/resolve.go:163-179 | a field is called by its custom name, or by the base name, after the package name exactly where another output has the same base name, and a number or nothing |
| DiResolver.OrderCertifies | cmd/alya-di/resolve.go:125-150 | an order in which dependencies come first contains everything its entries reach, and excludes cycles and missing types |
| DiResolver.ResolveGraph | cmd/alya-di/resolve.go:16-84 | succeeds exactly when no key is declared twice and everything reachable from outputs and invokes has a source and is acyclic; the order has exactly the required providers, dependencies first; each parameter and output has the declared input, else the bound type, else its own type as source |
| DiResolver.ResolvedIsWired | cmd/alya-di/resolve.go:57-84 | the same of any resolved graph, said of the lists of declarations alone |
| DiResolver.DeclarationOrderIrrelevant | cmd/alya-di/resolve.go:57-84 | the set of providers built does not depend on the order of declarations |
| DiNames.DecInjective | cmd/alya-di/emit.go:526-532 | different numbers have different suffixes |
| DiNames.DecReads | cmd/alya-di/emit.go:526-532 | a suffix reads as its number and has no leading zero |
| DiNames.UniqueLocalName | cmd/alya-di/emit.go:512-533 | the name itself if it is free, else with Value, else with Value and the least free number from 2 on; it is added, and the unbounded search ends |
| DiNames.CamelKeepsWords | cmd/alya-di/emit.go:615-633 | exactly the leading capitals become small, but for the one that starts a word |
| DiNames.ConfigLocals | cmd/alya-di/emit.go:554-597 | what a Config is called as a parameter, as a result and in its cleanup |
| DiNames.BuildInputVarNames | cmd/alya-di/emit.go:466-473 | input locals are given out in order, each the first free candidate; they are distinct and not reserved |
| DiNames.BuildProviderVarNames | cmd/alya-di/emit.go:476-486 | the same for provider locals, which are no input locals either |
| DiNames.FieldsDifferIff | cmd/alya-di/resolve.go:163-179 | derived fields are distinct exactly when no numbered stem reads like another stem, numbered or not |
| DiNames.PlainStemsDiffer | cmd/alya-di/resolve.go:163-179 | they are distinct when no stem ends in a digit |
| DiNames.FieldsCollide | cmd/alya-di/resolve.go:163-179 | three outputs with two fields of one name |
| DiPlan.CallStepsEffect | cmd/alya-di/emit.go:177-235 | what the statements of one provider or invoke do together, with and without an error |
| DiPlan.ArgCodesRoundTrip | cmd/alya-di/emit.go:241-251 | splitting the joined argument list gives the arguments back |
| DiEmitter.CallIs | cmd/alya-di/emit.go:177-235 | the emitted calls are those meant: function, arguments, error and cleanup results, locals |
| DiEmitter.RunReaches | cmd/alya-di/emit.go:148-160 | up to the first failing call the run goes on, every local holds its value or a later cleanup of the same name, and the stack holds the cleanups so far |
| DiEmitter.ReadFinds | cmd/alya-di/emit.go:546-551 | a reference finds the value of the resolved source exactly when the read is not misdirected |
| DiEmitter.LogMeantIff | cmd/alya-di/emit.go:537-551 | calls get the values of their resolved sources exactly when all their reads are clean |
| DiEmitter.FailureReturns | cmd/alya-di/emit.go:187-206 | a failing call ends Build with its error after running the cleanups registered before it, last first, and no later call |
| DiEmitter.CleanupsReverse | cmd/alya-di/emit.go:135-145 | the cleanup loop runs every registered cleanup once, in reverse order |
| DiEmitter.NeverUnset | cmd/alya-di/emit.go:95-170 | whatever fails, Build reads no variable that has not been set |
| DiEmitter.FaithfulIsCorrect | cmd/alya-di/emit.go:95-170 | if no read is misdirected Build does what the resolved graph asks for in every world: every call with the values of its sources, which calls can fail, fields, cleanups on failure, closure on success |
| DiEmitter.CorrectIffFaithful | cmd/alya-di/emit.go:95-170 | Build is correct in every world exactly when no read is misdirected |
| DiEmitter.PlainNamesAreFaithful | cmd/alya-di/emit.go:591-597 | no read is misdirected if no cleanup name is a local and no bound concrete type is an input |
| DiExamples.CleanupTakesLocal | cmd/alya-di/emit.go:591-597 | a graph that resolves and whose Build is wrong for every resolution and the locals it gets, because a cleanup variable takes the local of a provider |
| DiExamples.InputTakesBinding | cmd/alya-di/emit.go:546-551 | a graph that resolves and whose Build is wrong because a bound provider is built and the input of the same type is handed on |
| DiEmitter.EmitBuildFunc | cmd/alya-di/emit.go:95-170 | emits the program for the resolved graph with exactly the locals that the naming rules give; none is app, cleanups, err, runCleanups or an import alias |
| DiGenerator.Generate | cmd/alya-di/main.go:32-78 | generation succeeds exactly for declarations that expand to a resolvable graph, and then the program is the one the results about Build speak of |
| DiGenerator.DoubleIncludeIsRejected | cmd/alya-di/resolve.go:17-23 | a module with a provider to which two ways of includes lead, be it the same list twice, is never generated |
| TimeoutHandshake.TimeoutWriter.WriteHeader | router/timeout_middelware.go:35-46 | only the first header passes, and the flag says whether one did, as the step of the system does |
| TimeoutHandshake.TimeoutWriter.Conclude | router/timeout_middelware.go:228-263 | the middleware answers exactly if no header has passed, with the answer of the system, and one header has passed in the end |
| TimeoutHandshake.InvNext | router/timeout_middelware.go:184-268 | every step of either goroutine or of the context keeps the handshake invariant |
| TimeoutHandshake.SendsNeverBlock | router/timeout_middelware.go:181-200 | a send always finds its channel empty |
| TimeoutHandshake.LeavesAfterHandler | router/timeout_middelware.go:204-268 | the middleware leaves, and answers, only after the handler has returned or panicked |
| TimeoutHandshake.AnswerAfterDone | router/timeout_middelware.go:209-263 | after ctx.Done() nothing is written if WriteHeader was called, else 500 after a panic, else 504; in the other cases nothing |
| TimeoutHandshake.StepsRunOut | router/timeout_middelware.go:184-268 | once the handler is over, only finitely many steps are left |
| TimeoutHandshake.BothGoroutinesEnd | router/timeout_middelware.go:184-268 | and one is possible until both goroutines are done |
| TimeoutHandshake.PanicMayBeSwallowed | router/timeout_middelware.go:204-267 | a run in which a panic before the deadline is not raised again |
| TimeoutHandshake.OnlyThePanicIff | router/timeout_middelware.go:204-267 | with a panic before it the select can take nothing else exactly if finCh is empty and the context is not done |
| TimeoutHandshake.PanicRaisedIff | router/timeout_middelware.go:204-267 | in every run the branch that the select took decides how the middleware leaves: the panic is raised again exactly if that branch was panicCh, and if finCh was taken the panic was there as well |
| TimeoutHandshake.PanicSentIff | router/timeout_middelware.go:184-200 | in every run a panic is sent exactly if the middleware had not set its flag when the deferred function looked |
| TimeoutHandshake.BodyAloneIsNotSeen | router/timeout_middelware.go:243-263 | a run in which a handler that wrote a body gets a 504 on top |

## Left out

- Redis status and summary caches and their expiries: they are written before the commit and only bound staleness.
- `SlowQueryAbort`, `SlowQueryDone`, `getBatchDetails`: the abort issues its statements outside its transaction, the rest reads caches.
- The panic counter, sleeps and init-block caching of `Run`: the inner layer recovers every panic.
- Failing statements, lost Redis writes and the expiry of the rows-set: see the assumptions.
- The order of rows inside a block in the protocol, which keeps a block as a set; `jobs_manager` has the sequence.
- An empty batch: it stays queued for ever in the code and in the model; `NoStuckBatch` speaks of batches with rows.
- `BatchDone` and `BatchStatus`: they read.
- Object store, file creation errors, JSON encoding, logging.
- Go syntax in alya-di (type tokens, signatures, rendering): an option is what its parser makes of it, and case changes are those of ASCII.
- JobManagers.JobManager.SummarizeCompletedBatches: does not tie the tables that one attempt finds to those of the attempt before, so what it says holds whatever the other workers do in between.
- Whether the generated file compiles: an error-returning invoke declares `err` again, a type called `Type` gives a keyword as local, a type called `s` with a cleanup gives `cleanups`.
- Custom field names given twice: the Go compiler reports them.
- Cancellation points of the loop: between blocks a cancelled loop is one that stops.
- BatchSummary.SummaryExactAtCommit: does not say that the counters add up to the number of rows, because rows that recovery resets between the two counts are pending; `BatchFinality.PendingIsExactlyTheRace` gives the exact condition in clean runs.
- BatchClean.ExclusiveOwnership: speaks of recovery as one step only; `BatchOwnership.ExclusiveIff` gives the exact condition for separate steps.
