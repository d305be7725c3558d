# A verified model of the ephy worker

The repository is a bounded job executor: a manager that hands jobs to workers under leases and budgets, a consumer
that records the outcome of a reviewed experiment in a crash-safe journal, a Discord bridge with a durable inbox, and
the exact text and evidence algorithms these parts rest on. This project states what those parts do as Dafny functions,
classes and step systems, and proves what they promise.

How it is arranged (one module for each component, most in a file of the same name):

| files | component |
|---|---|
| `Store`, `Operations`, `Runs`, `Lifecycle`, `Lineage`, `Retention`, `Scheduler`, `Artifacts`, `Answers`, `Manager`, `Budget`, `Sums` | the job manager's tables, what each operation does to them, runs of operations, and five families of invariants; each operation's answer told in the fields of the tables; the manager as a class; the worker's budget |
| `Consumer`, `Journal`, `Sidecar`, `JournalProofs`, `Records` | the consumer's write-ahead journal over a directory, with a crash possible before any file step, and what its records say |
| `Ledger`, `Inbox`, `BridgeRuns` | the bridge's inbox, each transaction told row by row, and its use by any number of processes that may die |
| `Text`, `Fences`, `FenceMarks`, `Splitter`, `Parts`, `EventStream`, `EventChunks`, `Seqs`, `Options` | splitting a message under a UTF-16 bound without breaking fence lines, and reading a chunked event stream |
| `Origins`, `Ties`, `Quotes`, `Spacing`, `Extraction`, `Located`, `Review`, `Verdicts` | grouping sources by shared origin, aligning quotes, cutting passages, and the review gate |
| `Activity`, `Figures`, `Observer` | the activity summary, the check of a reported observation, and the paginated scan |
| `Campaign` | the resumable campaign of finitely many jobs |

Conventions. A digest is an injective function and stands for the content itself; strings of text are sequences of code
points, so that unpaired surrogates can occur; times are integers (microseconds where seconds and days matter) and every
operation reads the clock once, at any value, not necessarily ascending; random identifiers are arguments that were never
issued before; arguments are authenticated and well typed, which for requests means that the ranges declared in
`contracts.py` and `schema.py` hold. An operation of the manager is one atomic step, as its lock makes it; a file write,
rename or unlink of the journal and of the campaign is one atomic step, and the process may die before each of them.

A function that says what an operation does is also told without it: the lemmas named `...Exactly` and `...Tell(s)` give its
result in the fields of its inputs, both ways, so that the operation's method and its specification cannot go wrong
together.

Where the code does something a reader may not expect, the model follows the code and says exactly when:

- A retry of a job that has used up its model requests, and nothing else that is looked at, is refused as an invalid
  payload rather than for lack of budget; apart from a key that is too long nothing else is refused so
  (`Lineage.RetryAllowedExactly`).
- Deleting a job hands what it and every job below it counted for back to its lineage, although the jobs below it stay
  stored: they belong to no lineage any more (`Lineage.DeletionFreesBudget`). So the bound on a lineage speaks of the
  jobs that still hang below its root.
- The event reader normalises line ends in a buffer whose second half may arrive later: the blocks and the remainder of
  a stream depend on how it is cut if and only if it contains CR CR LF (`EventStream.ChunkingInvariantIff`); the blocks
  alone, if and only if taking out every carriage return before a line feed, rather than one of each row, gives other
  blocks (`EventChunks.BlocksInvariantIff`).
- A first consumer call that records a failure leaves a directory that some later call for the job gets past if and only
  if the payload is the pinned one, names the candidate, and pins exactly the job's artifacts and the metadata of the
  call (`JournalProofs.FirstFailureExactly`). Otherwise no call, whoever makes it and with whatever status, is ever
  answered with a record again; after a payload that is not the pinned one no call even changes a file
  (`JournalProofs.MispinnedIsStuck`). A first call that dies before it records anything can have the same effect: for
  every directory that calls and deaths lead to, `JournalProofs.AnswerableExactly` reads off its files whether some
  later call can be answered.
- At limit 1 a message with a character outside the basic plane cannot be split (`Splitter.Split`).
- A claim of execution for a message that never had an inbox row can take the place set aside for one that has
  (`BridgeRuns.ClaimRoom`).

## Model

| member | source | states |
|---|---|---|
| Operations.RootStored | src/ephy_worker/manager.py:361-368 | the parent walk, when it ends, ends at a stored job without a parent, which is its own root |
| JobManager.Manager.RootJob | src/ephy_worker/manager.py:361-368 | the loop over parents terminates and returns the root, or nothing when an ancestor has been deleted |
| JobManager.Manager.LineageUse | src/ephy_worker/manager.py:380-401 | the accumulating loop returns, for each resource, the sum of what every job of the lineage counts for |
| JobManager.Manager.ValidateChildAllocation | src/ephy_worker/manager.py:370-414 | refuses a child exactly as the specification does: parent still open, ancestor gone, deadline past the root's, or an allowance beyond what is left |
| JobManager.Manager.Submit | src/ephy_worker/manager.py:417-461 | new tables and answer are those of the specification: one job for a key, conflict on another input, insertion otherwise; the invariant is kept |
| Answers.SubmitExactly | src/ephy_worker/manager.py:370-461 | told in the tables: the one job of a known key or a conflict; for a new key each refusal exactly when the parent is the first thing wrong (unknown, not ended, below a deleted job, deadline, allowance, kind), else a queued job with just what was asked and its deadline |
| Answers.ChargesExactly | src/ephy_worker/manager.py:380-401 | a lineage is charged what each of its jobs reported, and for each below the root that has not reported and was not cancelled its whole allowance; nothing else |
| JobManager.Manager.FirstEligible | src/ephy_worker/manager.py:300-311 | returns an eligible worker that no eligible worker comes before, and nothing only when none is eligible |
| JobManager.Manager.OpenRows | src/ephy_worker/manager.py:486-494 | lists exactly the open jobs of a worker, oldest first |
| JobManager.Manager.NextRow | src/ephy_worker/manager.py:495-504 | the candidate loop finds the oldest job the worker may take, and none only when there is none |
| JobManager.Manager.Claim | src/ephy_worker/manager.py:464-540 | new tables and answer are those of the specification of a claim; the invariant is kept |
| Answers.ClaimExactly | src/ephy_worker/manager.py:464-540 | a worker is given a job exactly when it is there, speaks contract 4, has room and some job waits for it; it is the oldest, and runs under a new attempt with the lease time; else nothing changes |
| Answers.LeadsExactly | src/ephy_worker/manager.py:300-311 | a worker is first for a job exactly when it is eligible and every eligible one is more loaded, or as loaded and later assigned, or that too and later by name |
| Answers.RegisterExactly | src/ephy_worker/manager.py:203-235 | a registered worker is eligible until it has been silent for too long, by what it said of itself |
| JobManager.Manager.RenewLease | src/ephy_worker/manager.py:550-577 | every refusal and answer of the renewal, and the lease it writes, as the specification has them |
| Answers.RenewExactly | src/ephy_worker/manager.py:550-577 | each refusal and answer exactly when it is due; a renewed lease runs to the lease time from now or to the deadline, whichever is earlier, and nothing else changes |
| JobManager.Manager.Cancel | src/ephy_worker/manager.py:580-595 | a queued job is cancelled at once, a running one is asked to stop, a terminal one is left alone |
| Answers.CancelExactly | src/ephy_worker/manager.py:580-595 | the answer is the state left: cancelled from queued, with the requester as reason, asked to stop from running, any other as it was; nothing else changes |
| JobManager.Manager.CheckManifest | src/ephy_worker/manager.py:640-654 | the loop finds the first manifest entry without a stored row of this attempt, or with one that differs |
| JobManager.Manager.Judge | src/ephy_worker/manager.py:619-654 | the checks of a result in their order, and the state it leads to, as the specification has them; which state that is: Answers.FinalizeExactly |
| JobManager.Manager.Finalize | src/ephy_worker/manager.py:598-672 | new tables and answer are those of the specification, a repeated result included; the invariant is kept; what they are: Answers.FinalizeExactly, Answers.FinalizeRefusals |
| Answers.FinalizeExactly | src/ephy_worker/manager.py:598-672 | the tables change exactly for an acceptable result (lease held and alive, its own job and attempt, mode, observation in order, status fit for the state, every manifest entry stored); then the job is completed for a success, partial for a partial result, failed for a failure, cancelled for a cancellation, keeps the result, and an observation is kept for thirty days |
| Answers.FinalizeRefusals | src/ephy_worker/manager.py:598-656 | each refusal of a result exactly when it is due, and the answer to a repeated one |
| Answers.ManifestExactly | src/ephy_worker/manager.py:640-654 | a manifest is accepted exactly if every entry is a stored row of the attempt; else the first bad entry decides whether it is missing or differs |
| Answers.StateIsResult | src/ephy_worker/manager.py:598-672 | in every state of every run a job whose result is kept is completed if and only if that result succeeded, partial if and only if it is partial, failed if and only if it failed, cancelled if and only if it was cancelled |
| Answers.EndsByResult | src/ephy_worker/manager.py:598-672 | a step makes a job completed, partial or failed only by finalizing it, while it runs, with a result of that very status |
| JobManager.Manager.Retry | src/ephy_worker/manager.py:675-739 | the refusals of a retry and the submission it makes of what is left |
| Answers.RetryAsks | src/ephy_worker/manager.py:692-738 | what a retry asks for: the same input and target, allowances that with what was used and one search and one fetch are the old ones, the time left up to an hour, and a key with the number of the retry |
| Answers.RetryExactly | src/ephy_worker/manager.py:675-739 | each refusal of a retry exactly when it is due; whatever passes is submitted |
| Answers.DigitsExactly | src/ephy_worker/manager.py:730-739 | the number in that key reads as the number and has no leading zero |
| JobManager.Manager.DeleteJob | src/ephy_worker/manager.py:742-764 | removes the job's rows and files and no others |
| Answers.DeleteExactly | src/ephy_worker/manager.py:742-764 | an ended job goes with its attempts, artifacts, observation entry and files; every other row and file stays as it was; a job that has not ended is refused |
| JobManager.Manager.ExpireObservations | src/ephy_worker/manager.py:810-831 | the loop over outdated observations drops their results, rows and files and no others |
| Answers.ExpireExactly | src/ephy_worker/manager.py:810-831 | exactly the observations whose time is up lose result, entry, rows and files; all others stay as they were |
| JobManager.Manager.CheckUpload | src/ephy_worker/manager.py:852-909 | the checks of an upload in their order |
| JobManager.Manager.AddArtifact | src/ephy_worker/manager.py:840-940 | new tables and answer are those of the specification of an upload |
| Answers.UploadExactly | src/ephy_worker/manager.py:840-940 | an upload is taken exactly if it is what was announced, under a plain name and a known type, by the holder of the living lease, and is the row already stored or new with room for it; only a new one writes a row and a file |
| Answers.UploadRefusals | src/ephy_worker/manager.py:852-880 | each refusal before the lease is looked at exactly when it is due |
| Answers.UploadLateRefusals | src/ephy_worker/manager.py:880-925 | each refusal of the holder of the lease exactly when it is due |
| JobManager.Manager.SweepOnce | src/ephy_worker/manager.py:969-1007 | expiry, lost leases, passed deadlines and absent workers, as the specification has them |
| Answers.SweepExactly | src/ephy_worker/manager.py:969-1007 | after expiry exactly the running jobs with a lease run out and the queued ones past their deadline are lost, each with its reason, and exactly the silent workers are offline |
| Lifecycle.RunKeeps | src/ephy_worker/manager.py:463-672 | in every state of every run: jobs, attempts, leases, parents and keys fit together |
| Lifecycle.RunAdvances | src/ephy_worker/manager.py:463-672 | over any stretch of a run terminal states are absorbing, a job asked to stop only becomes cancelled, a claimed job keeps its attempt and worker, none is queued again and no deleted job returns |
| Lifecycle.ClaimedOnce | src/ephy_worker/manager.py:464-540 | in any run no job is handed out twice |
| Lifecycle.OneAttempt | src/ephy_worker/manager.py:505-524 | two attempts of one job are the same attempt, its first |
| Lifecycle.OnlyOwnWorkerCancels | src/ephy_worker/manager.py:580-635 | a job becomes cancelled only by request while queued, or by the result of its own worker, holding the unexpired lease of its own attempt, after it was asked to stop |
| Lifecycle.AcceptedInTime | src/ephy_worker/manager.py:598-672 | a result is accepted only from the job's own worker, no later than its lease, and before the deadline plus the lease time |
| Lifecycle.StoredObservationBalances | src/ephy_worker/manager.py:623-624 | an observation the manager stores accounts for every message in each breakdown and reports no searches, no model requests and no more fetches than its budget |
| Lifecycle.KeptObservationsBalance | src/ephy_worker/manager.py:598-672 | in every state of every run each observation result that is still kept is such a one |
| Lifecycle.RunTerms | src/ephy_worker/contracts.py:144-158 | in every state of every run each stored job's budget is in range and its observed channels are distinct, retries included |
| Lifecycle.SweepSettles | src/ephy_worker/manager.py:969-992 | a sweep at or past the deadline plus the lease time leaves the job terminal or waiting for its worker's confirmation |
| Lifecycle.SettledForGood | src/ephy_worker/manager.py:969-992 | and so it stays in every later state of the run |
| Lineage.BudgetConserved | src/ephy_worker/manager.py:370-414 | in every state of a run with honest reports, what a collecting root and its descendants used or may still use is within the root's search, fetch and model budget, and no descendant's deadline is later than the root's |
| Lineage.ObservingConserved | src/ephy_worker/manager.py:370-414 | whatever its workers report, an observing lineage stays within its root's three allowances as long as retention has dropped no result of it |
| Retention.RetentionFreesNothing | src/ephy_worker/manager.py:810-831 | while the clock does not go back, what the stored jobs of an observing lineage have ever reported, dropped results included, or may still report stays within the root's three allowances |
| Retention.ReportedForGood | src/ephy_worker/manager.py:810-831 | the account of what was ever reported keeps each job's result as long as the job is stored |
| Retention.DroppedLate | src/ephy_worker/manager.py:810-831 | when retention drops a result, the deadline of the lineage's root has passed |
| Lineage.StepConserves | src/ephy_worker/manager.py:370-414 | every operation keeps that bound |
| Lineage.BelowRoot | src/ephy_worker/manager.py:371-372 | a job below a root has the root's kind, and only ended jobs have others below them |
| Lineage.AlwaysRooted | src/ephy_worker/manager.py:361-368 | while no ancestor is deleted every job hangs below a root and its parent has ended |
| Lineage.DeletionFreesBudget | src/ephy_worker/manager.py:742-764 | deleting any ended job lowers each lineage's sum by exactly what it and the jobs below it counted for; the walks of those jobs end nowhere from then on, all others where they did |
| Lineage.RetryShrinks | src/ephy_worker/manager.py:692-739 | a retry gets fewer fetches than what it retries, fewer searches unless it observes, no more model requests and no later deadline |
| Lineage.RetriesEnd | src/ephy_worker/manager.py:675-739 | a chain of retries in a run is shorter than the first job's fetch budget |
| Lineage.RetryAllowedExactly | src/ephy_worker/manager.py:675-738 | a retry of a valid job passes its own checks if and only if the job ended short of success with a result or in time, thirty seconds, one of each allowance and one model request are left and the key is short enough; it is refused as an invalid payload if and only if all of that is in order but the model request or the key |
| Budgets.Budget.TakeUp | src/ephy_worker/budget.py:34-39 | a draw is refused when the time or the limit is exceeded and otherwise moves its counter |
| Budgets.Budget.AddQuery | src/ephy_worker/budget.py:41-47 | a known query is free, a new one is paid for before it is remembered |
| Budgets.Budget.AddSource | src/ephy_worker/budget.py:49-54 | the same for sources |
| Budgets.TakeExactly | src/ephy_worker/budget.py:34-39 | a draw goes through exactly if time is left and its own limit is not passed, and moves its own counter and no other |
| Budgets.KeyExactly | src/ephy_worker/budget.py:41-54 | a known query or source is free at any time; a new one goes through exactly if one more may be drawn, and is known from then on |
| Budgets.NeverOverdrawn | src/ephy_worker/budget.py:34-54 | after any sequence of calls each counter is exactly what went through and within its limit, and so are the numbers of distinct queries and sources |
| Budgets.KnownKeyIsFree | src/ephy_worker/budget.py:41-47 | a query once paid for stays free whatever is called in between |
| Budgets.SnapshotIsHonest | src/ephy_worker/budget.py:56-66 | a worker that reports its counters reports no more than its job's budget, as the lineage bound supposes |
| Scheduler.OneTaker | src/ephy_worker/manager.py:495-504 | in one state and at one time at most one worker may take a given job that is for any worker |
| Scheduler.LeaderExists | src/ephy_worker/manager.py:300-311 | if some worker is eligible, one of them comes first |
| Scheduler.Progress | src/ephy_worker/manager.py:464-540 | in every state of every run: while a live queued job for any worker has an eligible worker, one such worker leads and its next claim returns a job |
| Scheduler.TakerClaims | src/ephy_worker/manager.py:464-504 | a worker with room that may take some job is given one, the oldest |
| Scheduler.ClaimIsLeastLoaded | src/ephy_worker/manager.py:300-311 | a job for any worker goes to a worker whose load is no greater than any other eligible one's |
| Scheduler.WithinConcurrency | src/ephy_worker/manager.py:477-483 | in any run a worker's active jobs never exceed some concurrency it had registered |
| Artifacts.ArtifactsIntact | src/ephy_worker/manager.py:840-940 | in every state of every run: bytes and count of a job's artifacts are within their limits, names unique, every row's file has the row's digest and size, and every manifest entry of a kept result is such a row |
| Artifacts.StepStores | src/ephy_worker/manager.py:598-940 | every operation keeps that |
| Artifacts.ManifestReadsBack | src/ephy_worker/manager.py:640-662 | the file a kept result names reads back as the bytes it was accepted with |
| Activity.AcceptedConserves | src/ephy_worker/manager.py:768-808 | an accepted observation counts every message once by channel, by date and by coverage; each 7-day figure is at most its 30-day counterpart; the window spans at most 31 dates, 30 if it ends at midnight |
| Figures.AcceptedExactly | src/ephy_worker/manager.py:768-808 | a reported observation is accepted if and only if its scope is the job's, it was made in the job's time, a success is a complete one, only fetches were used within the budget, no channel has too many messages and all figures are those of the messages; and each refusal when it is the first thing wrong |
| Figures.WrittenExactly | src/ephy_worker/discord_observer.py:52-73 | the figures of messages and authors in a summary are the numbers of messages in the period, by people, bots, operators and others |
| Figures.RepliesExactly | src/ephy_worker/discord_observer.py:52-73 | the same for replies and for what was begun |
| Figures.ChannelsExactly | src/ephy_worker/discord_observer.py:52-73 | each channel asked for, in order, with its messages and authors in the period |
| Figures.DaysExactly | src/ephy_worker/discord_observer.py:52-73 | exactly the dates with messages in the period, ascending, with their numbers |
| Activity.DailyExact | src/ephy_worker/discord_observer.py:52-73 | the daily list ascends and holds exactly the dates with messages, with their numbers |
| Activity.WindowDates | src/ephy_worker/contracts.py:345-360 | messages of a 30-day half-open window fall on at most 31 dates, 30 if it ends at midnight |
| Activity.SummaryBalanced | src/ephy_worker/discord_observer.py:52-73 | the figures of a period account for each other, the channel and daily breakdowns included |
| Activity.ShorterWithin | src/ephy_worker/discord_observer.py:52-73 | each figure of the 7-day summary is at most that of the 30-day one |
| JournalSidecar.Sidecar.FinishTransaction | src/ephy_worker/karte_experiment_job.py:264-271 | the file steps of finishing a transaction, each survived or not, leave the directory of the specification |
| JournalSidecar.Sidecar.CommitState | src/ephy_worker/karte_experiment_job.py:274-291 | the same for journalling and committing a state |
| JournalSidecar.Sidecar.RecoverTransaction | src/ephy_worker/karte_experiment_job.py:294-368 | the same for recovery |
| JournalSidecar.Sidecar.RecordResult | src/ephy_worker/karte_experiment_job.py:512-676 | the same for a whole call; what is recorded and answered: Records.RunTells, Records.RunReplies |
| Records.RunTells | src/ephy_worker/karte_experiment_job.py:90-98 | after any calls and deaths a committed record is cancelled if and only if it was or its job was; else failed if and only if the phase is rejected, conflict or invalid, the worker halted, or the job ended in one of the four failures; else pending review; and its observation is what its status says about the pinned payload |
| Records.RunReplies | src/ephy_worker/karte_experiment_job.py:512-676 | after any calls and deaths every answer is such a record, and the committed one |
| Records.RepliesTell | src/ephy_worker/karte_experiment_job.py:600-676 | an answer is marked as a duplicate if and only if it was committed before; a new one is made from this call's status, inputs and times |
| Records.AnsweredExactly | src/ephy_worker/karte_experiment_consumer.py:285-460 | in a directory in order, with life enough, a call is answered if and only if its inputs name one target, which is the job's, its status fits them with a receipt just for a last phase, and it may come after what was observed |
| Records.CancellationTold | src/ephy_worker/karte_experiment_job.py:626-638 | an answer is cancelled if and only if cancellation is asked for now, by the job, or was recorded before |
| Records.LatchesTell | src/ephy_worker/karte_experiment_job.py:101-120 | a directory in order has a terminal latch exactly for a last phase, with its receipt, and a cancellation latch exactly for a cancelled observation |
| Records.RefusalTold | src/ephy_worker/karte_experiment_job.py:646-671 | a status that cannot be taken leaves a failed record the first time, and after a verified one a report beside the unchanged record |
| JournalProofs.RecoveryIsAtomic | src/ephy_worker/karte_experiment_job.py:294-368 | recovery of any journaled directory is never refused; it ends in the committed record with latches that agree, or dies in a directory that recovers to the same |
| JournalProofs.RecoveryIsIdempotent | src/ephy_worker/karte_experiment_job.py:294-368 | after recovery nothing is left to recover |
| JournalProofs.JournaledIsRecoverable | src/ephy_worker/karte_experiment_job.py:294-336 | every journaled directory passes the recovery checks, and fails them when the inputs are not confirmed |
| JournalProofs.CommitEffect | src/ephy_worker/karte_experiment_job.py:274-291 | a commit ends before or after the transaction, or in a directory that recovers to after; with enough life it is done |
| JournalProofs.CallIsAtomic | src/ephy_worker/karte_experiment_job.py:512-676 | a call in any context from any reachable directory, dying anywhere, leaves a reachable one whose committed record is the old one, the new one, or a first failure; a failure never alters a verified record, and an answer names the committed record |
| JournalProofs.ForeignCallFails | src/ephy_worker/karte_experiment_job.py:184-262 | once anything is committed, a call with another candidate, pin, payload, metadata or reading of the job fails and changes no file |
| JournalProofs.AcceptableStatusCommits | src/ephy_worker/karte_experiment_job.py:565-676 | an acceptable status is recorded by a call that lives long enough |
| JournalProofs.RunInv | src/ephy_worker/karte_experiment_job.py:512-676 | every directory reached by calls, each in its own context, and by deaths is quiet or journaled in some context, or holds a mispinned first failure |
| JournalProofs.HistoryIsMonotone | src/ephy_worker/karte_experiment_consumer.py:446-460 | over any calls and deaths, whoever makes the calls, the target never changes, phases only advance, a terminal phase keeps its receipt, and cancellation stays |
| Records.HistoryTells | src/ephy_worker/karte_experiment_consumer.py:425-460 | the same history in plain words: the target stays, a last phase stays with its receipt, pending never goes back to prepared, cancelled stays cancelled |
| JournalProofs.EveryRunRecovers | src/ephy_worker/karte_experiment_job.py:294-368 | whatever calls and deaths happened, recovery leads to a quiet directory, unless the first failure was mispinned |
| JournalProofs.ReplayIsNoOp | src/ephy_worker/karte_experiment_job.py:565-600 | the same status again changes no file and is reported as a duplicate |
| JournalProofs.FirstFailureExactly | src/ephy_worker/karte_experiment_job.py:512-676 | after a first call that recorded a failure some later call for a job is answered with a record if and only if it is the same job and the payload is the pinned one, names the candidate and pins the job's artifacts and the metadata |
| JournalProofs.AnswerableExactly | src/ephy_worker/karte_experiment_job.py:512-676 | for every directory reached by calls and deaths: some later call for the job is answered if and only if the record that counts is the job's own and is verified or was made from inputs that can be consumed, or, without a record, the inputs retained so far can be consumed |
| JournalProofs.MispinnedIsStuck | src/ephy_worker/karte_experiment_job.py:123-262 | after a first call whose payload is not the pinned one every later call, in whatever context, fails and changes nothing |
| BridgeStore.BridgeLedger.Enqueue | src/ephy_worker/discord_runtime.py:613-625 | a message with a row or a request is not stored again; capacity is checked before storing |
| Inbox.EnqueueExactly | src/ephy_worker/discord_runtime.py:599-625 | a message without row or request is stored last, pending and without receipt, if and only if fewer than 128 rows wait and requests and unbegun rows are fewer than 10000 together; the first that fails is named |
| BridgeStore.BridgeLedger.ClaimNext | src/ephy_worker/discord_runtime.py:637-652 | the first pending row is handed out unless its owner lives |
| Inbox.ClaimNextExactly | src/ephy_worker/discord_runtime.py:637-652 | a row is handed out exactly if the first pending one has no living owner; it is that row and becomes the asker's |
| BridgeStore.BridgeLedger.InboxUpdate | src/ephy_worker/discord_runtime.py:654-662 | receipt, completion with pruning, and release of a message's row |
| Inbox.UpdateExactly | src/ephy_worker/discord_runtime.py:654-662 | a receipt or release is written into the rows of the message and into no other |
| Inbox.EndExactly | src/ephy_worker/discord_runtime.py:654-662 | ending a message marks its rows, clears their text and keeps of all rows the pending ones and the last 10000 finished ones |
| Inbox.ReopenExactly | src/ephy_worker/discord_runtime.py:591-596 | opening the ledger clears the text of finished rows and keeps of all rows the same |
| BridgeStore.BridgeLedger.Claim | src/ephy_worker/discord_runtime.py:685-693 | a message may begin once, while there is room |
| Inbox.ClaimExactly | src/ephy_worker/discord_runtime.py:685-693 | a message begins exactly if it has not begun and fewer than 10000 requests are kept |
| BridgeRuns.RunKeeps | src/ephy_worker/discord_runtime.py:878-982 | in every state of every run of processes that may die: rows in order of arrival, finished ones first, each pending row with at most one living owner, executions in order |
| BridgeRuns.BegunOnce | src/ephy_worker/discord_runtime.py:685-693 | no message is ever begun twice and the history of beginnings only grows |
| BridgeRuns.BegunInOrder | src/ephy_worker/discord_runtime.py:637-652 | executions begin in order of arrival, and every pending row comes after them |
| BridgeRuns.HeadOfLine | src/ephy_worker/discord_runtime.py:878-982 | whoever works on a pending row has only finished rows before it, and no other bridge works on a pending row |
| BridgeRuns.TakeoverSucceeds | src/ephy_worker/discord_runtime.py:643-652 | the head row of a dead owner is handed to whoever asks |
| BridgeRuns.AdmittedHasRoom | src/ephy_worker/discord_runtime.py:599-605 | while every claim outside the inbox loop is for a message that has begun, has a pending row or leaves a place to spare: at most 128 rows wait, requests and reserved rows stay within 10000, and the claim of an admitted message never finds the ledger full |
| BridgeRuns.RunRoom | src/ephy_worker/discord_runtime.py:599-605 | the reservation holds throughout a run if and only if every claim outside the inbox loop fits where it is made |
| BridgeRuns.ClaimRoom | src/ephy_worker/discord_runtime.py:685-693 | a claim keeps the reservation if and only if the message is known or pending, a place is free, or the claim fails as full |
| BridgeRuns.PruneCounts | src/ephy_worker/discord_runtime.py:594-596 | pruning loses no pending row and keeps at most 10000 finished ones |
| Fences.DelimsExact | src/ephy_worker/discord_runtime.py:204-209 | the fence lines found are exactly the lines that are fence lines |
| Fences.Scan | src/ephy_worker/discord_runtime.py:210-232 | the pushing and popping loop records exactly the usable delimiters of the specification |
| FenceMarks.MarksExactly | src/ephy_worker/discord_runtime.py:204-232 | a line is recorded if and only if it opens a fence that is kept where none is open, or ends the kept fence that is; a fence is kept if its lines leave half of a message and its end fits behind its opening line |
| FenceMarks.FenceLineExactly | src/ephy_worker/discord_runtime.py:207 | a line is a fence line if and only if it begins with at most three spaces and at least three backticks or three tildes |
| FenceMarks.DelimReads | src/ephy_worker/discord_runtime.py:207-208 | the row, what stands behind it and the end that are read off a fence line |
| Fences.MarksWellMarked | src/ephy_worker/discord_runtime.py:204-232 | the recorded spans are ordered, apart from each other, and leave room for their own openers and closers |
| Splitter.AlwaysProgress | src/ephy_worker/discord_runtime.py:234-262 | at limit 2 and above some end is always allowed, so the search for an end cannot fail |
| Splitter.NoRoomForAstral | src/ephy_worker/discord_runtime.py:253-262 | at limit 1 no part can start at a character of two units |
| Splitter.HardEnd | src/ephy_worker/discord_runtime.py:244-262 | the backing-off loop finds the last allowed end, and none only when there is none |
| Splitter.SoftEnd | src/ephy_worker/discord_runtime.py:263-268 | the loop over patterns finds the preferred allowed end |
| Splitter.Split | src/ephy_worker/discord_runtime.py:192-275 | when each error is raised, exactly; a short text is returned whole; otherwise every part is cut at the preferred allowed end, never inside a recorded fence line; what a part begins and ends with: Parts.PartReads |
| Parts.PartReads | src/ephy_worker/discord_runtime.py:234-273 | told from the recorded marks: a part that starts where a fence is open begins with the fence's line, one that ends where a fence is open ends with the fence's row on a line of its own, nothing is added elsewhere, and in between stands the text from cut to cut |
| Parts.CutsFall | src/ephy_worker/discord_runtime.py:244-270 | each cut is the last permitted end of a paragraph, else of a line, else of a sentence, else of a row of blanks, else the last permitted position; a cut is permitted if it is in no recorded line and the part with what is added is within the limit |
| Splitter.SplitRoundTrip | src/ephy_worker/discord_runtime.py:270-275 | every part starts and ends with what was added to it, and without that the parts joined are the text |
| Splitter.SplitWithinLimit | src/ephy_worker/discord_runtime.py:192-275 | every part is non-empty and within the limit in UTF-16 units |
| Splitter.SplitUnique | src/ephy_worker/discord_runtime.py:192-275 | there is one such splitting |
| EventStream.ReadStream | src/ephy_worker/discord_runtime.py:316-340 | the reading loop succeeds exactly when no size limit is passed, and then yields the blocks of the specification; else it says which limit is passed first |
| EventStream.FeedAllIsWhole | src/ephy_worker/discord_runtime.py:325-340 | without CR CR LF, the blocks read from any chunks are those of the whole stream normalised and split at blank lines |
| EventStream.ChunkingInvariantIff | src/ephy_worker/discord_runtime.py:325-340 | all ways of cutting a stream give the same blocks and remainder if and only if it contains no CR CR LF |
| EventChunks.BlocksInvariantIff | src/ephy_worker/discord_runtime.py:325-340 | all ways of cutting a stream give the same blocks if and only if normalising it for good, rather than once, leaves its blocks as they are |
| EventChunks.FeedAllBetween | src/ephy_worker/discord_runtime.py:325-340 | whatever the chunks, what has been read is split at every blank line and lies between one pass of normalisation and all passes |
| EventChunks.DripCollapses | src/ephy_worker/discord_runtime.py:325-340 | some chunks, empty ones among them, have the stream normalised for good |
| EventStream.SplitRebuilds | src/ephy_worker/discord_runtime.py:327-332 | blocks and remainder, with their separators, are the text again |
| Origins.Root | src/ephy_worker/evidence.py:251-255 | the search with path halving terminates, returns the representative and keeps the forest |
| Origins.MergeAll | src/ephy_worker/evidence.py:257-275 | after merging, two sources have one representative if and only if a chain of links connects them |
| Origins.GroupOrigins | src/ephy_worker/evidence.py:242-296 | the groups partition the sources, two in one group exactly when connected, with exactly the reasons and origins of their members |
| Ties.TogetherExactly | src/ephy_worker/evidence.py:242-277 | two sources are in one group if and only if a walk leads from one to the other along equal known bodies or addresses in common |
| Ties.ReportExactly | src/ephy_worker/evidence.py:278-296 | a group reports the origins its members declare, each reason once, exactly those that two of its members give, and last that nothing is known of independence |
| Quotes.ExactSpan | src/ephy_worker/evidence.py:121-128 | an exact match is reported if and only if the quote occurs, at its first occurrence |
| Quotes.AlignedSpan | src/ephy_worker/evidence.py:128-140 | otherwise a span is reported if and only if it is the only slice that reads as the quote and has at most 500 characters |
| Quotes.SpanReadsAsQuote | src/ephy_worker/evidence.py:121-140 | whatever is reported collapses to the proposed quote |
| Spacing.CollapseExactly | src/ephy_worker/evidence.py:128-131 | collapsing leaves the same other characters in the same order, with one space where there was white space and none elsewhere |
| Spacing.StripExactly | src/ephy_worker/evidence.py:128-131 | stripping takes off the white space at both ends and nothing else |
| Extraction.PassageEndRule | src/ephy_worker/extraction.py:31-37 | a passage ends after the last line end in its second half, else after the last space there, else at the size |
| Extraction.SplitPassages | src/ephy_worker/extraction.py:24-50 | the cutting loop yields the passages of the specification |
| Extraction.PassagesCutUp | src/ephy_worker/extraction.py:24-50 | passages are consecutive slices of the text at their recorded offsets, and what lies between them is blank |
| Extraction.ValidateClaim | src/ephy_worker/evidence.py:150-214 | keeps exactly the evidence that can be located, in order, and reports exactly the rest |
| Extraction.ValidateExtraction | src/ephy_worker/evidence.py:143-220 | the same for all claims |
| Located.FoundExactly | src/ephy_worker/evidence.py:150-200 | a quotation is located if and only if its source is the only one of its name and usable, its passage is the only one of its name, of that source and read, and the quotation stands in it |
| Located.UnknownExactly | src/ephy_worker/evidence.py:150-165 | refused as unknown exactly if not one source has the name |
| Located.UnusableExactly | src/ephy_worker/evidence.py:150-180 | refused as not usable, or for the passage's name, exactly when that is the first thing wrong |
| Located.UnreadExactly | src/ephy_worker/evidence.py:165-200 | refused for another source's passage, one that was not read, or one without the quotation, exactly when that is the first thing wrong |
| Located.KeptExactly | src/ephy_worker/evidence.py:150-214 | of a claim's proposals, in their order, exactly those that are located are kept |
| Located.LeftExactly | src/ephy_worker/evidence.py:150-214 | exactly the others are reported, in their order, with the claim's number and the reason |
| Located.ReportsExactly | src/ephy_worker/evidence.py:143-220 | the reports of all claims stand one after the other |
| Extraction.StoredQuoteIsExact | src/ephy_worker/evidence.py:191-215 | the page sliced at the stored offsets is the stored quote, and it collapses to the proposed one |
| ReviewGate.ReviewItems | src/ephy_worker/evidence.py:552-600 | the loop over items marks each item's evidence and no other, and finds whether anything counts for, against, as primary, and which confirmed groups |
| ReviewGate.ApplyReview | src/ephy_worker/evidence.py:490-633 | every claim ends in the state computed from the first pass alone, and every evidence item as its own claim's check marks it; which state that is: Verdicts.VerdictExactly, Verdicts.UntakenExactly |
| Verdicts.VerdictExactly | src/ephy_worker/evidence.py:585-632 | a claim whose check is taken ends conflicting if and only if some item counts for it and some against it; refuted if and only if that was proposed, some item is against it and none for it; corroborated, supported by a primary source or inferred if and only if the conditions written out hold; insufficient in all other cases |
| Verdicts.UntakenExactly | src/ephy_worker/evidence.py:504-550 | a claim without a check that can be taken ends insufficient and unchecked |
| Verdicts.TakenExactly | src/ephy_worker/evidence.py:504-550 | a check is taken if and only if no check names an unknown claim or one twice, it is that of the only claim of its name, and its items are exactly the claim's evidence, each once, each known once and listed by this claim alone; without evidence only an inference is |
| Verdicts.AtOddsExactly | src/ephy_worker/evidence.py:457-487 | a quotation is at odds with a claim if and only if the claim states a quantity the quotation lacks and the quotation has one of the same unit that differs only by decimals, or the claim compares more strongly |
| Verdicts.MarkExactly | src/ephy_worker/evidence.py:552-580 | the evidence of a taken check is marked as its item says, support at odds with the claim as context only |
| Review.VisitAnyOrder | src/ephy_worker/evidence.py:610-632 | in whatever order the second pass visits the claims, each ends as if it alone had been visited |
| Review.PrimaryExactly | src/ephy_worker/evidence.py:590-606 | a claim ends supported by a primary source if and only if its check is accepted and proposes support, some condition-matching, conflict-free support is from a primary source, nothing condition-matching is against it, and it is not corroborated |
| Review.InferenceIsSound | src/ephy_worker/evidence.py:610-632 | an inference rests on distinct other claims, each accepted, with evidence and supported at the end |
| Review.NeverCorroborated | src/ephy_worker/evidence.py:288-296 | fed with the groups the pipeline builds, no claim is ever corroborated |
| Review.EvidenceKeepsItsMark | src/ephy_worker/evidence.py:552-580 | the evidence of an accepted claim keeps the mark of that claim's check |
| Observer.Get | src/ephy_worker/discord_observer.py:99-135 | a request makes at most two attempts, each drawing on the budget, the second exactly after a tolerable delay was asked for; the answer is that of the last attempt, or the lack of budget for it |
| Observer.TakePage | src/ephy_worker/discord_observer.py:204-225 | what is taken from a page is new, inside the window and within the limits; unless a message is wrong or no longer fits, which is then named, nothing inside the window is skipped |
| Observer.ScanChannel | src/ephy_worker/discord_observer.py:177-240 | for any server the scan ends within the budget with distinct messages inside the window; it is refused if and only if the channel is not usable or its permission denied; each failure is one of the channel, of the room left, or of an answer of the server; complete if and only if nothing failed and the permission is granted; if complete and the server was honest, it collected exactly the window below the first cursor; and it is complete whenever an honest server answers, all wanted is valid and fits, and the budget allows a request more than there are messages |
| Observer.ScanAll | src/ephy_worker/discord_observer.py:177-240 | over all channels: at most 2000 messages, no two alike, each channel refused, complete and collected as above; all complete when every server serves and everything wanted fits together |
| Observer.CursorAtEnd | src/ephy_worker/discord_observer.py:48-49 | the first cursor lies before exactly the identifiers given in the end's millisecond or later, and before all when the end is no later than the first possible one |
| CampaignControl.Controller.Resume | src/ephy_worker/formal_campaign.py:66-104 | a job left active is counted once, as failed unless it had ended, and is not run; a finished campaign is returned as it is; it raises if and only if there is no campaign of this plan, its verifier is not the one it had, or the active job's proposal does not verify |
| CampaignControl.Controller.Cycle | src/ephy_worker/formal_campaign.py:156-253 | a run starts exactly when nothing forbids it and the controller lives to record it; the campaign goes on exactly when nothing the job was stops it; it raises exactly for what is wrong rather than finished; all is kept |
| CampaignControl.Controller.RunJob | src/ephy_worker/formal_campaign.py:211-253 | the job is recorded as active before it is run and counted after |
| CampaignControl.Controller.RunCampaign | src/ephy_worker/formal_campaign.py:46-260 | whatever kills the controller: no spec is run twice, the second only after the first validated, none at the failure limit; a finished campaign never changes; a new one that nothing stops ends completed, and a plan out of bounds raises and changes nothing |
| CampaignControl.Controller.RunCycles | src/ephy_worker/formal_campaign.py:156-260 | a call that returns leaves the campaign completed if and only if nothing stopped it from here to the last job, and else stopped; one that raises leaves it failed |
| CampaignControl.Controller.Campaigns | src/ephy_worker/formal_campaign.py:60-260 | the same over any number of calls |
| Campaign.TrailingExact | src/ephy_worker/formal_campaign.py:94-96 | the failure count is the length of the latest row of jobs that did not validate |

## Left out

- Credentials, HTTP handlers, SQL text, the Discord and model transports: arguments are authenticated and well typed.
- The parsing of JSON documents, pydantic's own checks, regular expressions and timestamps: whether a document is well formed is a flag or the type itself.
- Unicode details: white space, line breaks, fence-line characters and normalised addresses are taken as the repository defines them; case folding and compatibility normalisation happen before the model.
- The fields inside an event block and the message they carry; only the framing is modelled.
- `_quantities` and `_comparison_level`: what is read off a text is a parameter; the comparison of what was read is modelled.
- Reasons, conditions and uncertainty texts of reviewed claims, and contents of answers: they decide nothing that is modelled.
- `select_passages`: its scores use logarithms.
- Temporary files of an atomic replace, the removal of stale ones, and file permissions.
- `recover_inbox` and `process_intake` are modelled by their transactions on the ledger in any interleaving, not statement by statement; the intake table itself, the sending of messages and answers to replies are not part of this model. A bridge object disappears only with its process.
- The job directory's frozen evidence in the consumer: a job is its file with the artifacts it was frozen with, which are compared with those the payload pins; whether the directory holds that evidence intact, audit files included, is a flag of each call. Evidence that was replaced together with everything that pins it is not modelled.
- Ties.ReportExactly: of the order of a group's reasons only the last place is told.
- Lineage.ObservingConserved: only until retention drops a result of the lineage, after which the job counts as unreported, for its whole budget, again; with a clock that does not go back Retention.RetentionFreesNothing bounds what was ever reported for good.
- Lineage.BudgetConserved: the manager does not check the usage a collecting result reports, so the bound supposes that no worker reports more than its job allowed; `Budgets.SnapshotIsHonest` shows that the worker's own budget reports no more. A submission reads the clock once here; the program reads it when it checks the allocation and again when it stores the job, so there a descendant's deadline can be later than the root's by the time between these two readings.
- Scheduler.WithinConcurrency: a registration that lowers the concurrency does not lower the number of active jobs, so the bound is a concurrency once registered.
- Campaign files other than the state, the submission records and the job files: one flag says whether the retained verifier record is intact; clock readings, the stop file and the runner's outcome are arbitrary inputs of each cycle.
- The snapshot of a guild, its permissions arithmetic and the coverage texts of an observation: a channel's permission is an input of its scan.
- `formal_runtime.py`, `owner_repair_release.py`, `coding_executor.py`, `check_completion.py`, configuration, scripts and document parsers: subprocesses, Git, hashing and libraries.
