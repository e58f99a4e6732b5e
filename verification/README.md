# A verified model of the AgentFactory control plane

AgentFactory hands software work to Workers. A Run holds Sessions, one per work item or repository;
a Worker claims a Session through an Attempt with a lease, runs its pipeline of stages, reports
updates, and completes. Agents may stop and ask; operators answer, cancel, retry and replace. This
project models that control plane in Dafny and proves what is written nowhere in the code but holds
across all its transactions, together with the parts around it whose arithmetic or ordering is
delicate: the assembly of recovery prompts, scheduled occurrences, and the command line's admission
journal.

## How it is organised

* `Tables`, `Transitions`, `Registration`: the database as a value and each transaction as a function
  from tables to tables. Clock readings, new identifiers, the answers of routing and whether a
  recovery prompt fits reach a transaction as arguments.
* `Invariant`, `LeaseSteps`, `ClaimSteps`, `WorkSteps`, `AdmissionSteps`: the inductive invariant and,
  for each transaction, the proof that it is kept.
* `Calls`: runs, that is any sequence of calls from a new database. `Guarantees` and `Lineage` say
  what holds in every reachable state. `Evolution` says how any one call may change any row, and
  `History` and `Retention` what follows along whole runs. `Limits` shows that everything ever stored
  about a Work respects its byte limits.
* `Store`: the store as a class with one field per table. Its methods do what the transactions do,
  statement by statement and loop by loop, and each is proved to leave exactly the tables that the
  transition of the same name describes, so everything proved about runs holds of the methods. `Scan`
  holds the paged scans.
* `Fairness`, `Effects`, `AdmissionEffects`, `Acceptance`, `Receipts`: what the transitions mean, said
  in the columns of the tables and without the functions that the transitions are made of. `Fairness`
  says which Work a claim queues, moves and takes; `Effects` and `AdmissionEffects` what each accepted
  call does to each row and that it touches no other; `Acceptance` when a call is accepted, and why it
  is refused; `Receipts` what its caller may rely on. The methods of `Store` promise all of it but the
  conditions of acceptance, which follow from their equality with the transitions.
* `Text`, `Prompt`, `Continuation`, `Selection`, `Assembly`, `AssemblyLoops`, `Reserve`: the recovery
  prompt, its byte budget and the reserve checked at admission. `Recoverable` joins this part to the
  state machine: a Session's row and history are loaded into the prompt's state, and in every run in
  which admissions checked the reserve no report or answer about covered Work is refused for the size of
  the prompt and no claim of it lacks its prompt. `Shortfall` is a run outside that condition.
* `Cron`, `Scheduler`, `Journal`: scheduled occurrences and the admission journal, with crashes at
  every point between transactions.
* `RunState`, `EventLog`, `Routing`: the Run classifiers, the event log and the route comparison.

`dafny verify dfyconfig.toml` checks everything.

Two results differ from what one would expect of the code:

* The reserve checked at admission does not cover all Work with a recorded pull request. A question is
  never blank, so it escapes to at most two bytes less than was reserved for it; against that stand the
  digits of the record counts, which the reserve takes to be single, and a URL of up to 2048 bytes, for
  which it provides 2047. For live Work, which then always has its retry flag set
  (`Limits.ReachableIsWithin`), the reserve covers everything if and only if the bytes of the URL and
  twice the further digits of the number of records come to at most 2049
  (`Reserve.PullRequestIsCoveredIff`). Without a recorded pull request it always suffices
  (`Recoverable.NoPromptIsEverTooLarge`). `Shortfall.SomeAnswerIsTooLarge` is a run of the control plane,
  with every check made as the code makes it, in which Work with a URL of 2048 bytes asks its question as
  the ninth record and an answer of the full length is then refused because the prompt does not fit.
* Discarding a pending occurrence does not look for its Run, so an occurrence whose Run exists can be
  discarded; `Scheduler.AdmittedCanBeDiscarded` is one such run, with a crash between admission and
  finish. `Scheduler.PendingHasRunIff` says exactly when: the pending occurrence has a Run if and only
  if an admission of it succeeded and it was neither finished nor discarded since. No occurrence runs
  twice all the same.

The second guard of `validateWorkRetryGuards`, against other live Work of the lineage, can never be
what refuses a retry or a replacement (`Lineage.RetryGuardIsReplacement`).

## Model

| member | source | states |
|---|---|---|
| `Calls.Final` | internal/controlplane/store.go:97-110 | after any calls in any order the tables satisfy the invariant |
| `Calls.ReachableIsSound` | internal/controlplane/store.go:97-110 | every state reachable from an empty control plane satisfies the invariant |
| `Calls.StepKeeps` | internal/controlplane/state.go:14-1003 | every transaction, accepted or refused, keeps the invariant |
| `Invariant.CommitKeeps` | internal/controlplane/state.go:797-866 | rewriting one Session's rows keeps the whole database in order when the rows themselves are in order, the slot was free and no replaced Work reopens |
| `Guarantees.SingleOwner` | internal/controlplane/state.go:203-232 | each Work has at most one live Attempt; Session, execution, owner and Attempt agree on queued, preparing and running, and the owner is a Worker exactly while such an Attempt exists |
| `Guarantees.PipelineShape` | internal/controlplane/stage_runs.go:69-84 | stages read succeeded^k and then one of four tails; only running Work has a running stage, and it is the first unfinished one; ready, succeeded, unchanged and waiting Work has only succeeded stages |
| `Guarantees.RunsAgree` | internal/controlplane/task_claim.go:192-215 | a Run holds at most its limit of queued, preparing and running Sessions, and its end is recorded exactly when all its Sessions are terminal |
| `Guarantees.QueuedIsNeverHeldBack` | internal/controlplane/state.go:144-149 | wherever the invariant holds, in the middle of a claim too, queued Work finds fewer owned siblings than the limit |
| `Guarantees.ClaimableIsTakeable` | internal/controlplane/state.go:114-178 | wherever the invariant holds, the executions a Worker may take are exactly those the checks other than the Run's limit allow |
| `Guarantees.ClaimIgnoresTheLimit` | internal/controlplane/state.go:114-178 | the same of the tables a claim has prepared for its own choice: the limit check never decides, and the claim comes back empty exactly when no execution passes the other checks |
| `Fairness.ClaimIsFair` | internal/controlplane/state.go:52-238 | a new grant takes Work that may be taken and than which all other such Work has a Run with at least as many Attempts used, on a tie a Run admitted no earlier, then an execution created no earlier, then a greater identifier; without such Work the claim comes back empty |
| `Fairness.QueuesFairly` | internal/controlplane/task_claim.go:19-110 | the blocked Session that a claim queues comes first in the same way by its Run's Attempts, its Run's admission, its own admission and its identifier; if none can be queued nothing changes |
| `Fairness.MovesFairly` | internal/controlplane/task_claim.go:112-190 | the queued Session that a claim moves is the one admitted first, then the one with the smaller identifier, and only its Worker changes |
| `Guarantees.AnswersAreNeverStuck` | internal/controlplane/resume.go:419-440 | no reachable state refuses an answer for a missing commit, a missing question or an already answered one |
| `Guarantees.WaitingWorkIsAnswerable` | internal/controlplane/state.go:809-819 | Work waiting for input has a full commit SHA to resume from, a question and no owner |
| `Lineage.LineagesAreChains` | internal/controlplane/build.go:413-469 | of two Sessions of a lineage the deeper descends from the other, and the other is replaced |
| `Lineage.OneTailPerLineage` | internal/controlplane/replace.go:106-116 | lineages of work items and of repositories are chains; only the last Work can be live or unreplaced |
| `Lineage.BuildPredecessorIsUnique` | internal/controlplane/build.go:442-453 | the query for the predecessor of a work item has at most one candidate, and none while a build is live |
| `Lineage.RetryGuardIsReplacement` | internal/controlplane/work.go:458-507 | for ended Work the retry guards refuse exactly when the Work has been replaced |
| `Evolution.StepEvolves` | internal/controlplane/state.go:14-1003 | whatever the call, ended Attempts are frozen, lapsed ones can only be lost, only a start makes one run, bound claims and remembered requests stay, terminal Work changes only by a retry of unreplaced Work |
| `History.HistoryIsKept` | internal/controlplane/store.go:97-110 | later states of a run remember the identities, histories, ended Attempts, Runs, bound claims and update requests of earlier ones |
| `History.LapsedCallsChangeNothing` | internal/controlplane/state.go:406-414 | a call on an ended or expired Attempt changes no table, whatever token it carries |
| `History.LeaseFencing` | internal/controlplane/state.go:898-1003 | along any run with a clock that does not go back, a lapsed Attempt can only become lost and its calls never change a table again |
| `History.ClaimIsBoundOnce` | internal/controlplane/state.go:52-94 | a bound claim request answers with its Attempt exactly while the lease lives and the token is the same, is refused otherwise, and changes nothing |
| `History.AdmissionIsBoundOnce` | internal/controlplane/build.go:83-107 | a request key that admitted a Run replays that Run to the same inputs and refuses other inputs, ever after |
| `History.AnswerIsKept` | internal/controlplane/resume.go:396-405 | an accepted answer is returned unchanged to its request ever after, and a different message is refused |
| `History.ReportIsKept` | internal/controlplane/work.go:105-118 | an accepted update is returned unchanged to its request, even after the lease and the Work have ended |
| `History.ReplacedWorkIsFrozen` | internal/controlplane/tasks.go:1813-1821 | replaced Work is terminal and its row never changes again |
| `History.CancellationSticks` | internal/controlplane/tasks.go:1680-1698 | Work cancelled while owned keeps running or ends failed or cancelled until it is retried |
| `History.ResumeCommitIsNeverLost` | internal/controlplane/state.go:479-487 | a commit to resume from disappears only because the lease holder's runtime started from it or a lease ended with a newer question |
| `History.RunsOnlyFromTheCommit` | internal/controlplane/state.go:438-475 | an Attempt enters running only by a start from the pending commit, when there is one |
| `Retention.PlacesShrink` | internal/controlplane/state.go:152-169 | no call but a claim adds to the Attempts that hold a retention place |
| `Retention.ClaimSeesRoom` | internal/controlplane/state.go:152-169 | a claim takes a place only for its own Worker and only where fewer than ten were used |
| `Retention.RetentionRises` | internal/controlplane/store.go:1728-1766 | a Worker's use of a repository rises only by one, by a claim that saw it below ten, or by its own report |
| `Retention.RetentionIsBounded` | internal/controlplane/state.go:152-169 | between two reports the use stays within ten or what it was |
| `Registration.RegistrationCovers` | internal/controlplane/store.go:1767-1833 | after a registration the use is at least the number of active or unacknowledged Attempts not reported disposed |
| `Registration.RegistrationIsLocal` | internal/controlplane/store.go:1767-1833 | a registration leaves every other Worker's accounts alone |
| `Registration.Attribute` | internal/controlplane/store.go:1483-1515 | the pass over the worktrees takes the first complete summary of each Attempt as evidence |
| `Scan.FirstRouted` | internal/controlplane/task_claim.go:15-110 | the paged scan ends and finds exactly the least row that routes, for every page size |
| `Store.Store.Materialise` | internal/controlplane/task_claim.go:9-110 | queues the blocked Session of an open repository and a Run with a free slot that routes to the Worker and comes first by its Run's Attempts used, its Run's admission, its own admission and its identifier, and changes nothing else |
| `Store.Store.Reroute` | internal/controlplane/task_claim.go:112-190 | moves the queued Session of another Worker that now routes only here and was admitted first, and changes nothing else |
| `Store.Store.Claim` | internal/controlplane/state.go:14-238 | trims the request identifier; a new grant takes, of the tables prepared for it, takeable Work that precedes all other takeable Work, leases a new Attempt of it for thirty seconds and binds the request; a bound request is answered with its Attempt; an empty answer means there was nothing to take, or that the Worker may have no Work, or that the same request came back empty within five minutes; refused claims are rolled back |
| `Store.Store.StartAttempt` | internal/controlplane/state.go:421-492 | the first start makes Attempt, execution and Session run and keeps the time of the first start ever; a later one may only clear the commit that the runtime started from; the lease is live |
| `Effects.StartsTheWork` | internal/controlplane/state.go:438-492 | what a start writes in each row, and that it is refused while another commit is pending |
| `Store.Store.Heartbeat` | internal/controlplane/state.go:501-523 | extends a live lease to thirty seconds from now and changes nothing else |
| `Store.Store.StartStage` | internal/controlplane/stage_runs.go:35-94 | runs one pending or running stage, after all earlier ones succeeded, and changes no other column |
| `Store.Store.CompleteStage` | internal/controlplane/stage_runs.go:96-157 | ends the running stage as reported, cancels the pending stages after it unless it succeeded, leaves the others, and accepts a repeated end without a change |
| `Store.EndStage` | internal/controlplane/stage_runs.go:140-152 | the loop cancels exactly the pending stages after a stage that did not succeed |
| `Effects.StartsOneStage` | internal/controlplane/stage_runs.go:69-94 | of all columns a stage start writes the state of the first stage that has not succeeded |
| `Effects.EndsOneStage` | internal/controlplane/stage_runs.go:121-157 | of all columns a stage end writes this stage and, unless it succeeded, the pending ones after it |
| `Store.Store.AppendAgentUpdate` | internal/controlplane/work.go:20-214 | appends the report as it was sent, or nothing if a request or the reported outcome is repeated; the update returned is on file under its request; nothing else of the Work changes |
| `Effects.AppendsTheReport` | internal/controlplane/work.go:105-214 | an accepted first report of a request is one update more, just as it was sent, unless the outcome was reported already |
| `Store.Store.CompleteAttempt` | internal/controlplane/state.go:666-874 | ends the Attempt, its execution, its stages and its Work as the rules below say, writes the question and checkpoint of the outcome or the reported pull request, and the Run's end; a report about an Attempt that has ended and was not lost changes nothing |
| `Transitions.Judge` | internal/controlplane/state.go:704-745 | cancellation wins over every claim, Work waits for input exactly after a successful Attempt that asked, and an unsuccessful Attempt leaves failed or cancelled Work |
| `Effects.JudgeEnds` | internal/controlplane/state.go:704-745 | for a Run whose agent reports, an uncancelled success with an outcome leaves the Work ready, waiting, failed or unchanged if and only if the outcome said ready, needs-input, failed or no-change; without an outcome the Attempt fails; every other claim stands as claimed |
| `Effects.EndsTheAttempt` | internal/controlplane/state.go:686-866 | the same of the rows: states, results, errors, each stage, the question, checkpoint and commit to resume from of an outcome that asks, the pull request of one that is ready, the execution, and nothing of other Work |
| `Store.Store.SweepExpired` | internal/controlplane/state.go:898-1003 | forgets exactly the claims that have found nothing for five minutes, loses exactly the Attempts whose lease has run out, fails exactly their Work, in whatever order they are listed |
| `Effects.LosesTheAttempt` | internal/controlplane/state.go:898-1003 | a lapsed lease loses its Attempt and fails its Work, running stages failed and pending ones cancelled, and keeps what was reported; a live one is left alone |
| `Effects.SweepsEverything` | internal/controlplane/state.go:898-1003 | a sweep loses every lapsed Attempt and no other |
| `Store.Store.CancelRun` | internal/controlplane/tasks.go:1666-1722 | cancels every Session of the Run: those that are blocked, queued or waiting end cancelled with no open stage, owned ones and their executions are asked to stop, terminal ones and all other Work stay as they are |
| `Effects.CancelsTheRun` | internal/controlplane/tasks.go:1666-1722 | a known Run is always cancelled, each of its Sessions and executions as its state says, and no other row changes but the Run's end |
| `Effects.NothingIsLeftRunning` | internal/controlplane/tasks.go:1680-1698 | after it each Session of the Run is terminal, or owned with the request to stop on its row and on its execution |
| `Store.Store.CancelSession` | internal/controlplane/tasks.go:1724-1783 | the same for one nonterminal Session alone |
| `Store.Store.RetrySession` | internal/controlplane/tasks.go:1785-1888 | queues failed or cancelled, unreplaced Work on the routed Worker with all its stages and its clock reset and its history and evidence kept, if a slot was free, and changes no other Work |
| `Effects.RetriesTheWork` | internal/controlplane/tasks.go:1785-1888 | what an accepted retry resets and keeps, and that the Work was unowned, unreplaced and within its Run's limit |
| `Store.Store.AnswerWork` | internal/controlplane/resume.go:374-511 | puts the last stage alone back to pending and leaves the others with results and errors, records the answer to the newest question, and queues the Work on the routed Worker exactly when a slot was free and a route found, else blocks it; a repeated answer changes nothing |
| `Effects.AnswerResumesTheWork` | internal/controlplane/resume.go:396-503 | what an accepted answer changes in each row, and that it answers the newest question |
| `Store.Store.Admit` | internal/controlplane/build.go:42-297 | a known key replays its Run if the inputs are the same; a new one admits a Run with exactly the given targets, each with its predecessor and queued on its route while slots are left, and changes no other Work |
| `Store.Store.InsertTargets` | internal/controlplane/procedures.go:174-226 | the loop queues targets in order while slots are left and blocks the rest |
| `AdmissionEffects.PredecessorContinues` | internal/controlplane/procedures.go:339-389 | a Task Run and a first Procedure Run continue nothing, a first Build finds no ended unreplaced Work of its item, and a rebuild continues the newest of such Work, while no Work of the line is live |
| `AdmissionEffects.TargetsHold` | internal/controlplane/procedures.go:174-226 | every row that the loop inserts starts afresh on its target, its predecessor and its Worker, which it gets exactly while fewer targets than the limit were queued before it |
| `AdmissionEffects.AdmitsTheRun` | internal/controlplane/build.go:42-297 | an accepted admission under a new key leaves the Run and exactly these rows; under a known key it changes nothing |
| `AdmissionSteps.AdmitTargetsKeep` | internal/controlplane/tasks.go:947-1000 | while targets go in, the new Run never holds more slots than the loop has counted nor than its limit, and lineages stay chains |
| `AdmissionSteps.ChosenPlaceFits` | internal/controlplane/procedures.go:339-389 | the selected predecessor is ended, unreplaced and of the same source, and a first build of an item is admitted only when there is none |
| `Store.Store.ReplaceWork` | internal/controlplane/replace.go:15-237 | new Work of the same repository, source and number of stages takes over from ended, unreplaced Work in a Run with the old Run's settings; a known key is replayed |
| `AdmissionEffects.ReplacesTheWork` | internal/controlplane/replace.go:15-237 | the row and the Run that a replacement inserts, and that nothing else but routing's records changes |
| `Store.Store.SetRepositoryEnabled` | internal/controlplane/store.go:1141-1230 | disabling an enabled repository puts its queued Work, and no other, back to blocked without Worker and drops its queued executions |
| `AdmissionEffects.SwitchesTheRepository` | internal/controlplane/store.go:1141-1230 | which Work goes back to blocked, which executions go, and that enabling changes only the repository's row |
| `Store.Store.RegisterWorker` | internal/controlplane/store.go:1357-1838 | writes the Worker's row, the statics it names, its own mirror rows with what they retain and whether they are advertised, and the acknowledgements; other Workers' rows stay |
| `AdmissionEffects.RegistersTheWorker` | internal/controlplane/store.go:1517-1833 | a configured repository is advertised with the larger of what was said and what is evident; one that routing recorded stays advertised only for a Worker that accepts managed repositories and has it cached, retained or assigned; an Attempt is acknowledged once disposed of or reported for an advertised repository |
| `AdmissionEffects.FirstSummary` | internal/controlplane/store.go:1483-1515 | an Attempt counts for a repository exactly if its first complete summary names it |
| `Store.Store.UpdateRunLifecycle` | internal/controlplane/task_claim.go:192-215 | sets a Run's end exactly when no Session of it is live |
| `Acceptance.StartIsAccepted` | internal/controlplane/state.go:421-487 | a start is accepted if and only if the lease lives, the commit is in order and the pending one if there is one, and a runtime reports only what was prepared |
| `Acceptance.BeginIsAccepted` | internal/controlplane/stage_runs.go:35-94 | a stage starts if and only if the Attempt runs uncancelled under a live lease and all earlier stages succeeded |
| `Acceptance.FinishIsAccepted` | internal/controlplane/stage_runs.go:96-157 | a stage ends if and only if it runs, or ended just so |
| `Acceptance.ReportIsAccepted` | internal/controlplane/work.go:20-214 | a report is accepted if and only if it is in order and repeats its request, or the Attempt runs uncancelled, has reported no outcome or this one, and has room for progress: at most 199 updates |
| `Acceptance.CompletionIsAccepted` | internal/controlplane/state.go:666-795 | a completion is accepted if and only if it is in order, the lease lives or the Attempt ended unlost, and a success that stands comes from a running Attempt with a finished pipeline or a pipeline of one |
| `Acceptance.RetryIsAccepted` | internal/controlplane/tasks.go:1785-1850 | in every reachable state a retry is accepted if and only if the Work failed or was cancelled, is not replaced, and a slot and a route were found |
| `Acceptance.RetryRefusals` | internal/controlplane/tasks.go:1785-1850 | which of the refusals a retry gets, exactly: unknown Work, Work that did not fail, replaced Work, a full Run, no Worker, in this order |
| `Acceptance.AnswerIsAccepted` | internal/controlplane/resume.go:374-457 | in every reachable state an answer is accepted if and only if its text is in order and it repeats its request, or the Work waits for input and the prompt fits |
| `Acceptance.AnswerRefusals` | internal/controlplane/resume.go:374-457 | which of the refusals an answer in order gets, exactly: unknown Work, a request that gave another answer, Work not waiting, a prompt that does not fit |
| `Acceptance.AdmissionIsAccepted` | internal/controlplane/build.go:42-297 | an admission is accepted if and only if its key is known with the same inputs, or every target is admissible and continues what its kind of Run asks for |
| `Acceptance.PredecessorRefusals` | internal/controlplane/build.go:413-469 | a target is refused as active, as to be rebuilt or as without predecessor exactly if there is live Work of its line, or ended unreplaced Work that a first Build would pass by, or none that a rebuild could continue |
| `Acceptance.KeyRefusals` | internal/controlplane/build.go:83-107 | a key is in conflict if and only if it is known with other inputs |
| `Acceptance.ClaimIsAccepted` | internal/controlplane/state.go:14-112 | a claim is answered if and only if its request and token are in order, its Worker is known and current, and a stored request has the same token and, if it is bound, a live lease |
| `Acceptance.ClaimRefusals` | internal/controlplane/state.go:14-112 | which of the refusals a claim in order gets, exactly: unknown Worker, outdated Worker, another token, a lease that no longer lives |
| `Prompt.EscapeExpands` | internal/controlplane/resume.go:359-372 | escaping at most triples the bytes, and text of next-line characters is tripled |
| `Prompt.EscapeLoses` | internal/controlplane/resume.go:359-372 | any other text falls short of the factor three by a byte at least, and by two if it has an even number of bytes |
| `Prompt.EscapedIsOneLine` | internal/controlplane/resume.go:359-372 | the escaped question holds no line break |
| `Prompt.EscapeRoundTrip` | internal/controlplane/resume.go:359-372 | unescaping gives the question back |
| `Prompt.RecordsAreLong` | internal/controlplane/resume.go:31-44 | every history record takes at least 76 bytes |
| `Prompt.RecordIsOneLine` | internal/controlplane/resume.go:31-44 | every history record is a single line, whatever was written |
| `Prompt.JsonRoundTrip` | internal/controlplane/resume.go:205-212 | the text in a record can be read back |
| `Continuation.ContinuationWithHistory` | internal/controlplane/resume.go:314-350 | the passes over the records write how many there are, how many are inserted, how many are not inserted in full, the digest of those, and the inserted lines in chronological order |
| `Continuation.RenderReads` | internal/controlplane/resume.go:314-350 | the counts in the prompt are the numbers of records, of records inserted and of records not inserted in full, and the digest and the lines are of exactly those, in order |
| `Continuation.RecoveryReads` | internal/controlplane/resume.go:192-203 | each value of the recovery context stands after its own label, with a placeholder for an empty one |
| `Continuation.RenderedSize` | internal/controlplane/resume.go:314-350 | a prompt weighs its fixed part, its counts and one byte more than each inserted line |
| `Selection.PriorityOrders` | internal/controlplane/resume.go:213-229 | the order lists every record once; no other record stands before an answer, no progress before another update, and of one kind the newer comes first |
| `AssemblyLoops.Prioritize` | internal/controlplane/resume.go:213-229 | the passes over the history produce that order |
| `Selection.TruncateContinuationHistory` | internal/controlplane/resume.go:287-312 | the binary search finds the longest prefix of whole characters that fits, if any does |
| `Selection.ShorteningLeavesLittle` | internal/controlplane/resume.go:255-271 | after a record is shortened less than six bytes are left, so no further record fits |
| `AssemblyLoops.Fill` | internal/controlplane/resume.go:243-271 | the greedy loop keeps the longest run of the order that the budget covers whole and at most one shortened record after it |
| `Assembly.AssembledFits` | internal/controlplane/resume.go:230-285 | assembly succeeds exactly when the prompt without history fits, its result fits, and taking back one record is always enough |
| `Assembly.KeepsPriorityPrefix` | internal/controlplane/resume.go:243-283 | the kept records are a prefix of the order, whole but perhaps for the last, which has the longest prefix that fits |
| `Assembly.KeepsKinds` | internal/controlplane/resume.go:213-283 | nothing is kept before what matters more: with a progress update every answer and every other update is kept whole, with any update every answer |
| `Assembly.LeavesOutLittle` | internal/controlplane/resume.go:230-285 | a record is left out or shortened only where the prompt without history and the records up to it in the order come to more than 73726 bytes |
| `Assembly.KeepsAllThatFits` | internal/controlplane/resume.go:230-285 | hence a history that fits is kept whole |
| `AssemblyLoops.AssembleContinuationPrompt` | internal/controlplane/resume.go:192-285 | the whole assembly, corrective loop included, fails exactly when the prompt without history does not fit; else its prompt fits, with a progress update keeps every answer and every other update whole, with any update every answer, and leaves a record out or shortens it only where the limit leaves no room |
| `Reserve.ReserveIsABudget` | internal/controlplane/resume.go:51-76 | the admission check is a comparison of what is known plus 35335 bytes with the limit |
| `Reserve.ReserveIsExact` | internal/controlplane/resume.go:51-114 | the reserve covers a later state for every admitted prompt if and only if that state's own part takes no more than was reserved |
| `Reserve.WithoutPullRequest` | internal/controlplane/tasks.go:1024-1029 | Work without a recorded pull request never outgrows its reserve, for up to 2^63 - 1 records |
| `Reserve.QuestionBytes` | internal/controlplane/work.go:39-49 | a question that passed the checks escapes to two bytes less than were reserved for it |
| `Reserve.WithPullRequest` | internal/controlplane/tasks.go:1024-1029 | nor does Work with one and the retry flag, as long as the URL's bytes and twice the further digits of the record count come to at most 2049 |
| `Reserve.PullRequestIsCoveredIff` | internal/controlplane/resume.go:51-114 | for a recorded pull request with the retry flag, every admitted prompt fits in every later state within the limits if and only if that condition holds |
| `Reserve.TightestFails` | internal/controlplane/resume.go:51-114 | when a later state takes more than was reserved, the longest prompt still admitted then fails |
| `Reserve.WorstFails` | internal/controlplane/resume.go:192-203 | where the condition fails, the longest admitted prompt fails with the longest answer, the worst question that passes the checks and any history of that length |
| `Limits.StepWithin` | internal/controlplane/work.go:39-77 | no call stores a blank message or a message, answer, commit or pull request beyond its byte limit, and Work that has reported stays marked as started or as a retry |
| `Limits.ReachableIsWithin` | internal/controlplane/tasks.go:1853-1868 | in every reachable state everything stored is within its limits, a recorded question is not blank, and live Work with a recorded pull request has its retry flag set |
| `Recoverable.RecordsAreChronological` | internal/controlplane/resume.go:143-160 | the loaded history stands in the order of the query's sort key |
| `Recoverable.HistoryIsComplete` | internal/controlplane/resume.go:143-160 | the loaded history has one record for each stored update and each stored answer |
| `Recoverable.ReportsAlwaysFit` | internal/controlplane/work.go:172-183 | in every reachable state, if the reserve passed for the Work, no report is refused for size: for Work without a recorded pull request whatever its fewer than 2^63 records, else as long as the URL and the number of records meet that condition |
| `Recoverable.AnswersAlwaysFit` | internal/controlplane/resume.go:374-457 | nor is an answer: it is accepted exactly when its text is in order and it repeats a stored answer or its Work is waiting for input |
| `Recoverable.NoPromptIsEverTooLarge` | internal/controlplane/tasks.go:1012-1036 | in every run in which admissions and replacements check the reserve and reports and answers ask the assembly, no report and no answer about such Work is ever refused for size |
| `Recoverable.ClaimsAlwaysFit` | internal/controlplane/resume.go:78-89 | in every reachable state the prompt sent with a claim of such Work can be assembled |
| `Recoverable.NoClaimLacksItsPrompt` | internal/controlplane/state.go:343-352 | hence in every such run no claim of such Work is bound and then left without its answer |
| `Shortfall.SomeAnswerIsTooLarge` | internal/controlplane/resume.go:442-448 | a run of register, admit, claim, start, report, complete and retry calls, every check made as in the code, after which waiting Work refuses a valid answer of full length for size |
| `Cron.ParseField` | internal/controlplane/schedule_cron.go:91-156 | fails exactly on a malformed item and otherwise allows exactly the listed values, never none |
| `Cron.Next` | internal/controlplane/schedule_cron.go:169-179 | the least matching minute strictly after the instant, or none within the search limit |
| `Cron.DayRule` | internal/controlplane/schedule_cron.go:181-199 | when both day fields are restricted a day matches by either, when one is by that one, when none is always |
| `Cron.SpanMeans` | internal/controlplane/schedule_cron.go:108-156 | which values a single value, a range, a step and a star allow |
| `Scheduler.CronRunsAreClocked` | internal/controlplane/task_scheduler.go:274-282 | steps that take their due times from that search, whatever the schedules and time zones, make a run to which all results below apply |
| `Scheduler.OccurrencesAreExactlyOnce` | internal/controlplane/task_scheduler.go:35-131 | however claims, admissions, crashes, edits, archivings and discards interleave, the scheduled Runs of a Task have strictly increasing due times |
| `Scheduler.CrashReplays` | internal/controlplane/task_scheduler.go:39-65 | once an occurrence's Run is stored, every later step of every run, crashes and edits in between, treats it so: a claim takes it up as frozen, nothing is frozen anew, an admission answers with that Run and stores no other, and the finish moves the schedule on |
| `Scheduler.PendingIsNotLost` | internal/controlplane/task_scheduler.go:251-408 | between any two points of a run a pending occurrence goes away only by a step that finishes it after its admission or by a discard that names it |
| `Scheduler.PendingHasRunIff` | internal/controlplane/task_scheduler.go:251-408 | in every run the pending occurrence has a Run if and only if it was admitted while pending and neither finished nor discarded since |
| `Scheduler.DiscardDropsUnadmitted` | internal/controlplane/task_scheduler.go:345-415 | a discard drops an occurrence without a Run if and only if no such admission is outstanding |
| `Scheduler.AdmittedCanBeDiscarded` | internal/controlplane/task_scheduler.go:345-415 | a run in which an occurrence whose Run was stored is discarded |
| `Scheduler.TaskRow.ClaimDue` | internal/controlplane/task_scheduler.go:69-131 | takes the pending occurrence up again when its retry is due, or else the one that is due, frozen with the Task's generation and with nothing to freeze if the Task names no repository workflow; an archived or disabled Task gives none |
| `Scheduler.TaskRow.Freeze` | internal/controlplane/task_scheduler.go:174-217 | the loaded workflows are recorded in the pending occurrence unless it has changed |
| `Scheduler.TaskRow.FinishOccurrence` | internal/controlplane/task_scheduler.go:251-329 | an admission moves the schedule on, a refusal for good blocks it, another one is retried after a minute more each time up to fifteen; nothing happens to another occurrence |
| `Scheduler.TaskRow.Discard` | internal/controlplane/task_scheduler.go:372-408 | discards only a blocked or paused occurrence named by its due time, and accepts a repetition without changing anything |
| `Scheduler.TaskRow.Edit` | internal/controlplane/tasks.go:318-347 | an edit moves the due time only while nothing is pending, counts a generation, and keeps only the health of an occurrence blocked for good |
| `Journal.PendingAdmissions.LoadOrCreate` | internal/factorycli/admission_journal.go:162-200 | the key already journalled for the scope, else a new one recorded before it is used, unless a hundred are pending |
| `Journal.PendingAdmissions.Remove` | internal/factorycli/admission_journal.go:202-223 | removes exactly the entry with this scope and key |
| `Journal.EntryStaysAlong` | internal/factorycli/admission_journal.go:149-223 | along any run an entry outlives everything but the completion of its own scope, whatever other invocations and scopes do |
| `Journal.RetriesPostTheSameKey` | internal/factorycli/build.go:66-85 | until a scope completes every invocation for it holds the key the first one drew, across crashes and lost answers |
| `Journal.NoKeyIsDrawnTwice` | internal/factorycli/admission_journal.go:55-91 | while a scope has not completed no further key is drawn for it |
| `Journal.ClearedMeansStored` | internal/factorycli/build.go:107-136 | an entry cleared after an admission has its Run stored |
| `Journal.RunsAreStoredOnce` | internal/controlplane/build.go:59-107 | the server's table never holds two Runs with one request key, and every later post of the key is answered with the stored Run and stores nothing, even if the request would be rejected by now |
| `RunState.Aggregate` | internal/controlplane/tasks.go:1606-1636 | every Session is counted in exactly one of the counters |
| `RunState.ClassifiersAgree` | internal/controlplane/tasks.go:660-673 | on Runs with Sessions the service, the SQL query and the waiting command agree, and exit codes 0, 1 and 2 mean what they should |
| `RunState.OverMeansTerminal` | internal/controlplane/tasks.go:1647-1659 | the classification is final exactly when all Sessions are terminal |
| `RunState.StateMeans` | internal/controlplane/tasks.go:1638-1661 | the classification in terms of the Sessions' own states: running, waiting, queued, failed, cancelled and so on exactly when the Sessions say so |
| `EventLog.AttemptEvents.AppendEvents` | internal/controlplane/state.go:525-610 | leaves the log with the new events of an accepted batch and unchanged otherwise |
| `EventLog.AcceptedExactly` | internal/controlplane/state.go:533-605 | a batch is accepted if and only if it is well formed, each event is stored already or comes after everything stored, and the log stays within its bytes; then exactly the events not stored are appended |
| `EventLog.AppendKeeps` | internal/controlplane/state.go:551-605 | an accepted batch leaves a strictly increasing log within ten MiB that starts with the old one |
| `EventLog.ResendingChangesNothing` | internal/controlplane/state.go:569-582 | an accepted batch is accepted again, at any later time, and changes nothing |
| `EventLog.SplittingIsInvisible` | internal/controlplane/state.go:569-605 | a batch in two parts leaves the same log |
| `EventLog.FirstContentStays` | internal/controlplane/state.go:569-582 | a sequence number keeps its first content for good |
| `EventLog.PagesGiveTheLog` | internal/controlplane/state.go:616-664 | following the cursor from -1 gives every event once and in order, for every page size |
| `EventLog.AttemptEvents.Events` | internal/controlplane/state.go:616-664 | one row more than asked for tells exactly whether there is another page |
| `Routing.BetterIsAStrictTotalOrder` | internal/controlplane/store.go:2159-2163 | with positive capacities the cross-multiplied comparison is a strict total order on Workers |
| `Routing.BetterIsLessLoaded` | internal/controlplane/store.go:2159-2163 | the cross-multiplied comparison is the comparison of load over capacity, then of identifiers |
| `Routing.SelectRoute` | internal/controlplane/store.go:2299-2340 | the loop returns the Worker with the least part of its capacity in use, the smaller identifier among equals, and none only if there are no rows |
| `Routing.ChoiceIgnoresRowOrder` | internal/controlplane/store.go:2299-2340 | the choice does not depend on the order of the rows |

## Left out

- HTTP handlers, JSON decoding, SQL text and migrations, authentication, the web interface, Git and GitHub calls, process supervision: foreign or plain plumbing.
- Synthetic backends and the `operator` owner: every Session runs on the persistent backend.
- Execution identifiers: an execution is named by its Session, whose execution is unique, so the last tie between claimable executions is broken by the Session's identifier.
- Columns nothing decides on: progress and terminal messages, waiting and blocked reasons, prompts, process identities, attempt numbers, retry counts and timestamps of stages.
- Digests and randomness: a lease token and a request's fields stand for their digests, and a new identifier that is already taken is refused.
- Routing inside transactions: which Work routes to which Worker, which runtimes are ready and whether a recovery prompt fits are arguments of a transition; the comparison between candidates and the prompt itself are modelled on their own, and `Recoverable` takes the last argument to be what the assembly answers.
- Several faults in one admission: when targets are at fault in more than one way, the model may report another of them first.
- Reports of Workers that predate the named capacity handoff, which acknowledge Attempts in bulk, and the normalisation of repository names before a registration reaches the tables.
- Legacy Sessions without stages: a completion of such a Session is refused in the model.
- Deleting a queued execution that has Attempts: the schema's foreign key is taken to refuse it.
- The fixed sentences of the prompts: they are a parameter, since no result depends on their wording. Work with nothing to recover gets its resolved prompt unchanged and is not assembled.
- Splitting cron fields into items, reading numbers and names, time zone tables, and which of several due Tasks is claimed first.
- Event times and the JSON validity of payloads.
- EventLog.AttemptEvents.AppendEvents: the limit on a batch's encoded size is left out, and the lease check in front of the log is the one of the other lease calls.
- Store.Store.Materialise: which blocked Session routes to the Worker is an argument; only routed ones are candidates, as in the source.
- Store.Store.Reroute: which queued Session now routes only to the caller is an argument.
- Store.Store.Admit: refusals for missing, archived or read-only Tasks and Procedures come before the transition; that a target's prompts and reserve fit is an argument of the target.
- Store.Store.SetRepositoryEnabled: the schedule health it also writes on Tasks is in `Scheduler`, as the steps RepositoryDisabled and RepositoryEnabled.
- Store.Store.RegisterWorker: refusals for a changed runtime or a reassigned repository key concern columns that are not modelled.
- The journal file's encoding, permissions and synchronisation: the locks are mutual exclusion and a written journal is durable.
