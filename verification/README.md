# RemarkRound: verified models of its core

RemarkRound runs acceptance rounds of software: a customer's remarks are triaged by a graph of model calls against the
specification, decided by people, fixed, retested and closed. This project models the parts of its API whose correctness is
hardest to see and proves what they promise. Every model is of behaviour: the same branches, constants and error cases as
the program, with databases as maps and sequences, and everything the program cannot control - the model's answers, search
results, clocks, other processes, the order of requests - as arbitrary values.

Each part is a specification of pure functions with theorems about it; where the program changes things step by step, a
method or a class with the program's own loops and fields is proved to compute exactly that specification.

| Part | Files | What it models |
|---|---|---|
| Job queue | `JobQueue.dfy`, `QueueChoices.dfy`, `QueueSteps.dfy`, `JobsService.dfy` | several API processes over one table of jobs: claims with a saturation snapshot taken before the await, heartbeats, the sweep of stale locks, retries with a pause, the drain at shutdown; every stretch of code between two awaits is one step, and steps of all processes interleave in any order |
| Remarks | `Remarks.dfy`, `RemarkRules.dfy`, `RemarkHistory.dfy`, `RemarkFrames.dfy`, `RemarksService.dfy` | one remark with its runs, history, frames and verdicts, operation by operation; who may do what, and what the history tells |
| Interleaved requests | `Optimistic.dfy` | the same operations with the read and the transaction of each request as two steps that others come between |
| Rounds | `Rounds.dfy`, `RoundRules.dfy`, `RoundsService.dfy`, `RoundRequests.dfy` | the rounds of a project and the numbered remarks in them; closing a round and adding remarks as requests that interleave |
| Graph runs | `GraphRuns.dfy`, `RunRules.dfy`, `Usage.dfy` | the job that executes a run of the graph, from the lookup to what the queue is told; the status of runs; tokens and cost from the calls to the counters, over any processes |
| Triage graph | `TriageGraph.dfy`, `TriageProposals.dfy`, `TriageThreads.dfy`, `Retrieval.dfy`, `Faithfulness.dfy`, `GateTexts.dfy`, `Quotations.dfy`, `QuotedLines.dfy` | the graph with any model, any search and any human, threads started over included; merging of search results; the gate every draft must pass, and what cutting quotations may hide from it |
| Text | `Toc.dfy`, `TocTails.dfy`, `TocContents.dfy`, `TocAlone.dfy`, `Words.dfy`, `Windows.dfy`, `Chunker.dfy`, `ChunkSections.dfy`, `Csv.dfy` | removal of tables of contents, chunks by headings, where each chunk comes from, windows of words, the CSV scanner and its printer |

`Prelude.dfy`, `Collections.dfy` and `Text.dfy` hold the types, facts about collections and text functions they share.
`dafny verify dfyconfig.toml` verifies everything.

Where the program does not promise what one may expect, the exact condition is proved and a concrete run is given:

- A lease is exclusive in every run if and only if the longest gap between two written beats (15 s, and 15 s more for each
  beat that is lost), the time of a claim or the difference of clocks (whichever is longer), the time a stopped process may
  go on, and the difference of clocks together fit into the stale limit of 60 s (`JobQueue.LeaseIsSafeExactlyWhen`). The
  program arms the beat and ends its drain after 25 s; how many beats fail to be written, how long a claim takes, how far
  clocks differ and when a stopped process is gone or idle is its environment's part of the bargain. With equal clocks and
  claims of 5 s, a stop of 40 s fits if no beat is lost, and one of 25 s if one is.
- A process that has heard of work polls at once when it is free to, until it looks, is stopped or gone, or puts a job in the
  queue within a transaction (`QueueChoices.WorkIsRemembered`): that arms its timer anew and puts the poll off by up to half a
  second (`QueueChoices.TransactionPutsOff`).
- A verdict keeps remark and runs in step if and only if it names the newest run or no run waits for the PM
  (`Remarks.VerdictKeepsCouplingIff`). The API accepts the id of any run of the remark; the card shows the newest one.
- A run that is over keeps its status and counters if and only if no later verdict names it and rejects its citation, or
  decides it though it was failed or cancelled (`GraphRuns.OverIsFinalIff`); any run that is over can be made to run, collect
  usage and wait again (`GraphRuns.OverGoesOn`), and the remark's own commands get there (`Remarks.StaleRejectionReopensRun`).
- A proposal, a retest result or a new retest is written like one atomic step if and only if what the request read of the
  runs still holds (`Optimistic.RunWritesRefineIff`); a cancel, if and only if the status and the answer to "would it move
  the remark" are those it read, or its run is over and it moves nothing (`Optimistic.CancelRefinesIff`). Two customers can
  start two comparisons at once (`Optimistic.TwoRetestsAtOnce`), and a late cancel can send a remark back while a newer run
  goes on (`Optimistic.LateCancel`).
- Closed rounds hold only decided remarks, however requests interleave, if and only if each close is written when all that
  was created in its round since it counted is decided, or the round is closed already, and each new remark while its round
  is still open (`RoundRequests.AlwaysDecidedIff`). A remark created between the count and the close stays undecided in a
  closed round (`RoundRequests.CloseOverlooks`).
- When the proposal or the failure of a run is written, its counters hold all its calls reported if and only if nothing was
  let go before and no other process made calls for an earlier attempt (`GraphRuns.WrittenRunIsHonestIff`). A retry that
  another process claims loses the share of the first (`GraphRuns.RetryElsewhere`).
- A run whose call of the graph breaks is back in the queue or failed, or, exactly when its failure could not be written,
  running without a job until the sweep gives it up (`GraphRuns.BrokenRunIsSettled`); an error of the handler outside that
  call leaves it so, too (`GraphRuns.PlainErrorStrands`).
- The gate checks a draft without its quotations of the remark. It answers for all references of a draft if and only if the
  cuts hide none (`Quotations.GateProtectsIff`), which holds when no quotation is cut off inside a reference
  (`Quotations.CleanCutsHideNothing`). For a remark of one line it answers for every draft if and only if the line is shorter
  than 8 characters or safe to quote: it does not begin with a number, or a dot and a digit, and does not end where a longer
  number would make another reference (`Quotations.ProtectedIff`); for one of several lines, if and only if all its pieces
  are safe to quote, as long as no piece occurs in a later, different one that is not (`QuotedLines.LinesProtectedIff`). The
  same condition decides whether all proposals of all threads are supported (`TriageThreads.ProposalsProtectedIff`). The
  draft that takes an uncited reference past the gate (`Quotations.ContinuedQuotation`) reaches the human with its headline
  (`TriageThreads.ContinuationIsProposed`).
- The title of contents is found above their first entry if and only if no other series is under way where that entry ends
  (`TocContents.TitleFoundIff`); then the contents are dropped whole, however their entries wrap
  (`TocContents.ContentsAreRemoved`). Below a row of a table the title counts as part of that series, and contents with gaps
  are kept as text (`TocContents.TitleTooClose`).
- Entries one below the other that nothing continues, below a title or without one, are dropped if and only if there are three
  or more and they stand right below a title, or no leader is a mere bar and all have dots or two in three begin like a
  numbered heading (`TocAlone.ListedRemovedIff`).
- Chunks keep every word if and only if each section fits into one chunk, or windows hold a word and do not leave gaps
  (`Chunker.TextIsConserved`); the default sizes always do (`Chunker.DefaultsConserve`).
- A printed journal is read back as it was if and only if no record is without cells (`Csv.RoundTrip`), and without its last
  line break the same as with it if and only if its last record is more than an empty line (`Csv.OpenReadBackIff`). What the
  scanner makes of any text at all is `Csv.SplitMeaning` with `Csv.EveryTextIsWritten`.
- A thread that is started over on hits an old run left behind keeps rejected citations out if and only if none of them is
  among those hits (`TriageGraph.StartedOverExcludes`). The thread whose accepted citation is rejected by a late verdict, and
  that cites it again in its next proposal, is `TriageThreads.RejectedIsCitedAgain`.
- `docs/STATUS.md` says that `closed` leads to `reopened`. In the code the closed remark stays closed and a new one begins
  as `reopened`; the model follows the code (`RemarkHistory.StuckIffTerminal`, `Rounds.EntriesLiveAsRemarks`).

## Model

| member | source | states |
|---|---|---|
| `JobQueue.LeaseIsSafeExactlyWhen` | apps/api/src/jobs/jobs.service.ts:64-71 | over all runs of all processes, for any number of lost beats, any claim latency, any stop and any difference of clocks: no two live processes ever rely on the same job exactly when gap between beats + the longer of claim latency and clock difference + stop + clock difference fit into the stale limit |
| `JobQueue.LeaseIsExclusive` | apps/api/src/jobs/jobs.service.ts:165-179 | with fitting times, every job has at most one live process that executes it, is about to, or still has to hand it back, the drain without heartbeat included, and a hand-back whose handler has already returned, too |
| `JobQueue.TooSlow` | apps/api/src/jobs/jobs.service.ts:214-221 | any times that do not fit: the run in which a sweep gives a job to a second process while the first still executes it |
| `JobQueue.ReliedIsNotStale` | apps/api/src/jobs/jobs.service.ts:209-221 | the lock of a job some live process relies on is stale by the clock of no process |
| `JobQueue.StepInv` | apps/api/src/jobs/jobs.service.ts:148-348 | every event of every process keeps: who executes or holds a job is the row's locker at the row's attempt, the row runs, clocks are in order |
| `JobQueue.EndIsWrittenByHolder` | apps/api/src/jobs/jobs.service.ts:326-338 | whoever writes the end of an execution still holds the running row at the attempt it claimed, and nobody else executes it |
| `JobQueue.RowMoves` | apps/api/src/jobs/jobs.service.ts:199-221 | the only moves of a row: claimed (attempts + 1), given back, ended, cancelled while waiting; kind, project, run and limit never change |
| `JobQueue.EndsAreFinal` | apps/api/src/jobs/jobs.service.ts:326-338 | done, failed and cancelled are never left, whatever follows |
| `JobQueue.AttemptsAreClaims` | apps/api/src/jobs/jobs.service.ts:280-294 | attempts equal the claims of the job so far, orphans included; retries asked for are at most maxAttempts - 1 |
| `JobQueue.RetryWaits` | apps/api/src/jobs/jobs.service.ts:330-334 | after a retry no process takes the job before its pause is over, counted by the clock that wrote it |
| `JobQueue.OrphanComesBack` | apps/api/src/jobs/jobs.service.ts:148-163 | no job is lost: one that no live process relies on keeps its lock, and the first sweep of any process that finds the lock older than 60 s by its clock puts the job back into the queue |
| `JobQueue.WorkersKeepLimits` | apps/api/src/jobs/jobs.service.ts:235-316 | in every run, however late claims return: slots, limit per kind and limit per kind and project are kept, one poll at a time, and a process that is not stopped has a timer armed or a poll under way |
| `JobQueue.SnapshotTaken` | apps/api/src/jobs/jobs.service.ts:297-316 | every kind and pair at its limit is in what `saturated` returns |
| `JobQueue.FewerWork` | apps/api/src/jobs/jobs.service.ts:253-258 | executions that end while the claim is awaited leave the snapshot safe |
| `JobQueue.EligibleHasRoom` | apps/api/src/jobs/jobs.service.ts:273-294 | a row that passes the claim's filters fits under every limit, rows without a project included |
| `JobQueue.OneMore` | apps/api/src/jobs/jobs.service.ts:318-321 | entering a claimed job into `active` keeps the limits |
| `QueueChoices.EligibleIff` | apps/api/src/jobs/jobs.service.ts:273-316 | a row passes the filters of a claim exactly when it waits, is due and, by the counts of the work under way when the claim asked, its kind and, if it has one, its project within the kind were below their limits |
| `QueueChoices.ClaimTakesIff` | apps/api/src/jobs/jobs.service.ts:273-316 | in every run a claim under way may take a row exactly then, with the work its process had when it asked |
| `QueueChoices.AsksIff` | apps/api/src/jobs/jobs.service.ts:247-258 | a process asks for another job, at its timer and whenever one has landed, exactly when it is not stopped and has a free slot |
| `QueueChoices.WorkIsHeard` | apps/api/src/jobs/jobs.service.ts:235-241 | after an execution of its own ends, it enqueues a job or its sweep brings one back, its next poll is due at once |
| `QueueChoices.WorkIsRemembered` | apps/api/src/jobs/jobs.service.ts:235-264 | and stays so through all that follows until it looks, is stopped or gone, or enqueues within a transaction |
| `QueueChoices.TransactionPutsOff` | apps/api/src/jobs/jobs.service.ts:193-194 | a job enqueued within a transaction arms the timer with the poll interval, whatever was due before |
| `QueueChoices.CancelsExactly` | apps/api/src/jobs/jobs.service.ts:199-202 | cancelling a run takes exactly its waiting jobs out of the queue |
| `QueueChoices.EnqueuedWaits` | apps/api/src/jobs/jobs.service.ts:181-196 | a new job is not taken before its delay is over, and then is as it was asked for |
| `QueueChoices.DefaultPauses` | apps/api/src/jobs/jobs.service.ts:74-75 | with the default pauses a retry that names none waits 30 s, 2 min and then 8 min |
| `QueueChoices.EndsExactly` | apps/api/src/jobs/jobs.service.ts:318-342 | the end of an execution writes to its own row alone: done, back with its pause while attempts are left and a retry was asked for, failed otherwise, nothing once told to stop |
| `QueueChoices.BackoffMeaning` | apps/api/src/jobs/jobs.service.ts:75-76 | the pause of an attempt is the one named for it, the last one for later attempts, 30 s if none is named |
| `QueueChoices.BeatsExactly` | apps/api/src/jobs/jobs.service.ts:345-348 | a beat makes young again exactly the locks of the running rows it executes |
| `QueueChoices.SweepsExactly` | apps/api/src/jobs/jobs.service.ts:214-221 | a sweep puts back exactly the running rows locked more than 60 s ago that are not its own |
| `QueueSteps.OthersUntouched` | apps/api/src/jobs/jobs.service.ts:81-100 | processes share nothing but the table: a step of one leaves every other as it is |
| `QueueSteps.CanHappen` | apps/api/src/jobs/jobs.service.ts:165-202 | when a run can be cancelled, a process crash, a timer fire and an execution be told to stop, no sooner than 25 s after the process |
| `QueueSteps.EnqueueArms` | apps/api/src/jobs/jobs.service.ts:181-196 | what a new job does to timer and poll, within a transaction and not, under way, idle and stopped |
| `QueueSteps.PollEnds` | apps/api/src/jobs/jobs.service.ts:247-264 | however a poll ends, the next is due at once if anything came meanwhile, else after the interval, and never once stopped |
| `QueueSteps.FinishArms` | apps/api/src/jobs/jobs.service.ts:339-342 | an execution that ends makes room, and the next poll is due at once or the one under way woken |
| `QueueSteps.AbortBegins` | apps/api/src/jobs/jobs.service.ts:174-178 | an execution told to stop stays among those under way, and its row alone is being handed back |
| `QueueSteps.HandsBackExactly` | apps/api/src/jobs/jobs.service.ts:174-178 | handing back returns that row alone, only if it still runs, and not at all if the write is lost |
| `JobsService.JobsService.Schedule` | apps/api/src/jobs/jobs.service.ts:235-245 | a stopped process arms nothing; a free slot during a poll sets `wake`; else the timer is replaced |
| `JobsService.JobsService.CountActive` | apps/api/src/jobs/jobs.service.ts:298-303 | the counting loop computes the size of every kind and of every kind and project |
| `JobsService.JobsService.Saturated` | apps/api/src/jobs/jobs.service.ts:297-316 | returns exactly the kinds and pairs at their limit |
| `JobsService.JobsService.AskForMore` | apps/api/src/jobs/jobs.service.ts:253-254 | the head of the poll loop: ask with a snapshot, or end the poll |
| `JobsService.JobsService.EndPoll` | apps/api/src/jobs/jobs.service.ts:259-264 | the `finally` of the poll |
| `JobsService.JobsService.Poll` | apps/api/src/jobs/jobs.service.ts:247-254 | the timer's stretch up to the first await is the protocol's `Fire` step |
| `JobsService.JobsService.OldestEligible` | apps/api/src/jobs/jobs.service.ts:282-292 | finds the oldest row it may take among those no other transaction holds, or none exactly when there is none |
| `JobsService.JobsService.Claim` | apps/api/src/jobs/jobs.service.ts:273-295 | takes the oldest row that waits, is due, fitted when it asked and is held by no other transaction, as the protocol's `Take` step, or ends the poll when there is none |
| `JobsService.JobsService.Execute` | apps/api/src/jobs/jobs.service.ts:254-257 | the claimed job enters `active` before the loop looks at the slots again: the `Land` step |
| `JobsService.JobsService.PollFailed` | apps/api/src/jobs/jobs.service.ts:259-264 | a claim that throws, before or after its row was taken |
| `JobsService.JobsService.Finish` | apps/api/src/jobs/jobs.service.ts:322-343 | the end of an execution: nothing written if aborted; else done, failed, or back to the queue with a pause |
| `JobsService.JobsService.RequeueStale` | apps/api/src/jobs/jobs.service.ts:214-221 | exactly the stale rows that are not its own go back; returns how many |
| `JobsService.JobsService.SweepStale` | apps/api/src/jobs/jobs.service.ts:148-163 | the sweep is the protocol's `Sweep` step |
| `JobsService.JobsService.Beat` | apps/api/src/jobs/jobs.service.ts:345-348 | the heartbeat is the protocol's `Beat` step |
| `JobsService.JobsService.Stop` | apps/api/src/jobs/jobs.service.ts:165-172 | shutdown begins: no timer, no new poll |
| `JobsService.JobsService.Abort` | apps/api/src/jobs/jobs.service.ts:175-176 | after the drain an execution is told to stop and its hand-back is under way |
| `JobsService.JobsService.HandBack` | apps/api/src/jobs/jobs.service.ts:177 | the row goes back to the queue if it still runs, unless the write is lost, whether or not the handler has returned by then |
| `JobsService.JobsService.Enqueue` | apps/api/src/jobs/jobs.service.ts:181-196 | a new row, visible with its delay, and the next poll |
| `JobsService.JobsService.CancelByRun` | apps/api/src/jobs/jobs.service.ts:199-202 | exactly the waiting rows of the run become cancelled, all others stay; returns how many |
| `JobsService.JobsService.constructor` | apps/api/src/jobs/jobs.service.ts:86-104 | a process begins as the protocol's `Start` step |
| `JobsService.FullMeaning` | apps/api/src/jobs/jobs.service.ts:304-314 | full are exactly the kinds and pairs whose count reaches a limit that is set |
| `Remarks.NextCoupled` | apps/api/src/remarks/remarks.service.ts:303-647 | every operation keeps remark and runs in step: only the newest run can be active; triaging, awaiting_pm and awaiting_business_close hold exactly when that run is a triage running, a triage waiting, a retest waiting; a running retest only under ready_for_retest |
| `Remarks.VerdictKeepsCouplingIff` | apps/api/src/remarks/remarks.service.ts:462-494 | a written verdict keeps them in step exactly when it names the newest run or the remark does not await the PM |
| `Remarks.StaleVerdictBreaksCoupling` | apps/api/src/remarks/remarks.service.ts:464-465 | the run that shows it: a verdict on an older run decides the remark while the newer run waits |
| `Remarks.StaleRejectionReopensRun` | apps/api/src/remarks/remarks.service.ts:464-482 | the run in which a rejection that names a finished run makes it run again, and its proposal is accepted once more |
| `Remarks.ActiveIsLast` | apps/api/src/remarks/remarks.service.ts:428 | an active run is the newest one and the status tells its mode |
| `Remarks.RepeatedKeyChangesNothing` | apps/api/src/remarks/remarks.service.ts:467-468 | a key once written changes nothing at any later time, whatever code comes with it |
| `Remarks.VerdictsAreUnique` | apps/api/src/remarks/remarks.service.ts:467-489 | no key is written twice for a run |
| `RemarkRules.AcceptedIff` | docs/STATUS.md:51-72 | a command is accepted exactly when the role may give it and status, run, round or frame are as it needs them, or it repeats a written verdict, which changes nothing |
| `RemarkRules.RefusedWith` | apps/api/src/remarks/remarks.service.ts:462-665 | a refusal is `forbidden` exactly for the wrong role, unless a verdict names a run that is not the remark's, `not found` exactly for an original that is not there, and a conflict in every other case |
| `RemarkRules.VerdictDecides` | apps/api/src/remarks/remarks.service.ts:496-506 | a written verdict leads to defect, change_request, unspecified, duplicate or cannot_tell exactly for the code of that name, and back to triaging exactly for a rejection |
| `RemarkRules.StatusAfter` | apps/api/src/remarks/remarks.service.ts:270-647 | the status after every other accepted command |
| `RemarkRules.RowTells` | apps/api/src/remarks/remarks.service.ts:673-696 | the row each command leaves: from which status, to which, what was done, by whom and about which run |
| `RemarkRules.FramesChange` | apps/api/src/remarks/remarks.service.ts:286-298 | each accepted command marks exactly the frames of the kinds it replaces and adds its own |
| `RemarkRules.OutcomeChanges` | apps/api/src/remarks/remarks.service.ts:562-647 | the outcome is set by the result of a retest and cleared by "not fixed" and by a cancelled comparison that takes the remark back; only a close names who closed; only a verdict adds one |
| `RemarkRules.VerdictsAreDecisions` | apps/api/src/remarks/remarks.service.ts:462-494 | in every run the verdicts are, one by one and in order, the decisions of the history: same run, and the status the code stands for |
| `RemarkRules.InterleavedVerdictsAreDecisions` | apps/api/src/remarks/remarks.service.ts:462-494 | so they are however requests interleave |
| `RemarkRules.HistoryTellsRuns` | apps/api/src/remarks/remarks.service.ts:673-696 | in every run the history alone tells all runs of the remark, their modes and where they stand |
| `RemarkHistory.HistoryReplays` | apps/api/src/remarks/remarks.service.ts:661-696 | in every run of a remark each row starts where the one before ended, the last ends in the present status, each row is legal for its action and role |
| `RemarkHistory.HistoryGrows` | apps/api/src/remarks/remarks.service.ts:673-696 | rows are only added |
| `RemarkHistory.NextRow` | apps/api/src/remarks/remarks.service.ts:661-671 | a command that is carried out adds at most one row, from the status before to the status after |
| `RemarkHistory.StatusMovesAlongEdges` | docs/STATUS.md:15-49 | every change of status is an arrow of the documented state machine |
| `RemarkHistory.EdgesHaveLegalRows` | docs/STATUS.md:51-72 | every arrow has a row that a role may write |
| `RemarkHistory.StuckIffTerminal` | apps/api/src/remarks/labels.ts:44 | a remark whose runs are in step has no way out exactly in closed, change_request and duplicate |
| `RemarkHistory.SoundRun` | apps/api/src/remarks/remarks.service.ts:270-647 | from any new remark, as long as verdicts name the run shown, remark and runs are in step after any commands |
| `RemarkHistory.Provenance` | apps/api/src/remarks/remarks.service.ts:496-531 | a legal history that reaches defect, ready_for_retest or closed holds the human verdict, then the developer's mark, then the customer's close before it |
| `RemarkHistory.ClosingHasProvenance` | apps/api/src/remarks/remarks.service.ts:613-632 | every way to closed leads over all three, in this order |
| `RemarkHistory.TerminalStays` | docs/STATUS.md:15-49 | after a terminal status a history stays in it |
| `RemarkHistory.ClosedOnce` | apps/api/src/remarks/remarks.service.ts:619-632 | a history closes a remark at most once |
| `RemarkFrames.RemarkIsSound` | apps/api/src/remarks/remarks.service.ts:562-647 | in every run at most one frame of each kind is current, a current diff has its retest frame and a retest to be decided or that decided, and there is an outcome exactly then |
| `RemarkFrames.NextOutcome` | apps/api/src/remarks/remark.dto.ts:261-265 | the row that closed names `retest` as the way exactly when the outcome of a retest is kept |
| `RemarkFrames.FramesAreKept` | apps/api/src/remarks/remarks.service.ts:754-757 | frames are never removed, superseded ones stay superseded |
| `RemarkFrames.NextDiffShown` | apps/api/src/remarks/remarks.service.ts:603-606 | no operation leaves a diff current without its retest frame or outside a retest's decision |
| `RemarksService.Record.constructor` | apps/api/src/remarks/remarks.service.ts:110-113 | a new remark with its frame and first row |
| `RemarksService.Record.Transition` | apps/api/src/remarks/remarks.service.ts:661-671 | status and row are written together exactly when the status is one of those expected; else nothing changes and the caller is told |
| `RemarksService.Record.WriteHistory` | apps/api/src/remarks/remarks.service.ts:678-696 | one row at the end |
| `RemarksService.Record.SupersedeShots` | apps/api/src/remarks/remarks.service.ts:754-757 | exactly the current frames of the named kinds become superseded |
| `RemarksService.Record.SettleRetestRuns` | apps/api/src/remarks/remarks.service.ts:629 | retests that wait become persisted |
| `RemarksService.Record.RetestRunning` | apps/api/src/remarks/remarks.service.ts:566 | whether a comparison runs |
| `RemarksService.Record.FixRow` | apps/api/src/remarks/remarks.service.ts:270-283 | carries out the command as specified or refuses it and changes nothing |
| `RemarksService.Record.AttachScreenshot` | apps/api/src/remarks/remarks.service.ts:286-298 | the same |
| `RemarksService.Record.BeginTriage` | apps/api/src/remarks/remarks.service.ts:303-313 | the same, and the returned run is the one that runs |
| `RemarksService.Record.ApplyProposal` | apps/api/src/remarks/remarks.service.ts:337-377 | the same |
| `RemarksService.Record.FailRun` | apps/api/src/remarks/remarks.service.ts:383-394 | the same; nothing for a run that is over |
| `RemarksService.Record.CancelRun` | apps/api/src/remarks/remarks.service.ts:422-455 | the same; nothing for a run that is over |
| `RemarksService.Record.VerdictGiven` | apps/api/src/remarks/remarks.service.ts:467 | finds a verdict with the run and key |
| `RemarksService.Record.GiveVerdict` | apps/api/src/remarks/remarks.service.ts:462-506 | carries out the verdict as specified (`RemarkRules.VerdictDecides`) or refuses it and changes nothing, and says whether one was written |
| `RemarksService.Record.LinkDuplicate` | apps/api/src/remarks/remarks.service.ts:508-521 | the same |
| `RemarksService.Record.MarkReady` | apps/api/src/remarks/remarks.service.ts:523-531 | the same |
| `RemarksService.Record.BeginRetest` | apps/api/src/remarks/remarks.service.ts:562-579 | the same, and the returned run is the one that runs |
| `RemarksService.Record.ApplyRetest` | apps/api/src/remarks/remarks.service.ts:596-612 | the same |
| `RemarksService.Record.Close` | apps/api/src/remarks/remarks.service.ts:619-632 | the same |
| `RemarksService.Record.NotFixed` | apps/api/src/remarks/remarks.service.ts:634-647 | the same |
| `RemarksService.Record.NoteReopened` | apps/api/src/remarks/remarks.service.ts:255-258 | the row on the original of a claim raised again |
| `Optimistic.ChangesAreLegal` | apps/api/src/remarks/remarks.service.ts:661-671 | however requests interleave, every change of status is an arrow from the status at that moment |
| `Optimistic.DecidedStays` | apps/api/src/remarks/remarks.service.ts:655-671 | however requests interleave, a terminal status is never left |
| `Optimistic.ClosedAtMostOnce` | apps/api/src/remarks/remarks.service.ts:619-632 | however requests interleave, the history closes the remark exactly as often as it is closed |
| `Optimistic.KeysAreWrittenOnce` | apps/api/src/remarks/remarks.service.ts:467-489 | however requests interleave, a key is written at most once for a run |
| `Optimistic.WrittenKeyChangesNothing` | apps/api/src/remarks/remarks.service.ts:467-468 | a written key: a later request opens no transaction, one already under way rolls back |
| `Optimistic.CommitRefines` | apps/api/src/remarks/remarks.service.ts:270-283 | a fixed row, a verdict of either kind, a mark, a close and a "not fixed" are at their transaction exactly the atomic operation, whatever came between read and write |
| `Optimistic.RunWritesRefineIff` | apps/api/src/remarks/remarks.service.ts:337-377 | a proposal, a retest result and a new retest are the atomic operation exactly when what was read of the runs still holds |
| `Optimistic.TriageRefinesButFrom` | apps/api/src/remarks/remarks.service.ts:303-313 | a triage begun is the atomic operation but for the status its row names, which is right exactly when the status did not change |
| `Optimistic.UndisturbedIsAtomic` | apps/api/src/remarks/remarks.service.ts:422-455 | with nothing in between, read and transaction are the atomic operation, for every request |
| `Optimistic.CommitIsLegal` | apps/api/src/remarks/remarks.service.ts:661-671 | one transaction moves the status along an arrow or not at all |
| `Optimistic.TwoRetestsAtOnce` | apps/api/src/remarks/remarks.service.ts:562-579 | two requests that both read "nothing runs" start two comparisons |
| `Optimistic.CancelRefinesIff` | apps/api/src/remarks/remarks.service.ts:422-455 | a cancel written late is the atomic operation exactly when its run is active and the status and whether the remark moves are as read (or moving changes nothing), or its run is over and nothing is moved |
| `Optimistic.LateCancel` | apps/api/src/remarks/remarks.service.ts:422-455 | a cancel written after its run failed and another began sends the remark back while that one runs |
| `Rounds.ProjectIsSound` | apps/api/src/remarks/remarks.service.ts:100-122 | in every run the numbers in each round are 1, 2, … n, round numbers differ, a closed round holds only decided remarks |
| `Rounds.ClosedRoundIsFinal` | apps/api/src/rounds/rounds.service.ts:65-95 | what a closed round decided stays decided, even if the round is opened again |
| `Rounds.RoundOpensIffDecided` | apps/api/src/rounds/rounds.service.ts:45-62 | a round opens exactly when nothing in the project is pending and the number wished, if any, is free; it begins open and empty, with that number or one above all others |
| `Rounds.ClosesIffDecided` | apps/api/src/rounds/rounds.service.ts:65-84 | a round can be closed exactly when nothing in it is pending; closing again changes nothing |
| `Rounds.EntriesLiveAsRemarks` | apps/api/src/remarks/remarks.service.ts:193-258 | every remark of a project has lived as a single remark does, from one of its three beginnings |
| `Rounds.EventsTellState` | apps/api/src/rounds/rounds.service.ts:307-310 | the newest event of a round tells whether it is closed; events are only added |
| `RoundRules.AcceptedIff` | apps/api/src/rounds/rounds.service.ts:45-95 | a command on a project is accepted exactly when its role may give it and nothing undecided, no closed round and no taken number is in its way |
| `RoundRules.NewRemarkBegins` | apps/api/src/remarks/remarks.service.ts:193-259 | how remarks begin: imported when created or understood, needs_human_parse when not, reopened when raised again; with the highest number, one row and its frame; a closed original gets one row and nothing else |
| `RoundRules.RefusedWith` | apps/api/src/rounds/rounds.service.ts:45-95 | a refused command is forbidden to its role, names what is not there, or is in conflict with where round and remarks are |
| `RoundRules.OthersStay` | apps/api/src/remarks/remarks.service.ts:655-671 | a command on one remark does to it what it does alone, and changes no other, no round and no event |
| `RoundRules.RoundChanges` | apps/api/src/rounds/rounds.service.ts:45-95 | opening, closing and reopening change that round alone, with one event that names it and the role |
| `RoundRequests.CommitRefinesIff` | apps/api/src/rounds/rounds.service.ts:65-84 | a close or a new remark, written after any other requests came between, is the atomic operation exactly when what it was let through on still holds: the round closed meanwhile or all created in it since decided; the round still open |
| `RoundRequests.KeepsRoundsIff` | apps/api/src/rounds/rounds.service.ts:69-82 | exactly then the write keeps closed rounds decided |
| `RoundRequests.AlwaysDecidedIff` | apps/api/src/rounds/rounds.service.ts:65-84 | over every interleaving of all requests: closed rounds hold only decided remarks all the time exactly when this is so at every late write |
| `RoundRequests.NumbersAlwaysOk` | apps/api/src/remarks/remarks.service.ts:100-122 | over every interleaving the numbers in each round are 1, 2, … n |
| `RoundRequests.CloseOverlooks` | apps/api/src/rounds/rounds.service.ts:69-82 | a remark created between the count and the close: the run that ends with an undecided remark in a closed round |
| `RoundsService.Store.PendingByRound` | apps/api/src/rounds/rounds.service.ts:296-303 | the pending remarks of each round, rounds without any left out |
| `RoundsService.Store.LastRoundNumber` | apps/api/src/rounds/rounds.service.ts:57 | the highest number of a round |
| `RoundsService.Store.Create` | apps/api/src/rounds/rounds.service.ts:45-62 | carries out the command as specified or refuses it and changes nothing |
| `RoundsService.Store.Close` | apps/api/src/rounds/rounds.service.ts:65-84 | the same |
| `RoundsService.Store.Reopen` | apps/api/src/rounds/rounds.service.ts:86-95 | the same |
| `RoundsService.Store.LastNumberIn` | apps/api/src/remarks/remarks.service.ts:111 | the highest number in a round |
| `RoundsService.Store.CreateNumbered` | apps/api/src/remarks/remarks.service.ts:100-122 | the next number of the round |
| `RoundsService.Store.CreateRemark` | apps/api/src/remarks/remarks.service.ts:193-207 | the same as the other commands |
| `RoundsService.Store.ImportRemark` | apps/api/src/remarks/remarks.service.ts:213-228 | the same, for a journal row that was or was not understood |
| `RoundsService.Store.ReopenRemark` | apps/api/src/remarks/remarks.service.ts:235-259 | the original stays closed with a new row, a new remark begins |
| `RoundsService.PendingMeaning` | apps/api/src/rounds/rounds.service.ts:296-303 | the count is zero exactly when nothing in the round is pending |
| `TriageGraph.FaithfulProposals` | apps/api/src/agent/triage.graph.ts:99-184 | for any model and any thread, started over at any points or not: a proposal without its quotations of the remark refers only to sections of cited hits, a defect cites something, everything cited was retrieved |
| `TriageGraph.ProposalsAreSupported` | apps/api/src/agent/triage.graph.ts:99-184 | for any model and any thread, started over or not: if the cuts hide no reference, as for every remark that is safe to quote, the whole draft of a proposal refers only to sections cited or named by the remark |
| `TriageGraph.GateLetsThrough` | apps/api/src/agent/triage.graph.ts:144-167 | what leaves the gate towards the proposal passes the check, the replaced draft included |
| `TriageGraph.FallbackLetThrough` | apps/api/src/agent/triage.graph.ts:152-166 | the draft the gate puts in place after the last loop passes the check itself |
| `TriageGraph.HitsAreTheBest` | apps/api/src/agent/triage.graph.ts:55-64 | after any rounds since the last reset the hits are distinct, best first, and their scores are the top 8 of the best score per chunk over everything retrieved, for a thread started over with what it was left |
| `TriageGraph.StepCountsDown` | apps/api/src/agent/triage.graph.ts:66-167 | every node but the wait uses up one of the remaining executions |
| `TriageGraph.FirstInvocationIsBounded` | apps/api/src/agent/agent.service.ts:341 | an invocation that begins at the first node, of a new thread or one started over on any state left behind, runs at most 23 nodes |
| `TriageGraph.ResumedInvocationIsBounded` | apps/api/src/agent/agent.service.ts:341 | so does every resumed one, of any thread; the recursion limit of 80 is never reached |
| `TriageGraph.BoundIsReached` | apps/api/src/agent/triage.graph.ts:230-256 | a thread whose first invocation runs 23 nodes |
| `TriageGraph.ExclusionGrows` | apps/api/src/agent/triage.graph.ts:186-204 | excluded chunks stay excluded until a thread is started over |
| `TriageGraph.RejectedNeverReturn` | apps/api/src/agent/triage.graph.ts:186-204 | citations the human rejected are in no later hits and no later proposal until the thread is started over |
| `TriageGraph.RejectionsAreBounded` | apps/api/src/agent/triage.graph.ts:186-204 | proposals with citations are rejected at most once per chunk of the project in a thread that is not started over |
| `TriageGraph.StartedOverExcludes` | apps/api/src/agent/agent.service.ts:387-400 | a thread started over on any state left behind keeps excluded chunks out exactly when none is among the hits left behind |
| `TriageGraph.ThreadInv` | apps/api/src/agent/triage.graph.ts:46-204 | in every state of every thread, started over or not: both loop counters at most 2, hits merged from what was retrieved, cited chunks among the hits, what is past the gate raises no issue |
| `TriageProposals.BoundIffSupported` | apps/api/src/agent/triage.graph.ts:76-84 | behind the binding of every thread: a clause exactly when there is a hit, and one of at least 0.45 or a comment; then it is chunk, section and score of a hit no hit outscores |
| `TriageProposals.ClassifyIsToldTheBest` | apps/api/src/agent/triage.graph.ts:100-104 | in every thread the model that classifies is told the best hit, or none exactly when nothing supports an answer |
| `TriageProposals.RewrittenIff` | apps/api/src/agent/triage.graph.ts:86 | the query is rewritten exactly when no hit scores 0.45, nobody commented and it was rewritten less than twice |
| `TriageProposals.QueryMeaning` | apps/api/src/agent/triage.graph.ts:261-263 | a query is description, expectation, page and comment in this order, those there are, as sentences |
| `TriageProposals.SearchesFor` | apps/api/src/agent/triage.graph.ts:46-60 | in every thread a search is for that, with the human's last comment, or for what the model made of it just before |
| `TriageProposals.SearchKeeps` | apps/api/src/agent/triage.graph.ts:55-58 | it keeps what it finds but for what is excluded |
| `TriageProposals.ExcludedIff` | apps/api/src/agent/triage.graph.ts:46-204 | until a thread is started over exactly these chunks are excluded: those given, those cited before if it began with a comment, and those of proposals rejected since |
| `TriageProposals.FrameSeenOnce` | apps/api/src/agent/triage.graph.ts:66-74 | a frame is looked at only if there is one and the model can see, and once at most in a whole thread, started over or not |
| `TriageProposals.ProposalIsAnswer` | apps/api/src/agent/triage.graph.ts:99-184 | in every thread a proposal is the class, duplicate and reason of the model's last pass, its citations that are hits and its draft under the headline of the class, or, exactly when the check finds issues for the third time, gives up and names them |
| `TriageProposals.HeadlineSays` | apps/api/src/llm/triage-llm.ts:124-137 | the headline of each class; the number of a duplicate is written in decimal |
| `TriageProposals.ProposalsCite` | apps/api/src/agent/triage.graph.ts:144-167 | in every thread, of the text of a proposal without its quotations: each section referred to is that of a hit it cites, a frame is described only if there is one, a defect cites something |
| `TriageProposals.NextPassIsTold` | apps/api/src/agent/triage.graph.ts:152-157 | in every thread another pass behind the check is told what it found, twice at most |
| `TriageProposals.HumanDecides` | apps/api/src/agent/triage.graph.ts:186-217 | what each decision of the human leads to and leaves of the state |
| `TriageProposals.ThreadBegins` | apps/api/src/agent/agent.service.ts:387-400 | what a thread begins with, new or started over |
| `TriageThreads.UnsafeIsProposed` | apps/api/src/agent/triage.graph.ts:230-256 | for a remark of one line that is not safe to quote, the thread whose proposal refers to what is neither cited nor the remark's |
| `TriageThreads.ProposalsProtectedIff` | apps/api/src/agent/triage.graph.ts:134-167 | for a remark of one line: all proposals of all threads refer only to what is cited or the remark's exactly when the remark is safe to quote |
| `TriageThreads.ContinuationIsProposed` | apps/api/src/agent/triage.graph.ts:134-184 | a remark that ends in a reference and a draft that goes on with its number: the thread that proposes the draft, headline in front, with the longer reference cited nowhere |
| `TriageThreads.RejectedIsCitedAgain` | apps/api/src/agent/agent.service.ts:387-400 | a thread with one hit that is proposed and accepted, started over with that hit excluded: its next proposal cites it |
| `Retrieval.Retrieve` | apps/api/src/agent/triage.graph.ts:55-64 | the merging loop computes the best hit per chunk of both lists, best first, at most 8 |
| `Retrieval.MergedMeaning` | apps/api/src/agent/triage.graph.ts:57-62 | what one round of merging means, without its loops |
| `Retrieval.IncrementalEqualsBatch` | apps/api/src/agent/triage.graph.ts:55-64 | merging round by round gives the same scores as merging everything at once |
| `Retrieval.TopScoresUnique` | apps/api/src/agent/triage.graph.ts:62 | the scores of the best 8 are determined by what was retrieved |
| `Retrieval.SortKeepsOrder` | apps/api/src/agent/triage.graph.ts:62 | hits with the same score stay in the order they were merged in |
| `Faithfulness.NoIssuesMeansFaithful` | apps/api/src/agent/faithfulness.ts:28-40 | the check finds nothing exactly when each section reference in the draft's own text is a cited section, a defect has a citation, and a frame is only described if there is one |
| `Faithfulness.CheckFaithfulness` | apps/api/src/agent/faithfulness.ts:28-40 | the loops compute those issues |
| `Faithfulness.SectionNumbers` | apps/api/src/agent/faithfulness.ts:54-56 | the scanner returns the references at every position in order |
| `Faithfulness.RefMeaning` | apps/api/src/agent/faithfulness.ts:54-56 | a reference is a maximal section number behind the sign or one white space further |
| `Faithfulness.StripRemarkQuotes` | apps/api/src/agent/faithfulness.ts:44-51 | the loop cuts every long enough line of the remark, with and without its dot |
| `GateTexts.PieceIff` | apps/api/src/agent/faithfulness.ts:45-47 | what is cut is the whole remark and each of its lines, trimmed, of at least eight characters |
| `GateTexts.FrameIff` | apps/api/src/agent/faithfulness.ts:39 | a draft describes a frame exactly when one of the two phrases stands in it, in any case |
| `GateTexts.IssuesIff` | apps/api/src/agent/faithfulness.ts:28-41 | the check finds exactly the sections referred to and not cited, a defect without citation and a described frame that is not there, each once |
| `GateTexts.FallbackSaid` | apps/api/src/agent/triage.graph.ts:155-164 | the draft the gate writes itself names all it found, one behind the other |
| `Text.LinesMeaning` | apps/api/src/agent/faithfulness.ts:45 | the lines of a text, joined by line breaks, are the text, and no line has one |
| `Text.TrimMeaning` | apps/api/src/agent/faithfulness.ts:45-47 | trimming takes the blanks off both ends and nothing else |
| `Faithfulness.OwnTextOccurs` | apps/api/src/agent/faithfulness.ts:44-51 | cutting makes no new word |
| `Faithfulness.OwnTextOfUnquoted` | apps/api/src/agent/faithfulness.ts:44-51 | a draft that quotes nothing is checked as it stands |
| `Faithfulness.FirstCut` | apps/api/src/agent/faithfulness.ts:44-51 | the first occurrence goes, the text before it stays |
| `Faithfulness.FallbackPasses` | apps/api/src/agent/triage.graph.ts:152-166 | the fallback text that names the issues found raises none itself, whatever they were and whatever the remark says |
| `Quotations.GateProtectsIff` | apps/api/src/agent/faithfulness.ts:28-40 | for a draft and a remark: no issue means that every reference of the whole draft is cited or the remark's, whatever is cited, exactly when the cuts hide no reference |
| `Quotations.CleanCutsHideNothing` | apps/api/src/agent/faithfulness.ts:44-51 | no reference is hidden if at no step an occurrence of the piece to be cut begins or ends inside a reference |
| `Quotations.CutKeeps` | apps/api/src/agent/faithfulness.ts:44-51 | one cut, clean in this sense, loses no reference but those of the piece |
| `Quotations.PieceRefs` | apps/api/src/agent/faithfulness.ts:45-47 | what a piece refers to the remark refers to: trimming and splitting into lines make no reference |
| `Quotations.SafeProtects` | apps/api/src/agent/faithfulness.ts:28-51 | a remark all of whose pieces are safe to quote: every reference of a draft that passes is cited or the remark's |
| `Quotations.UnsafeBetrays` | apps/api/src/agent/faithfulness.ts:28-51 | a remark not safe to quote as a whole: some draft passes with a reference that is neither |
| `Quotations.ProtectedIff` | apps/api/src/agent/faithfulness.ts:28-51 | the condition of the two, which meet for a remark of one line, on the text of that line |
| `Quotations.ContinuedQuotation` | apps/api/src/agent/faithfulness.ts:44-51 | the remark names section 2, the draft 2.1, nothing is cited, and the gate raises no issue |
| `QuotedLines.UnsafeLineBetrays` | apps/api/src/agent/faithfulness.ts:44-51 | a remark of any number of lines with a piece not safe to quote in which no piece cut before occurs: some draft passes with a reference that is neither cited nor the remark's |
| `QuotedLines.LinesProtectedIff` | apps/api/src/agent/faithfulness.ts:28-51 | a remark of any number of lines in which no piece occurs in a later, different one that is not safe to quote: whatever draft and citations, every reference of a draft that passes is cited or the remark's exactly when all pieces are safe to quote |
| `Toc.TocTail` | apps/api/src/rag/chunker.ts:133-145 | the backwards scan finds the tail of an entry |
| `TocTails.TailIff` | apps/api/src/rag/chunker.ts:133-145 | a line ends like an entry exactly when it is a text with a letter, a leader and a page of up to four digits, and the leader has three dots or dashes in a row, three spaced dots, a tab, two spaces or a bar; what the tail then tells |
| `TocTails.PageReads` | apps/api/src/rag/chunker.ts:133-145 | the page is the number the digits stand for |
| `TocTails.BarePageIff` | apps/api/src/rag/chunker.ts:60 | a line is a bare page exactly when it is nothing but what the tail of a line reads as its page |
| `TocTails.WrapsFrom` | apps/api/src/rag/chunker.ts:185-196 | which of the lines above a page belong to its entry: in a series all that ended none, at the first entry those from a heading on, or below a title, two at most |
| `Toc.WrappedLines` | apps/api/src/rag/chunker.ts:184-194 | which pending lines wrap into an entry |
| `Toc.CloseSeries` | apps/api/src/rag/chunker.ts:163-178 | a series that is accepted drops its lines and the title above |
| `Toc.ReadLine` | apps/api/src/rag/chunker.ts:180-206 | one line of the scan |
| `Toc.ScanLines` | apps/api/src/rag/chunker.ts:180-206 | the loop over the lines follows the scan, line by line |
| `Toc.TocLines` | apps/api/src/rag/chunker.ts:157-209 | the loop drops exactly the lines of the blocks |
| `Toc.ReaderIsSane` | apps/api/src/rag/chunker.ts:54-57 | the scanner of tails meets what the theorems ask of what is read: an entry ends in a digit, a contents title does not |
| `Toc.RemovalIsSound` | apps/api/src/rag/chunker.ts:157-209 | a dropped line with text lies in exactly one block and there belongs to an entry or is the title directly above |
| `Toc.RemovedBlocksOk` | apps/api/src/rag/chunker.ts:147-156 | blocks are disjoint, of at least three ordered entries of at most three lines with text, pages never decrease, nothing but blank lines in between |
| `TocContents.TitleFoundIff` | apps/api/src/rag/chunker.ts:180-206 | contents of entries of up to three lines right below a title: the first entry is read as standing below a title exactly when no series is under way at its last line |
| `TocContents.DetachedIsApart` | apps/api/src/rag/chunker.ts:147-156 | none is if the two lines of text above the title end no entry |
| `TocContents.ContentsAreRemoved` | apps/api/src/rag/chunker.ts:147-156 | then all lines from the title down to the last page number are dropped, if there are three entries or more, whatever stands above and follows |
| `TocContents.TitleTooClose` | apps/api/src/rag/chunker.ts:157-209 | a row of a table, the title right below it and contents with gaps: the text of which nothing is dropped |
| `TocAlone.AcceptedIff` | apps/api/src/rag/chunker.ts:163-178 | a series is accepted exactly when it has three entries or more and a title right above, or no mere bar as leader and dots everywhere or two numbered headings in three entries |
| `TocAlone.SeriesRemovedIff` | apps/api/src/rag/chunker.ts:157-209 | the lines of a series that ends with the text or before three lines that end no entry are dropped exactly then, whatever stands above and follows |
| `TocAlone.ListedRemovedIff` | apps/api/src/rag/chunker.ts:147-156 | entries of up to three lines one below the other, the first on one line and no series under way above: dropped exactly then |
| `Windows.CutWindows` | apps/api/src/rag/chunker.ts:231-240 | the loop computes the windows |
| `Windows.WindowsKeepWords` | apps/api/src/rag/chunker.ts:231-240 | without what windows repeat, the words come back exactly when the text fits or windows hold a word and the overlap is not negative; otherwise some are lost |
| `Windows.WindowsFit` | apps/api/src/rag/chunker.ts:231-240 | no window is longer than allowed or empty |
| `Words.SplitIsWords` | apps/api/src/rag/chunker.ts:257 | splitting trimmed text at white space gives its words |
| `Words.CollapseWords` | apps/api/src/rag/chunker.ts:252 | collapsing empty lines keeps the words |
| `Chunker.ChunkByHeadings` | apps/api/src/rag/chunker.ts:242-286 | the loop computes the chunks of the sections (where they come from and what they show: `ChunkSections.ChunksComeFrom`) |
| `Chunker.Flush` | apps/api/src/rag/chunker.ts:251-269 | one section's chunks are appended in order |
| `Chunker.TextIsConserved` | apps/api/src/rag/chunker.ts:242-286 | chunks read in order, without what windows repeat, give the words of all lines that are neither headings nor contents exactly when no section loses words to its windows |
| `Chunker.DefaultsConserve` | apps/api/src/rag/chunker.ts:28 | with the default sizes they always do |
| `Chunker.PathsAreOutlines` | apps/api/src/rag/chunker.ts:272-284 | every section's path has strictly growing levels and holds exactly the headings above that no later one closed |
| `Chunker.ChunksAreNumberedAndFit` | apps/api/src/rag/chunker.ts:258-268 | chunks are numbered without a gap, none is too long, none empty |
| `Chunker.ChunksEmbedTheirTrail` | apps/api/src/rag/chunker.ts:262-265 | what is embedded is the trail of titles and then the same words as shown |
| `ChunkSections.ChunksComeFrom` | apps/api/src/rag/chunker.ts:221-286 | every chunk's words stand one behind the other in the lines below one heading; it is named after that heading, the nearest above, its path are the titles of the headings open there, and above the first heading it has neither; it shows those lines, or its words if they are too many, and embeds its words behind the path |
| `ChunkSections.RunsAreThinned` | apps/api/src/rag/chunker.ts:252 | a run of line breaks becomes two if it is longer |
| `ChunkSections.ThinnedApart` | apps/api/src/rag/chunker.ts:252 | and what stands before and after any other character is thinned by itself |
| `Chunker.LinesKeepWords` | apps/api/src/rag/chunker.ts:244 | splitting into lines keeps the words, whatever the line ends |
| `Csv.SplitCsv` | apps/api/src/imports/journal-parser.ts:91-131 | the scanner's loop computes the records of any text (which they are: `Csv.SplitMeaning`) |
| `Csv.SplitMeaning` | apps/api/src/imports/journal-parser.ts:91-131 | for any separator and any text written with characters, stretches in quotes, separators and line breaks, the last quote closed or not: the records are the cells between separators, line by line, but for a last empty line |
| `Csv.EveryTextIsWritten` | apps/api/src/imports/journal-parser.ts:91-131 | every text is written so |
| `Csv.RoundTrip` | apps/api/src/imports/make-journal-fixtures.ts:18-30 | printed with any separator and any of the three line ends and read back, rows are the same exactly when none is without cells (section 2 of RFC 4180) |
| `Csv.PrintThenSplit` | apps/api/src/imports/make-journal-fixtures.ts:18-30 | what any printed rows are read back as, for any separator |
| `Csv.OpenReadBackIff` | apps/api/src/imports/journal-parser.ts:126-129 | without the last line break the same is read back exactly when the last row is neither without cells nor one empty cell |
| `Csv.SeparatorDetected` | apps/api/src/imports/journal-parser.ts:83-88 | a journal printed with `;` or `,` under a header of at least two plain cells is taken to have that separator |
| `Csv.JournalReadBack` | apps/api/src/imports/journal-parser.ts:83-131 | and is read back as it was with the separator found, with or without its last line break |
| `GraphRuns.HandlerAndQueueAgree` | apps/api/src/agent/agent.service.ts:286-304 | handler and queue agree in every run of the queue: the job goes back exactly when the call of the graph broke with an error that passes, before the deadline, while fewer claims than maxAttempts were made, and the write is not lost; it fails exactly by an error outside the call or a lost write of its end, never on a retry |
| `GraphRuns.BrokenRunIsSettled` | apps/api/src/agent/agent.service.ts:357-375 | in any world of runs, memories and counters: a broken run without another live job stays running with its job back in the queue, or is failed with its job done, or, exactly when the failure could not be written, stays running without a live job |
| `GraphRuns.PlainErrorStrands` | apps/api/src/agent/agent.service.ts:286-297 | a lookup or a clean-up that throws fails the job and leaves a run without another live job running and without one |
| `RunRules.GraphIsCalledIff` | apps/api/src/agent/agent.service.ts:286-304 | when a start and when a resume call the graph |
| `RunRules.QueueIsTold` | apps/api/src/agent/agent.service.ts:286-304 | when the queue is told an error, when to try again, and that all is done in every other case |
| `RunRules.VerdictIsCarriedOn` | apps/api/src/agent/agent.service.ts:387-400 | whatever a run's status was, after a verdict on it a resume that finds the pause calls the graph |
| `RunRules.EndedRunIsLeftAlone` | apps/api/src/agent/agent.service.ts:288-291 | no job touches a run that was cancelled or given up meanwhile |
| `RunRules.StatusChanges` | apps/api/src/remarks/remarks.service.ts:337-494 | by exactly which events a run comes to wait, fails, is cancelled, runs again or is over |
| `RunRules.GivenUpIff` | apps/api/src/remarks/remarks.service.ts:403-416 | a run is given up exactly when it runs, began and last changed before the cutoff, and all its jobs are done, failed or cancelled |
| `RunRules.StrandedIsGivenUp` | apps/api/src/remarks/remarks.service.ts:403-416 | a run an error outside the call left running is given up by a late enough sweep, and was not before |
| `GraphRuns.RunTable.FailStaleRuns` | apps/api/src/remarks/remarks.service.ts:403-416 | the sweep fails exactly the old running runs without a waiting or executed job and without a recent change, and counts them |
| `GraphRuns.RunTable.CountLiveJobs` | apps/api/src/remarks/remarks.service.ts:408-409 | how many jobs of the run wait or are executed; none exactly when there is none |
| `GraphRuns.RunsFollowLedger` | apps/api/src/agent/agent.service.ts:350-376 | branch by branch (completed, aborted, retry kept, failure written, refused or lost, proposal accepted, refused or lost, crash), memories and counters are those of the ledger |
| `GraphRuns.RunSumsUp` | apps/api/src/agent/agent.service.ts:350-373 | over all handlers' branches in any order: what is stored and in memory never exceeds what the calls of the run reported, and equals it exactly when no branch let any of it go |
| `GraphRuns.WrittenRunIsHonestIff` | apps/api/src/agent/agent.service.ts:361-369 | when a proposal or failure is written the counters hold all that was reported exactly when nothing was let go before and no other process holds any of it |
| `GraphRuns.RetryElsewhere` | apps/api/src/agent/agent.service.ts:361-365 | the retry another process claims: nothing was let go, and one of two tokens is stored |
| `GraphRuns.OverIsFinalIff` | apps/api/src/remarks/remarks.service.ts:462-494 | a run that is persisted, failed or cancelled keeps status and counters through whatever follows exactly when no verdict in it names the run and rejects its citation, or names it while it is failed or cancelled |
| `GraphRuns.OverGoesOn` | apps/api/src/remarks/remarks.service.ts:464-482 | for every run that is over: the verdict, the call and the proposal after which it waits again, with what the process held and the call reported added to its counters |
| `GraphRuns.CommandsMoveRuns` | apps/api/src/remarks/remarks.service.ts:303-647 | every command on a remark moves each of its runs as the event of the handler's model does |
| `GraphRuns.AgentService.WriteProposal` | apps/api/src/agent/triage.graph.ts:170-184 | usage is taken first, and stored only if the proposal is accepted |
| `GraphRuns.AgentService.Caught` | apps/api/src/agent/agent.service.ts:350-376 | the `catch` of `run`: which branch takes, keeps, stores or lets go, and whether the queue is asked for a retry |
| `GraphRuns.AgentService.ExecuteJob` | apps/api/src/agent/agent.service.ts:286-376 | what the handler tells the queue, and what it leaves of run and usage, an abort while it waited for a slot included |
| `Usage.UsageIsConserved` | apps/api/src/llm/openai-triage-llm.ts:263-283 | the ledger of any number of processes, whatever is kept, stored, refused, aborted or crashed: reported = stored + pending + dropped, counter by counter |
| `Usage.DroppedIff` | apps/api/src/agent/agent.service.ts:350-373 | nothing of a run was dropped exactly when no abort, crash, refused or lost write found any of it in its process |
| `Usage.WrittenRunStoresAllIff` | apps/api/src/remarks/remarks.service.ts:374 | a write leaves all that was reported in the counters exactly when nothing was let go before and no other process holds any |
| `Usage.StoredNeverDecreases` | apps/api/src/remarks/remarks.service.ts:730-738 | stored counters never decrease |
| `Usage.SpendIsHonest` | apps/api/src/llm/pricing.ts:44-55 | a call without tokens costs nothing, so what is not written is nothing |
| `Usage.CostMeaning` | apps/api/src/llm/pricing.ts:44-55 | a million tokens cost their price, cost adds up token by token, a model without a price costs nothing |
| `Usage.Meter.Track` | apps/api/src/llm/openai-triage-llm.ts:270-283 | a reported call is added to the sum of its run |
| `Usage.Meter.TakeUsage` | apps/api/src/llm/openai-triage-llm.ts:263-267 | returns the sum and leaves none: a second call gets nothing |
| `Usage.Counters.AddUsage` | apps/api/src/remarks/remarks.service.ts:730-738 | adds to the counters, empty ones included |

## Left out

- Prisma, SQL text, NestJS, HTTP, WebSocket, MCP, the Angular UI, Langfuse, Sentry, checkpoint serialisation, invitations, passwords, notifications, eval metrics: libraries, input and output, or easy members.
- OpenAI calls, embeddings, vector search, pixel comparison, PNG, PDF and DOCX: their results are arbitrary values; a draft is any text, though the OpenAI client collapses its white space.
- `parseCsv`, `parseXlsx`, header matching and row limits of the journal: decoding, header aliases and per-row checks around the scanner.
- The rules after the model in `classify` and the rule-based model: the graph's theorems hold for any answer.
- `parseMdHeading`, `parseNumberedHeading`, `sectionLabel`, letters, titles of contents and starts of headings: functions of the text with nothing assumed of them, but that a contents title does not end in a digit.
- `chunkFixed`: not used in production; it cuts with the same windows.
- Strings are sequences of Unicode characters, not UTF-16 units; lower case in the check of drafts is that of the Russian and Latin letters; scores and costs are reals, so the rounding of costs to six decimals is not modelled.
- The exact texts of labels, prompts and the injection patterns: a note added to a draft is arbitrary text.
- Fairness of the queue, latency of its timers, pruning of finished jobs, the test mode in which a worker takes only its own jobs, and `Semaphore`, which guards only runs outside the queue.
- `JobQueue.Apply`: the final write of a row and the removal from `active` are one step, and so are the check for an abort and that write; between them an abort could come in the program.
- `JobQueue.Fits`: lost beats, the time of a claim, the time after a stop and the difference of clocks are assumptions about the environment, made explicit as parameters; nothing in the program bounds the time of its last writes. A process's clock keeps its distance to the database's.
- `Optimistic.Commit`: `failRun`, `attachScreenshot`, `linkDuplicate` and the row on a reopened original are one step each; texts, citations, advice and links to originals are not part of the remark's model.
- `RoundRequests.Commit`: only closing a round and adding remarks are read and written apart; opening a round, reopening one and the operations on remarks are one step each there.
- `TriageGraph.StartedOverExcludes`: a thread may be started over at any checkpoint; how LangGraph replays a resume that stopped half way, write by write, is not modelled.
- The shutdown loop's 200 ms polls and the order in which it aborts executions: any order and any moment after 25 s is allowed.
- `running` and `projectSlots` of the agent service, runs outside the queue, and waiting for a graph to settle before a resume or a cancel.
- `GraphRuns.Step`: the write of a proposal or of a failure and the check of the run's status are one step; whether the remark still fits and whether a write is lost are arbitrary.
- `QuotedLines.LinesProtectedIff`: whether a piece that is not safe to quote betrays the remark although a safe piece cut before occurs in it is open; that safe pieces suffice holds for every remark (`Quotations.SafeProtects`).
- `TocAlone.ListedRemovedIff`: entries below another series that is under way, and entries that later ones continue, are dropped with the series they are read in (`TocAlone.SeriesRemovedIff`); which lines make up that series is stated for entries as written only.
- Object identity: the classes hold their rows as sequences and maps of values; aliasing between rows does not occur in the program's tables.
