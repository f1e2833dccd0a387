# CodeMoot: a verified model of its protocols and cores

This project models, in Dafny, the parts of the repository that keep state across crashes, processes and
operators, and the data-structure cores they rest on, and proves what those parts are for. Run
`dafny verify dfyconfig.toml` to verify everything.

## What is modelled

**The relay** (`packages/cli/src/commands/relay.ts`). Two models, an implementer and a reviewer, work through
numbered batches. All state is one row of counters, one append-only event log, one pause cell and one worker
lease, and everything the loop does next is read off the last logged exchange.

- `Verdicts.dfy` is the parser of reviewer replies and the rule that an advancing verdict needs findings;
  `VerdictForms.dfy` says, without the scanner, what it reads on a line and where a reply routes.
- `Preface.dfy` is the reconcile note in front of a re-sent prompt, and `INTERRUPTION_PREFACE` the program's. The
  protocol takes any note and any prose of the prompts, provided no prose starts with the note; the
  program's do not (`TemplatesAreUnmarked`).
- `RelayProtocol.dfy` is the durable state, how the log is read, the guards the code derives from it, and `Next`:
  one durable write. A run is any sequence of such writes, so a crash between two writes is simply a shorter run.
- `RelaySafety.dfy` is the invariant of all runs; `RelayTheorems.dfy`, `RelayDecisions.dfy` and `RelaySessions.dfy`
  are what follows, and `RelayReach.dfy` shows that the states the theorems speak of are reached.
- `RelayWorker.dfy` is the worker itself, a class with the durable columns, its own copy of the row and a method
  per function of the source. What the models do is an
  arbitrary sequence of outcomes; operator writes to the pause cell and stop signals come at will and are counted.
  Every write it makes is proved to be a `Next` step, so all theorems about runs hold of it.
- `Lease.dfy` is the worker lease under every interleaving of reads, liveness tests, claims, releases and deaths.
- `RelayClaims.dfy` puts the two together: processes under the lease, each working from the copy of the row it
  carries. With harmless claims every history is a run, so the theorems about runs are theorems about histories.

**The workflow resolver** (`Workflow.dfy`): the work-queue topological sort with its error cases.

**The debate ledger** (`MessageLedger.dfy`, `DebateTurn.dfy`): the guarded status updates, any number of turn
commands interleaved at every database statement, and the whole command on its own. `ByteCap.dfy` is the byte-capped
response (UTF-8 as in section 3 of RFC 3629; a lone surrogate counts three bytes).

**Plan refinement** (`Refinement.dfy`): the pinned outline, staged drafts, adoption, and any number of attempts that
fail or die after any durable write.

**Findings** (`Merge.dfy`, `Adjudication.dfy`), **the debouncer** (`Debouncer.dfy`), **configuration**
(`Config.dfy`) and **the progress splitter** (`Progress.dfy`). `Utf16.dfy`, `Distinct.dfy` and `Wrappers.dfy` hold
shared vocabulary: text as UTF-16 code units, first occurrences, `Option` and `Result`.

## What turned out otherwise than one might expect

- The `accept` decision marks an advance as pending in one transaction and sends its prompt afterwards. A crash in
  between pauses the run at the cap again with the mark still set, and neither `continue` nor `proceed` clears it, so
  a batch can then be left without any review (`AcceptWindowReopens`, `PendingContinueAdvancesUnreviewed`,
  `PendingProceedSkipsAReview`). `DecisionIsSafeIff` says exactly which decisions are safe. `AdvancesAreJustified` is
  stated for the runs in which no `continue` or `proceed` is decided over a pending advance.
- The same crash after `continue` loses the granted cycle: cap and cycle have risen together and nothing was sent
  (`GrantIsLost`).
- A reviewer's COMPLETE ends the run on any batch, so completion does not mean that every batch was done; the
  theorems say what it does mean.
- BATCH_END ends the loop at the end of the batch (`RunLoop`, `RunLoopOnce`), but `proceed` goes on after its own
  advance even when that advance honoured BATCH_END and stopped: `Resume` says that exactly such a stop is undone,
  and `HonouredStopIsUndone` that it happens.
- The session threshold limits a streak of interruptions. A reply that pauses the run ends the streak, so over a whole
  run one session can be left any number of prompts of one step (`StreaksAddUp`). Only a threshold of 1, the default,
  bounds the lifetime of a session (`LifetimeBoundIff`); `StoredPromptsBound` is what holds for any threshold.
- The comment above `parseVerdict` speaks of the last VERDICT line; the code wants all VERDICT lines among the closing
  ones to agree, and the model follows the code. `findingsOf` has its own, stricter rule for what a VERDICT line is, so
  a line such as `VERDICT: **FIX**` states a verdict and still counts as findings; each rule is modelled as written.
- With the parser unchanged, an unclear reply never becomes routable, so the re-read of a stored reply only matters
  after a new release of the program (`UnclearStaysUnclear`).
- `resume` loads the row, and tests it for COMPLETE, before it claims the lease. A resume that is overtaken in between
  may decide over the stale copy and write it back: a complete run is active again (`StaleResumeUndoes`), or an
  advanced one is back in the batch before (`StaleResumeGoesBack`).
- `relay run` tests nothing its copy shows: when another process has worked the run between the insert and the load,
  it makes a complete run active again from a fresh copy (`LaunchReopens`), and a run paused at the cap without a
  decision (`LaunchSkipsTheDecision`). `ReopensIff` and `GoesBackIff` say exactly which worker can take a run back;
  with harmless claims none does (`CompleteStays`, `HistoriesGrow`), and `ClaimIsFreshIff` says when a copy is fresh.
- The retry limit is at least one failed call: with `retryAttempts` 0 the first failure still happens.
- A debate row's prompt need not be the one its response answers: another command may replace it before the claim
  (`PromptMayBelongToAnother`) or, after a stale recovery, during the call (`StaleClaimsShareARow`).
  `CommitAnswersItsPromptIff` says exactly when it is.
- Lines of progress output longer than the carry are lost or not depending on where the stream is cut;
  `ChunksDoNotMatterIff` says for exactly which streams the cut does not matter.
- Batch numbers of the debouncer come from a counter of the module, so those of one debouncer have gaps when the
  process has several (`WindowsApart`).
- Drafts adopted as a decomposition pair with it only when each carries the ordinal it is staged under
  (`AdoptionPairsIff`). Otherwise, staged under 1 to n, one of them is a plan of another batch and every later attempt
  stops at it; staged otherwise, an adopted plan is discarded as outside (`AdoptionOutcomes`, `FinishableIff`).
- Keys with a doubled `./` are not fixed by one normalization (`NormalizeTwiceIff`).

## Model

| member | source | states |
|---|---|---|
| `Verdicts.ParseVerdict` | packages/cli/src/commands/relay.ts:91-127 | the token loop returns the one verdict the last ten non-blank lines agree on, and none when they state none or more than one |
| `Verdicts.OnlyTheClosingLinesRoute` | packages/cli/src/commands/relay.ts:84-96 | whatever stands before the last ten non-blank lines cannot change the verdict |
| `Verdicts.VerdictNeverFlips` | packages/cli/src/commands/relay.ts:84-127 | text put in front of a reply may silence its verdict but never turns it into another one |
| `Verdicts.ShortReplyNeverAdvances` | packages/cli/src/commands/relay.ts:120-138 | no reply shorter than the findings floor advances a batch or ends a run, whatever it says |
| `VerdictForms.WordsAreTokens` | packages/cli/src/commands/relay.ts:97-118 | VERDICT: with any padding after it, a word of the three, and nothing that makes another word of it: the line states that word |
| `VerdictForms.TokenIff` | packages/cli/src/commands/relay.ts:97-118 | a line states FIX, PROCEED or COMPLETE exactly when it is VERDICT:, white space and emphasis marks, that word, each in either case, and an end of it |
| `VerdictForms.VerdictIff` | packages/cli/src/commands/relay.ts:91-127 | the verdict is a word exactly when some of the last ten non-blank lines state it and none states another |
| `VerdictForms.RouteIff` | packages/cli/src/commands/relay.ts:882-957 | a reply goes back to the implementer exactly when its closing lines state FIX only, to the next batch when PROCEED only, to the end when COMPLETE only, the last two with at least 200 units of findings |
| `VerdictForms.ClosingAre` | packages/cli/src/commands/relay.ts:91-96 | the closing lines are the last ten, or all when there are no more |
| `VerdictForms.KeptIff` | packages/cli/src/commands/relay.ts:91-96 | a line is kept exactly when some unit of it is no white space, and then trimmed |
| `VerdictForms.TrimIs` | packages/cli/src/commands/relay.ts:91-96 | trimming takes the white space off both ends and nothing else |
| `VerdictForms.LinesAre` | packages/cli/src/commands/relay.ts:91-96 | the lines are the text between newlines, each but the last without one carriage return at its end |
| `VerdictForms.VerdictLineIff` | packages/cli/src/commands/relay.ts:140-147 | the findings leave out exactly the lines that are, trimmed, VERDICT:, white space, one of the three words in either case, and the end of that word |
| `VerdictForms.FilterIs` | packages/cli/src/commands/relay.ts:140-147 | a verdict line goes wherever it stands, and every other line stays |
| `Preface.StripPrefaces` | packages/cli/src/commands/relay.ts:170-176 | the loop ends with a text that has no leading preface, and what it removed was whole prefaces |
| `Preface.StrippedCopies` | packages/cli/src/commands/relay.ts:164-176 | stripping gives back the body under any number of stacked prefaces |
| `Preface.StrippingIsIdempotent` | packages/cli/src/commands/relay.ts:170-176 | stripping a stripped prompt changes nothing |
| `Preface.Resend` | packages/cli/src/commands/relay.ts:855-864 | a re-send puts one note in front of the prompt without any it had |
| `Preface.OnceOverCopies` | packages/cli/src/commands/relay.ts:855-864 | under however many notes a text was sent, it is re-sent under exactly one |
| `Preface.ResendingIsStable` | packages/cli/src/commands/relay.ts:855-864 | re-sending a re-sent prompt gives the same text again |
| `Preface.TemplatesAreUnmarked` | packages/cli/src/commands/relay.ts:164-245 | no prompt of the program starts with its reconcile note, whatever is filled in |
| `RelaySafety.NextKeepsInv` | packages/cli/src/commands/relay.ts:840-986 | every single durable write keeps the whole invariant: conversation grammar, counters, anchoring of the row in the log, streak limits |
| `RelayTheorems.RunsOnlyGrow` | packages/cli/src/commands/relay.ts:280-335 | over any stretch of any run, that is, with harmless claims, the log is extended only at its end, and batch and cycle cap never fall |
| `RelayTheorems.CrashesRefineTheLoop` | packages/cli/src/commands/relay.ts:840-986 | each response directly follows, among prompts and responses, the prompt it answers; each prompt carries what the exchange before it demands; the answered turns alone are a word of the crash-free automaton; and a prompt opens the next batch only after a PROCEED review, after an implementer reply with an `accept` in the log that no such departure has spent since, or over a FIX with `proceed` as the last word |
| `RelayTheorems.NoBatchIsSkipped` | packages/cli/src/commands/relay.ts:960-975 | consecutive answered turns are in the same batch or in the next one |
| `RelayTheorems.BatchesOpenRight` | packages/cli/src/commands/relay.ts:764-793 | in every state of every run the first exchange of a batch is its opening prompt, to the reviewer from the first review-only batch on and to the implementer before it and in runs without one |
| `RelayTheorems.CompletionIsEarned` | packages/cli/src/commands/relay.ts:915-975 | a run that is complete ended on a COMPLETE reply, or in its last batch on a PROCEED reply, an implementer reply or `proceed` |
| `RelayTheorems.ResendsKeepTheBody` | packages/cli/src/commands/relay.ts:855-864 | over any stretch of interrupted prompts role, batch and cycle stay those of the first, and from the second on the text sent, made by stripping the logged one, is one note and the prose of what was first asked |
| `RelayTheorems.SessionsAreRetired` | packages/cli/src/commands/relay.ts:368-384 | with a threshold k > 0 a step is never sent more than k times into stored sessions since it was last answered |
| `RelaySessions.StoredPromptsBound` | packages/cli/src/commands/relay.ts:360-384 | over the whole run a step is sent into stored sessions at most k times for each of its answers and k times more |
| `RelaySessions.StreaksAddUp` | packages/cli/src/commands/relay.ts:360-384 | unless k = 1, every setup has for every n a run in which the session the reviewer's slot holds is left n prompts of one step unanswered: the limit is per streak, not per session |
| `RelaySessions.LifetimeBoundIff` | packages/cli/src/commands/relay.ts:550-563 | the unanswered prompts of a step into one session are bounded over its whole lifetime, over all runs in which no session comes back once it was given up, exactly when k = 1, and then by 1 |
| `RelayTheorems.CycleLedger` | packages/cli/src/commands/relay.ts:931-954 | in every state of every run 1 <= cycle <= maxCycles, maxCycles is its first value plus the logged `continue` decisions, no batch starts more than maxCycles - 1 fix rounds, and a cap pause means cycle = maxCycles after a FIX reply |
| `RelayTheorems.UnclearStaysUnclear` | packages/cli/src/commands/relay.ts:1416-1434 | in every state of every run that is paused as unclear, the last exchange is a reviewer reply of the row's batch that the parser does not route |
| `RelayTheorems.CompleteIsAbsorbing` | packages/cli/src/commands/relay.ts:1324-1329 | in any run, that is, with harmless claims, neither row nor log changes after COMPLETE |
| `RelayClaims.LeaseRuns` | packages/cli/src/commands/relay.ts:435-461 | what a history of processes does to the lease is a run of the lease, so the theorems about the lease hold of it |
| `RelayClaims.HarmlessClaimsRun` | packages/cli/src/commands/relay.ts:1296-1330 | if every claim of a history is harmless, its durable states are a run of the relay. A claim of `resume` is harmless when its copy is the row or is read again before it is written; one of the inserting command when its copy is the row and shows neither COMPLETE nor the cap pause |
| `RelayClaims.UntouchedIsHarmless` | packages/cli/src/commands/relay.ts:1302-1306 | the claim of whoever works a row nobody has written since its insert is harmless |
| `RelayClaims.ClaimIsFreshIff` | packages/cli/src/commands/relay.ts:1322-1330 | a claim in a history is fresh exactly when no worker wrote the row between the load and the claim |
| `RelayClaims.CompleteStays` | packages/cli/src/commands/relay.ts:1324-1329 | with harmless claims COMPLETE is final for every later command of every process |
| `RelayClaims.HistoriesGrow` | packages/cli/src/commands/relay.ts:280-335 | with harmless claims no process takes back anything of the log, the batch or the cap |
| `RelayClaims.ReopensIff` | packages/cli/src/commands/relay.ts:1296-1434 | a worker can take a complete run back exactly when it writes its copy before it reads the row again: a `resume` whose copy shows the cap pause, or an unclear pause with a reply as the last exchange, and the inserting command before its launch, whatever its copy shows |
| `RelayClaims.GoesBackIff` | packages/cli/src/commands/relay.ts:1296-1434 | a worker can take the batch back exactly when it writes such a copy and the copy shows an earlier batch |
| `RelayClaims.StaleResumeUndoes` | packages/cli/src/commands/relay.ts:1322-1398 | for every setup there is a history in which a second resume, having loaded the cap pause before a first one completed the run, makes it active again |
| `RelayClaims.StaleResumeGoesBack` | packages/cli/src/commands/relay.ts:1322-1398 | and, with a batch to go to, one in which it puts an advanced run back a batch |
| `RelayClaims.LaunchReopens` | packages/cli/src/commands/relay.ts:1302-1306 | for every setup there is a history in which the inserting command, its copy fresh, makes a run active again that another process completed |
| `RelayClaims.LaunchSkipsTheDecision` | packages/cli/src/commands/relay.ts:1302-1306 | and one in which it makes a run active that is paused at the cap, with no decision |
| `RelayTheorems.AdvancesAreJustified` | packages/cli/src/commands/relay.ts:840-986 | in every run in which no `continue` or `proceed` is decided over a pending advance, each advance is by one and backed by logged evidence for that very batch, and each completion by a COMPLETE reply or a backed advance at the last batch |
| `RelayDecisions.AcceptWindowReopens` | packages/cli/src/commands/relay.ts:1388-1404 | a crash between the `accept` transaction and its prompt leads, from every cap pause, to a cap pause with the advance still pending |
| `RelayDecisions.GrantIsLost` | packages/cli/src/commands/relay.ts:1388-1404 | a crash between the `continue` transaction and its prompt leads, from every cap pause, to a cap pause with cap and cycle raised and nothing sent |
| `RelayReach.CapPauseIsReached` | packages/cli/src/commands/relay.ts:937-948 | whatever a run is started with, a reviewer who keeps asking for fixes brings it to the cap pause |
| `RelayReach.PendingCapPauseIsReached` | packages/cli/src/commands/relay.ts:1388-1404 | and an `accept` that dies before its prompt brings it back there with the advance pending |
| `RelayReach.CompleteIsReached` | packages/cli/src/commands/relay.ts:1405-1412 | whatever a run is started with, `proceed` from batch to batch brings it to COMPLETE |
| `RelayDecisions.PendingContinueAdvancesUnreviewed` | packages/cli/src/commands/relay.ts:1394-1404 | from every cap pause with a pending advance, `continue` leads to an advance that nothing in the log backs |
| `RelayDecisions.DecisionIsSafeIff` | packages/cli/src/commands/relay.ts:1388-1412 | at a cap pause a decision leads only to backed advances and completions, over all later runs, exactly when it is `accept`, or no advance is pending, or it is `proceed` and the next batch does not exist or is opened by the reviewer with no fix round left to it |
| `RelayDecisions.ContinueIsSafeIff` | packages/cli/src/commands/relay.ts:1388-1404 | for `continue`: exactly when the row shows no pending advance |
| `RelayDecisions.ProceedIsSafeIff` | packages/cli/src/commands/relay.ts:1405-1412 | for `proceed`: exactly when no advance is pending, or this is the last batch, or the reviewer opens the next one and maxCycles is 1 |
| `RelayDecisions.PendingProceedSkipsAReview` | packages/cli/src/commands/relay.ts:1405-1412 | in every other case `proceed` over a pending advance carries it into the next batch, which an implementer reply then closes without a review of it, whoever opens the batch |
| `RelayWorker.BudgetAtMost` | packages/cli/src/commands/relay.ts:997-1038 | the calls still possible in any reachable state are at most 2 * maxCycles * max(1, remaining batches) |
| `RelayWorker.AdvanceKeepsBudget` | packages/cli/src/commands/relay.ts:960-975 | opening the next batch never buys more calls than were left |
| `RelayWorker.Relay.Restore` | packages/cli/src/commands/relay.ts:254-278 | a worker can start from whatever any run left behind, with nothing in memory |
| `RelayWorker.Relay.AppendPrompt` | packages/cli/src/commands/relay.ts:302-335 | a prompt is logged as one legal step of the protocol, into the session the slot holds, at most one while NEXT_BOUNDARY stands in the cell and none of another batch while BATCH_END does |
| `RelayWorker.Relay.UpdateRun` | packages/cli/src/commands/relay.ts:280-300 | the row becomes the worker's copy, and the pause cell is not touched |
| `RelayWorker.Relay.WriteIntent` | packages/cli/src/commands/relay.ts:471-481 | only the cell changes |
| `RelayWorker.Relay.RetireSessionAfterInterrupts` | packages/cli/src/commands/relay.ts:550-563 | a stored session that was left as many prompts of this step unanswered as the threshold allows is given up; otherwise nothing changes; afterwards the stored session of the role may take one more prompt of this step |
| `RelayWorker.Relay.UsableSession` | packages/cli/src/commands/relay.ts:662-679 | the session is the stored one, unless another adapter kind created it: then it is cleared and there is none |
| `RelayWorker.Relay.CallRole` | packages/cli/src/commands/relay.ts:656-763 | exactly the prompt, and the answer if the model gives one that is not blank, are added to the conversation; a failed or blank call adds the prompt only; the role keeps the session that answered, loses one that was refused, and otherwise has the one it had |
| `RelayWorker.Relay.Unanswered` | packages/cli/src/commands/relay.ts:714-731 | a refused resume leaves the role without a stored session |
| `RelayWorker.Relay.Seat` | packages/cli/src/commands/relay.ts:741-761 | the session that answered becomes the stored one, with the adapter kind that created it |
| `RelayWorker.Relay.Pause` | packages/cli/src/commands/relay.ts:795-804 | only the status (and the pending flag the caller cleared) changes, and the conversation does not |
| `RelayWorker.Relay.AdvanceBatch` | packages/cli/src/commands/relay.ts:960-986 | on the last batch the run completes; otherwise the next batch is entered at cycle 1, and the loop stops there, the batch unopened, exactly if BATCH_END was read |
| `RelayWorker.Relay.OpenBatch` | packages/cli/src/commands/relay.ts:774-793 | the opening prompt goes to the reviewer in the review-only range and to the implementer otherwise; one call, paid from the budget |
| `RelayWorker.Relay.ResendInterrupted` | packages/cli/src/commands/relay.ts:849-865 | one more call of the same role for the unanswered prompt: one note and the prompt without those it had |
| `RelayWorker.Relay.AfterImplementer` | packages/cli/src/commands/relay.ts:867-880 | an implementer reply leads to the pending advance or to one reviewer call |
| `RelayWorker.Relay.AfterReviewer` | packages/cli/src/commands/relay.ts:882-957 | a reviewer reply settles the run only into the status its route allows: no verdict or too few findings pause it as unclear, FIX at the cap pauses it there, COMPLETE ends it, PROCEED ends or stops it |
| `RelayWorker.Relay.StartFixCycle` | packages/cli/src/commands/relay.ts:937-957 | a fix cycle raises the cycle by one before its prompt is sent |
| `RelayWorker.Relay.Step` | packages/cli/src/commands/relay.ts:840-958 | a step either answers one call, or fails one, or advances by one batch without a call, or settles; its budget never rises; a standing BATCH_END lets it leave the batch only to stop before the next |
| `RelayWorker.Relay.Pass` | packages/cli/src/commands/relay.ts:1048-1070 | NEXT_BOUNDARY standing at the boundary, and a stop signal, stop the run where it is, with no further prompt; with neither, and the cell unwritten, a pass stops the run only as BATCH_END, in another batch, and otherwise makes a call, advances, or rests |
| `RelayWorker.Relay.RunLoopOnce` | packages/cli/src/commands/relay.ts:1041-1076 | the inner loop ends, settled or with one failed call; what was exchanged is what its calls left; what it answered came out of its budget; NEXT_BOUNDARY stops it before any exchange, and BATCH_END at the next batch, unopened, unless the cell is written again meanwhile; with no signal and no such cell it is not stopped |
| `RelayWorker.Relay.RunLoop` | packages/cli/src/commands/relay.ts:997-1038 | the worker ends with at most 2 * maxCycles * max(1, totalBatches - batch + 1) answered calls and max(1, retryAttempts) failed ones, and what was exchanged is what they left; a pause of the operator that nobody overwrites ends it at once, or at the next batch with nothing of it exchanged; without a signal and such a pause it is stopped exactly after max(1, retryAttempts) failed calls, and otherwise rests complete, at the cap or unclear on the last exchange that says so; the failed calls are those whose outcome was no reply |
| `RelayWorker.AllReply` | packages/cli/src/commands/relay.ts:714-763 | when every call is answered none fails |
| `RelayWorker.Relay.Transact` | packages/cli/src/commands/relay.ts:1388-1398 | event and row change in one durable write |
| `RelayWorker.Relay.DecideAndCall` | packages/cli/src/commands/relay.ts:1388-1404 | `continue` grants one cycle, `accept` none; both stay in the batch and make exactly one implementer call, with the last review |
| `RelayWorker.Relay.DecideAndAdvance` | packages/cli/src/commands/relay.ts:1405-1412 | `proceed` advances by one batch, or completes on the last, without a call, and is stopped exactly when the advance honoured BATCH_END |
| `RelayWorker.Relay.ReAsk` | packages/cli/src/commands/relay.ts:1413-1458 | an unclear pause keeps batch and cap, and makes exactly one call, with the review prompt sent before, when the stored reply does not route |
| `RelayWorker.Relay.Resume` | packages/cli/src/commands/relay.ts:1316-1475 | a decision is logged exactly when the run was paused at the cap and one was given; a missing one changes nothing; after `continue` and `accept` the implementer is asked first, with the last review, and at an unclear pause the reviewer, with the prompt before; otherwise the run ends settled: with no signal and the cell unwritten it is stopped only after max(1, retryAttempts) failed calls or a first call that failed, and else rests with its evidence; failed calls stay within the retry limit and answered ones within the bound of the loop and one more, with the granted cycle; a stop honoured by the advance of `proceed` is undone in the batch it stopped before, and no other stop is |
| `RelayWorker.HonouredStopIsUndone` | packages/cli/src/commands/relay.ts:1405-1465 | from every cap pause with a batch to go to there is a stretch in which BATCH_END is honoured by the advance of `proceed`, and the same command opens the next batch all the same |
| `Lease.EveryRunKeepsInv` | packages/cli/src/commands/relay.ts:435-488 | under every statement-level interleaving: a working process is the one the row names; a holder seen dead stays dead |
| `Lease.OneWorker` | packages/cli/src/commands/relay.ts:435-461 | at most one live process works the run, and the row names it |
| `Lease.OnlyTheWorkerGivesItUp` | packages/cli/src/commands/relay.ts:484-488 | no claim, release, stale-clear or death of another process takes the lease from a live worker |
| `Lease.OnlyOwnOrDeadLeasesGo` | packages/cli/src/commands/relay.ts:1494-1500 | a lease that changes was released by its own process, or its process is dead |
| `Lease.DeathReleases` | packages/cli/src/commands/relay.ts:427-434 | a dead holder blocks nobody |
| `Lease.LeasesAreFreed` | packages/cli/src/commands/relay.ts:1489-1502 | a worker that gives the run back leaves it to nobody; a pause clears the lease of a dead holder and leaves that of a live one |
| `Lease.WorkersFreshen` | packages/cli/src/commands/relay.ts:1030-1037 | reading the row again, or writing it, makes the copy of a worker the row |
| `Lease.ClaimIsFreshIff` | packages/cli/src/commands/relay.ts:1322-1330 | the copy of the row loaded before the claim is the row at the claim exactly when no other worker wrote it in between |
| `Lease.StaleCopyReachesTheLease` | packages/cli/src/commands/relay.ts:1322-1330 | there is an interleaving in which a process works on a copy that is not the row |
| `Workflow.ProducerIff` | packages/core/src/engine/workflow-engine.ts:105-113 | the producer of a reference is the last step that has it for its non-empty output, whatever other outputs the steps write |
| `Workflow.NobodyProducesIff` | packages/core/src/engine/workflow-engine.ts:105-121 | and nobody produces it exactly when it is empty or no output of any step |
| `Workflow.InputsAreProducers` | packages/core/src/engine/workflow-engine.ts:115-127 | a step depends on exactly the producers of the outputs it reads |
| `Workflow.InputsInReadingOrder` | packages/core/src/engine/workflow-engine.ts:115-127 | and they stand in the order in which the step first reads them |
| `Workflow.SoundIff` | packages/core/src/engine/workflow-engine.ts:117-141 | a step is sound exactly when all it reads is some step's non-empty output and its loop partner is a step |
| `Workflow.Index` | packages/core/src/engine/workflow-engine.ts:105-113 | the two tables hold every step by id, and for every non-empty output the last step that writes it |
| `Workflow.Link` | packages/core/src/engine/workflow-engine.ts:115-142 | the dependency graph is built, or the first fault in reading order is reported |
| `Workflow.Relax` | packages/core/src/engine/workflow-engine.ts:169-183 | one pass over the steps takes exactly one off the counters of those that wait for the current one, and enters each step whose counter reaches zero once |
| `Workflow.Sort` | packages/core/src/engine/workflow-engine.ts:153-183 | the work queue ends; its output has no duplicates, every step follows its dependencies, and every step left out waits for another one left out |
| `Workflow.StuckHasCycle` | packages/core/src/engine/workflow-engine.ts:185-187 | a short output means a cycle, which is constructed |
| `Workflow.OrderedHasNoCycle` | packages/core/src/engine/workflow-engine.ts:169-187 | a complete order leaves no room for a cycle, self-dependency included |
| `Workflow.ResolveSteps` | packages/core/src/engine/workflow-engine.ts:104-201 | an order is a permutation of the steps in which every step carries its inputs and follows them; a fault is reported exactly when a step is unsound, and is the first; a reference is reported as unknown only when the step reads it and no step has it for its non-empty output; `cycle` exactly when all steps are sound and the dependencies have a cycle |
| `MessageLedger.PutFollows` | packages/core/src/memory/message-store.ts:115-194 | a guarded update keeps keys, uniqueness and every completed row |
| `MessageLedger.RecoverFollows` | packages/core/src/memory/message-store.ts:227-236 | stale recovery keeps keys, uniqueness and every completed row |
| `MessageLedger.MessageStore.InsertQueued` | packages/core/src/memory/message-store.ts:86-112 | a queued row with the redacted prompt is added, or nothing when the key has a row |
| `MessageLedger.MessageStore.UpdatePrompt` | packages/core/src/memory/message-store.ts:115-124 | the prompt changes only on a queued or failed row, and the answer says whether it did |
| `MessageLedger.MessageStore.MarkRunning` | packages/core/src/memory/message-store.ts:127-135 | the row runs only from queued or failed, and the answer says whether it did |
| `MessageLedger.MessageStore.MarkCompleted` | packages/core/src/memory/message-store.ts:138-182 | the row completes only from running, with the redacted reply, and the answer says whether it did |
| `MessageLedger.MessageStore.MarkFailed` | packages/core/src/memory/message-store.ts:185-194 | the row fails only from running, and the answer says whether it did |
| `MessageLedger.MessageStore.GetByRound` | packages/core/src/memory/message-store.ts:197-204 | the row of the key, if there is one |
| `MessageLedger.MessageStore.RecoverStaleForDebate` | packages/core/src/memory/message-store.ts:227-236 | the rows of the debate that are running and were last written before now less the threshold fail with STALE_RECOVERY, every other row stays, and the count is that of the former |
| `DebateTurn.EveryRunKeepsInv` | packages/cli/src/commands/debate.ts:222-448 | under every interleaving of invocations, deaths and recoveries: every command works on the row of its own key, every commit is in its row for good, every completed row has its commit, every report is backed |
| `DebateTurn.OneCommitPerKey` | packages/core/src/memory/message-store.ts:138-182 | at most one invocation ever commits a response for one (debate, round, role), even when a presumed-stale worker finishes late |
| `DebateTurn.CompletedForever` | packages/core/src/memory/message-store.ts:115-236 | a completed row never changes again, and no row is lost or renamed, over any continuation of any run |
| `DebateTurn.ReportsAgree` | packages/cli/src/commands/debate.ts:222-342 | whenever a command reports for a key, a response is committed in the row of that key, and all reports for the key are that response, raw or redacted |
| `DebateTurn.AnsweredTurnReports` | packages/cli/src/commands/debate.ts:222-448 | from any reachable state a command on a new key, undisturbed and answered, completes its row with the redacted answer and reports the answer |
| `DebateTurn.FailedTurnFails` | packages/cli/src/commands/debate.ts:222-556 | and one whose call fails fails its row and reports nothing |
| `DebateTurn.RefusedTurnReports` | packages/cli/src/commands/debate.ts:301-342 | a command whose row was completed before its claim reports what is stored there |
| `DebateTurn.CommitAnswersItsPromptIff` | packages/cli/src/commands/debate.ts:277-299 | a committed response answers the prompt its row shows exactly when no other prompt was put into the row, by an insert or an effective update, that its own was not put back over; when the command put its own there, exactly when no command of another job put its prompt over it afterwards for good |
| `DebateTurn.PromptMayBelongToAnother` | packages/cli/src/commands/debate.ts:277-299 | a second invocation may replace the prompt between insert and claim |
| `DebateTurn.StaleClaimsShareARow` | packages/cli/src/commands/debate.ts:272-299 | and while the model answers: it takes the row for stale, replaces the prompt and claims the row, which the first one then completes |
| `DebateTurn.DebateTurnCommand` | packages/cli/src/commands/debate.ts:151-556 | the whole command alone: a completed turn is reported from the store and changes nothing; a row that is new, queued, failed or running since before now less the threshold is taken, shows the command's prompt and ends completed with the redacted reply, failed with the redacted error, or running when the budget check stops it; one running for less is left as it is and the command exits; any other row stays, unless it is one of the debate that runs for longer |
| `ByteCap.ByteLengthIs` | packages/cli/src/commands/debate.ts:113 | the byte length is the number of bytes of the UTF-8 form of the text |
| `ByteCap.DecodeEncodeAll` | packages/cli/src/commands/debate.ts:113 | that form is decoded again by a decoder that takes no value in more bytes than it needs |
| `ByteCap.OneMoreUnit` | packages/cli/src/commands/debate.ts:113 | a further code unit adds its own bytes, or one byte when it completes a surrogate pair |
| `ByteCap.PrefixesGrow` | packages/cli/src/commands/debate.ts:128-140 | longer prefixes take more bytes |
| `ByteCap.CutIsLongest` | packages/cli/src/commands/debate.ts:128-140 | a prefix fits the cap exactly when it is no longer than the cut |
| `ByteCap.CutSplitsPairIff` | packages/cli/src/commands/debate.ts:128-140 | the cut splits a surrogate pair exactly when the cap ends three bytes into it |
| `ByteCap.ResponseCap` | packages/cli/src/commands/debate.ts:193-196 | the cap is the option when that is positive and below the ceiling, and never above the ceiling |
| `ByteCap.Cut` | packages/cli/src/commands/debate.ts:128-140 | the binary search ends at the longest prefix that fits |
| `ByteCap.BuildResponseOutput` | packages/cli/src/commands/debate.ts:99-149 | the response is the longest prefix that fits; it is truncated exactly when the text is too long, and then the whole text is in the reported file |
| `Refinement.AdoptedKeepsAll` | packages/cli/src/commands/review-workflow.ts:423-440 | adopting the staged drafts as the decomposition loses and invents no batch |
| `Refinement.AdoptedIsStable` | packages/cli/src/commands/review-workflow.ts:423-440 | it is a stable sort by the ordinal each draft carries |
| `Refinement.AdoptionPairsIff` | packages/cli/src/commands/review-workflow.ts:423-447 | an adopted decomposition pairs with its drafts exactly when each draft carries the ordinal it is staged under |
| `Refinement.FinishableIff` | packages/cli/src/commands/review-workflow.ts:484-540 | a decomposition can be finished over staged drafts exactly when none of those inside it is a plan of another batch |
| `Refinement.MisplacedIsStuck` | packages/cli/src/commands/review-workflow.ts:484-490 | where one is, no later table that keeps it pairs with the decomposition |
| `Refinement.AdoptionOutcomes` | packages/cli/src/commands/review-workflow.ts:423-490 | of an adoption that does not pair: staged under 1 to n, a draft is misplaced for good; staged otherwise, an adopted plan lies outside its decomposition and is gone from every table with nothing outside |
| `Refinement.ListingSize` | packages/core/src/memory/review-workflow-store.ts:971-991 | a listing has every staged ordinal once |
| `Refinement.Refinement.SaveRefinementOutline` | packages/core/src/memory/review-workflow-store.ts:1003-1015 | the first outline stays |
| `Refinement.Refinement.TakeOutline` | packages/cli/src/commands/review-workflow.ts:383-455 | a pinned outline is used as it is; otherwise an accepted one is pinned, its batches adopted from the drafts when there are any |
| `Refinement.Refinement.DiscardRefinementDraftsOutside` | packages/core/src/memory/review-workflow-store.ts:1034-1048 | what is inside the decomposition is kept unchanged, what is outside is gone unless the process dies on the way |
| `Refinement.Refinement.AuthorBatch` | packages/cli/src/commands/review-workflow.ts:484-540 | a staged plan of this batch is reused, of another batch is refused; an authored plan is staged only if it targets this batch |
| `Refinement.Refinement.AuthorBatches` | packages/cli/src/commands/review-workflow.ts:473-540 | no staged plan changes, every new one is a reply, and on success each batch has a plan of its own |
| `Refinement.Refinement.Assemble` | packages/cli/src/commands/review-workflow.ts:546-556 | the plans, in the order of the decomposition |
| `Refinement.Refinement.PerformRefinement` | packages/cli/src/commands/review-workflow.ts:347-596 | an outline that stands never changes, otherwise at most one is pinned; nothing staged for it is lost; only what was not staged is authored; success pairs every batch with a plan of its own; a failure has a reason, and an attempt that works under an outline, pinned before or by itself, and meets no reason succeeds |
| `Refinement.Refinement.Resume` | packages/cli/src/commands/review-workflow.ts:334-346 | over any number of failed and resumed attempts at most one outline is pinned, and it stays; no ordinal is authored twice, and what is captured pairs the pinned batches with plans of their own |
| `Merge.NormalizeTwiceIff` | packages/core/src/cleanup/merge.ts:6-12 | normalizing a key twice is normalizing it once exactly when no segment starts with a doubled `./` |
| `Merge.NormalizeSegments` | packages/core/src/cleanup/merge.ts:6-12 | a key is normalized segment by segment: backslashes turn, and one leading `./` goes |
| `Merge.MergeThreeWay` | packages/core/src/cleanup/merge.ts:28-111 | one finding per distinct key in order of first occurrence, gathered from the whole input by the reference definition `MergedAll`; each kind of its evidence is that kind's evidence of the findings with its key in the list of the scanner that attaches it, in order |
| `Merge.EvidenceIsCollected` | packages/core/src/cleanup/merge.ts:37-94 | so it is for every finding of the reference definition |
| `Merge.RestIsTheFirst` | packages/core/src/cleanup/merge.ts:37-108 | everything else is that of the first input finding of the key; two sources make the confidence high, a single one leaves it as it is and disputed |
| `Merge.OnePerKey` | packages/core/src/cleanup/merge.ts:35-111 | no key is merged twice, and merged keys stand in order of first occurrence |
| `Merge.EveryKeyIsMerged` | packages/core/src/cleanup/merge.ts:35-111 | every key of the input is merged |
| `Merge.GatheredGrows` | packages/core/src/cleanup/merge.ts:37-94 | one more finding of a key appends its deterministic, semantic or host evidence to the evidence of that kind, by where it comes from, and nothing else |
| `Merge.SourcesSay` | packages/core/src/cleanup/merge.ts:37-99 | a merged finding names exactly the inputs that have its key |
| `Merge.SingleSourceIsDisputed` | packages/core/src/cleanup/merge.ts:96-108 | a merged finding is disputed exactly when one source has it; otherwise its confidence is high; so a medium one is disputed |
| `Merge.UniqueKeyCount` | packages/core/src/cleanup/merge.ts:15-19 | the number of distinct normalized keys |
| `Merge.AgreedOrDisputed` | packages/core/src/cleanup/merge.ts:116-132 | agreed and disputed findings add up to all merged findings |
| `Merge.PerSourceStats` | packages/core/src/cleanup/merge.ts:116-125 | each per-source count is the number of merged findings that name the source |
| `Merge.StatsSay` | packages/core/src/cleanup/merge.ts:116-132 | each of the other counts is the number of merged findings that are what its name says |
| `Merge.CountConfidences` | packages/core/src/cleanup/merge.ts:129-131 | the three confidence counts add up to all findings exactly up to those of unvalidated confidence |
| `Adjudication.Select` | packages/cli/src/commands/cleanup.ts:508-510 | exactly the disputed and the medium findings are selected, in order |
| `Adjudication.SelectedAre` | packages/cli/src/commands/cleanup.ts:508-510 | those are the findings that are disputed or of medium confidence |
| `Adjudication.SliceLength` | packages/cli/src/commands/cleanup.ts:508-510 | a limit takes as many from the front, a negative one leaves as many off the end |
| `Adjudication.AfterAt` | packages/cli/src/commands/cleanup.ts:512-553 | every selected finding meets its own verdict once, and no other finding changes |
| `Adjudication.VerdictsSay` | packages/cli/src/commands/cleanup.ts:534-553 | CONFIRMED makes a finding certain and DISMISSED doubtful, neither of them disputed, UNCERTAIN leaves both as they were, each with its reason in the semantic evidence; a call without a verdict changes nothing |
| `Adjudication.Conservation` | packages/cli/src/commands/cleanup.ts:502-557 | settled verdicts and remaining disputes add up to the disputes before, plus the settled findings nobody disputed |
| `Adjudication.SettledIs` | packages/cli/src/commands/cleanup.ts:534-553 | the settled verdicts are the CONFIRMED and the DISMISSED ones |
| `Adjudication.MergedConservation` | packages/core/src/cleanup/merge.ts:97-108 | on merged findings the sum is exact, for any verdicts, failures and limit |
| `Adjudication.AdjudicateFindings` | packages/cli/src/commands/cleanup.ts:502-557 | the findings, changed in place, are those the verdicts give one by one; the statistics are taken again from them, and `adjudicated` grows by the settled verdicts |
| `Debouncer.EveryRunIsGood` | packages/cli/src/watch/debouncer.ts:48-122 | over every history of pushes, waits, timers, flushes, cancels and destruction the state is good |
| `Debouncer.EveryRunAccountsForAll` | packages/cli/src/watch/debouncer.ts:48-122 | every accepted path is in exactly one window, each batch is its window's distinct paths in first-push order, within size and time limits and with a true reason; pending is non-empty exactly while both timers are armed |
| `Debouncer.WindowsApart` | packages/cli/src/watch/debouncer.ts:85-101 | consecutive flushed windows are at least the cooldown apart, and their numbers differ by one and by what the other debouncers of the process flushed in between |
| `Debouncer.PushKeeps` | packages/cli/src/watch/debouncer.ts:48-65 | a push keeps the state good, and a full window is flushed at once |
| `Debouncer.Debouncer.PushEvent` | packages/cli/src/watch/debouncer.ts:48-65 | a path is accepted exactly when the debouncer lives and its cooldown is over, opens the window if there is none, and closes it as too large exactly when it fills it; otherwise nothing changes |
| `Debouncer.Debouncer.FlushPending` | packages/cli/src/watch/debouncer.ts:85-101 | a non-empty window is closed into one batch with the next number, its times and the reason given; both timers are disarmed and the cooldown starts |
| `Debouncer.Debouncer.CancelPending` | packages/cli/src/watch/debouncer.ts:71-74 | the window is dropped and both timers are disarmed |
| `Debouncer.Debouncer.Destroy` | packages/cli/src/watch/debouncer.ts:76-79 | as cancel, and nothing is accepted afterwards |
| `Config.MergeLeaf` | packages/core/src/config/loader.ts:19-41 | a leaf of a merge is the source's, or the target's where the source sets nothing on its path, and nothing else |
| `Config.LastWriterWins` | packages/core/src/config/loader.ts:43-98 | a leaf of the layered result is the leaf of the last layer that sets its path, and every leaf of a layer survives unless a later one overwrites its path |
| `Config.OverridesWin` | packages/core/src/config/loader.ts:52-98 | overrides win over the file, the file over the preset, the preset over the defaults, path by path |
| `Config.MergeAgain` | packages/core/src/config/loader.ts:19-41 | merging the same source again changes nothing |
| `Config.MissingIsMergeIff` | packages/core/src/config/migration.ts:104-116 | filling in defaults equals merging the value over them exactly unless the value says undefined where there is a default |
| `Config.MigrateTwice` | packages/core/src/config/migration.ts:36-66 | a migrated document is current, and migrating it again gives it back |
| `Config.KindsAreInferred` | packages/core/src/config/migration.ts:85-102 | every model with an adapter record ends with a string kind, its own or the one its provider implies |
| `Config.InferredKinds` | packages/core/src/config/migration.ts:85-102 | it is `claude` for anthropic, `cursor` for cursor, and `codex` for any other provider and for none |
| `Config.MigrationOutcomes` | packages/core/src/config/migration.ts:36-66 | a version that is no whole number from 1 on, or models that are no record, make a document invalid; one above 3 is newer; one at 3 is returned as it is; any other ends at version 3 with records for `debate` and `reviewGated` |
| `Config.MigrationKeepsLeafIff` | packages/core/src/config/migration.ts:68-116 | every explicit leaf of an older document is kept exactly except the version, a `debate` or `reviewGated` that is no record, and an adapter kind that is no string |
| `Config.MergeInto` | packages/core/src/config/loader.ts:19-41 | the loop over the source's keys computes the merge |
| `Config.FillMissing` | packages/core/src/config/migration.ts:104-116 | the loop over the defaults fills in what is missing |
| `Config.Migrate` | packages/core/src/config/migration.ts:36-66 | version by version: an invalid or newer document is refused, a current one returned as it is |
| `Config.LoadConfig` | packages/core/src/config/loader.ts:52-105 | the result is the layers merged in order and validated; an older file is due to be rewritten exactly when the load succeeds |
| `Progress.SplitGoesOn` | packages/cli/src/progress.ts:55-60 | splitting what is carried with the next chunk continues the split of the whole stream |
| `Progress.ChunksDoNotMatter` | packages/cli/src/progress.ts:55-78 | however a stream is cut, as long as no unfinished line outgrows the cap, the lines handed on are its own non-blank lines in order |
| `Progress.ChunksDoNotMatterIff` | packages/cli/src/progress.ts:55-87 | a stream is handed on the same however it is cut exactly when every line of it is blank or has at most 65536 units |
| `Progress.LongLinesDependOnChunks` | packages/cli/src/progress.ts:62-66 | cut right after a longer line, the stream is handed on with that line missing |
| `Progress.RefusedIs` | packages/cli/src/progress.ts:29-38 | the events the parser refuses are counted one by one |
| `Progress.Splitter.OnProgress` | packages/cli/src/progress.ts:55-71 | the finished lines are handed on in order, the unfinished one is carried or dropped at the cap, and drops are counted |
| `Progress.Splitter.OnClose` | packages/cli/src/progress.ts:73-87 | an unterminated last line is still handed on, and the drops are reported and reset |

## Left out

- RelayTheorems.SessionsAreRetired: bounds prompts into stored sessions per streak, not per session over a whole run, because the latter holds for a threshold of 1 only (`RelaySessions.LifetimeBoundIff`); the comment at relay.ts:364-366 says the count is not a lifetime tally.
- RelaySessions.LifetimeBoundIff: speaks of runs in which a session that was given up does not come back to its slot, as vendors do not issue a session id twice.
- RelayTheorems.AdvancesAreJustified: excludes decisions taken over a pending advance that are not `accept`, because it is false with them; exactly which of them break it is `RelayDecisions.DecisionIsSafeIff`.
- RelayTheorems.RunsOnlyGrow: speaks of runs, whose every write starts from the row as it is, because a stale resume breaks it; `RelayClaims.GoesBackIff` is the exact condition.
- RelayTheorems.CompleteIsAbsorbing: likewise; `RelayClaims.ReopensIff` is the exact condition. The other theorems about runs hold of histories with harmless claims too (`RelayClaims.HarmlessClaimsRun`).
- RelayClaims.HarmlessClaimsRun: has the statements of `relay run`, of `resume` and of the worker; whether a decision is given, and which, is arbitrary there. After a copy was written over the row, what the writer goes on to do is modelled only as far as it is a step of a run, because the claims about runs are off by then.
- Lease.OneWorker: speaks of processes whose pids are never reused, as the code assumes; `resume --background`, where the parent claims before it spawns, is covered as far as safety goes and not for liveness.
- Prompt prose: the text of a prompt is an arbitrary function of its purpose, its batch and the text it carries, of which only that it does not start with the reconcile note is assumed (`Preface.TemplatesAreUnmarked`); the rest of the wording is not modelled. What a logged text was made for, and the session it was sent into, are recorded in the model's log although the log table does not keep them.
- The numbers a run is started with (`totalBatches`, `reviewFrom`) are fixed for the run; counting batches in a plan file is not modelled.
- Model and adapter calls, raw call streams, token accounting, `recordFailure`, signals and process handlers: their outcomes are arbitrary inputs. The note about a short review is written or not at will.
- Database failures: a statement or transaction either happens or the process dies before it.
- The verdict pattern is modelled for ASCII letters; the case folding of other scripts in JavaScript regular expressions is not.
- The workflow file itself: YAML parsing and the checks on names, types and roles before `resolveSteps`; step ids are distinct there, as those checks guarantee. The `inDegree` table, which the source fills and never reads, is not modelled.
- A debate command's max-rounds and adapter checks before its first ledger read, session bookkeeping after its commit, the verdict parser of debates and the redaction filter, which is an arbitrary function on texts.
- DebateTurn.DebateTurnCommand: is the command with no other writer in between, so its re-read after a refused claim, which then finds no answer, is found only in the interleaved model.
- ByteCap.Cut: assumes texts shorter than 2^31 code units, above what the runtime can hold.
- The rest of the refinement: prompts, invocation audit, criterion namespaces and coverage at assembly, and the capture, which succeeds or not at will. The contract parsers are predicates, of which the ordinals, batch ids and non-empty fields of the outline are spelled out. Discards an operator orders are not part of the attempts.
- The rest of `review-workflow.ts`, file scanners, the git guard, schema definitions, presets and the other stores: plumbing or easy members.
- The order of keys inside configuration objects, keys that name prototype members, backups and the rewriting of configuration files; the schema check is an arbitrary predicate.
- Associativity of the deep merge, which is false when a leaf stands between two records.
- Debouncer callbacks that push from within a flush; timers are punctual and an event's stamp is the time of its push.
- The text of progress events, throttling and heartbeats.
