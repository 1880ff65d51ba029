# Football research portal: protocols, canonical text, fast forms and exact arithmetic

A model in Dafny of the parts of the portal whose correctness spans many calls: the jobs
and questions that workers lease over a database, the text that requests are hashed
from, the lookups and caches that stand for slower ones, and the integer arithmetic of
rankings and totals. The theorems range over every input, every interleaving or every
reachable state. `dafny verify dfyconfig.toml` checks all of it.

## How the model is laid out

**Lease-and-retry protocols.** A handler is split where it awaits: its read of the
operation record, its read of the row, an outside check, its write. An `Event` is one such
step of one call, a sweep, a database change made by somebody else, or a storage failure;
`Run` folds any sequence of events, so other callers run between any two steps. Every
call's clock is arbitrary, and database times are arbitrary as well. A ghost log keeps
each committed transition with the state its caller had read and the state it replaced.

- `Bridge`, `BridgeRuns`, `BridgeSafety`: exploration jobs over a compare-and-set port;
  `BridgeD1` puts the database adapter behind the port, with the `changes()` register and
  the triggers that guard a job row; `BridgeD1Runs` interleaves the calls over it.
- `Triage` (decisions and statements), `TriageBatch` (what a batch does), `TriageD1` (the
  store as a class), `TriageRuns` and `TriageSafety`: triage of questions, two protocols;
  `TriageAdmissions`: the shared tables it writes; `TriageCrossing`: a run that strands a
  question.
- `Results`, `ResultRuns`, `ResultSafety`: the life of a result under moving snapshots.
- `Notifications`, `NotificationSafety`: the notification ledger.
- `Paging`, `QueuedSweep`: walks over cursors, and the sweep that goes round.

**Text.** `Numerals` and `Cursor` (base-36 cursors), `NumberText` (the text of any finite
number, section 6.1.6.1.20 of ECMA-262), `Canonical` and `CanonicalText` (key-sorted JSON,
strings as in section 7 of RFC 8259), `PythonJson` (the pipeline's own sorts), `IntentKeys`
(intents and artifact keys, in both languages), `TextSort`, `TextParts`.

**Fast forms.** `QueryCache` (the slot cache and the daily budget), `Feasibility` and
`FeasibilityPipeline` (the joined-key index, and the second resolver).

**Arithmetic.** `SeasonSplits`, `SplitLaws`, `OpponentHistory`, `Ranking`, `Boards`,
`RateLimit`.

**Answers.** `BridgeAnswers`, `TriageAnswers`, `ResultAnswers`, `NotificationAnswers`,
`CacheAnswers`, `FeasibilityAnswers`, `SplitAnswers`, `BoardAnswers`, `PagingAnswers` and
`TextAnswers` write the operations out a second time, in literal values: exactly when each
of them acts, and every column of what it leaves behind. Calls that nothing disturbs are
followed through the machines to those values, so that no machine is safe by doing nothing.

A class stands for each source object that changes in place; its methods are proved
against functions on values, and the theorems are about those functions.

## What the proofs found

The code is followed as it is. Where a promise fails, one lemma gives an input on which it
fails and another says exactly when it holds.

- A triage acknowledgement through `triaged` takes a clock reading in each of two
  statements. Exactly when the response deadline of a managed question passes between them
  (`TriageBatch.FinishFires`) the question is left at `triaged`, without a receipt, while the
  handler is told that all went well (`TriageBatch.AckLeavesTriaged`), and no further run
  ever changes it (`TriageSafety.TriagedIsStranded`). `TriageCrossing.CrossingHappens` is such
  a run. With one reading this cannot happen (`TriageBatch.OneReadingNeverCrosses`).
- Only the first insert of an admission looks at `changes()`, so a refused batch may write to
  the shared tables; `TriageBatch.RefusedAckIsNothing` says exactly when it does not. Over
  whole runs it never does (`TriageAdmissions.RefusedAckChangesNothing`).
- The port says that a refused commit returns false. A failure acknowledged with a clock
  that lags behind the claim by the retry delay or more makes the state-machine trigger
  abort, so the database store raises an error instead. `BridgeD1.CommitRefinesPort` is exact,
  `BridgeD1.LaggingClockAborts` an instance five minutes behind; `BridgeSafety.AckRetryDeadline`
  gives the same condition for the deadline to follow the claim.
- A space inside a key field lets a coverage cell answer for a query it does not cover
  (`Feasibility.SpacesBreakTheIndex`, a catalog the decoder lets through).
  `Feasibility.LookupIsScanExactly` says exactly which catalogs are safe for every query of
  the resolver's own type; a space need do no harm (`Feasibility.HarmlessSpace`).
- A catalog in which one season of an open source is closed passes the pipeline's check and
  is refused by the worker's decoder (`FeasibilityPipeline.SoundCanBeRefused`; exactly when
  its checks across records pass: `FeasibilityPipeline.DecodedExactlyWithOneFlag`).
- The two resolvers sort seasons in different orders beyond the basic plane and can then
  offer different alternatives (`FeasibilityPipeline.SeasonsCanDisagree`, a catalog both sides
  accept; exactly when: `FeasibilityPipeline.ResolversAgreeExactly`).
- Without the exclusion of zero minutes the rate comparator is cyclic
  (`Ranking.ZeroMinutesBreakTheOrder`); with it, it is exact (`Ranking.CompareIsExact`).
- With a clock that steps back the token bucket pays the same second twice
  (`RateLimit.BackwardClockBreaksTheBound`). A clock that never steps back keeps the bound
  (`RateLimit.ForwardIsBounded`), one that does need not break it
  (`RateLimit.StepBackCanBeHarmless`): every window of every spending keeps to the bound
  exactly when the one eager spending does (`RateLimit.BoundedExactly`), which for amounts of
  any kind is a condition on the readings alone (`RateLimit.AmountsBoundedExactly`).
- Beyond twenty-one digits the two languages write an integer differently; exactly the
  shorter ones have one text (`NumberText.PlainIsAlike`), and intents hold no others.
- One glossary entry above the page budget ends every walk at that entry; the walk is whole
  exactly when there is none (`Paging.WalkReadsGlossary`).

## Model

| member | source | states |
|---|---|---|
| BridgeRuns.DecisionsMove | worker/src/core/exploration-bridge.ts:224-321 | whatever a claim or acknowledgement proposes to write is a move of the state machine, from the job it read, under its own operation key and body |
| BridgeRuns.MovesKeepShape | worker/src/core/exploration-bridge.ts:255-273 | every move keeps the row shape: one revision on, identity and request kept, the attempt grows exactly on a claim, nothing leaves `published` |
| BridgeRuns.ShapeBoundsRevision | worker/src/core/exploration-bridge.ts:224-350 | a job's revision stays within eight of the one it was admitted at |
| BridgeSafety.StepKeepsInv | worker/src/core/exploration-bridge.ts:224-350 | one step of any call, sweep, admission or failure keeps the global invariant |
| BridgeSafety.RunKeepsInv | worker/src/core/exploration-bridge.ts:224-350 | so does every interleaving |
| BridgeSafety.CommitsReplaceWhatTheyRead | worker/src/core/exploration-bridge.ts:41-54 | no ABA: each committed transition replaced exactly the job its caller had read, one revision on, never a published one |
| BridgeSafety.RevisionNamesStage | worker/src/core/exploration-bridge.ts:224-350 | admitted at r0 with attempt a: revision r0+3a queued, r0+3a-2 running, r0+3a-1 failed or published; it counts the commits (at most 8), and a counts the claims (at most 3) |
| BridgeSafety.ExhaustedExactlyAtThirdAttempt | worker/src/core/exploration-bridge.ts:265-273 | a failed job is `attempts_exhausted` exactly at attempt 3, and exactly then has no retry deadline |
| BridgeSafety.SettledIsForever | worker/src/core/exploration-bridge.ts:224-350 | a published or exhausted job is unchanged by any further run |
| BridgeSafety.OperationActsOnce | worker/src/core/exploration-bridge.ts:235-261 | an operation record exists exactly when a transition of that service, type and id committed, and there is at most one |
| BridgeSafety.OperationsAreForever | worker/src/core/exploration-bridge.ts:41-54 | no later run changes or removes an operation record |
| BridgeSafety.ResentAckIsReplayed | worker/src/core/exploration-bridge.ts:300-301 | after any further run a re-sent acknowledgement answers `replayed` for the same body and `conflict` for another, and proposes nothing |
| BridgeSafety.ReplayedClaimIsCurrent | worker/src/core/exploration-bridge.ts:236-244 | although the recorded response is served, a replayed claim equals the projection of the job as stored at that moment, or is `conflict` |
| BridgeSafety.AckHoldsLatestLease | worker/src/core/exploration-bridge.ts:303-319 | an accepted acknowledgement names the lease of the job's latest claim, live at its own clock |
| BridgeSafety.AckRetryDeadline | worker/src/core/exploration-bridge.ts:265-277 | the one-day cap never binds on the acknowledgement path; the deadline follows the claim exactly when the clock lags it by less than the retry delay |
| BridgeSafety.SweepRetryDeadline | worker/src/core/exploration-bridge.ts:324-335 | however late the sweep: after the lease expiry and at most one day after the claim |
| BridgeSafety.MoveRetryDeadline | worker/src/core/exploration-bridge.ts:265-277 | the same bounds for any failing move |
| BridgeSafety.EveryRetryDeadline | worker/src/core/exploration-bridge.ts:265-277 | and for every failing transition of every run |
| BridgeSafety.FirstClaimAnswers | worker/src/core/exploration-bridge.ts:246-261 | in reachable states a first claim proposes a 900-second lease exactly for a queued job at the expected attempt, else answers not_found, exhausted or conflict; the handler's own deadline test refuses nothing |
| BridgeSafety.FirstAckAnswers | worker/src/core/exploration-bridge.ts:303-320 | a first acknowledgement moves the job exactly when its lease is live and it reports a failure or a verified publication already loaded |
| BridgeSafety.RepeatAnswers | worker/src/core/exploration-bridge.ts:235-244 | a repeated claim gets its recorded response exactly while the same body finds its lease live, a repeated acknowledgement is recognised by its body alone |
| BridgeAnswers.PortShowsTheRow | worker/src/core/exploration-bridge-d1.ts:45-76 | the port shows every column of a row, the lease columns exactly while it runs |
| BridgeAnswers.SchemaExactly | infra/migrations/0008_exploration_request_links.sql:291-329 | what the checks and triggers together let replace a row, column by column |
| BridgeAnswers.CallSteps | worker/src/core/exploration-bridge.ts:224-350 | every step of a call whatever ran before it; a commit applies exactly to the revision read and under a new operation key |
| BridgeAnswers.ClaimOfAnyRow | worker/src/core/exploration-bridge.ts:246-261 | a first claim of any row, also one that no run leaves behind |
| BridgeAnswers.NextOfAnyJob | worker/src/core/exploration-bridge.ts:265-345 | what a failure, a publication and a return to the queue make of any job |
| BridgeAnswers.SweptRows | worker/src/core/exploration-bridge.ts:324-350 | after a sweep each listed row still stored is requeued exactly if it failed before its third attempt and its deadline is over, and failed, for good at the third attempt, exactly if its lease ran out; every other row is as it was |
| BridgeAnswers.SweepCounts | worker/src/core/exploration-bridge.ts:324-350 | the sweep reports as many moves as there are such rows, and no failure |
| BridgeAnswers.UndisturbedCall | worker/src/core/exploration-bridge.ts:224-321 | the four steps of a call with nothing in between store what it proposes with its record, and nothing else |
| BridgeAnswers.UndisturbedTurn | worker/src/core/exploration-bridge.ts:324-350 | and so do the two steps of a sweep's turn |
| BridgeD1.MovesPassTheSchema | infra/migrations/0008_exploration_request_links.sql:291-329 | the triggers let every proposed move pass but for a lagging clock; the updated row projects to the proposed job; claimed_at stays lease expiry minus 900 seconds |
| BridgeD1.CommitRefinesPort | worker/src/core/exploration-bridge-d1.ts:77-116 | through the projection the batch does exactly what the compare-and-set contract says, job and operation both or neither, except the aborts a lagging clock causes, which change nothing |
| BridgeD1.D1BridgeStore.Get | worker/src/core/exploration-bridge-d1.ts:45-48 | reads the projected job: a retained lease on a terminal row is hidden |
| BridgeD1.D1BridgeStore.GetOperation | worker/src/core/exploration-bridge-d1.ts:67-76 | reads the operation record of a key |
| BridgeD1.D1BridgeStore.Commit | worker/src/core/exploration-bridge-d1.ts:77-116 | UPDATE then INSERT guarded by `changes() = 1`, rolled back on abort, meets its specification on the rows |
| BridgeD1.D1BridgeStore.Handle | worker/src/core/exploration-bridge.ts:224-321 | an undisturbed claim or acknowledgement over the database: its reply and the whole new state |
| BridgeD1.D1BridgeStore.Sweep | worker/src/core/exploration-bridge.ts:324-350 | the sweep loop with its moved and failed counts is the recursive specification |
| BridgeD1.SweepMovesWhatIsDue | worker/src/core/exploration-bridge.ts:324-350 | a sweep moves each listed row that is still current and due, once, fails on none, skips stale rows and touches nothing else |
| BridgeD1.LaggingClockAborts | infra/migrations/0008_exploration_request_links.sql:299-305 | a claimed job and an acknowledgement five minutes behind it: the deadline would be the moment of the claim, and the commit aborts |
| BridgeD1Runs.DatabaseRunsLikeThePort | worker/src/core/exploration-bridge-d1.ts:42-116 | every run of the calls over the database, whatever its clocks, is step for step a run of the abstract machine seen through the projection, in which each abort is a call that failed |
| TriageBatch.PlanShape | worker/src/core/question-triage-bridge.ts:231-260 | what an acknowledgement plans: two revisions on through `triaged`, one otherwise; an admission exactly for a queued question, never with a result |
| TriageBatch.FencePinsSidecar | worker/src/routes/question-triage-sweep.ts:73-75 | the fence pins the result row: present exactly when it was read, open, same revision and generation |
| TriageBatch.FinishFires | worker/src/routes/question-triage-sweep.ts:163-173 | once the first update matched, the second fires unless the response deadline was crossed in between |
| TriageBatch.AckDoesEverything | worker/src/routes/question-triage-sweep.ts:149-191 | first guard met and deadline not crossed: every later guard is implied and every statement fires |
| TriageBatch.AckDoesNothing | worker/src/routes/question-triage-sweep.ts:149-191 | first guard not met: question, result, receipt and shared request are untouched and the answer is not acceptance |
| TriageBatch.RefusedAckIsNothing | worker/src/routes/question-triage-sweep.ts:185-189 | exactly when a refused batch with an admission leaves the whole database alone: the link it finds due lacks its request, or every row it would insert is there |
| TriageBatch.AckLeavesTriaged | worker/src/routes/question-triage-sweep.ts:163-173 | deadline crossed between the statements: the question is left at `triaged`, nothing else in the whole database changes, and the answer is acceptance |
| TriageBatch.ReceiptExactlyWhenSettled | worker/src/routes/question-triage-sweep.ts:96-100 | a receipt is written exactly when this batch moved the question to its planned status and revision |
| TriageBatch.OneReadingNeverCrosses | worker/src/routes/question-triage-sweep.ts:149-191 | with one clock reading for the whole batch the deadline is never crossed |
| TriageBatch.SweepDoesEverything | worker/src/routes/question-triage-sweep.ts:206-218 | a sweep that exhausts a managed question fails its result in the same batch |
| TriageD1.D1QuestionTriageStore.Read | worker/src/routes/question-triage-sweep.ts:81 | reads question, generation and result revision together, in scope |
| TriageD1.D1QuestionTriageStore.Claim | worker/src/routes/question-triage-sweep.ts:125-137 | the two claim statements are the specified batch |
| TriageD1.D1QuestionTriageStore.Receipt | worker/src/routes/question-triage-sweep.ts:96-100 | the receipt insert under `changes()=1` |
| TriageD1.D1QuestionTriageStore.RemapResult | worker/src/routes/question-triage-sweep.ts:138-148 | the result insert or update under `changes()=1` |
| TriageD1.D1QuestionTriageStore.SettleQuestion | worker/src/routes/question-triage-sweep.ts:163-182 | the one or two question updates; reports whether the first matched |
| TriageD1.D1QuestionTriageStore.Ack | worker/src/routes/question-triage-sweep.ts:149-191 | the up to seven chained statements are the specified batch, rolled back on a constraint error |
| TriageD1.D1QuestionTriageStore.Settle | worker/src/routes/question-triage-sweep.ts:206-218 | the settling batch of the sweeps |
| TriageSafety.DecisionsAreSound | worker/src/core/question-triage-bridge.ts:176-288 | claim, acknowledgement and sweep only ever plan transitions of the state machine, from the row they read |
| TriageSafety.StepKeepsInv | worker/src/routes/question-triage-sweep.ts:125-218 | one step of any call, clarification, publication or maintenance keeps the global invariant |
| TriageSafety.RunKeepsInv | worker/src/routes/question-triage-sweep.ts:125-218 | so does every interleaving |
| TriageSafety.BatchesReplaceWhatTheyRead | worker/src/routes/question-triage-sweep.ts:125-218 | each committed batch replaced exactly what its caller read, question and result, and stored what it planned or left the question at `triaged` |
| TriageSafety.ReceiptsNameTheirTransition | worker/src/routes/question-triage-sweep.ts:96-100 | every operation record belongs to one committed, fully planned transition; its receipt names that request, generation, input revision and resulting revision |
| TriageSafety.OperationActsOnce | worker/src/core/question-triage-bridge.ts:176-262 | a service, type and operation id cause at most one transition |
| TriageSafety.TriagedIsStranded | worker/src/routes/question-triage-sweep.ts:163-173 | a question seen at `triaged` is managed, and no further run of batches of either protocol, clarifications or the result service changes it |
| TriageCrossing.CrossingHappens | worker/src/routes/question-triage-sweep.ts:163-173 | a reachable world, event by event, in which the first guard holds, the deadline is crossed and the question is left at `triaged` |
| TriageAdmissions.StepServes | worker/src/routes/question-triage-sweep.ts:185-189 | every step keeps that a link has its request and its job, a queued question its link, and a question its owner |
| TriageAdmissions.AdmissionsAreWhole | worker/src/routes/question-triage-sweep.ts:185-189 | so in every reachable world |
| TriageAdmissions.RefusedAckChangesNothing | worker/src/routes/question-triage-sweep.ts:149-191 | in every reachable world a refused acknowledgement changes nothing, in the question tables or the shared ones |
| TriageSafety.AtMostTwelveClaims | worker/src/core/question-triage-bridge.ts:194-195 | at most three claims per generation, so twelve in all; without a result row, at most the stored attempt |
| TriageAnswers.ClaimAnswers | worker/src/core/question-triage-bridge.ts:193-202 | a claim is proposed exactly for a received question in scope, in time and in attempts; every column of what it proposes |
| TriageAnswers.ClaimLandsExactly | worker/src/routes/question-triage-sweep.ts:125-137 | exactly what its statement asks of the database at its own time, and the question and record it leaves |
| TriageAnswers.AckIsProposed | worker/src/core/question-triage-bridge.ts:225-260 | an acknowledgement is proposed exactly under the caller's live lease, in scope and in time; its record |
| TriageAnswers.AckGuardExactly | worker/src/routes/question-triage-sweep.ts:149-182 | exactly what its first statement asks of the database at its own time |
| TriageAnswers.MappedAnswer | worker/src/routes/question-triage-sweep.ts:138-148 | a mapped question is filled and its result waits for confirmation with the mapped spec, or it has no data and its result the mapped state; a third generation is not asked again |
| TriageAnswers.IrrelevantAnswer | worker/src/core/question-triage-bridge.ts:239-242 | an irrelevant question is junk with its verdict, a managed result unsupported |
| TriageAnswers.FailureAnswer | worker/src/core/question-triage-bridge.ts:233-237 | a failure sends the question back with a delay, at most a day after its claim, and at the third attempt fails it for good with its result |
| TriageAnswers.ArrivalsAnswer | worker/src/core/question-triage-bridge.ts:248-252 | an arrivals question is queued for its request, which is stored, linked and has its job |
| TriageAnswers.CellsAnswer | worker/src/core/question-triage-bridge.ts:253-256 | cells fill a question wholly, partly or not at all by their two counts |
| TriageAnswers.SweepAnswers | worker/src/core/question-triage-bridge.ts:264-292 | which questions each sweep takes on, and what it plans for them |
| TriageAnswers.SweepLandsExactly | worker/src/routes/question-triage-sweep.ts:206-218 | exactly what the sweep's statement asks, and what it stores, with the result of an open managed question that failed for good |
| TriageAnswers.UndisturbedBatch | worker/src/routes/question-triage-sweep.ts:125-218 | a call's two steps with nothing in between do exactly what its batch does |
| TriageAnswers.ClarifyAnswer | worker/src/core/question-request-clarification.ts:18-63 | when a clarification reopens a question, and every column of question and result afterwards |
| Results.D1QuestionResultStore.Read | worker/src/core/question-request-result-store.ts:18-29 | reads a row in one of the served states |
| Results.D1QuestionResultStore.CompareAndSet | worker/src/core/question-request-result-store.ts:31-60 | the write happens exactly under all its fences, and stores exactly the columns the statement sets |
| Results.D1QuestionResultStore.Maintain | worker/src/routes/question-triage-sweep.ts:219-231 | whatever the row was, afterwards it is closed or stands as accepted with its deadlines ahead; it reports whether it changed anything |
| Results.MaintenanceSettles | worker/src/routes/question-triage-sweep.ts:219-231 | a turn changes a row exactly when it was open or released and no longer stood, closes it as expired exactly after a deadline, takes its evidence and lease, and a second turn does nothing |
| ResultSafety.StepKeepsInv | worker/src/core/question-request-results.ts:37-95 | one step of any operation, publication, parent change or maintenance keeps the invariant |
| ResultSafety.RunKeepsInv | worker/src/core/question-request-results.ts:37-95 | so does every interleaving |
| ResultSafety.MovesKeepShape | worker/src/core/question-request-results.ts:46-95 | every transition keeps revision, attempt, lease and evidence in step with the state |
| ResultSafety.RereadFindsItsClaim | worker/src/core/question-request-execution.ts:29-32 | the winner of a claim that reads back the claimed revision reads its own write |
| ResultSafety.WinnerReplaces | worker/src/core/question-request-result-store.ts:31-60 | a winning write had read the stored row and leaves exactly the row it prepared |
| ResultSafety.WritesReplaceWhatTheyRead | worker/src/core/question-request-results.ts:37-95 | no lost update in any run; each write is one of the transitions |
| ResultSafety.ReleaseIsCurrent | worker/src/core/question-request-results.ts:69-85 | at every release the current snapshot, parent generation and catalog are the accepted spec's, the claimed lease is live by both clocks, and the evidence matches the spec |
| ResultSafety.ReleasedRowsWereReleased | worker/src/core/question-request-results.ts:69-85 | a row that shows as released was released by such a write and is unchanged since |
| ResultSafety.RevisionNamesState | worker/src/core/question-request-results.ts:46-95 | counted from its proposal a row is at 0 awaiting confirmation, 1+2a building, 2a in review, 1+2a released, 7 failed; never above 7, or 8 once stale |
| ResultSafety.ExecutorOncePerAttempt | worker/src/core/question-request-execution.ts:23-40 | the executor is reached at most once per claimed attempt, so at most three times |
| ResultSafety.ClaimsNumberAttempts | worker/src/core/question-request-results.ts:57-66 | the revision of a claim is fixed by its attempt |
| ResultSafety.IdentityNeverChanges | worker/src/core/question-request-result-store.ts:47-50 | over any further run spec, owner and expiry never change (the refresh command, which renews a spec, is not part of this model); a closed row stays closed and a released one can only go stale, through maintenance |
| ResultAnswers.ProposeAnswer | worker/src/core/question-request-results.ts:37-44 | when a result is proposed, and every column of it |
| ResultAnswers.ConfirmAnswer | worker/src/core/question-request-results.ts:46-55 | when a confirmation is prepared, and every column of the row it prepares |
| ResultAnswers.ClaimAnswer | worker/src/core/question-request-results.ts:57-66 | the same for a claim, with its lease and attempt |
| ResultAnswers.CompletableExactly | worker/src/core/question-request-results.ts:69-76 | a completion is considered exactly for the holder of the live lease |
| ResultAnswers.VerifiesExactly | worker/src/core/question-request-intent.ts:111-129 | which responses answer a spec that is still bound |
| ResultAnswers.CompleteAnswer | worker/src/core/question-request-results.ts:77-85 | when a completion is prepared; it shows the response's own value and attribution |
| ResultAnswers.RecoverAnswer | worker/src/core/question-request-results.ts:88-96 | when recovery expires, requeues or fails a row, and every column of it |
| ResultAnswers.WritesExactly | worker/src/core/question-request-result-store.ts:31-60 | exactly what the store's statement asks of the database at its own time |
| ResultAnswers.OwnerSteps | worker/src/core/question-request-results.ts:37-55 | who may begin, with which row: a confirmation is the owner's own, of the revision it shows |
| ResultAnswers.ExecutorSteps | worker/src/core/question-request-execution.ts:23-43 | the executing route step by step, whatever ran before: it runs the executor exactly for its own claim, while the binding stands and the lease lives |
| ResultAnswers.CompleterSteps | worker/src/core/question-request-results.ts:69-85 | a completion step by step, with the response its call submitted and the execution that gave it |
| ResultAnswers.WriteSteps | worker/src/core/question-request-results.ts:33-34 | a write is stored and logged, or refused, and ends its call |
| ResultAnswers.StepStaysKept | worker/src/core/question-request-results.ts:69-85 | one step of any call keeps every response tied to the execution that gave it |
| ResultAnswers.ReleaseShowsItsAnswer | worker/src/core/question-request-results.ts:77-85 | at each release of every run the row shows the value and attribution its own call submitted, which answered its spec; if an execution gave them, it ran for this row and attempt under the claim just completed |
| ResultAnswers.ReleasedRowShowsItsAnswer | worker/src/core/question-request-results.ts:77-85 | and so does every row that shows as released |
| ResultAnswers.ConfirmLands | worker/src/core/question-request-results.ts:46-55 | a confirmation in time with nothing in between is stored |
| ResultAnswers.ExecutionRuns | worker/src/core/question-request-execution.ts:23-43 | a claim, the reading back of its row and the executor's run, recorded with its response |
| ResultAnswers.CompleteLands | worker/src/core/question-request-results.ts:69-85 | a verified completion under the live lease releases the row |
| Notifications.D1NotificationStore.Recover | worker/src/core/question-request-notification-store.ts:123-126 | clears exactly an expired lease of a live row |
| Notifications.D1NotificationStore.Refresh | worker/src/core/question-request-notification-store.ts:127-135 | recovers, then inserts or updates under the fence; the desired revision moves exactly when the payload does |
| Notifications.D1NotificationStore.Prepare | worker/src/core/question-request-notification-store.ts:146-161 | when a lease is granted, with which action and frozen payload, all right-hand sides reading the old row; a moved payload is refreshed instead |
| Notifications.D1NotificationStore.Check | worker/src/core/question-request-notification-store.ts:162-169 | true exactly while the lease is held, the fence stands and an update or release payload is still the projected one |
| Notifications.D1NotificationStore.Bind | worker/src/core/question-request-notification-store.ts:170-174 | binds exactly a pending row under its lease to an issue no other request has; issues stay apart |
| Notifications.D1NotificationStore.Ack | worker/src/core/question-request-notification-store.ts:175-189 | delivery and retry under their different guards; a retry after binding succeeds and keeps the lease |
| NotificationSafety.StepKeepsInv | worker/src/core/question-request-notification-store.ts:123-189 | one step of any call or of a source keeps the invariant |
| NotificationSafety.RunKeepsInv | worker/src/core/question-request-notification-store.ts:123-189 | so does every interleaving |
| NotificationSafety.CreateGrantedOnce | infra/migrations/0015_question_request_notifications.sql:1-2 | `create` is granted at most once per request, before every other grant; after an update only updates |
| NotificationSafety.GrantsBeforeBindingAreFrozen | worker/src/core/question-request-notification-store.ts:151-157 | all grants before binding carry the one frozen creation payload, and a creation was granted |
| NotificationSafety.UpdatesNeedAnIssue | worker/src/core/question-request-notification-store.ts:146-161 | an update is granted only for a bound issue |
| NotificationSafety.RevisionNamesPayload | worker/src/core/question-request-notification-store.ts:132-134 | over any further run a desired revision names one payload, and all that is desired, frozen, in flight, granted or delivered under it is that payload |
| NotificationSafety.DeliveryOnlyGrows | worker/src/core/question-request-notification-store.ts:175-189 | between any two worlds of a run the delivered revision only grows, never past the desired one; issue and creation never change; issues are not shared |
| NotificationSafety.DeliveredWasGranted | worker/src/core/question-request-notification-store.ts:175-189 | a delivery had been granted, is counted, and carries the payload its caller was fenced by if that caller's read was not older than the revision it named |
| NotificationAnswers.FencedExactly | worker/src/core/question-request-notification-store.ts:114-122 | what the fence asks of the source row and of the two clocks |
| NotificationAnswers.HoldsExactly | worker/src/core/question-request-notification-store.ts:162-174 | what a held lease is |
| NotificationAnswers.GuardsExactly | worker/src/core/question-request-notification-store.ts:123-189 | when a row may be recovered, granted or acknowledged |
| NotificationAnswers.BindsExactly | worker/src/core/question-request-notification-store.ts:170-174 | when a row may be bound, and that no other row has the issue |
| NotificationAnswers.PreparedRow | worker/src/core/question-request-notification-store.ts:150-160 | every column of a granted row, and its action |
| NotificationAnswers.RefreshedRow | worker/src/core/question-request-notification-store.ts:127-135 | every column of a refreshed row |
| NotificationAnswers.AckedRow | worker/src/core/question-request-notification-store.ts:187-189 | every column of an acknowledged row |
| NotificationAnswers.ReadingSteps | worker/src/core/question-request-notification-store.ts:88-113 | what each call reads before it writes |
| NotificationAnswers.WritingSteps | worker/src/core/question-request-notification-store.ts:127-189 | what each call writes whatever ran since it read: a refresh at the revision it read, a grant for the payload it read, an acknowledgement under its lease, all under the fence |
| NotificationAnswers.UndisturbedRefresh | worker/src/core/question-request-notification-store.ts:127-135 | a refresh with nothing in between stores exactly what its fence shows |
| NotificationAnswers.UndisturbedPrepare | worker/src/core/question-request-notification-store.ts:146-161 | a grant with nothing in between, exactly when it is given |
| NotificationAnswers.UndisturbedAck | worker/src/core/question-request-notification-store.ts:175-189 | a delivery or a retry with nothing in between, exactly when it counts |
| Numerals.TextReadsBack | worker/src/core/exploration-bridge.ts:171-184 | writing a number in base 10, 16 or 36 and reading it gives the number |
| Numerals.CanonicalIsText | worker/src/core/exploration-bridge.ts:181 | a numeral without leading zeros is what the encoder writes |
| Numerals.TextLength | worker/src/core/exploration-bridge.ts:90 | at most k digits exactly below base^k |
| Cursor.ReadNumber | worker/src/core/exploration-bridge.ts:177 | the digit loop computes the number |
| Cursor.PowersOf36 | worker/src/core/exploration-bridge.ts:90 | 36^11 is above 2^53 and 36^50 above 2^256, so the grammar has room |
| Cursor.Decode | worker/src/core/exploration-bridge.ts:175-184 | an accepted spelling gives a valid position that encodes back to it |
| Cursor.HashReadsBack | worker/src/core/exploration-bridge.ts:173-178 | a job id survives the trip through its number, zero padding included |
| Cursor.EncodedDecodes | worker/src/core/exploration-bridge.ts:171-184 | every valid position fits the cursor grammar and decodes to itself |
| Cursor.AcceptedIsCanonical | worker/src/core/exploration-bridge.ts:180-181 | no position has two accepted spellings |
| Cursor.AcceptedExactlyInRange | worker/src/core/exploration-bridge.ts:180-183 | accepted exactly: canonical numerals, a job below 2^256, a time within the range of dates |
| Paging.PageAt | worker/src/core/exploration-bridge.ts:187-205 | a page at a cursor serves the readable ones of the next rows; its cursor, through text, back and the adapter's whole seconds, stands before the rest |
| Paging.WalkReadsEveryJob | worker/src/core/exploration-bridge-d1.ts:34-59 | following cursors yields every readable job once, in order, whatever the limits and even over pages filtered empty |
| Paging.CutPage | worker/src/core/question-request-glossary.ts:76-82 | the loop with its break takes the longest prefix within the byte budget |
| Paging.GlossaryOfLeft | worker/src/core/question-request-glossary.ts:55-86 | a page serves a prefix of those left and names its last one exactly if some remain; refused when the first does not fit |
| Paging.WalkReadsGlossary | worker/src/core/question-request-glossary.ts:55-86 | the walk yields everybody once and in order exactly when each entry alone fits; otherwise all before the first that does not |
| PagingAnswers.TextBeforeExactly | worker/src/core/exploration-bridge-d1.ts:49-59 | byte order: the first difference decides, a beginning comes first |
| PagingAnswers.ReadableExactly | worker/src/core/exploration-bridge.ts:200-203 | what a walk yields are the readable jobs, all and only, in listing order |
| PagingAnswers.PageExactly | worker/src/core/exploration-bridge.ts:187-205 | which cursors are refused, which are an error, and what a page is: only a missing cursor starts from the beginning |
| PagingAnswers.FollowingExactly | worker/src/core/exploration-bridge-d1.ts:49-59 | a continued page reads exactly the rows behind its position |
| PagingAnswers.GrammarExactly | worker/src/core/exploration-bridge.ts:90 | the grammar of a cursor's numbers, character by character |
| PagingAnswers.FittingExactly | worker/src/core/question-request-glossary.ts:76-82 | a page takes what fits, and one entry more would not |
| QueuedSweep.SweepState.SweepRows | worker/src/routes/question-triage-sweep.ts:194-201 | one or two queries return the next rows behind the cursor, going round, and move the cursor to the last |
| QueuedSweep.SweepRotates | worker/src/routes/question-triage-sweep.ts:194-201 | a sweep moves the rows it returned to the end of the line |
| QueuedSweep.SweepHasNoDuplicates | worker/src/routes/question-triage-sweep.ts:194-201 | no sweep returns a row twice, and it returns as many as it can |
| QueuedSweep.EveryRowIsSwept | worker/src/routes/question-triage-sweep.ts:194-201 | any sweeps in a row with room for all queued rows return all of them, also when the cursor names none of them |
| Canonical.CompareByCodePoint | worker/src/core/intent.ts:58-67 | the comparator's loop decides code-point order, and ties only equal strings |
| Canonical.RanksCompareUnits | worker/src/core/intent.ts:50-57 | JavaScript's default order is the order of UTF-16 code units of the same strings |
| TextAnswers.UnitsExactly | worker/src/core/intent.ts:50-57 | one unit for a character of the basic plane, a surrogate pair that gives it back for any other |
| Canonical.OrderIsTotal | worker/src/core/intent.ts:58-67 | both string orders are strict and total |
| Canonical.OrdersDiffer | worker/src/core/intent.ts:50-57 | and they differ beyond the basic plane |
| Canonical.SortedUnique | worker/src/core/intent.ts:77 | sorted entries are determined by what they say about each key |
| Canonical.SameHasOneNormal | worker/src/core/intent.ts:72-83 | two values are the same up to key order exactly when sorting keys at every level makes them equal |
| CanonicalText.EscapesAgree | worker/src/core/intent.ts:69-73 | both languages escape each character alike |
| NumberText.TextIsNumber | worker/src/core/exploration-bridge.ts:111 | any two finite numbers have different texts, in every form: integers, fractions, small ones and exponents |
| NumberText.IntegerText | pipeline/contracts/intent.py:76-81 | both languages write a safe integer in full |
| NumberText.PlainIsAlike | pipeline/contracts/intent.py:76-81 | both languages write an integer alike exactly when it has at most twenty-one digits |
| CanonicalText.PrintIsPrefixFree | worker/src/core/intent.ts:72-83 | canonical text tells where it ends: no value's text begins another's |
| CanonicalText.TextIsMeaning | worker/src/core/exploration-bridge.ts:109-128 | one canonical text exactly for one value up to key order, with any finite numbers in it, which body hashes and artifact keys rely on |
| CanonicalText.DialectsAgree | pipeline/contracts/intent.py:66-81 | TypeScript and Python print the same text of every value whose numbers are integers of at most twenty-one digits |
| TextAnswers.PrintAnswer | worker/src/core/intent.ts:72-83 | the text of every kind of value, with commas and without white space |
| TextAnswers.FormsExactly | worker/src/core/exploration-bridge.ts:111 | which form a number takes |
| TextAnswers.NumberSamples | worker/src/core/exploration-bridge.ts:111 | numbers at the edges of their forms, digit by digit |
| IntentKeys.IntentTextIsMeaning | worker/src/core/intent.ts:92-100 | two intents have one text exactly when they agree with dimensions as a multiset and filters as a map |
| PythonJson.SortsAgree | pipeline/contracts/intent.py:74 | a merge sort by code point gives what the worker's sort gives |
| PythonJson.KeySortedIsNormal | pipeline/contracts/intent.py:76-81 | dumping by sorted keys gives the worker's key-sorted form, at every level |
| IntentKeys.ImplementationsAgree | pipeline/contracts/intent.py:66-81 | pipeline and worker, each with its own sorts and its own escapes, give the same text for every intent |
| IntentKeys.MaterialIsInjective | worker/src/core/intent.ts:111-120 | the joined key material determines intent and snapshot, for every snapshot id, also one that contains the separator |
| TextAnswers.IntentAnswer | worker/src/core/intent.ts:92-100 | an intent is written as its nine fields under their names |
| TextAnswers.MaterialAnswer | worker/src/core/intent.ts:111-120 | the material of its key, with both versions |
| TextSort.SortTextsSorts | worker/src/core/intent.ts:95 | sorting texts gives a sorted permutation |
| TextSort.SortedTextsUnique | worker/src/core/intent.ts:95 | which is unique, whatever algorithm sorts |
| TextSort.LatestIsLatest | worker/src/core/feasibility.ts:266-271 | the head of the reversed sort is a latest season |
| QueryCache.CachedResult | worker/src/core/db.ts:189-225 | the validation loop returns the stored result whole exactly when it may be served |
| QueryCache.StepKeepsInv | worker/src/core/db.ts:184-278 | one step of any request, publication or storage failure keeps every slot true for its key and snapshot |
| QueryCache.RunKeepsInv | worker/src/core/db.ts:184-278 | so does every interleaving |
| QueryCache.CacheIsTransparent | worker/src/index.ts:151-181 | in every run each answer under a snapshot is the true result on that snapshot's data, whether from a hit, a miss or after an eviction |
| QueryCache.BudgetHolds | worker/src/core/db.ts:349-393 | at most 1000 requests of fail-closed routes per UTC day reach the executor, whatever the advisory counter says |
| QueryCache.Worker.ExecuteWithCache | worker/src/index.ts:151-181 | undisturbed, a hit answers what the executor would and costs nothing; a miss is charged before it computes; a refusal changes nothing in the cache |
| CacheAnswers.SlotExactly | worker/src/core/db.ts:184-187 | which keys have a slot, and which one |
| CacheAnswers.ServableExactly | worker/src/core/db.ts:189-225 | which stored results may be served |
| CacheAnswers.HitExactly | worker/src/core/db.ts:229-249 | when a look is a hit, a miss, or not applicable |
| CacheAnswers.KeptExactly | worker/src/core/db.ts:252-278 | when a result is kept, and where |
| CacheAnswers.QueryAnswer | worker/src/index.ts:172 | what the executor reads and the name it gives it |
| CacheAnswers.BudgetAnswer | worker/src/core/db.ts:349-393 | every answer of the budget and its charge |
| CacheAnswers.WithinBudgetPasses | worker/src/core/db.ts:349-393 | in every world a request within the day's budget is let through and charged once |
| CacheAnswers.LookAnswers | worker/src/index.ts:151-166 | what looking leads to |
| CacheAnswers.ConfirmAnswers | worker/src/index.ts:161-178 | a hit is answered, and a computation goes on, exactly while the snapshot stands |
| CacheAnswers.ComputeAnswers | worker/src/index.ts:172-180 | computing, keeping and answering, also when the write fails |
| Feasibility.KeyIsInjective | worker/src/core/feasibility.ts:90-98 | a joined key of space-free parts is met only by those parts, whatever spaces the query holds |
| Feasibility.LookupIsScan | worker/src/core/feasibility.ts:303-305 | the joined-key lookup of an unambiguous catalog is the linear scan of the coverage, for every query |
| Feasibility.AskableExactlyByQueries | worker/src/core/feasibility.ts:90-98 | which texts are keys of queries: those that somewhere spell one of the five entity types and an askable granularity, with a space later on |
| Feasibility.LookupIsScanExactly | worker/src/core/feasibility.ts:196-208 | lookup and scan agree on all queries exactly when each askable cell has a space-free season and competition and a key that spells such words at the end of its metric only, and no other cell's key spells them unless an askable cell holds its place |
| Feasibility.HarmlessSpace | worker/src/core/catalog-contract.ts:207-229 | a decodable catalog with a space in a metric that is safe all the same |
| Feasibility.SpaceFreeIsUnambiguous | worker/src/core/feasibility.ts:90-98 | as is every catalog without spaces inside its fields |
| Feasibility.SpacesBreakTheIndex | worker/src/core/feasibility.ts:90-98 | a decodable catalog with a space in a season where they differ |
| Feasibility.AlternativeIsHonest | worker/src/core/feasibility.ts:254-288 | an offered alternative differs from the query, is itself neither no_data nor no_rights, and offers nothing further |
| Feasibility.MetricsById | worker/src/core/catalog-contract.ts:207-214 | refuses exactly repeated metric ids, else maps each id to its metric |
| Feasibility.DecodeCompiled | worker/src/core/catalog-contract.ts:216-243 | the cross-record checks accept exactly the decodable catalogs |
| Feasibility.DecodableIsAccepted | worker/src/core/catalog-contract.ts:220-229 | a decodable catalog has one cell per key, at the granularity its metric declares |
| Feasibility.Catalog.constructor | worker/src/core/feasibility.ts:200-208 | the loops build exactly the index of the coverage list |
| Feasibility.Catalog.CheckFeasibility | worker/src/core/feasibility.ts:290-351 | for an unambiguous catalog the resolver answers what a scan of every cell would |
| FeasibilityPipeline.CheckInvariants | pipeline/contracts/build_catalog.py:56-138 | every violation, of lookups, of terms files and of their age, is reported, all at once, and nothing else; a catalog without any is sound |
| FeasibilityPipeline.SoundIsAccepted | pipeline/contracts/build_catalog.py:154-188 | a catalog without violations is compiled cell for cell, with one cell per key at the granularity its metric declares |
| FeasibilityPipeline.DecodedExactlyWithOneFlag | worker/src/core/catalog-contract.ts:231-242 | the worker's checks across the records of a compiled sound catalog pass exactly when the cells of each source agree on redistribution |
| FeasibilityPipeline.SoundCanBeRefused | pipeline/contracts/build_catalog.py:94-102 | a sound catalog that those checks refuse |
| FeasibilityPipeline.FirstSeasonIsLatest | pipeline/contracts/feasibility.py:49-98 | Python's sort-and-take-first finds the latest fitting season |
| FeasibilityPipeline.DictionaryIsScan | pipeline/contracts/feasibility.py:101-175 | the tuple-keyed dictionary is the same linear scan |
| FeasibilityPipeline.AlternativesAgreeExactly | pipeline/contracts/feasibility.py:49-98 | both languages offer one alternative to every query exactly when in each group of cells, with any one season left out, both orders find one latest season |
| FeasibilityPipeline.ResolversAgree | pipeline/contracts/feasibility.py:101-175 | for sound unambiguous catalogs whose groups agree, both resolvers give one state and one alternative |
| FeasibilityPipeline.ResolversAgreeExactly | pipeline/contracts/feasibility.py:101-175 | and they do so for every query exactly when the groups agree, no season left out |
| FeasibilityPipeline.BasicSeasonsAgree | pipeline/contracts/feasibility.py:49-98 | which they do when all seasons are of the basic plane |
| FeasibilityPipeline.SeasonsCanDisagree | pipeline/contracts/feasibility.py:101-175 | a sound, unambiguous, decodable catalog to which they answer differently |
| FeasibilityAnswers.WorkerAnswers | worker/src/core/feasibility.ts:290-351 | the worker's state for every query of an unambiguous catalog, in terms of the cells that serve it: event coordinates for shot maps, pass maps and heatmaps, box scores for all else; and the alternative exactly where there is one, by its three cases |
| FeasibilityAnswers.PipelineAnswers | pipeline/contracts/feasibility.py:49-175 | the same for the pipeline and every sound catalog |
| FeasibilityAnswers.PipelineByCases | pipeline/contracts/feasibility.py:101-175 | the pipeline's answer by cases, also for a catalog with violations |
| SeasonSplits.QuerySeasonSplits | worker/src/core/season-splits.ts:143-196 | accepts exactly the inputs the row loop accepts; groups with points and goal difference, coverage, the partial flag and the status |
| SeasonSplits.SumGroups | worker/src/core/season-splits.ts:147-173 | the loop accepts exactly the inputs its tests describe, overflow included, and computes the groups |
| SeasonSplits.PointsNeverOverflow | worker/src/core/season-splits.ts:183 | with at most 4096 one-match rows the test on points can never fire |
| SeasonSplits.GroupCount | worker/src/core/season-splits.ts:190 | nor the test on the number of groups |
| SeasonSplits.GroupsAppend | worker/src/core/season-splits.ts:161-172 | what one more row does to the groups |
| SplitLaws.GroupsConserve | worker/src/core/season-splits.ts:161-172 | group totals add up to the selected rows, in every counter |
| SplitLaws.GroupingsAgree | worker/src/core/season-splits.ts:163 | venue and opponent grouping have one grand total |
| SplitLaws.GroupsIgnoreOrder | worker/src/core/season-splits.ts:152-173 | row order affects no group: totals, seasons or lineage |
| SplitLaws.RowBoundIsImplied | worker/src/core/season-splits.ts:146-160 | distinct grains over 16 seasons, two venues and 128 opponents never exceed 4096 rows |
| SplitAnswers.ValidRowExactly | worker/src/core/season-splits.ts:123-141 | which rows are one match of a covered season in this snapshot, with a score to fit |
| SplitAnswers.AdditionExactly | worker/src/core/season-splits.ts:171 | an addition is refused exactly when a counter leaves the safe integers |
| SplitAnswers.VenueGroups | worker/src/core/season-splits.ts:161-172 | grouped by venue: "home" exactly if a selected row is a home row, with the sums, seasons and lineage of those rows; likewise "away"; no other group |
| SplitAnswers.OpponentGroups | worker/src/core/season-splits.ts:161-172 | grouped by opponent: under each opponent the selected rows against it |
| SplitAnswers.SelectedExactly | worker/src/core/season-splits.ts:161-162 | which rows the request's seasons, venue and opponent select |
| OpponentHistory.MakeRecord | worker/src/core/opponent-history.ts:75-94 | the second summation fails exactly when a counter overflows, never on points or goal difference, else gives counters, points, difference and lineage |
| OpponentHistory.CheckHistoryRows | worker/src/core/opponent-history.ts:115-149 | the row loop accepts exactly distinct, well-formed, requested rows within the bounds |
| OpponentHistory.QueryOpponentHistory | worker/src/core/opponent-history.ts:97-160 | accepted exactly under its tests; combined and per-season records are the sums of those rows, with statuses, contributing seasons and the partial flag |
| OpponentHistory.SeasonWithinTotal | worker/src/core/opponent-history.ts:150-155 | a season's sums are at most the total's, so no season overflows alone |
| OpponentHistory.HistoryIsTheSingleGroup | worker/src/core/opponent-history.ts:97-160 | whatever the history accepts, the splits accept, with at most one group, equal to the combined record in counters, points and lineage, its seasons being those the history lists as contributing |
| SplitAnswers.SeasonRecordWrittenOut | worker/src/core/opponent-history.ts:150-160 | a season's record sums its matches, with its points, difference and status |
| SplitAnswers.PlayedFollowsRequest | worker/src/core/opponent-history.ts:150-160 | contributing seasons are listed in the order of the request |
| Ranking.CompareIsExact | worker/src/core/comparison.ts:94-102 | the cross-multiplied comparators decide the order of the exact rationals with their tie rules, and tie no two players |
| Ranking.OutranksIsTotal | worker/src/core/player-range.ts:126-130 | that order is total on rateable players |
| Ranking.OutranksIsTransitive | worker/src/core/player-trends.ts:36-40 | and transitive |
| Ranking.ZeroMinutesBreakTheOrder | worker/src/core/player-range.ts:118-130 | without the exclusion of zero minutes the callback is cyclic |
| Ranking.SortRanks | worker/src/core/player-range.ts:126-130 | sorting gives a ranked permutation |
| Ranking.RankingIsUnique | worker/src/core/player-range.ts:126-130 | which is the only one, whatever sorts and in whatever input order |
| Boards.ComparisonIgnoresOrder | worker/src/core/comparison.ts:83-110 | the comparison does not depend on the order of its rows |
| Boards.NoCutRowOutranks | worker/src/core/comparison.ts:83-110 | fifty are kept when any is cut, and every kept row outranks every eligible row cut |
| Boards.CalculatePer90Leaders | worker/src/core/player-trends.ts:102-116 | fails exactly on an unsafe multiple of 90, else gives the first fifty and the excluded with reasons |
| Boards.CandidatesEligible | worker/src/core/player-trends.ts:106-113 | candidates are exactly the players without a reason against them, and can be ranked |
| Boards.LeadersAreRanked | worker/src/core/player-trends.ts:114-115 | the leaders are the unique exact ranking, cut at fifty |
| Boards.LeadersIgnoreOrder | worker/src/core/player-trends.ts:106-115 | the order of the catalog's players does not matter |
| Boards.PlayerSums | worker/src/core/player-range.ts:108-112 | one player's sums over the seasons, refused exactly on overflow |
| Boards.ComparableAreRateable | worker/src/core/player-range.ts:114-120 | comparable players have support in every season, enough minutes, and some where a rate is asked for |
| Boards.RangeIsRanked | worker/src/core/player-range.ts:126-132 | the range's ranking is the one sorted permutation of the comparable players |
| Boards.RangeIgnoresOrder | worker/src/core/player-range.ts:101-130 | the order in which players were asked for does not matter |
| BoardAnswers.ComparedExactly | worker/src/core/comparison.ts:83-93 | which rows are compared, with which numbers |
| BoardAnswers.ComparisonAnswer | worker/src/core/comparison.ts:83-110 | the first fifty of them, each outranking the later ones and every one cut |
| BoardAnswers.ReasonExactly | worker/src/core/player-trends.ts:106-113 | each reason for exclusion, exactly |
| BoardAnswers.LeadExactly | worker/src/core/player-trends.ts:106-113 | which players can lead, with which numbers |
| BoardAnswers.LeadersAnswer | worker/src/core/player-trends.ts:114-115 | the first fifty of them, each outranking the later ones and every one cut |
| BoardAnswers.PlayerAnswer | worker/src/core/player-range.ts:101-120 | a player's sums, missing seasons and comparability, exactly |
| BoardAnswers.ComparableExactly | worker/src/core/player-range.ts:114-120 | the comparable players are all of those and no others |
| BoardAnswers.RangeAnswer | worker/src/core/player-range.ts:126-132 | ranked by total or by rate, and by id where these are equal |
| RateLimit.OpenBucket | pipeline/sources/ratelimit.py:25-39 | refuses exactly a rate that is not positive; else a full bucket at the first clock reading, by default of one minute's tokens |
| RateLimit.TokenBucket.Refill | pipeline/sources/ratelimit.py:41-45 | adds rate times elapsed time up to the capacity, never takes tokens away |
| RateLimit.RefillAnswer | pipeline/sources/ratelimit.py:41-45 | a refill written out |
| RateLimit.TokenBucket.Acquire | pipeline/sources/ratelimit.py:47-58 | refuses exactly what is not positive or does not fit, changing nothing; else ends after at most one sleep and grants exactly n |
| RateLimit.RefillKeepsRange | pipeline/sources/ratelimit.py:41-45 | tokens stay within zero and the capacity |
| RateLimit.SleepIsEnough | pipeline/sources/ratelimit.py:57-58 | after sleeping the shortfall away the tokens are there |
| RateLimit.GrantsAreCovered | pipeline/sources/ratelimit.py:41-58 | whatever the clock does, what is granted is covered by the tokens then held and what the forward steps of the clock add |
| RateLimit.WindowBound | pipeline/sources/ratelimit.py:41-58 | grants in any stretch of a run stay within capacity plus rate times the forward steps, so times its length if the clock does not step back in it |
| RateLimit.MostIsMost | pipeline/sources/ratelimit.py:41-58 | in any window no spending, of whole tokens or of any amounts, grants more than taking all there is at each reading from a full bucket, and one grants as much |
| RateLimit.BoundedExactly | pipeline/sources/ratelimit.py:41-58 | so from a full bucket every window that does not end before it begins keeps to capacity plus rate times length, whatever is spent, exactly when that eager spending does |
| RateLimit.AmountsBoundedExactly | pipeline/sources/ratelimit.py:41-45 | for any amounts: exactly when in each such window the later refills of an emptied bucket, each at most the capacity, give no more than rate times length |
| RateLimit.ForwardIsBounded | pipeline/sources/ratelimit.py:41-58 | readings that never step back keep every window to the bound |
| RateLimit.StepBackCanBeHarmless | pipeline/sources/ratelimit.py:41-45 | readings that step back and keep to it |
| RateLimit.EveryWindow | pipeline/sources/ratelimit.py:41-58 | the same over the whole recorded life of a bucket object, between any two moments |
| RateLimit.BackwardClockBreaksTheBound | pipeline/sources/ratelimit.py:41-45 | how a step back is paid for twice |

## Left out

- SQL: guards, assignments and `changes()` of the listed statements are modelled over maps; parsing, planning and schema constraints are not, beyond the job triggers and the uniqueness of bound issues. A constraint error is a batch rolled back.
- HTTP routing, request bodies, JSON shapes, identifier patterns, size limits and views. A caller's expected revision, generation or attempt only narrows the triage calls further and is not a field there.
- SHA-256 is taken as injective, so a body stands for its hash; the HMAC of a cursor is an exact oracle; lease ids are fresh.
- The 30-day expiry of operation records, retention, orphan collection and tombstones: records live for ever here.
- Triage replay reads, the answer-now replay and the triage page read, whose rows are filtered before the page is cut.
- Clarification is a step of the environment of triage, with its own guards; the refresh command is not modelled.
- The order in which the sweeps list rows, but for the queued sweep. Free-text screening and the mapping of a verdict to a draft are parameters.
- TriageAdmissions.RefusedAckChangesNothing: links, requests and jobs are never removed here; after an unlinking or a collection RefusedAckIsNothing says what a refused acknowledgement may insert.
- TriageSafety.TriagedIsStranded: until retention deletes the question.
- The table of local notifications, the projection that reads a result's status (any payload may be projected).
- NotificationSafety.DeliveredWasGranted: says nothing on the fenced payload for a caller that named a revision its read had not seen, which no well-behaved caller does.
- Building glossary labels and aliases; an entry is its identifier and its length. Person and request identifiers are ranks in their text order.
- The stored text of a cached result, with its bound of 100 000 characters, the spelling of snapshot ids and the outcome labels of a cached execution.
- QueryCache.CacheIsTransparent: assumes that a snapshot id is never published again with other data, nor at all while a request that read it still runs, and that artifact keys do not collide; the query executor is a function of the snapshot's data, and the advisory counter is arbitrary.
- Catalog texts, attribution, reasons, output coverage and the separate source list.
- Feasibility.DecodeCompiled: of what the cells of a source must share, only the redistribution flag is a field; the texts are copied from one entry when compiled.
- FeasibilityPipeline.CheckInvariants: violations form a set; their order and wording are not modelled.
- Display order of season-split groups and displayed rates. Manager eras repeat the same summation.
- Parsing of fact rows in player range and player trends: the facts are given as a map.
- Floating point: the token bucket computes over the reals, rankings over integers.
- CanonicalText.TextIsMeaning: strings are sequences of Unicode scalar values, without unpaired surrogates; a finite number is its shortest decimal, with one zero.
- CanonicalText.DialectsAgree: says nothing on fractions and on longer integers, which the pipeline never writes into an intent.
- FeasibilityPipeline.DecodedExactlyWithOneFlag: the decoder's tests of single fields (decimals from 0 to 6, non-empty strings, the pattern of source ids, the five entity types) can refuse a sound catalog too and are not modelled; texts without null characters.
- Feasibility.LookupIsScanExactly: over every query of the resolver's type; the request parser's tests for blank and long texts narrow the queries of one route further.
- ResultSafety.IdentityNeverChanges: the refresh command, which renews a spec, is not a step of these runs.
- RateLimit.BoundedExactly: a reading may pass without spending; in the ingest it does so only when there are too few tokens.
- RateLimit.WindowBound: asks for a capacity that is not negative; with a negative one nothing is ever granted.
