# Run engine, commit protocol and record laws

A Dafny model of the stateful core of a local-first workspace server and its relay, with proofs of what that core promises.

- **Runs** — `RunRecords`, `RunStories`, `RunFields` (what a record remembers), `Timeline`, `TimelineLaws`, `TimelineEntries` (what a reader is shown of each Stage): one Run's directory (metadata, append-only event log, files), the transitions that move it, every *story* those transitions can tell with the process dying inside any of them, and the timeline the web page replays from the log.
- **The Run engine** — `RunEngine` (the state machine, with the hosts' own operations on a Run among its steps), `RunRecordsKept` (the history the moves make of each Run), `RunEngineLaws`, `RunEngineTheorems`, `RunEngineStages`, `RunEngineWaits` (its invariants over all interleavings and crashes), `RunEngineSweeps`, `RunEngineAnswers` (what each call leaves on the records it finds), `RunEngineRuns` (runs from boot in which a promise fails), `Runner` (the objects, field by field, proved to take exactly those steps).
- **The commit protocol** — `Commit`, `CommitLaws`, `CommitHistory`, `CommitTheorems`, `CommitProgress`, `CommitAnswers` (what each request does to the bytes it finds), `WorkspaceWriter`: per-path promise chains, re-entry by asynchronous ancestry, write, rename, read back, with a crash possible at each step.
- **The relay store** — `Relay`, `RelayLaws`, `RelayPending`, `RelayAnswers` (how each call is answered), `RelayStore`: channels, wake-ups, the per-installation index, expiry and acknowledgement, against an arbitrary clock that may read differently at every look.
- **The work limiter** — `WorkLimiter`.
- **The event log as bytes** — `JsonText` (how JSON is written and parsed), `JsonRoundTrip`, `JsonShape`, `JsonTokens`, `Utf8`, `EventLog`: serializing, splitting into lines, damage and torn appends.
- **Paging** — `RunList`; **configuration** — `DeepMerge`, `Config`, `ConfigLaws`, `ConfigAnswers` (what is loaded and stored, field by field), `ConfigStore`, `ConfigSchemas` (a language of schemas), `AppConfig` (the repository's own schema and defaults in it); **task groups** — `TaskGroups`; **UTF-8 length and the token bound** — `ModelAdmission`; shared helpers in `Prelude`, `Json`, `Strings`, `Sorting`.

The engine, the commit protocol, the limiter and the relay have two layers. A state machine says what one uninterrupted turn of the process does, and the theorems quantify over all its runs; a class has the fields the source mutates, and each of its methods is proved to take one step of that machine. Concurrency is interleaving of turns: JavaScript runs one at a time, so a step is the code between two awaits.

## What turned out not to hold

Each of these has the exact condition under which the promise does hold, and an instance in which it fails. The instances about the engine are whole runs from boot.

- *Status and timeline cannot drift apart* (`apps/server/src/runs.ts:270`). A Module's event that takes a Shell name can move the announced status (`EventMisleads`) or close the Stage that is shown running (`EventCloses`); an outcome's detail that says `skipped` outvotes the status it is written with (`OutcomeMisleads`); and a failure recorded in a Stage that never started is shown nowhere (`FailureUnshown`). `Faithful` is the condition on one operation, and it is exact: for one operation on any agreeing record (`AgreementExactly`), for a whole story, crashes included (`StoryAgreesExactly`), and for every run of the engine, crashes included (`AgreementOverMoves`). A death of the process leaves the log of at most one Run short of the tail of one transition, until that Run's next (`LagIsOneMove`; `StartCutShort`).
- A failed Stage is shown as failed if and only if its own start is on the log (`FailedEntryExactly`; `FailureUnshown`, by a host's direct `failed`).
- *A Run's `wait` is set exactly while it is blocked* fails if and only if a Stage is started on a blocked Run, because `started` leaves `wait` alone: over a story (`WaitExactly`) and over every run of the engine, crashes included (`WaitsExactly`). It happens when a Module opens a Stage after `wait` threw (`StageAfterWait`), and also without that, when a context left over from a settled execution waits (`LateWait`).
- `event`, `attempt`, `wait` and `writeFile` are refused *while no Stage is open* — except after a Stage whose `started` threw, which leaves its name on the stack (`EffectsOnlyInStage`; `LeakLetsThrough`).
- The stack is the list of open `stage` calls if and only if every start was recorded and every call settles as the innermost, or among calls of its own name (`ClosedExactly`, `StackExactly`); otherwise a wait can name a Stage that is over (`WaitMisnames`).
- Writes nested across records can wait for each other for ever (`CrossedCallsStick`): some operation can move on if and only if some unsettled one waits for no other (`StuckExactly`). There always is one while nested calls go up one ranking of the records, flat calls among them (`EveryScheduleSettles`). One operation can still settle if and only if its own waits lead into no deadlock (`SettlesExactly`).
- A torn last event line is tolerated only until the next append, which continues that line. `NextAppendExactly`: after an append interrupted at byte `k` and one more event, the log reads if and only if none, or all, of the interrupted line had arrived; otherwise it is refused at that line from then on (`JoinedRefused`).
- Following `nextCursor` gives the whole list for every limit of at least one; a limit of zero answers an empty page and no cursor (`PagingComplete`; `NothingPaged`, on a store of one Run).
- The relay's `channel:number` key is injective because numbers are digits (`KeyInjective`, `KeyCollision`).
- `deepMerge` is not associative (`NotAssociative`); `AssociativeExactly` says when it is.
- `utf8ByteLength` documents an exact length *for any string*. It is exact for well-formed ones; on an unpaired high surrogate it counts four bytes and skips the next unit. `ExactOn` says unit by unit on which strings the count is right, and on which it is an upper bound; `CountsTooFew` is an instance it counts too low.

## Model

| member | source | states |
|---|---|---|
| RunStories.StatusAndTimelineAgree | apps/server/src/runs.ts:271-416 | in every faithful story, crashes included, the stored status is the one replayed from the log plus the events an interrupted transition still owes, and the rendered timeline agrees with it: one running entry exactly while running, none when blocked, failed, done or skipped, at most one while pending, and the failed Stage's entry failed |
| RunStories.CrashFreeOwesNothing | apps/server/src/runs.ts:270-283 | without a crash nothing is owed to the log, after any operation |
| RunStories.CrashFreeAgrees | apps/server/src/runs.ts:270-283 | so there the log itself gives the stored status, and its timeline the one that goes with it |
| RunStories.StoryAgreesExactly | apps/server/src/runs.ts:270-416 | over a whole story, crashes included, status, owed log and timeline agree after every happening if and only if every happening was faithful |
| RunStories.LagIsOneTransition | apps/server/src/runs.ts:271-283 | what a log lacks is the tail of one interrupted transition (or of creation), and no transition has completed since |
| RunStories.AgreementExactly | apps/server/src/runs.ts:271-420 | from agreement of status and timeline, one operation, whole or cut short after any of its events, leads to agreement if and only if it is faithful: an event neither announces another status nor opens, closes or fails what the status needs; an outcome's detail does not say skipped over another status; a failed Stage had started |
| RunStories.EventExactly | apps/web/src/display.ts:362-392 | which bare events keep agreement, kind by kind, as an equivalence |
| RunStories.FailedEntryExactly | apps/web/src/display.ts:382-386 | a failure marks the failed Stage's own entry if and only if that Stage's start is on the log |
| RunStories.PendingLeftover | apps/server/src/runs.ts:348-359 | in a faithful story without a crash, with Runs reopened from an end, resumed from a wait, and no bare event claiming either or a creation, a pending Run that still shows a Stage running was put there by a recovery |
| RunStories.WaitExactly | apps/server/src/runs.ts:285-346 | through a story the wait is set exactly while blocked, if and only if no Stage is opened on a blocked Run |
| RunRecords.ReplayedConcat | packages/shared/src/schemas.ts:670-686 | the later part of a log decides the replayed status whenever it announces one |
| Timeline.BuildTimeline | apps/web/src/display.ts:338-409 | the loop over events yields the rendering of the log's replay |
| Timeline.Observe | apps/web/src/display.ts:362-392 | one event updates accumulators, order and open Stage as one replay step does |
| Timeline.CloseOpenStage | apps/web/src/display.ts:348-360 | closing charges the open Stage its segment, counting only segments with both ends in order |
| Timeline.RenderEntries | apps/web/src/display.ts:394-408 | entries follow the insertion order of the accumulators |
| TimelineLaws.EntryMeaning | apps/web/src/display.ts:338-409 | an entry exists exactly for Stages the log starts; it is failed exactly if the Stage failed after a start and did not start again; it is open exactly if nothing since its start closed or replaced it |
| TimelineLaws.EntryOrder | apps/web/src/display.ts:310-311 | entries stand in the order in which the Run first met their Stages |
| TimelineLaws.DurationsConserved | apps/web/src/display.ts:348-360 | over a log with ordered timestamps, all durations plus the open segment add up to exactly the time some Stage was open |
| TimelineEntries.EntriesShow | apps/web/src/display.ts:338-409 | on any log there is one entry for each Stage that started; it shows, unless the Stage is open or nothing was measured, the sum over that Stage's starts of the time to the first event that closed, failed or replaced it, a segment counting nothing where a timestamp does not parse or time runs backwards; and it explains a failure by the detail of the last one since the Stage's last start |
| RunFields.RecordRemembers | apps/server/src/runs.ts:285-445 | in every story, crashes included, each field of the record is what the last operation that concerns it left, the attempts are those counted since the last reset, and each file holds the last text allowed under its name |
| RunFields.FailureSpeaks | apps/server/src/runs.ts:313-322 | both events of a failure carry its Stage and reason whatever detail came with it, and the rest of that detail |
| RunFields.EndSpeaks | apps/server/src/runs.ts:378-390 | an end is logged with the outcome's own detail, which overrides the word done |
| RunFields.StartWaitAndSkipSpeak | apps/server/src/runs.ts:285-346 | a start names its Stage, a wait its Stage, reason and timeout, a skip its reason |
| RunStore.Store.Perform | apps/server/src/runs.ts:271-283 | a transition commits metadata, then appends its events one by one, so every intermediate state is a cut the crash model covers; it changes nothing on an unreadable record |
| RunStore.Store.Create | apps/server/src/runs.ts:452-480 | a created Run is pending with its creation on the log |
| RunStore.Store.AppendEvent | apps/server/src/runs.ts:418-420 | a bare append adds one event and leaves the metadata |
| RunStore.Store.WriteArtifact | apps/server/src/runs.ts:435-439 | a file is written only under a valid name, and nothing else changes |
| RunStore.Store.DeleteArtifact | apps/server/src/runs.ts:441-445 | a file is removed only under a valid name, and nothing else changes |
| RunRecordsKept.HistoriesTell | apps/server/src/engine/runner.ts:86-383 | after every sequence of moves, whatever Modules and hosts do and wherever the process dies, the readable Runs are exactly those with a history, and each directory is what its own history — the operations and interruptions the moves made of it, in order — leaves |
| RunRecordsKept.CrashFreeHistories | apps/server/src/engine/runner.ts:86-383 | no history holds an interruption before the process has died |
| RunRecordsKept.StepFaithful | apps/server/src/engine/runner.ts:109-383 | all that the engine itself asks of the store is faithful, whatever a log lacks: Stages fail after they started, Runs are reopened from an end and resumed from a wait |
| RunEngineLaws.HistoriesFaithful | apps/server/src/engine/runner.ts:86-383 | faithful moves make faithful histories, and orderly moves orderly ones |
| RunEngineLaws.QueueStep | apps/server/src/engine/runner.ts:276-313 | every step keeps the queue sound: links start in order, one at a time, and `active` is exactly the Runs queued or executing, none twice |
| RunEngineLaws.OneAtATime | apps/server/src/engine/runner.ts:276-288 | at most one execution, hence at most one `module.run`, is under way |
| RunEngineLaws.AdmittedFresh | apps/server/src/engine/runner.ts:276-283 | what the queue takes is queued under ids that were not active, each once |
| RunEngineLaws.StacksStep | apps/server/src/engine/runner.ts:319-357 | every step keeps each Stage stack as long as the unsettled `stage` calls plus the pushes whose `started` threw |
| RunEngineLaws.InvMove | apps/server/src/engine/runner.ts:86-383 | every step, and dying inside any step, keeps the whole invariant of queue, stacks, ids and calls |
| RunEngineLaws.EngineKeeps | apps/server/src/engine/runner.ts:86-383 | that invariant holds after every sequence of moves, whatever Modules and hosts do |
| RunEngineTheorems.EveryRunAgrees | apps/server/src/engine/runner.ts:315-318 | after faithful moves, crashes included, each readable Run agrees with its log and what its log lacks, and so does its timeline; what it lacks is the tail of one transition into its status, lacking since one move in which the process died inside a write of that Run, and nothing but quiet operations has happened to the Run since |
| RunEngineTheorems.LagIsOneMove | apps/server/src/runs.ts:270-283 | after any moves, faithful or not: whatever a log lacks, it has lacked, unchanged, since one move in which the process died, and is the rest of the events of the very write it died in |
| RunEngineTheorems.AgreementOverMoves | apps/server/src/runs.ts:270-283 | over every sequence of moves, the process dying wherever it does, all Runs agree after every move, with what their logs lack, if and only if every move was faithful to the Runs as it found them |
| RunEngineTheorems.CrashFreeRunsAgree | apps/server/src/engine/runner.ts:315-318 | if moreover the process has not died, each Run agrees exactly, under any interleaving of Stages, retry, resume, re-entry, recovery and hosts |
| RunEngineTheorems.CrashFreeExactly | apps/server/src/engine/runner.ts:315-318 | until the process dies nothing is lacking: all Runs agree with their logs as they are, after every move, if and only if every move was faithful |
| RunEngineTheorems.LeftoverFromRecovery | apps/server/src/engine/runner.ts:216-250 | over faithful and orderly moves, until the process dies, a pending Run that still shows a Stage running was put back by a recovery |
| RunEngineTheorems.ExecutedInOrder | apps/server/src/engine/runner.ts:276-288 | executions start in the order of acceptance, each accepted Run and input exactly once, whatever Modules and hosts do |
| RunEngineTheorems.NeverStuck | apps/server/src/engine/runner.ts:285-313 | unless idle, the first unsettled link can always move, with any verdict |
| RunEngineTheorems.Drains | apps/server/src/engine/runner.ts:285-313 | there is a schedule, whatever each execution does, that settles everything and leaves nothing active, with no accepted work dropped |
| RunEngineTheorems.EveryScheduleDrains | apps/server/src/engine/runner.ts:276-313 | on every schedule, whatever is interleaved, starts and settlings are bounded by the work there was and two for each Run accepted since, and until the queue is idle one can be taken |
| RunEngineTheorems.RetryEffect | apps/server/src/engine/runner.ts:109-151 | a retry in full: an unknown Run is left alone; a refusal adds one event that changes neither replayed status nor timeline; an accepted one loses the discarded files, and its attempts if so planned, and is pending and queued once — or stops half way at the first invalid name, its status as it was |
| RunEngineStages.EffectsOnlyInStage | apps/server/src/engine/runner.ts:319-383 | `event`, `attempt`, `wait` and `writeFile` pass if and only if a `stage` call is open or a leaked push remains; passing, exactly their operation is carried out on the Run, and otherwise nothing changes |
| RunEngineStages.ClosedExactly | apps/server/src/engine/runner.ts:354-356 | a settling call pops its own name if and only if it settles as the innermost, or every call opened since bears its name |
| RunEngineStages.StackExactly | apps/server/src/engine/runner.ts:330-357 | over every run the stack is the list of open calls after every move if and only if every start was recorded and every call settled so |
| RunEngineStages.WaitNamesInnermost | apps/server/src/engine/runner.ts:366-376 | then a wait records the innermost open Stage |
| RunEngineTheorems.SweepEffect | apps/server/src/engine/runner.ts:203-256 | a sweep in full: each listed Run is decided on the state the sweep found, salvaged Runs are rewritten and queued in listing order, everything else is unchanged |
| RunEngineTheorems.SweepSpares | apps/server/src/engine/runner.ts:208-231 | no active Run, no ended Run and no wait that is indefinite or ahead is touched |
| RunEngineTheorems.SecondSweepIdle | apps/server/src/engine/runner.ts:203-256 | a sweep repeated with the same plans and clock queues nothing and changes nothing |
| RunEngineTheorems.SalvagePending | apps/server/src/engine/runner.ts:216-250 | a salvaged Run is pending afterwards |
| RunEngineSweeps.SweepExactly | apps/server/src/engine/runner.ts:203-256 | on the records a ready sweep finds: a listed Run that is not active, pending or running, with a sound log and a planned recovery, and a blocked one whose instant has come or does not parse, with a planned resumption, is pending with the event that says so last, and is newly queued once with the plan's input, in listing order; every other Run and the rest of the queue are as they were |
| RunEngineSweeps.SweepQueuesOnce | apps/server/src/engine/runner.ts:216-253 | each such Run is on the chain exactly once, whatever was queued or executing before |
| RunEngineAnswers.EveryRecordRemembers | apps/server/src/engine/runner.ts:86-383 | after every sequence of moves, each readable Run's record and files hold what its own history said last |
| RunEngineAnswers.RetryExactly | apps/server/src/engine/runner.ts:109-151 | a retry on the record it finds: without setup or readable record nothing happens; a Run that has not failed, names no failed Stage, or is declined gets one event that names that condition; any other loses its attempts if so planned and the files before the first invalid name, and if there is none is reopened and queued |
| RunEngineAnswers.ReenterExactly | apps/server/src/engine/runner.ts:164-176 | a re-entry reopens and queues a done or skipped Run, and leaves everything as it was otherwise |
| RunEngineAnswers.ResumeExactly | apps/server/src/engine/runner.ts:179-196 | a resumption puts a blocked Run with a wait and a plan back to pending and queues it, and leaves everything as it was otherwise |
| RunEngineWaits.WaitExactlyWhileBlocked | apps/server/src/engine/runner.ts:366-376 | where a context is used only while its own execution is under way and opens no Stage after `wait` threw, and hosts leave queued and executing Runs alone, a Run holds a wait exactly when it is blocked, after every move, crashes included, and queued Runs are pending |
| RunEngineWaits.WaitsExactly | apps/server/src/engine/runner.ts:330-376 | over every run, crashes included, waits match after every move if and only if no Stage is ever started on a blocked Run |
| RunEngineWaits.OnlyWaitBlocks | apps/server/src/runs.ts:321-334 | a Run becomes blocked only by a wait of its own |
| RunEngineRuns.EventMisleads | apps/server/src/engine/runner.ts:358-361 | a run after which a Run is running and its log says done, by a Module event named run_done |
| RunEngineRuns.EventCloses | apps/server/src/engine/runner.ts:358-361 | one after which a Run is running and its timeline shows no Stage running, by a Module event named classify_skipped |
| RunEngineRuns.OutcomeMisleads | apps/server/src/runs.ts:361-388 | one after which a Run is done and its log says skipped, by an outcome's detail |
| RunEngineRuns.FailureUnshown | apps/server/src/runs.ts:294-319 | a run after which a Run has failed and no entry of its timeline reads failed, by a direct failure in a Stage that never started |
| RunEngineRuns.StartCutShort | apps/server/src/runs.ts:271-292 | a run after which the process has died inside a Stage's start: the Run is running, its log says pending, and what the log lacks is that one start |
| RunEngineRuns.StageAfterWait | apps/server/src/engine/runner.ts:330-376 | one after which a Run is running with a wait set, by a Stage opened after `wait` |
| RunEngineRuns.LateWait | apps/server/src/engine/runner.ts:164-176 | the same with no Stage opened after its own context's `wait`: a context left over from a settled execution blocks the re-entered Run |
| RunEngineRuns.LeakLetsThrough | apps/server/src/engine/runner.ts:330-361 | one in which an event reaches the log with no `stage` call open, after a start that threw |
| RunEngineRuns.WaitMisnames | apps/server/src/engine/runner.ts:354-376 | one in which a wait is recorded under a Stage that is over, after two concurrent Stages |
| Runners.Runner.Enqueue | apps/server/src/engine/runner.ts:276-283 | accepted if and only if the Run is not active, and then appended to the chain and made active |
| Runners.Runner.StartRun | apps/server/src/engine/runner.ts:86-95 | a new Run is pending with its creation on the log, under its own id and Module, and is queued; nothing at all while the setup is not ready |
| Runners.Runner.RetryRun | apps/server/src/engine/runner.ts:109-151 | takes the engine's retry step, and answers, on the record it found, with the reopened record or the refusal: setup, unknown Run, unreadable record, its condition, or an invalid discard name that stopped it half way |
| Runners.Runner.CarryOut | apps/server/src/engine/runner.ts:142-150 | reset, discards, reopening and queueing, all or up to the first name that is not a file's |
| Runners.Runner.ReenterRun | apps/server/src/engine/runner.ts:164-176 | takes the engine's re-entry step, for done and skipped Runs only, and tells an unknown Run, an unreadable record and one that cannot be re-entered apart |
| Runners.Runner.ResumeRun | apps/server/src/engine/runner.ts:179-196 | takes the engine's resume step, for blocked Runs with a wait and a plan only, and tells setup, unknown Run, unreadable record and the rest apart |
| Runners.Runner.RecoverRuns | apps/server/src/engine/runner.ts:203-256 | the loop, deciding Run by Run on a changing store, puts back exactly the Runs that are to be put back by the records it started from, and counts them |
| Runners.Runner.RecoverNext | apps/server/src/engine/runner.ts:208-253 | the loop's round for the next Run extends the sweep by that Run, and says whether it was queued |
| Runners.Runner.RecoverOne | apps/server/src/engine/runner.ts:208-253 | one round puts the Run back if and only if its record says it is to be |
| Runners.Runner.Requeue | apps/server/src/engine/runner.ts:222-252 | a salvaged Run is rewritten and taken by the queue |
| Runners.Runner.DiscardFiles | apps/server/src/engine/runner.ts:145-147 | files are deleted up to the first name that is not a file's |
| Runners.SweptSnoc | apps/server/src/engine/runner.ts:207-253 | the state the sweep has reached decides the next Run as the state it started from does |
| Runners.Runner.Begin | apps/server/src/engine/runner.ts:285-288 | the link in turn starts executing, or is released while the setup is not ready |
| Runners.Runner.Settle | apps/server/src/engine/runner.ts:288-312 | an outcome ends the Run with that outcome if its record is there, a throw writes nothing, and either way the link settles and the Run is released |
| Runners.Runner.OpenStage | apps/server/src/engine/runner.ts:330-332 | the push comes before the transition, and stays when the transition throws; the Stage is started only if it does not |
| Runners.Runner.CloseStage | apps/server/src/engine/runner.ts:333-356 | a failure is recorded under the name of the call that settles, a block is not, and the stack is popped in every case |
| Runners.Runner.EmitEvent | apps/server/src/engine/runner.ts:358-361 | an event reaches the log only with a Stage on the stack |
| Runners.Runner.CountAttempt | apps/server/src/engine/runner.ts:362-365 | an attempt is counted only with a Stage on the stack |
| Runners.Runner.WaitFor | apps/server/src/engine/runner.ts:366-376 | a wait is recorded under the top of the stack, and only if there is one |
| Runners.Runner.WriteFile | apps/server/src/engine/runner.ts:379-382 | a file is written only with a Stage on the stack |
| CommitLaws.Exclusive | apps/server/src/engine/commit.ts:74-107 | at most one operation per record is inside its critical section |
| CommitLaws.QueuedStep | apps/server/src/engine/commit.ts:79-107 | every step keeps the chains linked in call order and `active` exactly the owned paths |
| CommitHistory.ProtocolKeeps | apps/server/src/engine/commit.ts:79-244 | after every sequence of steps and crashes each operation stands on the current version of its record, each version is its writer's request applied to the version before, and same-record writers publish in call order |
| CommitTheorems.OldOrNew | apps/server/src/engine/commit.ts:109-129 | across every step and every crash point a record keeps its old bytes or holds the complete bytes of one new version |
| CommitTheorems.RecordIsLatestVersion | apps/server/src/engine/commit.ts:109-121 | a record holds at every moment exactly its latest version |
| CommitTheorems.ReadBackMatches | apps/server/src/engine/commit.ts:122-128 | reading back finds the committed bytes |
| CommitTheorems.NothingLost | apps/server/src/engine/commit.ts:159-166 | every write that resolved published exactly one version, applied to the bytes on disk at its own turn |
| CommitTheorems.TurnsFollowCalls | apps/server/src/engine/commit.ts:86-104 | turns and publications on a record follow call order |
| CommitTheorems.SyncWriterRefused | apps/server/src/engine/commit.ts:218-223 | a synchronous write of a record inside a critical section is refused and changes nothing |
| CommitTheorems.ImmutableForever | apps/server/src/engine/commit.ts:141-157 | a record written only through `writeImmutable` never changes its bytes between any two moments of any run |
| CommitTheorems.ImmutableVerdict | apps/server/src/engine/commit.ts:141-157 | an immutable write is written on an absent record, replayed on identical bytes, refused on different ones |
| CommitTheorems.ExactlyOneReplaces | apps/server/src/engine/commit.ts:168-177 | of any number of concurrent replacements of one generation, each writing another, exactly one succeeds |
| CommitTheorems.AtMostOneReplaces | apps/server/src/engine/commit.ts:168-177 | at no moment, whatever else is unsettled, failed or lost, have two of them succeeded |
| CommitTheorems.ReplacedOnce | apps/server/src/engine/commit.ts:168-177 | after the first replacement no other version of the record is published |
| CommitTheorems.NeverBehindAncestor | apps/server/src/engine/commit.ts:80-90 | no operation waits for a record its own asynchronous ancestor holds |
| CommitTheorems.NestedCallRefused | apps/server/src/engine/commit.ts:81-85 | a write nested, at any depth, inside a section of the same record is refused |
| CommitTheorems.FirstCanMove | apps/server/src/engine/commit.ts:86-100 | the first unsettled operation on a record can always take a step that moves it on |
| CommitAnswers.LookExactly | apps/server/src/engine/commit.ts:137-177 | what a request does at its turn, on the bytes it finds: a replacement goes on to commit exactly if the record is absent, or parses to a document without a generation, and the first is expected, or parses to an object whose generation is the expected safe integer; an update is handed null for an absent record and the document otherwise; an immutable write commits only where nothing is; all else settles refused, or replayed on the same bytes, with nothing published and the bytes as they were |
| CommitAnswers.MutateExactly | apps/server/src/engine/commit.ts:159-166 | an update goes on to commit what its function makes of that document, and settles refused with nothing published where the function throws |
| CommitAnswers.DoneAsAsked | apps/server/src/engine/commit.ts:137-177 | in every run, crashes included: a write that resolved published the bytes its request asks for over the version just before, and one that was refused had been decided on a version over which it must not be done, and published nothing |
| CommitAnswers.NothingLeftBehind | apps/server/src/engine/commit.ts:109-121 | unless the process dies, every temporary file is one an operation is still writing or about to rename |
| CommitProgress.EveryScheduleSettles | apps/server/src/engine/commit.ts:79-107 | on every schedule, crashes and failures included, steps that move operations on are bounded by the work there was and six for each call since; and while nested calls go up some ranking of the records, some unsettled operation can move on, even if every callback waits for what it called |
| CommitProgress.StuckExactly | apps/server/src/engine/commit.ts:79-107 | some operation can move on, short of a failure, if and only if some unsettled one waits neither for the operation before it on its record nor for one its callback called |
| CommitProgress.SettlesExactly | apps/server/src/engine/commit.ts:79-107 | an unsettled operation can still come to settle, without a failure or an impatient callback, if and only if it is in no set of operations each waiting for another of the set |
| CommitProgress.CrossedCallsStick | apps/server/src/engine/commit.ts:79-107 | eight steps after which two updates, each waiting for a write of the other's record, stay exactly as they are, and so do the two writes, over every continuation without a failure, a crash or a callback that does not wait |
| CommitProgress.NamesAlwaysDistinct | apps/server/src/engine/commit.ts:110-114 | with temporary names from a source that does not repeat itself, no two operations in any run write under one name, left-over files of dead processes included |
| WorkspaceWriters.WorkspaceWriter.Serialize | apps/server/src/engine/commit.ts:79-107 | a call is refused if and only if its ancestry holds the path, and is otherwise chained behind the last operation on it |
| WorkspaceWriters.WorkspaceWriter.EnterSection | apps/server/src/engine/commit.ts:91-95 | an operation enters when the one before it has settled, and owns its path |
| WorkspaceWriters.WorkspaceWriter.LookAtRecord | apps/server/src/engine/commit.ts:137-177 | the request's turn, decided on the bytes it reads as above: replay, refusal, conflict, corruption or a commit |
| WorkspaceWriters.WorkspaceWriter.MutateRecord | apps/server/src/engine/commit.ts:162-163 | the update's own function is applied to the bytes read at its turn |
| WorkspaceWriters.WorkspaceWriter.StartCommit | apps/server/src/engine/commit.ts:109-114 | a commit writes under the next name of that source, which no file has and no other operation uses, and all names stay distinct |
| WorkspaceWriters.WorkspaceWriter.Release | apps/server/src/engine/commit.ts:94-98 | settling releases the path, whatever the outcome |
| WorkspaceWriters.WorkspaceWriter.WriteTempPart | apps/server/src/engine/commit.ts:115-117 | a partial write touches only the temporary sibling |
| WorkspaceWriters.WorkspaceWriter.FinishTempFile | apps/server/src/engine/commit.ts:115-117 | the finished temporary holds all the bytes |
| WorkspaceWriters.WorkspaceWriter.RenameOverTarget | apps/server/src/engine/commit.ts:117 | the rename publishes the bytes at once and consumes the temporary |
| WorkspaceWriters.WorkspaceWriter.VerifyPublished | apps/server/src/engine/commit.ts:122-128 | the operation settles on what it reads back, and releases its path |
| WorkspaceWriters.WorkspaceWriter.GiveUp | apps/server/src/engine/commit.ts:118-121 | a failed write removes its temporary and releases its path |
| WorkspaceWriters.WorkspaceWriter.ForgetTail | apps/server/src/engine/commit.ts:103-105 | dropping a settled tail changes no operation |
| WorkspaceWriters.WorkspaceWriter.WriteFileVerifiedSync | apps/server/src/engine/commit.ts:218-244 | written if and only if the record has no asynchronous owner and the disk does not fail; then the record holds the bytes, and every other record, and all of them otherwise, is as it was |
| WorkLimiters.AlwaysSound | apps/server/src/person-profile/work-limiter.ts:10-21 | in every run `running` is the bodies at work plus the waiters let in, at most the capacity, equal to it whenever anyone waits, and the waiters are the last arrivals in order |
| WorkLimiters.GrantedAfterItsTurn | apps/server/src/person-profile/work-limiter.ts:16-20 | a waiter with `k` ahead of it is let in by release number `k + 1`, and not before |
| WorkLimiters.SoundStep | apps/server/src/person-profile/work-limiter.ts:10-21 | arrival, continuation and release, by return or by throw, each keep that |
| WorkLimiters.WorkLimiter.Enter | apps/server/src/person-profile/work-limiter.ts:11-13 | starts at once if and only if a slot is free, and otherwise waits last |
| WorkLimiters.WorkLimiter.Continue | apps/server/src/person-profile/work-limiter.ts:12-15 | a waiter that was let in starts its work without a second slot |
| WorkLimiters.WorkLimiter.Leave | apps/server/src/person-profile/work-limiter.ts:16-20 | hands the slot to the longest waiter, or frees it if nobody waits |
| WorkLimiters.WorkLimiter.Create | apps/server/src/person-profile/work-limiter.ts:6-8 | a capacity below one is refused |
| RelayLaws.AlwaysSound | relay/src/store.ts:60-263 | after every sequence of operations the per-installation index is exactly the message map filtered by installation, and each message belongs to its channel's owner |
| RelayLaws.StepSound | relay/src/store.ts:68-263 | each operation keeps that |
| RelayLaws.KeyInjective | relay/src/app.ts:191 | keys tell channel and number apart for colon-free numbers, whatever the channel id |
| RelayLaws.KeyCollision | relay/src/store.ts:199 | two pairs with one key, were numbers allowed a colon |
| RelayLaws.DigitsNoColon | relay/src/app.ts:191 | the numbers the push handler admits hold no colon |
| RelayLaws.OnePerNumber | relay/src/store.ts:199-204 | one message per channel and number |
| RelayLaws.PushDeduplicates | relay/src/store.ts:188-225 | a repeated wake-up changes nothing; a new one is stored under its own key, unacknowledged, with its retention counted from the second clock reading |
| RelayLaws.Isolation | relay/src/store.ts:227-244 | whatever the clock does, an installation is shown only its own unacknowledged messages |
| RelayLaws.ListsPending | relay/src/store.ts:227-236 | an unacknowledged message is listed as long as no clock reading reaches its expiry |
| RelayLaws.RetainedUntilAcked | relay/src/store.ts:174-263 | through every sequence of operations a wake-up stays pending for its own installation until that installation acknowledges its key or a clock reading reaches its expiry |
| RelayLaws.RevokedForever | relay/src/store.ts:141-170 | a revoked channel never authenticates again |
| RelayPending.PendingIsFilter | relay/src/store.ts:227-244 | at a given time the listing is all messages filtered by installation, acknowledgement and expiry, ordered by arrival, then number |
| RelayPending.AckConserves | relay/src/store.ts:246-263 | pending before is pending after plus the returned count, and nobody else's list moves |
| RelayPending.AckIdempotent | relay/src/store.ts:246-263 | repeating a batch acknowledges nothing more and changes nothing |
| RelayStores.RelayStore.CreateInstallation | relay/src/store.ts:70-86 | a new installation is stored under its verifier, a known one is answered if the verifier is its own, and refused without effect if not |
| RelayStores.RelayStore.AuthenticateInstallation | relay/src/store.ts:88-98 | accepted if and only if the installation exists and the secret hashes to its verifier |
| RelayStores.RelayStore.CreateChannel | relay/src/store.ts:102-139 | a new channel is stored for a known installation; its own, unrevoked one with the same verifier takes the new resource and expiration; anything else is refused without effect |
| RelayStores.RelayStore.RevokeChannel | relay/src/store.ts:141-148 | the owning installation's first revocation stands; anyone else's finds nothing |
| RelayStores.RelayStore.PruneExpired | relay/src/store.ts:178-186 | the loop that deletes while it walks removes exactly the messages expired at their own reading |
| RelayStores.RelayStore.DeleteMessage | relay/src/store.ts:180-182 | a deletion leaves map and index in agreement |
| RelayStores.RelayStore.AppendMessage | relay/src/store.ts:188-225 | created if and only if the key was free, and then in map and index alike |
| RelayStores.RelayStore.Push | relay/src/app.ts:164-219 | on the fields: taken exactly if the number is digits, the channel known, unrevoked and not lapsed, and the token's hash is its verifier, and then stored once; otherwise the store is as it was and the first reason that applies is the answer |
| RelayAnswers.PushExactly | relay/src/store.ts:150-225 | the same of the store's push operation |
| RelayAnswers.OneRefusal | relay/src/store.ts:150-170 | no two refusals fit one push |
| RelayAnswers.ListedInOrder | relay/src/store.ts:236-243 | whatever the clock reads, the listing is in order of arrival and then of the number |
| RelayStores.RelayStore.ListPending | relay/src/store.ts:227-244 | answers the pending messages in order of arrival and number, and leaves the store pruned |
| RelayStores.RelayStore.Collect | relay/src/store.ts:229-235 | the loop keeps the unacknowledged, unexpired messages of the keys, in order |
| RelayStores.RelayStore.MarkAcked | relay/src/store.ts:251-262 | one pass over a batch marks and counts each key that is owned, live and not yet acknowledged |
| RelayStores.RelayStore.AckMessages | relay/src/store.ts:246-263 | the loop marks each owned, live, unacknowledged key once and counts it |
| EventLog.ReadUndoesAppend | apps/server/src/runs.ts:165-202 | any sequence of appended events is read back exactly from the bytes of the file |
| EventLog.EventFields | apps/server/src/runs.ts:165-171 | what is read back of an event is its time, its type and its detail, each under its own name |
| EventLog.CrashedAppend | apps/server/src/runs.ts:173-202 | after an append interrupted at any byte the log reads without error: all events if all bytes of the new one's text arrived, all but the last otherwise |
| EventLog.NextAppendExactly | apps/server/src/runs.ts:165-202 | what the log reads as after an interrupted append and one more event: everything if none or all of the line had arrived, a refusal at that line otherwise |
| EventLog.JoinedRefused | apps/server/src/runs.ts:192-200 | that refusal stands whatever is appended later |
| EventLog.RefusedExactly | apps/server/src/runs.ts:188-200 | a log is refused if and only if a line before its last is neither blank nor an event |
| JsonRoundTrip.ParseRender | apps/server/src/runs.ts:170-193 | the text of a document parses to that document |
| JsonRoundTrip.ReadRendered | apps/server/src/runs.ts:170-193 | so does a document's text inside a longer one, with exactly the rest left over |
| JsonRoundTrip.ReadQuoted | apps/server/src/runs.ts:170-193 | whatever a string's characters are escaped to reads as that string (section 7 of RFC 8259) |
| JsonShape.ParseBalanced | apps/server/src/runs.ts:193 | no text with a bracket or a quote left open is accepted |
| JsonShape.TornUnbalanced | apps/server/src/runs.ts:192-195 | no proper prefix of a rendered object closes all its brackets and quotes, with or without replacement characters at the cut |
| JsonShape.RenderNested | apps/server/src/runs.ts:170 | a rendered document closes what it opens and never dips below the depth it started at |
| JsonShape.RenderOneLine | apps/server/src/runs.ts:170 | a rendered document holds no raw newline, whatever its strings hold (section 7 of RFC 8259) |
| JsonTokens.ParseNeverBreaks | apps/server/src/runs.ts:193 | no accepted text has a broken escape or a letter right after a string |
| JsonTokens.OpenStringBreaks | apps/server/src/runs.ts:170-193 | a text with a string left open, continued by an event, is never accepted |
| Utf8.DecodeExact | apps/server/src/runs.ts:186 | decoding undoes encoding (section 3 of RFC 3629) |
| Utf8.BytesExactly | apps/server/src/runs.ts:186 | each byte after the first holds six bits, and the first says how many there are and holds the rest (section 3 of RFC 3629) |
| Utf8.DecodeCut | apps/server/src/runs.ts:186 | any byte prefix decodes to the characters whole within it and one replacement for the one cut through, which is not ASCII |
| EventLog.LastLine | apps/server/src/runs.ts:183-201 | whatever follows the last whole line is read on its own |
| EventLog.ReadEvents | apps/server/src/runs.ts:181-202 | the loop over lines returns the events, or the number of the first damaged line that is not the last |
| EventLog.AppendEvent | apps/server/src/runs.ts:165-171 | an append adds exactly the event's line |
| RunList.List | apps/server/src/runs.ts:499-537 | the listing with its early stop is one page of the specification |
| RunList.Scan | apps/server/src/runs.ts:514-530 | the loop stops as soon as the page is full and has listed exactly the wanted, readable Runs among the names examined |
| RunList.NextCursor | apps/server/src/runs.ts:531-536 | the cursor is the name at which a full page stopped, and present exactly if names remain |
| RunList.FollowIsUnpaged | apps/server/src/runs.ts:493-537 | following the cursor terminates and concatenates to the unpaged list |
| RunList.PagingComplete | apps/server/src/runs.ts:499-537 | it does so if and only if a page may hold a Run or there is none to list |
| RunList.NothingPaged | apps/server/src/runs.ts:508-537 | on a store of one Run a limit of zero lists nothing and gives no cursor |
| RunList.UnpagedIsEveryRun | apps/server/src/runs.ts:226-243 | the unpaged list is every readable Run asked for, once, strictly newest first, each row with its record's fields and a failure only while failed |
| RunList.PageExactly | apps/server/src/runs.ts:499-537 | a page is the first rows of the list below its cursor, as many as its limit allows, and names its last Run as the next cursor if and only if it is full and some Run directory lies below that |
| RunList.ListingForSweep | apps/server/src/engine/runner.ts:207 | it is the listing the recovery sweep works through |
| DeepMerge.DefaultsProject | apps/server/src/config.ts:55-74 | applying defaults again changes nothing |
| DeepMerge.PatchAgain | apps/server/src/config.ts:55-74 | applying a patch again changes nothing |
| DeepMerge.MergeSelf | apps/server/src/config.ts:55-74 | merging a document with itself changes nothing |
| DeepMerge.MergeAt | apps/server/src/config.ts:55-74 | every path of the result: the patch's value below a replacement, the merge of both values elsewhere |
| DeepMerge.LeafWins | apps/server/src/config.ts:73 | a value the patch sets is the value of the result, whatever the base holds |
| DeepMerge.SilentKeeps | apps/server/src/config.ts:57-59 | a path the patch is silent about, and does not replace from above, keeps the base's value |
| DeepMerge.CoversExactly | apps/server/src/config.ts:55-74 | the documents that defaults leave alone are those with every default's key and no absent value a default would fill |
| DeepMerge.AssociativeExactly | apps/server/src/config.ts:55-74 | merging three documents associates if and only if at no path a plain value stands between two objects of which the last does not cover the first |
| DeepMerge.NotAssociative | apps/server/src/config.ts:60-73 | three documents on which the two orders differ |
| Config.SeedMeaning | apps/server/src/config.ts:170-203 | a split-off purpose keeps its own model if it has one, takes the research model otherwise, and nothing else changes |
| Config.SeedTwice | apps/server/src/config.ts:170-203 | a seed is never re-seeded |
| Config.SeedsCommute | apps/server/src/config.ts:170-203 | the two seeds do not depend on each other's order |
| Config.NormalizeTwice | apps/server/src/config.ts:205-213 | the normal form is a fixed point |
| Config.EffectiveTwice | apps/server/src/config.ts:41-53 | looking the credentials up again changes nothing |
| ConfigStores.ConfigStore.Load | apps/server/src/config.ts:229-271 | a file that does not parse, holds a credential, or is not accepted is refused, in that order and without effect; all others are loaded in normal form with the installation's credentials, and persisted as asked |
| ConfigStores.ConfigStore.Update | apps/server/src/config.ts:295-300 | merges into the configuration held, with the credentials as they are now, admits it through the schema, in normal form, and persists it, or leaves the file alone |
| ConfigStores.ConfigStore.Current | apps/server/src/config.ts:273-279 | refuses before the first load, and answers the configuration held with the credentials read anew |
| ConfigStores.ConfigStore.Persist | apps/server/src/config.ts:414-416 | the file holds every field of the current configuration that text can hold, but for the three credentials |
| ConfigAnswers.EffectiveExactly | apps/server/src/config.ts:41-53 | the client id, the client secret and the key for the configuration's own provider are the installation's, each in its own field, and every other field is as it was |
| ConfigAnswers.NormalizeExactly | apps/server/src/config.ts:170-213 | an empty model is the provider's default and any other stands; each split-off purpose without its own model takes the research model; every other field is as it was |
| ConfigAnswers.RetiredExactly | apps/server/src/config.ts:246-265 | exactly two top-level fields and one field of each of two Modules are taken out before the schema sees the document |
| ConfigAnswers.LoadExactly | apps/server/src/config.ts:229-271 | what any file, or none, is loaded as or refused for |
| ConfigAnswers.UpdateExactly | apps/server/src/config.ts:295-300 | what any patch over any configuration is answered with |
| ConfigAnswers.StoredExactly | apps/server/src/config.ts:30-39 | the stored document has every field that is set, as text can hold it, but for the three credentials |
| ConfigLaws.LoadFixpoint | apps/server/src/config.ts:229-271 | load, persist, load gives the first result again, without its unset fields, and would write the same file again |
| ConfigLaws.LoadRepeats | apps/server/src/config.ts:229-271 | the same for every document that loads under a schema that completes what it accepts and returns the resting form unchanged; what is loaded has every default's key |
| ConfigLaws.LoadedSettles | apps/server/src/config.ts:246-267 | under a completing schema what loads has every default's key, and rests if and only if its text round-trips and the schema returns it unchanged with blank credentials |
| ConfigLaws.UpdateLoadsBack | apps/server/src/config.ts:295-300 | what an update leaves in the file loads as what it answered, without its unset fields |
| ConfigLaws.UpdateRepeats | apps/server/src/config.ts:295-300 | under a completing schema the same for any update that does not clash with the defaults, from any configuration with every default's key; and every default's key is kept |
| ConfigSchemas.ParseExtends | packages/shared/src/schemas.ts:145-426 | a schema of strict objects with optional and defaulted fields, records, arrays and tagged unions returns all it was given, field by field, and adds nothing null that the defaults do not hold |
| ConfigSchemas.ParseTwice | packages/shared/src/schemas.ts:145-426 | what such a schema returns, it returns unchanged |
| ConfigSchemas.FixesWritten | packages/shared/src/schemas.ts:145-426 | and unchanged again after it has been written as text and read back |
| ConfigSchemas.ShapeCompletes | packages/shared/src/schemas.ts:145-426 | a configuration schema of this kind completes what it accepts |
| ConfigSchemas.AdmittedReturns | apps/server/src/config.ts:205-213 | the normal form of what it returned, written and with blank credentials, it returns unchanged |
| AppConfig.SchemaShaped | packages/shared/src/schemas.ts:145-426 | the repository's own schema and default document are of this kind |
| AppConfig.DomainsSound | packages/shared/src/schemas.ts:11-14 | normalizing the internal domains twice is normalizing them once, if tidying one domain twice is |
| AppConfig.AppLoadStays | apps/server/src/config.ts:229-271 | with that schema and those defaults: every configuration file that loads loads again from what was stored of it, as itself but for unset fields, and would be stored as the same text, provided only that the text reads back; and has every default's key |
| AppConfig.AppUpdateStays | apps/server/src/config.ts:295-300 | so does every update the schema admits, of a configuration with every default's key, that does not clash with the defaults |
| ConfigLaws.StoredLoadsBack | apps/server/src/config.ts:229-271 | a settled configuration survives the file |
| ConfigLaws.DefaultsRefill | apps/server/src/config.ts:246 | defaults under the stored document put back exactly the blank credentials |
| ConfigLaws.EffectiveStored | apps/server/src/config.ts:30-53 | the stored document does not depend on the installation's credentials |
| ConfigLaws.CredentialsStayOut | apps/server/src/config.ts:16-39 | no document written is ever one the legacy-credential check refuses |
| TaskGroups.GroupTasks | packages/shared/src/task-grouping.ts:53-64 | the loop fills the four groups with the sorted list's Tasks of each group, in order |
| TaskGroups.GroupsCutTheOrder | packages/shared/src/task-grouping.ts:52-64 | the four groups in sequence are the whole list sorted by `compareTasks`, a permutation of the input |
| TaskGroups.GroupsIndependent | packages/shared/src/task-grouping.ts:33-64 | with distinct ids the groups do not depend on the order the list came in |
| TaskGroups.GroupMembers | packages/shared/src/task-grouping.ts:24-28 | a Task is in a group exactly if its due date is before today, today, after today, or absent |
| TaskGroups.CompareExactly | packages/shared/src/task-grouping.ts:30-50 | which of two Tasks comes first: the earlier due date and none last, then high before medium before low before none, then the older, then by id |
| Strings.BeforeExactly | packages/shared/src/task-grouping.ts:24-28 | text comes before text exactly if, where they first differ, it ends or has the smaller character |
| TaskGroups.CompareFlips | packages/shared/src/task-grouping.ts:38-50 | swapping the sides turns the sign, and only equal keys with one id tie |
| TaskGroups.CompareTransitive | packages/shared/src/task-grouping.ts:38-50 | the comparison is transitive, strictly so if either step is strict |
| TaskGroups.OrderFollowsGroups | packages/shared/src/task-grouping.ts:38-45 | the order never goes back to an earlier group |
| ModelAdmission.Utf8ByteLength | packages/shared/src/model-admission.ts:202-219 | the loop's count, and for a well-formed string the length of its UTF-8 encoding |
| ModelAdmission.CountsUtf8 | packages/shared/src/model-admission.ts:199-219 | for every sequence of scalar values, the count of its UTF-16 (section 2.1 of RFC 2781) is the length of its UTF-8 (section 3 of RFC 3629) |
| ModelAdmission.ByteLengthExactly | packages/shared/src/model-admission.ts:199-219 | on any string the count is exact if and only if the bytes lost to unpaired high surrogates equal the one gained at an open end, and an upper bound if and only if they do not exceed it |
| ModelAdmission.ExactOn | packages/shared/src/model-admission.ts:199-219 | on a string that does not end open the count is exact if and only if each unpaired high surrogate the scan stands at is followed by ASCII or by a surrogate pair; on one that does, if and only if that fails once, before a unit of two bytes |
| ModelAdmission.CountsTooFew | packages/shared/src/model-admission.ts:210-213 | a string of two units counted four bytes where an encoder writes six |
| ModelAdmission.Drift | packages/shared/src/model-admission.ts:202-219 | on any string the count plus the bytes lost to unpaired high surrogates is the encoded length plus one for an open end |
| ModelAdmission.EncodeInverse | packages/shared/src/model-admission.ts:202-219 | UTF-16 encodings are well formed and decode to what was encoded |
| ModelAdmission.DecodeInverse | packages/shared/src/model-admission.ts:202-219 | every well-formed string is the encoding of what it decodes to |
| ModelAdmission.ByteLengthConcat | packages/shared/src/model-admission.ts:202-219 | the count of a concatenation, an open end taking the next unit along |
| ModelAdmission.Additive | packages/shared/src/model-admission.ts:202-219 | additive after any well-formed string |
| ModelAdmission.CutNeverLowers | packages/shared/src/model-admission.ts:202-219 | cutting any string anywhere, even inside a pair, never lowers the summed count |
| ModelAdmission.UnitsExactly | packages/shared/src/model-admission.ts:202-219 | a scalar value outside the first plane is a high and a low surrogate of ten bits each |
| ModelAdmission.EstimateConservativeTokens | packages/shared/src/model-admission.ts:225-257 | the estimate from the three byte counts, the defaulted and floored output reserve, and the price for a million tokens each way |
| ModelAdmission.InputTokensLeast | packages/shared/src/model-admission.ts:237-239 | the input estimate is the least number of tokens at a byte and a half each, beyond the reserve |
| ModelAdmission.EstimateMonotone | packages/shared/src/model-admission.ts:236-239 | a longer prompt is never estimated lower |
| ModelAdmission.SplitNeverLowers | packages/shared/src/model-admission.ts:236-239 | splitting a prompt anywhere adds at least one framing reserve to the summed estimate |
| ModelAdmission.SplitCost | packages/shared/src/model-admission.ts:236-239 | on a well-formed cut it adds that reserve and at most one token |

## Left out

- HTTP routes, web pages, and the Google, Asana and language-model clients: code around this core. Module behaviour is arbitrary: a Module's plans are parameters and its uses of a context are free steps.
- Real files, clocks and randomness: a file map with atomic rename, clock readings as parameters, ids never reissued (`Enabled` for a new Run), and temporary names never repeated (a counter for the process id and six random bytes).
- Durability when the host itself dies: the source disclaims it; the crash modelled is the death of the process.
- The events of one transition share one clock reading; the source reads the clock for each.
- Creation-time metadata nothing reads back here (module version, intake, file name, source URL, external id, creation time); the creation event's detail.
- `canRetryRun`, `idle`, the recovery timer and the change notifications: one-line uses of what is modelled.
- Aliasing of the records that stores hand out: Runs' metadata, channels and messages are values, replaced whole in their maps.
- History variables: `WorkspaceWriter.versions` and the settled part of the chains are histories the source does not keep; `issued` and `crashes` of the Runner are ghost.
- Of the store's refusals inside a Stage only that of `started` is a free choice of the step; `attempt`, `event` and `wait` throw with the record unreadable only.
- `generationOf` reads a number as a real; the source's test for a safe integer is a range test on it.
- `Number(messageNumber)` is an abstract rank of the number's text, and hashing and hex decoding are abstract functions; constant-time comparison is not a property of results.
- `JsonText` keeps a number as its text and a field in the place it was read in; elsewhere `Json` documents come from a codec whose round trip is required where it is used.
- A story's log is cut between events; what a line torn inside an event does is said by `EventLog`, and reaches the engine as its set of damaged logs.
- ReadUndoesAppend: does not represent every string; those of the event log hold Unicode scalar values: a lone surrogate, which the serializer escapes, is not represented, and an escaped surrogate half reads as a replacement character.
- `__proto__` and other inherited keys in `deepMerge`; keys of an object are unordered in `Json`.
- `Config` takes any schema and defaults, `AppConfig` the repository's: a number's text, the trimming and lowering of a domain (`tidy`) and the time zone are parameters there, and an array is checked by one function. The other setters of the configuration store replace one field and persist, as `Update` does.
- `localeCompare` on ids is an abstract strict order of the ids; other comparisons of text are by character, which for identifiers, dates and times is by code unit.
- Rounding of the floating-point cost and of `Math.ceil(bytes / 1.5)` beyond exact integers.
