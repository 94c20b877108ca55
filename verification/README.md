# Operation Silent Spider: what the exercise platform keeps right

The platform runs a security exercise on a schedule, records everything that happens in an append-only
ledger, copies that ledger to a directory of batches, lets participants ask for help and evaluators judge,
and shows all of it to browsers over a network that loses and reorders answers. This project models the parts
that keep state and proves what they keep over every run.

Each component appears twice where the original changes state in place. A module of values and functions says
what one call does; the main results are lemmas over every sequence of calls, every interleaving, or every
content of the disk. Beside it, a class with the original's fields and loops is proved, method by method,
to do exactly what that function says: `SpoolChain` and `SpoolPublisher.SpoolDirectory` for the publisher,
`ExerciseObjects` and `ClockObjects` for the engine, `SupportObjects`, `SessionObjects`, `ReviewObjects`,
`SafeActions.SafeActionAdapter` and `Rollback.IdentitySliceState` for the rest. `dafny verify dfyconfig.toml`
checks everything.

## The four parts

**Publication** (`CanonicalJson`, `SpoolModel`, `SpoolChain`, `SpoolTheorems`, `SpoolProtocol`,
`SpoolPublisher`). A publisher copies the rows of one exercise into batch directories and a HEAD checkpoint.
The disk steps of an export are separate steps of a machine in which rows may be appended and the publisher
may die, also in the middle of a file, between any two of them. The state of every run is a prefix of the
source, batch by batch, with HEAD at its end or one batch behind. On arbitrary disk contents, the chain and
source checks accept exactly those directories that are such a prefix. SHA-256 is a free constructor;
canonical JSON is written out and proved readable in one way only.

**The exercise engine** (`ExerciseEngine`, `EngineFrames`, `TickSplit`, `Controller`, `EngineInduction`,
`EventSourcing`, `Branches`, `Challenges`, `Outcomes`, `Scheduler`, `Supervisor`). Items fall due, handlers run,
the clock is assigned without a comparison, challenges expire, checkpoints choose branches. `EngineInduction`
reduces every call to elementary steps, so that what each step keeps holds in every reachable engine, also
after a call that raised half-way. `Outcomes` says on the tables before and after a call alone when it is
accepted and what becomes of each item and challenge.

**Help desk, judgments and archives** (`SupportIndex`, `SupportDesk`, `SupportProtocol`, `SupportOutcomes`,
`Judgments`, `Observations`, `ReviewedRuns`, `ReviewedResults`, `ReviewArchive`). Writers append to a ledger that
validators later read as a whole. What the writers wrote is accepted, for every history. With the browser's
frozen retry, a help message is recorded exactly once. `Observations` reads the machine's observation of each
objective off the raw ledger and says which judgments it admits. `ReviewedRuns` and `ReviewedResults` put the
evaluators beside the exercise engine: what they judge is what the engine emitted, an observed checkpoint is
what the controller decided, and nothing they rely on changes after the end of play.

**Actions and browser sessions** (`SafeActions`, `Rollback`, `StaffSession`, `ParticipantProtocol`). Handlers
start at most once per key, snapshots restore exactly, and controls are sent only on a snapshot that is
younger than the last control.

## Where the code does less than its documentation says

- `orchestrator/README.md:42-44` promises the same evidence for one-second ticks and one large jump. The
  delivery loop at `orchestrator/controller.py:234-237` does not look at the run state again, and a
  challenge whose account is already blocked is cancelled when the observer is next told the time.
  `TickSplit.TicksShowTheSameIff` says exactly when the promise is kept: no blocked challenge waited through
  a first tick that delivered nothing, and play went on to the last tick or ended with no item and no
  challenge deadline left before it. `TickSplit.StillRunningIff` says when play goes on, and
  `TickSplit.JumpIsNotTicks` is an input where the promise fails.
- A handler's result data is merged over the controller's own (`orchestrator/controller.py:148-152` and
  `:299`), so a result that carries `elapsed_seconds` changes the time in the evidence.
  `EventSourcing.TimeIsToldIff` is the exact condition, `EventSourcing.StampMisleads` an input.
- `dashboard/clock.py:105-106` promises never to catch up stale play, with a heartbeat that is stale after
  thirty seconds. The heartbeat is not tied to the time up to which play was delivered.
  `Supervisor.BoundIff` is the exact condition under which one tick advances play by more than thirty
  seconds. `Supervisor.LateDriverCatchesUp` is a run whose driver was attached too late,
  `Supervisor.SlowTickCatchesUp` one where a tick took twenty-nine seconds; `Supervisor.LateAttachIff` says
  which late attaches are harmless, and `Supervisor.NoCatchUp` that nothing else breaks the bound.
- A handler that names an effect twice, or fails with an empty or overlong message, makes
  `shared/actions.py:302` raise before the result is kept, and one that is left by something other than an
  `Exception` leaves no result at all; a retry with the same key then starts the handler again. `SafeActions.RepeatIff` is the exact condition, `SafeActions.DuplicateEffectsRunTwice` an input.

## Model

| member | source | states |
|---|---|---|
| CanonicalJson.RenderNoBreak | dashboard/event_spool.py:31-34 | a rendered event contains no line break, so that an event is one line |
| CanonicalJson.RenderReadable | dashboard/event_spool.py:31-34 | a rendered value followed by anything that may follow it is read back in one way only |
| CanonicalJson.DecimalDenotes | dashboard/event_spool.py:31-34 | a number is written in decimal without a leading zero |
| CanonicalJson.LinesCount | dashboard/event_spool.py:168-172 | a file of event lines has as many lines as events and ends with a line break |
| CanonicalJson.LinesInjective | dashboard/event_spool.py:31-34 | equal files of lines hold equal sequences of events |
| SpoolModel.StateAtIsValid | dashboard/event_spool.py:88-117 | every checkpoint that the publisher forms passes the checkpoint check |
| SpoolModel.PrefixStable | dashboard/event_spool.py:275-345 | rows that are appended later change no earlier checkpoint and no earlier batch |
| SpoolModel.StateDeterminesHistory | dashboard/event_spool.py:275-318 | equal checkpoints come from equal counts, rowids and events |
| SpoolChain.WalkBatches | dashboard/event_spool.py:220-230 | the loop over sorted directories returns the manifests of the chained walk and whether HEAD went by, or refuses |
| SpoolChain.Batches | dashboard/event_spool.py:199-230 | inspection of an absent, fresh or published directory, with every refusal |
| SpoolChain.CheckEvent | dashboard/event_spool.py:248-270 | one row passes exactly if it is admissible and continues its run, and the per-run counters follow |
| SpoolModel.RowIsTakenIff | dashboard/event_spool.py:248-270 | every condition under which a row is taken, its number being one more than the earlier rows of its run |
| SpoolChain.ReadPrefix | dashboard/event_spool.py:283-318 | the streaming comparison accepts exactly if the manifests reproduce the first rows and the checkpoint after them |
| SpoolChain.TakeRows | dashboard/event_spool.py:319-335 | the new batch is the longest run of valid rows within the limit and the size |
| SpoolChain.TakeIsMaximal | dashboard/event_spool.py:322-335 | the selection stops only at the limit, at the size, or at the end of the rows |
| SpoolChain.Read | dashboard/event_spool.py:275-345 | both passes together: the refusals and the selection; on the raw source, the selection begins with the exercise's next row and leaves pending exactly the exercise's rows behind its own checkpoint |
| SpoolModel.RowsAfterIs | dashboard/event_spool.py:336-339 | the count over the raw source behind a row of the exercise is the number of its rows that follow |
| SpoolTheorems.WrittenBatchAccepted | dashboard/event_spool.py:120-179 | every manifest and content that a publication writes is accepted by the batch check |
| SpoolTheorems.PublishedIsAccepted | dashboard/event_spool.py:199-230 | a directory left by any point of a publication is accepted, and inspection finds the end of its chain |
| SpoolTheorems.AcceptedIsPublished | dashboard/event_spool.py:120-230 | whatever is on the disk: if it is accepted, its batches are, byte for byte, the canonical lines of consecutive source rows, and HEAD is on the chain |
| SpoolTheorems.AcceptedIffPublished | dashboard/event_spool.py:199-318 | the two directions as one equivalence, for every root and every source |
| SpoolTheorems.TamperingIsRefused | dashboard/event_spool.py:295-318 | a source with a changed, missing or rolled-back published row is refused |
| SpoolProtocol.PlanFinds | dashboard/event_spool.py:428-443 | under the lock, inspection of a sound spool is refused only for an invalid new row, and continues at the end of the chain |
| SpoolProtocol.AppendKeeps | dashboard/event_spool.py:275-345 | rows that arrive while a publisher is at work change nothing it relies on |
| SpoolProtocol.WriteKeeps | dashboard/event_spool.py:366-393 | each single disk write of a publication keeps the spool sound |
| SpoolProtocol.RunIsGood | dashboard/event_spool.py:366-443 | in every state of every run, with appends, crashes and torn writes anywhere, the batches partition the first rows of the source and HEAD is the end or exactly one batch behind |
| SpoolPublisher.ExactlyOnce | dashboard/event_spool.py:366-443 | the committed files in name order are the lines of a prefix of the source: no gap, no duplicate, no reordering, and HEAD records that prefix or the one before the last batch |
| SpoolPublisher.CommittedForever | dashboard/event_spool.py:388-393 | a committed directory is never changed, renamed or removed |
| SpoolPublisher.BurnKeeps | dashboard/event_spool.py:366-393 | a publisher that dies after any number of writes leaves a sound spool |
| SpoolPublisher.EventFits | dashboard/event_spool.py:248-270 | a valid event always fits an empty batch |
| SpoolPublisher.ExportProgresses | dashboard/event_spool.py:428-443 | from every spool a crash can leave, an export over a valid source is not refused, leaves HEAD at the end of the chain and publishes something if anything is pending |
| SpoolPublisher.Drains | dashboard/event_spool.py:414-469 | repeated exports of a quiet source end with the whole source published, each event once |
| SpoolPublisher.ExportKeeps | dashboard/event_spool.py:414-469 | an export that dies anywhere, also before it has a directory or the lock, leaves a spool the next one continues |
| SpoolPublisher.SelectionIsNew | dashboard/event_spool.py:389-391 | an accepted inspection never selects a batch whose directory exists already |
| SpoolPublisher.SpoolDirectory.Head | dashboard/event_spool.py:366-370 | the checkpoint is written aside and replaces HEAD, as the protocol machine does it, for every number of writes survived |
| SpoolPublisher.SpoolDirectory.Publish | dashboard/event_spool.py:373-393 | the batch is staged and renamed, as the protocol machine does it, and is refused only if its directory exists |
| SpoolPublisher.SpoolDirectory.InspectAndPublish | dashboard/event_spool.py:428-455 | what is written is what the protocol machine plans and writes, and the report tells the selection |
| SpoolPublisher.SpoolDirectory.Export | dashboard/event_spool.py:428-469 | the whole export equals the specified one for every number of writes survived; refusals come before any write; published and remaining events are all rows of the exercise, and nothing remains exactly if HEAD is at the last |
| ExerciseEngine.SortSorts | orchestrator/controller.py:223-233 | due items are delivered earlier seconds first and at equal seconds smaller order first, each once |
| ExerciseEngine.SortIsStable | orchestrator/controller.py:223-233 | items with equal keys keep the order of the scenario |
| ExerciseEngine.DueItemsAre | orchestrator/controller.py:224-231 | exactly the pending elapsed items within the interval are due |
| EngineFrames.ProcessFrame | orchestrator/controller.py:234-321 | a batch touches only its items, settles each of them, keeps results and block conditions, only adds evidence, and leaves the clock at its last item |
| EngineFrames.DeliveredIff | orchestrator/controller.py:263-321 | an item is delivered exactly if it has no action or its reviewed handler succeeded; everything else fails it, and only a delivered end marker completes play |
| TickSplit.ClockCollapses | orchestrator/mfa.py:114-126 | telling the observer an intermediate time changes nothing unless a blocked challenge is waiting: an expiry is recorded at the instant it fell due |
| TickSplit.EvidenceSplitIff | orchestrator/controller.py:216-244 | two advances leave the same events, items, results and challenges as one jump exactly if play goes on after the first and no blocked challenge waited through it, or the first ended play and neither an item nor the deadline of the open challenge was left; they then agree in everything but the clock |
| TickSplit.TicksShowTheSameIff | orchestrator/README.md:42-44 | the same for any number of ticks at non-decreasing times against one jump to the last |
| TickSplit.SplitIffUndisturbed | orchestrator/controller.py:216-244 | two advances leave the same whole engine, clock included, exactly if they end at the same time, or play is still going after the first and no blocked challenge was waiting or some item fell due in it |
| TickSplit.SplitDiffers | orchestrator/mfa.py:120-125 | with a blocked challenge waiting and nothing due in the first leg, the split records its cancellation at the split and the jump records it later |
| TickSplit.TicksEqualJump | orchestrator/controller.py:216-244 | any non-decreasing targets and one jump to the last leave the same engine while play goes on and no blocked challenge waits through the first |
| TickSplit.StillRunningIff | orchestrator/controller.py:234-302 | play goes on after a batch exactly if, of the items it makes due automatically, no end marker was delivered and no handler stopped the run, each in the engine in which it was visited; any actions, any handlers |
| TickSplit.JumpPassesTheEnd | orchestrator/controller.py:234-237 | once a leg ended play, ticking never delivers a later item, while a jump from before the end always processes it |
| TickSplit.JumpIsNotTicks | orchestrator/controller.py:301-302 | a concrete schedule on which ticks and jump differ |
| Controller.BatchClockIsMonotone | orchestrator/controller.py:234-244 | the unconditional assignments of one batch never go back, from the present to the target |
| Controller.CutKeeps | orchestrator/controller.py:234-244 | nor do they when a time observer raises at any point of the batch |
| Controller.RunKeeps | orchestrator/controller.py:164-466 | over every sequence of calls in a run: the clock never goes back, items move from pending to offered to one terminal status or straight to it, results are written once, evidence only grows |
| Controller.EndedStaysEnded | orchestrator/controller.py:157-162 | after stop or completion no call but a reset changes an item, a result, the clock or the state |
| Controller.EndedSaysNothingOfPlay | orchestrator/controller.py:157-162 | and every event still emitted is about a challenge |
| Controller.NothingWaitsAfterAdvance | orchestrator/controller.py:223-237 | a completed advance leaves no elapsed item pending at or before its time |
| EngineInduction.StepStable | orchestrator/controller.py:164-466 | what every elementary step keeps, every call keeps, also one that raises after changing something |
| EventSourcing.ReplayRebuilds | orchestrator/controller.py:116-155 | over every sequence of calls and resets, folding the evidence rebuilds the run state, every checkpoint result and every item status |
| EventSourcing.ReplayRebuildsTimes | orchestrator/controller.py:289-302 | and every delivery time, if handlers bring no other time |
| EventSourcing.TimeIsToldIff | orchestrator/controller.py:148-152 | a delivery's time is told exactly if the handler's data carries none or the controller's |
| EventSourcing.StampMisleads | orchestrator/controller.py:299 | a concrete handler whose evidence names another second |
| Branches.ResolveRunsOneBranch | orchestrator/controller.py:357-420 | a resolution that returns normally skips every opposite item, makes every matching one due, records the result and touches no other item |
| Branches.ResolveSucceedsIff | orchestrator/controller.py:405-420 | it raises half-way exactly if some opposite item can no longer be skipped |
| Branches.NeverBothSides | orchestrator/controller.py:357-420 | over every sequence of calls, manual deliveries included, a delivered item whose handler refuses against the recorded result is on the recorded side, so both sides are never delivered |
| Branches.GuardHolds | orchestrator/cloud.py:143-146 | a handler that compares the recorded result before anything else refuses against it, whatever the stage behind it does |
| Branches.ImpactNeverBothWays | orchestrator/impact.py:237-240 | the two impact variants behind their guard: over every sequence of calls each is delivered only if DP4 was resolved to its side |
| Challenges.ChallengesAreTold | orchestrator/mfa.py:80-181 | the recorded challenge events alone rebuild the history and the pending challenge, and no other challenge awaits a decision |
| Challenges.DecisionsAreFinal | orchestrator/mfa.py:155-181 | a closed challenge never changes again within its run |
| Outcomes.AcceptedIff | orchestrator/controller.py:157-466 | when each call is accepted, by state, item status, reason and pending challenge, and the run state it leaves |
| Outcomes.AdvanceSettles | orchestrator/controller.py:216-302 | an accepted advance touches exactly the pending items whose second has come: facilitators' items and checkpoints are offered, all others are delivered at their second or failed, and delivered if they have no action |
| Outcomes.AdvanceTellsInOrder | orchestrator/controller.py:223-237 | of two items that fall due in one advance the one with the earlier second, or the smaller order, is recorded first |
| Outcomes.PrepareSettles | orchestrator/controller.py:164-177 | preparation does the same to exactly the pending pre-exercise items |
| Outcomes.ResolveSettles | orchestrator/controller.py:357-420 | a resolution that returns normally delivers the checkpoint, settles the pending items of the chosen side, skips every item of the other side and touches nothing else |
| Outcomes.ByHand | orchestrator/controller.py:323-355 | a skip and a delivery by hand change their item as they say, and only it |
| Outcomes.ResetIs | orchestrator/controller.py:437-466 | a reset run has every item pending, no result, no challenge and a clock at zero |
| Outcomes.ObserverIs | orchestrator/mfa.py:114-126 | which change of the identity cancels a pending challenge, when it expires, and with which time either is recorded |
| Outcomes.ChallengeIsOpened | orchestrator/mfa.py:128-153 | when a challenge is delivered, and every field of the new entry, sent or blocked |
| Outcomes.DecisionIsRecorded | orchestrator/mfa.py:155-171 | a decision is accepted exactly on the matching challenge that is neither blocked nor expired, and is recorded as it was made |
| ExerciseObjects.ScheduledMfa.ClosePending | orchestrator/mfa.py:80-126 | recording an outcome on the pending object changes the last history entry, because they are one object, and nothing else |
| ExerciseObjects.ScheduledMfa.Advance | orchestrator/mfa.py:114-126 | the observer, with its two reasons and two times |
| ExerciseObjects.ScheduledMfa.Deliver | orchestrator/mfa.py:128-153 | the challenge handler with both refusals |
| ExerciseObjects.ScheduledMfa.Decide | orchestrator/mfa.py:155-171 | a decision reaches only the matching pending challenge that the observer left |
| ExerciseObjects.ScenarioController.DeliverItem | orchestrator/controller.py:263-302 | all outcomes of a handler, including a stop from inside it |
| ExerciseObjects.ScenarioController.AdvanceTo | orchestrator/controller.py:216-237 | the delivery loop computes the specified batch |
| ExerciseObjects.ScenarioController.Prepare | orchestrator/controller.py:164-177 | the preparation loop computes the specified order of items |
| ExerciseObjects.ScenarioController.ResolveCheckpoint | orchestrator/controller.py:357-420 | the branch loop with its early exit and its exception in the middle |
| ExerciseObjects.ScenarioController.Reset | orchestrator/controller.py:437-466 | a reset gives the initial engine with the evidence kept and a fresh challenge component |
| Scheduler.TimeIsConserved | orchestrator/scheduler.py:27-86 | over every trace of calls, resets and raising observers included, elapsed seconds, fraction and what raising observers cost add up to what an independent stop-watch of the running time shows; paused time is never counted, nothing is lost without a raising observer, and the second is the floor |
| Scheduler.TicksEqualOneTick | orchestrator/scheduler.py:35-56 | any number of ticks leave exactly what one tick at the last reading leaves, fraction included |
| Scheduler.DirectKeepsClock | orchestrator/controller.py:323-435 | calls that bypass the scheduler leave the clock alone and can only end play |
| Scheduler.AnswersIff | orchestrator/scheduler.py:27-86 | when each call returns normally, a tick with a clock that went back or an observer that raises included |
| ClockObjects.ScenarioScheduler.Tick | orchestrator/scheduler.py:35-56 | the four outcomes of a tick |
| ClockObjects.ScenarioScheduler.Pause | orchestrator/scheduler.py:58-64 | a pause takes the time up to now first |
| Supervisor.BoundIff | dashboard/clock.py:105-125 | one supervised tick on any portal, with its five clock readings apart, advances the exercise by more than thirty seconds exactly if it goes through on a running exercise that is thirty-one seconds behind and no observer raises before |
| Supervisor.NoCatchUp | dashboard/clock.py:105-125 | if drivers attach before the run is a second behind and calls are prompt, no supervised tick of any run advances the exercise by more than thirty seconds, however late and whatever fails |
| Supervisor.LateAttachIff | dashboard/clock.py:75-86 | an attach to a running exercise leaves the bound for all later ticks exactly if the run is less than a second behind, or an item has failed |
| Supervisor.BeatFaultsIff | dashboard/clock.py:105-125 | a supervised tick latches a fault exactly if one of its gates finds no heartbeat within thirty seconds, the heartbeat cannot be read, or the tick raised, stopped the run or found a failed item; otherwise it takes the heartbeat |
| Supervisor.LateDriverCatchesUp | dashboard/clock.py:75-86 | the run with a late driver that catches up a hundred seconds |
| Supervisor.SlowTickCatchesUp | dashboard/clock.py:119-121 | the run with a slow tick whose successor catches up fifty-nine seconds |
| Supervisor.FaultFreezes | dashboard/clock.py:127-165 | with a fault latched the run neither runs nor is paused, and until a reset its clock and items stay as they were, even if stopping or auditing fails |
| Supervisor.StepIsLatched | dashboard/clock.py:167-175 | only a verified reset opens the latch, and then the run is a new one |
| Supervisor.GateIff | dashboard/clock.py:88-103 | a request goes on exactly without a fault, unmanaged or with a driver, a timely heartbeat and no failed item in live play; otherwise which code is latched and that play stops |
| Supervisor.HaltIs | dashboard/clock.py:127-165 | a fault's stop leaves items, results and clock alone and cancels the pending challenge, on the record if there is one |
| Supervisor.AttachIs | dashboard/clock.py:75-86 | one driver at a time, and which clock readings make a claim a fault |
| Supervisor.DetachIs | dashboard/clock.py:177-188 | a driver that leaves stops live play, and only an unrecorded stop is a fault |
| Supervisor.ResetIs | dashboard/clock.py:167-175 | from which run and archive a reset starts over, and when it clears the fault |
| ClockObjects.ClockSupervisor.Tick | dashboard/clock.py:105-125 | gate, tick, checks, heartbeat and second gate in order |
| ClockObjects.ClockSupervisor.RequireHealthy | dashboard/clock.py:88-103 | which health lets a mutation through and which code is latched otherwise |
| ClockObjects.ClockSupervisor.Fault | dashboard/clock.py:127-165 | the latch keeps the first code and stops the run |
| ClockObjects.ClockSupervisor.Detach | dashboard/clock.py:177-188 | shutdown stops live play and latches if that fails |
| SupportIndex.SupportIndex | orchestrator/support.py:37-122 | the loop over the ledger computes the specified pass |
| SupportIndex.AcceptsIffWellFormed | orchestrator/support.py:37-122 | a ledger is accepted exactly if every event fits those before it: one scope, rising numbers, new keys, one open request per participant, one reply per request and not before it; the index then describes the ledger |
| SupportIndex.FitsIff | orchestrator/support.py:73-121 | the accumulators decide one event as a reading of the whole earlier ledger does |
| SupportOutcomes.QuestionShapeIff | orchestrator/support.py:59-88 | every field of a question that the validator reads |
| SupportOutcomes.ReplyShapeIff | orchestrator/support.py:59-113 | every field of a reply that the validator reads |
| SupportOutcomes.IndexIs | orchestrator/support.py:91-122 | the records of an accepted ledger are its questions as they were asked, each with its reply as it was given, or none |
| SupportDesk.ScopeIsOk | orchestrator/support.py:28-34 | a validated objective scope is kept as it is by a second validation |
| SupportDesk.HandleServed | dashboard/support.py:66-169 | a request appends nothing or its own event, to its own run, and an accepted one is confirmed by an event in the ledger |
| SupportDesk.EveryLedgerIsAccepted | dashboard/support.py:66-169 | every run's ledger is accepted by the validator, whatever was asked, failed, appended by others and reset |
| SupportDesk.RetryConfirms | dashboard/support.py:46-54 | a recorded message is confirmed to every retry in its run, without a further event and in any run state |
| SupportDesk.NewQuestionIsRecordedIff | dashboard/support.py:109-130 | a question under a new key is recorded exactly if it is well put, in live play, and every earlier question of its participant is answered and within the limits |
| SupportDesk.NewReplyIsRecordedIff | dashboard/support.py:132-169 | a reply under a new key is recorded exactly if it is well put, play allows it, and its request is on the ledger unanswered |
| SupportOutcomes.ResponseIs | dashboard/support.py:66-107 | every response and every fate of the append: what was written, what the receipt names, that an unavailable ledger uses up a number and stops play, and that nothing else does |
| SupportOutcomes.FateDecides | dashboard/support.py:66-107 | a new message is acknowledged exactly if its event was stored without an error |
| SupportProtocol.AtMostOnce | dashboard/static/support.js:100-153 | over all ledgers there is at most one event under a retry key, with lost, repeated, delayed and reordered requests and half-failed writes |
| SupportProtocol.ExactlyOnce | dashboard/static/support.js:100-153 | if `submit` returns true there is exactly one, by that actor, in that run, with the frozen payload stripped |
| SupportOutcomes.SubmitIsSentIff | dashboard/static/support.js:100-124 | when something is sent, and that an unconfirmed operation is sent again as it was |
| SupportOutcomes.SettleIs | dashboard/static/support.js:125-152 | which answers confirm, drop or keep the operation |
| SupportOutcomes.ShowIs | dashboard/static/support.js:60-84 | which reads are taken and what they show |
| SupportObjects.SupportWorkflow.Request | dashboard/support.py:109-130 | every guard and outcome of a question; an accepted one is on the ledger, which stays acceptable |
| SupportObjects.SupportWorkflow.Respond | dashboard/support.py:132-169 | every guard and outcome of a reply; an accepted one is on the ledger, which stays acceptable |
| SupportObjects.SupportWorkflow.AppendEvent | dashboard/support.py:66-107 | the append with its consistency check and its failure paths |
| SupportObjects.SupportSession.Submit | dashboard/static/support.js:100-124 | what is frozen and sent |
| SupportObjects.SupportSession.Settle | dashboard/static/support.js:125-152 | what an answer changes, and when `submit` returns true |
| SupportObjects.SupportSession.Show | dashboard/static/support.js:60-84 | which read is taken |
| Judgments.ValidateJudgments | orchestrator/aar.py:280-317 | the replay loop computes the specified replay |
| Observations.ObserveIff | orchestrator/aar.py:327-408 | the observation of every objective, read off the raw ledger: met, not met and not observed for each checkpoint, the identity deadline of 1500 seconds and the last recovery review, and refused in every other case |
| Observations.JudgeIff | orchestrator/aar.py:413-452 | when a judgment is recorded on an accepted ledger, field by field |
| Observations.JudgeRecords | dashboard/service.py:394-423 | the one event that a recorded judgment adds: its revision, what it supersedes and who made it |
| Observations.PerformedNeedsReasonIff | orchestrator/aar.py:441-450 | a first judgment "performed" needs a reason exactly if the objective is observed as not met or not observed |
| ReviewedRuns.NothingReadAfterTheEnd | orchestrator/controller.py:157-162 | after stop or completion no call but a reset emits an event that an observation reads |
| ReviewedRuns.Refines | dashboard/service.py:363-371 | every run of the controller, with judgments, submissions and other events anywhere between its calls, is a run in which nothing an observation reads comes after the end |
| ReviewedRuns.AcceptedStaysAccepted | dashboard/service.py:363-429 | over all these runs the offline replay accepts the ledger at every moment, so a judgment accepted online stays valid |
| ReviewedRuns.ObservationsFreeze | orchestrator/aar.py:327-408 | once the controller has ended play, no later call, event or judgment before a reset changes any objective's observation |
| ReviewedResults.EveryResultIsFiled | orchestrator/controller.py:357-402 | over every sequence of calls, a checkpoint has a result exactly if its run's log resolves it, once and with that result |
| ReviewedResults.DecisionsAreObserved | orchestrator/aar.py:354-408 | in every run, whatever is judged and appended in between, containment and recovery are observed exactly as the controller resolved them, and the observation never fails |
| Judgments.AcceptedJudgmentsAreGrounded | orchestrator/aar.py:413-452 | a judgment in an accepted ledger cites only earlier events and submissions, and gives a reason where it rates a missed objective as performed, rates an unobserved one, or revises another judgment |
| Judgments.RevisionsAreChained | orchestrator/aar.py:303-316 | in every accepted ledger the revisions of an objective are 1 to k, each expecting and superseding the one before |
| Judgments.OneJudgmentPerRevision | orchestrator/aar.py:420-424 | of two submissions that expect the same revision at most one is recorded |
| ReviewObjects.JudgmentDesk.JudgeObjective | dashboard/service.py:363-429 | a judgment is recorded exactly if it is admitted field by field, and the ledger stays one that the replay accepts |
| ReviewArchive.LedgersAreContiguous | dashboard/service.py:319-353 | stored numbers are 1 to n and the sequencer is n, in every run, through captures that commit, roll back or half-fail, and through resets |
| ReviewArchive.ArchivesAreFrozen | dashboard/store.py:347-366 | archives are only added, none twice, each a prefix of its ledger with its audit stored right behind it |
| ReviewArchive.RetriedCaptureIsReplayed | dashboard/service.py:296-317 | a retried capture never adds a second archive, and answers with the first exactly if a review role asks while the run is still the ended one |
| ReviewArchive.CaptureIff | dashboard/service.py:296-317 | when a staff capture succeeds or was done before, and that the archive holds the state, every stored event and every submission |
| ReviewArchive.CaptureReviewIs | dashboard/service.py:319-353 | archive and audit are committed together or not at all, for every fate of the transaction, and when the reserved number is given back |
| ReviewObjects.ReviewService.CaptureReview | dashboard/service.py:319-353 | the reservation is given back exactly if the ledger reads as before; numbers stay contiguous and archives frozen |
| ReviewObjects.ReviewService.CaptureReviewArchive | dashboard/service.py:296-317 | the guards of a staff capture in order, the review role first |
| SafeActions.StartedAgainOnlyIfUnreportable | shared/actions.py:335-546 | of the handlers started under one key, each but the last left a result that could not be reported |
| SafeActions.RepeatIff | shared/actions.py:356-374 | a repeat is answered with the first result, marked cached, exactly if that could be reported |
| SafeActions.DuplicateEffectsRunTwice | shared/actions.py:512-526 | a concrete handler that a retry starts again |
| SafeActions.KeptForEver | shared/actions.py:356-374 | a kept result is never replaced; another fingerprint under its key is denied |
| SafeActions.NoStartAfterStop | shared/actions.py:381-384 | no handler of a run starts after its fail-safe stop |
| SafeActions.StartedIff | shared/actions.py:335-445 | a handler is started exactly for a request that the policy allows, under a new key, that is no dry run |
| SafeActions.DryRunIs | shared/actions.py:428-443 | an allowed dry run is answered with the effects the action would have and changes nothing but what is kept |
| SafeActions.DryRunsStartNothing | shared/actions.py:428-443 | over every sequence of calls no dry run started a handler, what is kept fits what was asked, and only what a handler returned is offered for rollback |
| SafeActions.DenialIs | shared/actions.py:344-411 | a request that is not allowed is denied with the code of the first check that fails and changes nothing |
| SafeActions.EndingIs | shared/actions.py:467-520 | which endings of a handler are reported as executed, cancelled, timed out or failed |
| SafeActions.StoppedIsNeverSuccessful | shared/actions.py:467-480 | an execution stopped under its handler is never reported or kept as successful, nor offered for rollback |
| SafeActions.SafeActionAdapter.Execute | shared/actions.py:335-546 | the order of all checks and what is stored |
| Rollback.RollbackIsExact | orchestrator/identity_slice.py:114-212 | until it is used, a token restores exactly the state from before its transition, whatever was done since |
| Rollback.TokensWorkOnce | orchestrator/identity_slice.py:193-199 | a used token is unknown for good |
| Rollback.TransitionIs | orchestrator/identity_slice.py:122-186 | which transitions take effect and what each changes, flag by flag |
| Rollback.EscalationIs | orchestrator/identity_slice.py:164-178 | the escalation takes over the one account and no other |
| Rollback.StagesInOrder | orchestrator/identity_slice.py:122-212 | over every sequence of transitions, rollbacks and account changes no stage is reached without the ones before it, now or in any snapshot |
| Rollback.DeepCopy | orchestrator/identity_slice.py:111 | the copied account table has equal values and account objects of its own |
| Rollback.IdentitySliceState.ChangeAccount | orchestrator/identity_slice.py:170-177 | an in-place change of a live account alters no snapshot |
| Rollback.IdentitySliceState.Apply | orchestrator/identity_slice.py:122-186 | a snapshot is taken before the guard, then one transition |
| Rollback.IdentitySliceState.RollBack | orchestrator/identity_slice.py:188-212 | the snapshot's own objects become the live ones and its token is gone |
| StaffSession.FreshAuthority | dashboard/static/staff-operations.js:43-131 | when a control is sent, nothing is in flight and its snapshot answers a read issued after the last control was issued or settled, under the present credential, of the run it names |
| StaffSession.OneOfEach | dashboard/static/staff-operations.js:91-131 | at most one stop and one other control are in flight, through any reconnects |
| StaffSession.StopIsSentIff | dashboard/static/staff-operations.js:91-107 | over every run a stop is sent exactly if somebody is logged in, none is in flight, the role last seen may control, a run is known and no completed snapshot is held |
| StaffSession.StopFollowsControl | dashboard/static/staff-operations.js:98-112 | a stop can be sent while another control, just sent, is unanswered and no snapshot is left |
| StaffSession.ControlIsSentIff | dashboard/static/staff-operations.js:91-107 | over every run another control is sent exactly if nothing is in flight and a snapshot permits it |
| StaffSession.SettleIs | dashboard/static/staff-operations.js:113-130 | when a result is shown, which slot is freed and when the context ends |
| StaffSession.AnswerIs | dashboard/static/staff-operations.js:71-88 | which answers are taken and what they show |
| StaffSession.RefreshGrantsAuthority | dashboard/static/staff-operations.js:64-96 | an answer that nothing overtook lets a control role send exactly what the snapshot permits |
| SessionObjects.StaffOperations.Command | dashboard/static/staff-operations.js:98-112 | which control is sent and what it invalidates; any but a stop is sent on fresh authority only |
| SessionObjects.StaffOperations.Settled | dashboard/static/staff-operations.js:113-130 | which slot an answer frees, whoever is logged in by then |
| SessionObjects.StaffOperations.Refreshed | dashboard/static/staff-operations.js:71-88 | which snapshot is taken |
| ParticipantProtocol.FreshAuthority | dashboard/static/participant-session.js:44-136 | when a write is sent, no other is in flight and its state answers a refresh issued after the last write was issued or settled, under the present credential |
| ParticipantProtocol.ShownReadsAreCurrent | dashboard/static/participant-session.js:81-101 | a read is shown only if no write and no later read of its path came after it |
| ParticipantProtocol.WriteIsSentIff | dashboard/static/participant-session.js:103-112 | over every run a write is sent exactly if somebody is logged in, none is in flight and a state is held |
| ParticipantProtocol.ReturnIs | dashboard/static/participant-session.js:83-101 | when a read is shown and when it ends the context |
| ParticipantProtocol.SettleIs | dashboard/static/participant-session.js:113-135 | when a write's result is seen, and that its slot is freed in every case |
| ParticipantProtocol.AnswerIs | dashboard/static/participant-session.js:44-79 | which refreshes are taken and what they show |
| ParticipantProtocol.RefreshGrantsAuthority | dashboard/static/participant-session.js:44-79 | after a refresh that nothing overtook a write is sent exactly if none is pending |
| SessionObjects.ParticipantSession.Write | dashboard/static/participant-session.js:103-112 | which write is sent and what it invalidates, and that it is sent on fresh authority only |
| SessionObjects.ParticipantSession.Settled | dashboard/static/participant-session.js:113-135 | the slot is freed in every case, and when the result is shown |
| SessionObjects.ParticipantSession.Returned | dashboard/static/participant-session.js:83-101 | when a read is shown, then being the latest of its path with nothing after it, and when it ends the session's run |

## Left out

- SpoolProtocol.RunIsGood: one publisher at a time, as the file lock grants it; `flock`, `fsync`, file modes, links and path checks are not modelled, and a disk step either happens or tears the private file being written.
- CanonicalJson.LinesInjective: strings are sequences of characters that JSON writes literally or with two-character escapes; `\u` escapes, byte widths and non-finite numbers are not modelled, and a size is a property of a stored payload.
- SpoolModel.StateAtIsValid: SHA-256 is collision-free and UUID-named private files never collide; the 4096-byte limit on small files and the width of zero-padded names are not modelled.
- SpoolChain.Batches: file modes, links, owners and the 4096-byte limit on small files are not among the refusals.
- SpoolChain.CheckEvent: schema validity and redaction are one property of a stored row.
- CanonicalJson.DecimalDenotes: the order of an object's members is that of the stored value, taken as sorted already.
- SpoolPublisher.ExportProgresses: for a source whose rows are all valid; an invalid new row is refused, as `SpoolProtocol.PlanFinds` says. The preview without `--execute` is not modelled.
- TickSplit.TicksEqualJump: for handlers that leave the four block conditions of a challenge alone (`EngineFrames.Inert`); the challenge handler is taken to be registered under its own action.
- EventSourcing.ReplayRebuilds: error texts, reasons, messages and actors of events are not modelled, and the event sink does not fail; observers that raise are modelled for the clock.
- Scheduler.TimeIsConserved: floating point is modelled as real numbers, and a clock reading does not go back; a reading that does makes the tick raise. A start or a jump that a time observer leaves by an exception is not in the traces.
- Supervisor.NoCatchUp: before a driver is attached, calls with an unusable clock are taken as refused.
- Supervisor.LateAttachIff: for ticks whose gate and scheduler read the same time; a gap between the two adds to any lateness, as `Supervisor.BoundIff` says.
- ClockObjects.ClockSupervisor.Tick: time observers that raise inside a tick are in `Supervisor.DoBeat` but not in the object.
- SupportIndex.AcceptsIffWellFormed: events are schema-valid, so that lists are lists and fields have their types; redaction changes none of the help desk's fields.
- SupportProtocol.ExactlyOnce: retry keys are unique and carry no surrounding blanks, as the browser makes them; the HTTP layer only maps outcomes to status codes.
- ReviewedRuns.Refines: only handlers emit the recovery review (`orchestrator/impact.py:278-286`), with a flag as its outcome, and their result data carries no `item_kind` of its own; the other components emit none of the events that an observation reads.
- ReviewedResults.DecisionsAreObserved: for the containment and recovery checkpoints (DP2, DP3); the identity deadline compares event times, which a handler's data may override.
- ReviewObjects.JudgmentDesk.JudgeObjective: digests, report rendering and the support index inside a report are not part of this model.
- ReviewObjects.ReviewService.CaptureReviewArchive: a collision-free digest stands for the bundle it covers.
- ReviewArchive.LedgersAreContiguous: as long as the ledger can be read again after a failed capture; if it cannot, the reservation stays and later captures are refused.
- SafeActions.StartedAgainOnlyIfUnreportable: calls are serialized, as the run lock makes them, and the audit sink does not fail.
- StaffSession.FreshAuthority: holds for every permission table; the table itself (`permitted`) is a parameter. A `changed` callback that throws is not modelled.
- ParticipantProtocol.FreshAuthority: a `changed` callback that throws is not modelled.
- SupportObjects.SupportSession.Submit: the session's own invariants are those of `SupportProtocol`, which knows the requests in flight.
- Rollback.DeepCopy: an account's list of groups is a value inside the account object.
- Rollback.RollbackIsExact: only the simulation fields and the endpoint accounts, as the original captures them; the cloud and impact stages have the same pattern and are not modelled.
- The HTTP routes, authentication, SQLite, schemas, the SSO experience, telemetry comparison, profiling, rendering, recording and rehearsal scripts would add only easy members.
