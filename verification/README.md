# Verified model of the Fitz Harness host

Fitz Harness runs durable coding agents on one machine: a host admits agent runs, keeps an execution plan for
each of them, streams their events to clients and stores what they said. This project models the parts of the
host and of its clients where several things have to agree, and proves that they do.

* **Plans** (`Graphs`, `CycleChecking`, `PlanModel`, `PlanSafety`, `PlanVerdicts`, `PlanProgress`, `PlanTools`,
  `PlanProtocol`, `SubagentTools`). A run's plan is a dependency graph of items, each owned by the main agent or by a worker
  run, with a phase and a revision. Every operation is a pure updater applied in a read-and-save loop. The model
  has the cycle check as a depth-first search, the operations against a store that others write to between read
  and save, a state machine of every interleaving of such calls, and the delegation tool that launches workers
  under a budget. Proved: the invariant of every saved plan, that none of them is a dead end, what each operation
  does, phase safety, and exactly when the saves of a run form one linear history.
* **Runs** (`FairQueues`, `RunCoordinator`, `AgentRuns`, `RunEndings`, `RunNotices`, `Transcripts`, `TranscriptCuts`).
  Admission, the per-owner fair queue, the bounded pool, cancellation, shutdown and the event ledger, as a state
  machine whose every history is covered, refined by a class with the coordinator's fields and methods; and the fold
  of a run's stream into transcript entries. Proved over all histories: every run is accounted for, its ending says
  why it ended, its record only grows, and it always knows its place in the queue.
* **Wire formats** (`EventStreams`, `ChatStreams`, `GgufInspection`, `GgufFormat`). Server-sent events (sections
  9.2.5 and 9.2.6 of the WHATWG HTML Living Standard): what the events route writes and what the chunked parsers
  read. GGUF headers (GGUF specification, "File Structure"): the buffered reader against an unbuffered reading, and
  the inspection of every header that can be written.
* **Hosting** (`Hosting`, `HostingProtocol`). Configuration updates with compensation, taken as a whole; and the same
  service split where it waits, as a state machine of updates, repairs, reloads of the settings file, watcher passes and
  restarts in every interleaving, with exactly when the gateway is left published although hosting is saved as off.
* **Smaller algorithms** (`ContentBlocks`, `ChatContents`, `PathSuffixes`, `Resolutions`, `Turns`, `Conversations`,
  `UserRoutes`). Keyed reconciliation of rendered blocks, the block index of a message, file-reference matching, grid
  arithmetic, transcript truncation and replacement, and owner-scoped route bindings.

`Basics` holds shared vocabulary. Names of the state machines: a `Step` is one indivisible action of some caller,
`Next` its effect, and histories are sequences of steps.

## What the proofs found

Where the code does not do what its comments or callers expect, the model keeps the code and states exactly when
the expectation holds.

1. *A first plan submission can overwrite a plan.* A submission that found no plan saves without an expected
   revision, so a save that slips in between is overwritten and the revision falls back to 1. The saves of a run
   are one linear history if and only if no such write happens (`PlanProtocol.LinearExactly`), and there is a
   three-save run that loses finished work (`PlanProtocol.OverwriteLosesWork`). Inside one host process a submission
   runs from its read to its save without waiting, on a synchronous database connection, so there the write in between
   has to come from a second process on the same database.
2. *Event reads stop at 1000.* A replay drops what is beyond the first 1000 stored events and a worker's report
   is the text of its first 1000 events: complete if and only if the backlog fits (`EventStreams.ServeEvents`) and
   if and only if nothing was written after that page (`PlanSafety.ReportIsWholeText`).
3. *Delegating an item again withdraws the credit of its previous worker*, because only the current worker run of
   an item is counted towards the required routes (`PlanSafety.DelegationCredit`). A required route is missing again
   exactly when the previous worker ran on it, the new one does not, and no launch of it was to spare
   (`PlanSafety.MissingAgainExactly`). Even then the plan can be finished (`PlanProgress.CanAlwaysFinish`).
4. *The model adapter normalises line ends chunk by chunk.* The text and the events with the unfinished rest are those
   of the whole stream if and only if no cut falls between a carriage return and its line feed
   (`ChatStreams.NormalisesExactly`, `ChatStreams.EventsExactly`). As many events are lost as there are such cuts that
   keep a blank line from ending and are not made up for by the line feeds that follow (`ChatStreams.LostExactly`,
   `ChatStreams.CutPairLosesEvent`).
5. *A disclosed path that is a proper prefix of a longer reference matches it* (`PathSuffixes.PathSuffixMatches`).
6. *A grid wider than the shorter allowed side pushes a size out of its box*, and nothing else does
   (`Resolutions.ConstrainedFitsExactly`, `Resolutions.FitsAspect`); such a size then shrinks every time it is
   constrained, until it is a single cell (`Resolutions.ConstrainIdempotent`).
7. *An edited message can keep the block index of its old text*, because an index whose blocks cover the new text's
   length is taken for valid: this is harmless exactly when both texts parse to the same blocks
   (`Turns.IndexIsOwnExactly`, `Turns.StaleIndex`). Two edits equal the last one alone except for that
   (`Turns.EditTwice`).
8. *A message named by its sequence number may not be found under it after an edit*, because the replacement takes
   the next free number (`Turns.SequenceStillNames`).
9. *A failed removal of the login registration goes unnoticed*, a failed update cannot put a removed registration back
   when the launcher is gone, and a funnel command that worked but whose check failed is not undone
   (`Hosting.AgreementKeptExactly`, `Hosting.FailureRestoresExactly`).
10. *Removing a connection unbinds roles whose recipe another connection of the same owner still offers*, which
    replacing a connection does not (`UserRoutes.RemoveExactly`, `UserRoutes.ReplaceExactly`).
11. *The gateway can stay published although hosting is saved as off.* Of operations that do not overlap this is so
    exactly when the settings were turned off under it and no disabling has worked since, or an enabling took effect
    that was not saved and not undone (`HostingProtocol.AtRestExactly`); with commands that work it never is
    (`HostingProtocol.NeverPublishedAtRest`). An update that overlaps a watcher pass can leave it so although every
    command works, because the pass acts on settings it read before it waited (`HostingProtocol.OverlapPublishes`).
12. *A well-formed GGUF header can be taken to lack every tensor*: exactly one nested deeper than the call stack
    allows, or beyond the limits on version, counts, array lengths and dimensions (`GgufFormat.FindsExactly`).

## Model

| member | source | states |
|---|---|---|
| CycleChecking.AssertAcyclic | apps/host/src/agent-plan-tools.ts:344-355 | the check returns normally if and only if the dependency graph has no cycle, and the order in which ids become visited is then a topological order of all listed ids |
| CycleChecking.CycleCheck.Visit | apps/host/src/agent-plan-tools.ts:347-353 | one visit leaves the stack of ids being visited as it was and puts the id after everything it depends on, or stops on a genuine cycle; it ends because ids neither visiting nor visited run out |
| Graphs.OrderExcludesCycles | apps/host/src/agent-plan-tools.ts:344-355 | a graph with a topological order over its listed ids has no cycle |
| Graphs.MinimalMember | apps/host/src/agent-plan-tools.ts:344-355 | in an acyclic graph every non-empty set of ids contains, reachable inside the set from any member, one that depends on no member |
| PlanTools.AcceptedExactly | apps/host/src/agent-plan-tools.ts:211-235 | a submission, of a first plan or of a revision, is accepted if and only if its ids are unique, its dependencies are listed, its graph is acyclic, no item repeats the final answer, the required fan-out is possible, and a plan already there is active and has every item that is running listed again |
| PlanTools.RefusedExactly | apps/host/src/agent-plan-tools.ts:211-235 | which error a refused submission raises: the first that applies of duplicate ids, the first broken item, a cycle, an impossible fan-out, a plan past its active phase, and a running item left out |
| PlanSafety.SubmittedItemsOk | apps/host/src/agent-plan-tools.ts:211-254 | a submitted plan, merged with the progress already made and with duplicate dependencies dropped, has unique ids, known dependencies and no cycle |
| PlanSafety.SubmissionMerges | apps/host/src/agent-plan-tools.ts:231-251 | a submission lists exactly the items submitted; one already in the plan keeps owner, status and results, a new one is pending with the main agent, and no running work is dropped |
| PlanSafety.SavedPlanOk | apps/host/src/agent-plan-tools.ts:165-342 | every plan any operation saves is acyclic with unique ids and known dependencies, every item of a worker is running or completed and names its worker run, and where workers are required there are required items for all of them and one for the main agent only |
| PlanSafety.SubmittedFanOut | apps/host/src/agent-plan-tools.ts:220-230 | an accepted submission has as many required items for workers as required routes, and a required one that only the main agent may do |
| PlanSafety.FanOutKept | apps/host/src/agent-plan-tools.ts:165-295 | no operation on an existing plan changes that |
| PlanSafety.PhaseStep | apps/host/src/agent-plan-tools.ts:282-342 | a save never moves the phase back; only the step after the answer completes a plan; and a saved plan stays active exactly while a required item is not completed or fewer workers ran on some route than are required on it |
| PlanSafety.AssignExactly | apps/host/src/agent-plan-tools.ts:191-209 | delegation succeeds on exactly the pending, worker-eligible items with completed dependencies that leave a required item with the main agent; it changes that item only, to running on the worker with one more attempt and no error |
| PlanVerdicts.AssignRefusedExactly | apps/host/src/agent-plan-tools.ts:191-209 | why a delegation is refused: the first that applies of not eligible, not pending, blocked, nothing required left with the main agent |
| PlanSafety.UpdateExactly | apps/host/src/agent-plan-tools.ts:257-280 | the main agent's update succeeds exactly on an active plan's item no running worker holds, and starting needs completed dependencies; completing does not; only that item changes, and a completed one has the report, its earlier result or a standing text |
| PlanVerdicts.UpdateRefusedExactly | apps/host/src/agent-plan-tools.ts:257-280 | why an update is refused: the first that applies of plan not active, item running on a worker, blocked |
| PlanVerdicts.UnknownExactly | apps/host/src/agent-plan-tools.ts:257-331 | an item not in the plan can be neither delegated nor updated, and without a plan nothing but a submission does anything |
| PlanSafety.StartsOnlyReadyItems | apps/host/src/agent-plan-tools.ts:191-280 | whatever operation is saved, an item that becomes running by it had all its dependencies completed |
| PlanSafety.ReconcileExactly | apps/host/src/agent-plan-tools.ts:165-189 | reconciliation completes an item whose worker completed, with its report or else a standing text, hands an item whose worker ended otherwise back to the main agent as pending with the worker's own error or a standing one, and changes no other item |
| PlanSafety.ReconcileSettles | apps/host/src/agent-plan-tools.ts:165-189 | reconciliation never fails, and repeated on its result it saves nothing |
| PlanVerdicts.ReconcileSavesExactly | apps/host/src/agent-plan-tools.ts:165-189 | looking at a plan saves it exactly if a worker's run is over or the plan is due for its answer, and otherwise leaves it alone |
| PlanVerdicts.ReadyExactly | apps/host/src/agent-plan-tools.ts:282-295 | declaring a plan ready is refused while workers are owed, then while required work is open; a plan no longer active is left alone |
| PlanVerdicts.AnsweredExactly | apps/host/src/agent-plan-tools.ts:297-307 | the step after the answer completes a ready plan, refuses an active one, leaves a completed one alone |
| PlanSafety.MissingIsDifference | apps/host/src/agent-plan-tools.ts:309-318 | the routes still missing are the multiset difference of required and launched routes |
| PlanSafety.MissingExactly | apps/host/src/agent-plan-tools.ts:309-318 | of each route as many launches are missing as are required beyond the items whose current worker ran on it |
| PlanSafety.DelegationCredit | apps/host/src/agent-plan-tools.ts:199-201 | delegating an item credits the new worker's route and withdraws the credit of the worker the item had before |
| PlanSafety.MissingAgainExactly | apps/host/src/agent-plan-tools.ts:199-201 | delegating an item makes a required route missing once more if and only if the item's previous worker ran on it, the new worker does not, and the route was launched no more often than required |
| PlanSafety.ReportInOrder | apps/host/src/agent-plan-tools.ts:174-178 | the collected report is everything the assistant said in the first thousand events, in order |
| PlanSafety.ReportIsWholeText | apps/host/src/agent-plan-tools.ts:174-178 | the collected report is the worker's whole text if and only if no text was written after the first page of its events |
| PlanProgress.SomeOpenItemIsReady | apps/host/src/agent-plan-tools.ts:195-198 | behind every open item there is, along open dependencies, an open item whose own dependencies are completed |
| PlanProgress.NeverStuck | apps/host/src/agent-plan-tools.ts:165-280 | deadlock freedom: for every open required item of a saved active plan some open item behind it is ready, and either the main agent can start it or its worker's end, however it comes, lets reconciliation move it |
| PlanProgress.CanAlwaysFinish | apps/host/src/agent-plan-tools.ts:165-295 | no reachable plan is a dead end: from any saved plan not yet answered whose workers have ended, whatever is open and whichever required routes are missing, some sequence of starting items, finishing what was started, and handing items to new workers that complete brings it to its answer phase |
| PlanTools.PlanStore.SaveRunPlan | packages/storage/src/sqlite-agent-run-store.ts:147-158 | a save is refused only for an expected revision that is given and no longer current; otherwise the plan replaces what was there |
| PlanTools.MissingRequiredWorkers | apps/host/src/agent-plan-tools.ts:309-318 | striking out one route per launched worker computes the routes still missing |
| PlanTools.StrikeOut | apps/host/src/agent-plan-tools.ts:314-315 | exactly the first occurrence of the route is removed, nothing if there is none |
| PlanTools.MutatePlan | apps/host/src/agent-plan-tools.ts:320-331 | under any interference between reads and saves the call is decided by its first round that is not lost; after five lost rounds it raises and has written nothing |
| PlanTools.DecidedExactly | apps/host/src/agent-plan-tools.ts:320-331 | a call ends in its first round that is not lost: there it stores the outcome on top of what the table then holds, only if the plan read has not changed, or leaves the table alone and tells why; a lost round read a plan, had something to save, and was overtaken |
| PlanTools.SubmitPlan | apps/host/src/agent-plan-tools.ts:211-255 | a submission raises the first rule it breaks and changes nothing, or is saved; it gives up when the plan it revises has changed meanwhile |
| PlanTools.HasDuplicateId | apps/host/src/agent-plan-tools.ts:212-213 | a submission is refused for duplicate ids exactly when two items share one |
| PlanTools.CheckInputs | apps/host/src/agent-plan-tools.ts:215-219 | the item rules are checked in submission order and the first broken one is reported |
| PlanProtocol.LinearExactly | apps/host/src/agent-plan-tools.ts:252-254 | under every interleaving of calls the saves of a run are a linear history, with revisions 1, 2, 3 and each save computed from the one before, if and only if no first submission writes over a plan |
| PlanProtocol.EverySave | apps/host/src/agent-plan-tools.ts:320-331 | under every interleaving each stored plan is one operation applied to a plan that was read, satisfies the invariant, and becomes completed only by the step after the answer |
| PlanProtocol.SavesOnce | apps/host/src/agent-plan-tools.ts:320-331 | a call stores at most one plan, and one that raised or gave up stored none |
| PlanProtocol.ReadExactly | apps/host/src/agent-plan-tools.ts:320-331 | reading computes the operation on the plan then stored and ends the call unless there is something to save |
| PlanProtocol.CheckExactly | apps/host/src/agent-plan-tools.ts:320-331 | looking the row up before a save is a retry exactly if the plan read is no longer there under its revision; five lost attempts give up and a submission is never retried |
| PlanProtocol.WriteExactly | packages/storage/src/sqlite-agent-run-store.ts:147-158 | writing stores the plan exactly if the row is still as it was looked up; an inserted row raises, a changed one is a retry |
| PlanProtocol.PhaseSafety | apps/host/src/agent-plan-tools.ts:282-342 | over a whole run without such an overwrite the stored phase only moves from active to ready to completed |
| PlanProtocol.OverwriteLosesWork | packages/storage/src/sqlite-agent-run-store.ts:147-158 | there is a run of three saves in which a late first submission replaces a finished plan by revision 1 of a fresh one |
| SubagentTools.SubagentTool.Execute | apps/host/src/subagent-tools.ts:110-199 | a worker is launched if and only if no rule objects; launches per route never exceed the budget, and a launched worker is either assigned to the requested item or cancelled at once |
| SubagentTools.SubagentTool.Objection | apps/host/src/subagent-tools.ts:110-165 | which refusal a delegation meets, each in terms of the role, the budget, the plan and the item asked for |
| FairQueues.EnqueueKeeps | packages/inference-core/src/owner-fair-queue.ts:19-38 | enqueueing adds exactly the job and keeps one non-empty bucket per listed owner with the owner served last at the back |
| FairQueues.DequeueKeeps | packages/inference-core/src/owner-fair-queue.ts:46-65 | dequeueing removes exactly the served job, the oldest of its owner, which passes the test; nothing is taken only if no owner's oldest job passes |
| FairQueues.ServesIffEligible | packages/inference-core/src/owner-fair-queue.ts:44-65 | when eligibility depends on the owner, a job is served if and only if some waiting job is eligible |
| FairQueues.RemoveKeeps | packages/inference-core/src/owner-fair-queue.ts:67-80 | removing takes out exactly that job and drops an owner with nothing left |
| FairQueues.RoundRobinContents | packages/inference-core/src/owner-fair-queue.ts:82-97 | the serving order lists exactly the waiting jobs, each as often as it waits |
| FairQueues.TurnKeptByEnqueue | packages/inference-core/src/owner-fair-queue.ts:27-37 | newcomers never push back an owner already waiting, other than the one served last |
| FairQueues.TurnKeptByRemove | packages/inference-core/src/owner-fair-queue.ts:67-80 | taking a job back brings an owner that still waits no further from its turn |
| FairQueues.TurnApproaches | packages/inference-core/src/owner-fair-queue.ts:44-65 | every service to someone else while an owner is eligible brings that owner strictly closer to its turn |
| FairQueues.WaitBound | packages/inference-core/src/owner-fair-queue.ts:19-80 | over any sequence of enqueueing, removing and dequeueing, an owner not served last that stays waiting and eligible is passed over at most as often as owners stood before it |
| FairQueues.OwnerFairQueue.Enqueue | packages/inference-core/src/owner-fair-queue.ts:19-38 | the object's fields move exactly as the queue value does |
| FairQueues.OwnerFairQueue.DequeueWhere | packages/inference-core/src/owner-fair-queue.ts:46-65 | the rotating loop serves the first owner in turn whose oldest job passes and puts the owners skipped behind it, in order |
| FairQueues.OwnerFairQueue.Remove | packages/inference-core/src/owner-fair-queue.ts:67-80 | reports whether the job was waiting and takes it out if so |
| FairQueues.OwnerFairQueue.Snapshot | packages/inference-core/src/owner-fair-queue.ts:82-97 | lists the jobs in serving order without changing the queue |
| FairQueues.OwnerFairQueue.Length | packages/inference-core/src/owner-fair-queue.ts:13-17 | the length is the number of waiting jobs |
| RunCoordinator.StepInv | apps/host/src/agent-runs.ts:62-334 | every step keeps ledgers, bounds and the pool's occupation in order |
| RunCoordinator.BooksStep | apps/host/src/agent-runs.ts:183-334 | in whatever order steps come, every run is in exactly one place and its record says so |
| RunCoordinator.EveryRunAccounted | apps/host/src/agent-runs.ts:183-334 | in every history a run's events are numbered 1, 2, 3 without gaps, a run that is over has exactly one terminal event and any other has none, and a run that has left queue and pool is over and was reported once |
| RunCoordinator.ScheduleAlways | apps/host/src/agent-runs.ts:62-84 | in every history depth, concurrency and each owner's share stay within their limits, no job both waits and runs, and while accepting the pool is full or no waiting job's owner has room |
| RunCoordinator.PumpFills | apps/host/src/agent-runs.ts:237-254 | the pump respects the limits and stops only when nothing more may run |
| RunCoordinator.ShutdownIsFinal | apps/host/src/agent-runs.ts:210-235 | after shutdown nothing waits, and no later step admits a run or a job |
| RunCoordinator.OneLevelOfDelegation | apps/host/src/agent-runs.ts:88-136 | in every history a worker is recorded as the child of a run that is no worker itself, also after the worker is over |
| RunCoordinator.EndingTold | apps/host/src/agent-runs.ts:299-314 | the one terminal event of a streaming run says why it ended: shutdown before cancellation before an abort before a failure, and completion otherwise |
| RunEndings.EndingExactly | apps/host/src/agent-runs.ts:183-314 | in every history the terminal event of a run that streamed tells of the shutdown if there was one, otherwise of a cancellation if some cancel or abort reached the run before its stream ended, and only otherwise of how the stream ended |
| RunEndings.StreamingStep | apps/host/src/agent-runs.ts:117-235 | while a run streams, a step sets its cancel flag exactly if it is a cancel or abort that reaches it, its shutdown flag exactly if it is the shutdown, and changes nothing else about its job |
| RunEndings.CancelFields | apps/host/src/agent-runs.ts:183-199 | what a cancel does to every job in the two pools and to a waiting run's record, field by field |
| RunEndings.WaitingUnflagged | apps/host/src/agent-runs.ts:183-235 | in every history a job that waits has been asked to stop by nothing |
| RunNotices.InformedAlways | apps/host/src/agent-runs.ts:237-254 | in every history the last queue update of each running run says that it runs, that of each waiting run its present place in serving order, and both the present depth |
| RunNotices.PublishWrites | apps/host/src/agent-runs.ts:333 | publishing tells each running run that it runs and each waiting one its place, both the depth, in one event, and no other run anything |
| RunNotices.RecordsContinue | apps/host/src/agent-runs.ts:334 | no step rewrites a run's record: each keeps the events it had and at most gains some |
| RunNotices.StartWrites | apps/host/src/agent-runs.ts:62-84 | a run is admitted exactly if admission is open and there is room, and its record begins with its creation and the note of a retry |
| RunNotices.LaunchWrites | apps/host/src/agent-runs.ts:88-136 | when a worker is admitted, and that its record is then its creation and its start or failure |
| RunNotices.BeginWrites | apps/host/src/agent-runs.ts:256-270 | a job that begins records its start, or its failure with the report at once |
| RunNotices.DeliverWrites | apps/host/src/agent-runs.ts:287-290 | an event read from the stream is added to the run's record under the next number, and nothing else changes |
| RunNotices.EndWrites | apps/host/src/agent-runs.ts:299-314 | a stream that ends normally adds the completed answer and the ending, any other end only the ending that flags and error decide |
| RunNotices.MayHappen | apps/host/src/agent-runs.ts:62-334 | no step is kept from happening: new runs, cancellation and shutdown at any time, and a stream that goes on or ends in any way |
| RunNotices.StartsOpen | apps/host/src/agent-runs.ts:55-60 | the coordinator starts open and empty |
| AgentRuns.AgentRunCoordinator.Start | apps/host/src/agent-runs.ts:62-84 | refuses when closed, then when full, and otherwise records, enqueues, announces and pumps |
| AgentRuns.AgentRunCoordinator.LaunchSubagent | apps/host/src/agent-runs.ts:88-136 | a worker is recorded with its parent and begins at once; refused when closed, for an unknown parent, for a parent that was itself launched as a worker, and when aborted, in that order |
| AgentRuns.AgentRunCoordinator.Abort | apps/host/src/agent-runs.ts:117-119 | the parent's signal sets the cancel flag of that worker and changes nothing else |
| AgentRuns.AgentRunCoordinator.Deliver | apps/host/src/agent-runs.ts:287-290 | an event read from the stream is stored under the next number |
| AgentRuns.AgentRunCoordinator.NotifyCompletion | apps/host/src/agent-runs.ts:324-332 | a run whose stream ended is reported once and waits for its task to settle |
| AgentRuns.AgentRunCoordinator.Cancel | apps/host/src/agent-runs.ts:183-199 | finds the run wherever it is: a running one and its workers have the cancel flag afterwards and are otherwise unchanged, a waiting one gets its terminal event and report at once, and every other job stays as it was |
| AgentRuns.AgentRunCoordinator.CancelSubagentsForParent | apps/host/src/agent-runs.ts:317-323 | flags exactly the workers of that parent |
| AgentRuns.AgentRunCoordinator.Shutdown | apps/host/src/agent-runs.ts:212-235 | stops admission, interrupts everything that waits and sets the shutdown flag of everything that runs, which is otherwise unchanged |
| AgentRuns.AgentRunCoordinator.Pump | apps/host/src/agent-runs.ts:237-254 | the loop takes jobs exactly as the specified pump does |
| AgentRuns.AgentRunCoordinator.PublishQueue | apps/host/src/agent-runs.ts:333 | every running and every waiting run receives one update with its position and the depth |
| AgentRuns.AgentRunCoordinator.RunJob | apps/host/src/agent-runs.ts:256-270 | a stream is started, or a run whose stream cannot be created ends and is reported |
| AgentRuns.AgentRunCoordinator.FinishStream | apps/host/src/agent-runs.ts:299-314 | a stream's end appends its terminal event and leaves the job for its report |
| AgentRuns.AgentRunCoordinator.SettleJob | apps/host/src/agent-runs.ts:245-252 | a settled job leaves the pool, the others are told and the pool is refilled |
| AgentRuns.AgentRunCoordinator.Emit | apps/host/src/agent-runs.ts:334 | an event gets the next number of its run and is stored there |
| Transcripts.TextConserved | apps/host/src/agent-runs.ts:279-337 | for every stream the assistant entries, and likewise the reasoning entries, join up to exactly the text streamed; each entry holds exactly the text of its span, and spans are disjoint and increasing |
| TranscriptCuts.AnswerExactly | apps/host/src/agent-runs.ts:279-315 | the final entry is exactly the assistant text after the last tool start, approval request or steering message, if there is any; all other text is commentary |
| TranscriptCuts.CutSplits | apps/host/src/agent-runs.ts:284-301 | a tool start, an approval request and a steering message cut the stream in two: what came before is taken down as commentary, then the event's own entry, then what follows as if it were a stream of its own |
| TranscriptCuts.ChannelSplits | apps/host/src/agent-runs.ts:284-301 | for one channel every event that cuts its text does so, the end of a reasoning block only for the reasoning |
| TranscriptCuts.UncutIsOneEntry | apps/host/src/agent-runs.ts:279-301 | text that nothing cuts becomes one entry holding all of it, from its first delta to its last |
| TranscriptCuts.SpansUncut | apps/host/src/agent-runs.ts:284-301 | no entry's span holds an event that cuts its channel's text |
| TranscriptCuts.TextCarried | apps/host/src/agent-runs.ts:279-337 | the entries of each channel join up to all the text its events carried |
| TranscriptCuts.OthersExactly | apps/host/src/agent-runs.ts:279-301 | besides its texts the transcript has exactly one entry for each tool start, tool end and steering message, in order |
| TranscriptCuts.Consume | apps/host/src/agent-runs.ts:279-315 | the loop appends exactly the specified entries and completes a waiting plan if and only if the stream ended normally with assistant text after the last event that cuts it |
| TranscriptCuts.OnlyLastIsFinal | apps/host/src/agent-runs.ts:284-301 | at most one assistant entry is final: the last, and exactly if there is such text |
| EventStreams.ExtractAppend | apps/desktop/src/agent-event-stream.ts:33-42 | reading a text in two pieces finds the same blocks and remainder as reading it whole, even when the cut is inside a separator |
| EventStreams.BoundaryExactly | apps/desktop/src/agent-event-stream.ts:33-42 | a separator is exactly one of the four texts of two line ends, with or without carriage returns |
| EventStreams.JoinedApart | apps/desktop/src/agent-event-stream.ts:44-49 | the data lines of a block are joined by single line feeds |
| EventStreams.LinesReturn | apps/desktop/src/agent-event-stream.ts:44-49 | a carriage return before a line feed is not part of the line |
| EventStreams.ParseAgentEventStream | apps/desktop/src/agent-event-stream.ts:9-56 | chunk independence: however the text is cut, the events yielded and the failure are those of reading it whole |
| EventStreams.ReadsWhatWasWritten | apps/host/src/agent-routes.ts:251-255 | round trip: reading what the route writes for any events returns them in order, once each |
| EventStreams.PrintedExactly | apps/host/src/agent-routes.ts:251-255 | the text written for an event: its number, its type and its data, a line each, and a blank line |
| EventStreams.ReadsUnfinished | apps/desktop/src/agent-event-stream.ts:27-29 | an event whose closing blank line never came is read as well |
| EventStreams.SendPage | apps/host/src/agent-routes.ts:250-263 | a replayed page is sent whole and in order |
| EventStreams.SendLive | apps/host/src/agent-routes.ts:256-262 | a live event above the last one sent is sent if and only if no terminal event above it stands before it; those sent rise, once each, and a terminal one is the last |
| EventStreams.ServeEvents | apps/host/src/agent-routes.ts:250-269 | replay and live delivery send, once and in order, exactly the first page of the stored events above the client's position and the live ones up to and including the first terminal one; that is everything the client lacks if and only if the backlog fits one page |
| EventStreams.TerminalLast | apps/host/src/agent-routes.ts:256-262 | if the run ends while it is watched, its terminal event is sent, as the last |
| EventStreams.EndToEnd | apps/host/src/agent-routes.ts:250-269 | from the store to the client: however the written text is cut into chunks, the client reads the payloads of exactly the events sent, and these are all it wanted if and only if the backlog fits one page |
| ChatStreams.ParseSseJson | packages/adapter-ninfer/src/sse.ts:27-46 | the loop yields the payloads of the chunk-wise normalised text, for any chunks |
| ChatStreams.EventsExactly | packages/adapter-ninfer/src/sse.ts:27-46 | the events and the unfinished rest are those of the whole normalised text if and only if no cut separates a carriage return from its line feed |
| ChatStreams.LostExactly | packages/adapter-ninfer/src/sse.ts:27-46 | the whole text has exactly as many events more as there are cuts inside a pair that keep a blank line from ending and are not made up for by the line feeds that follow; so some event is lost if and only if there is such a cut |
| ChatStreams.NormalisesExactly | packages/adapter-ninfer/src/sse.ts:33 | chunk-wise normalisation equals normalising the whole text if and only if no cut separates a carriage return from its line feed |
| ChatStreams.SplitAppend | packages/adapter-ninfer/src/sse.ts:34-45 | events found piece by piece are those of the whole text |
| ChatStreams.PlainLinesExactly | packages/adapter-ninfer/src/sse.ts:34-45 | the lines of an event are what stands between its line feeds |
| ChatStreams.CutPairLosesEvent | packages/adapter-ninfer/src/sse.ts:33 | two chunks exist whose cut inside the pair loses an event that the whole text has |
| GgufInspection.NumberRoundTrip | apps/host/src/gguf-inspection.ts:50-56 | reading back a written little-endian number gives the number |
| GgufInspection.HighBytesLast | apps/host/src/gguf-inspection.ts:50-56 | in the numbers read the later byte weighs more |
| GgufInspection.GgufHeaderReader.Bytes | apps/host/src/gguf-inspection.ts:88-108 | the buffered read returns exactly the file's bytes at the position or throws, as an unbuffered read would |
| GgufInspection.GgufHeaderReader.Skip | apps/host/src/gguf-inspection.ts:81-86 | skipping moves the position within the file and the header limit or throws |
| GgufInspection.GgufHeaderReader.SkipOne | apps/host/src/gguf-inspection.ts:68-79 | skipping a value, nested arrays included, ends and lands where the unbuffered reading does, or fails where that does, also for want of call stack |
| GgufInspection.GgufHeaderReader.NextTensor | apps/host/src/gguf-inspection.ts:26-32 | one tensor description is read as the unbuffered reading reads it |
| GgufInspection.GgufHasTensor | apps/host/src/gguf-inspection.ts:10-40 | on every byte string and for every depth of the call stack the inspection ends with the answer of the unbuffered reading |
| GgufInspection.NoHeaderNoTensor | apps/host/src/gguf-inspection.ts:10-40 | a file too short for a header or not beginning with the letters GGUF has no tensor |
| GgufInspection.UnknownKindFails | apps/host/src/gguf-inspection.ts:68-79 | a value of a type the format does not have cannot be skipped |
| GgufFormat.SkipsMetadatum | apps/host/src/gguf-inspection.ts:68-79 | skipping a written metadata value of any of the thirteen types, each with its own number and width, lands exactly behind it if and only if its nesting fits the call stack |
| GgufFormat.FindsExactly | apps/host/src/gguf-inspection.ts:10-40 | for every header that can be written the answer is true if and only if some tensor name matches, version, counts, dimensions and array lengths are within their limits, and no metadata value is nested deeper than the call stack allows, whatever data follows |
| ContentBlocks.ContentView.Reconcile | apps/desktop/src/markdown.ts:48-78 | afterwards the children are exactly the new blocks' elements in order, the cache holds exactly the new ids, and every block with unchanged id and signature keeps its element |
| ContentBlocks.ContentView.Show | apps/desktop/src/markdown.ts:51-71 | one block keeps its element or gets a new one in its place, and stands at its position; earlier ones do not move |
| ContentBlocks.ContentView.RemoveInactive | apps/desktop/src/markdown.ts:72-77 | elements of blocks that are gone leave both the page and the cache, the others stay |
| ContentBlocks.PlacedKeeps | apps/desktop/src/markdown.ts:68-70 | inserting the block's element at its position keeps children and cache in step and extends the part already shown |
| PathSuffixes.PathSuffixMatches | apps/desktop/src/resource-preview.ts:144-163 | true if and only if the reference is a subsequence of the path ending at the same file name, or the path is a proper prefix of the reference |
| PathSuffixes.SubsequenceExactly | apps/desktop/src/resource-preview.ts:151-162 | the recursive reading of in-order matching is the existence of increasing positions that spell the reference |
| PathSuffixes.GreedyStep | apps/desktop/src/resource-preview.ts:157-161 | taking the last occurrence never misses a match |
| Resolutions.ConstrainResolution | apps/host/src/media-jobs.ts:615-644 | the step-by-step computation gives the specified size for every request, maximum and grid |
| Resolutions.ShrunkFits | apps/host/src/media-jobs.ts:628-632 | without a grid the rounded, shrunk size is inside the orientation-free box |
| Resolutions.ShrunkExactly | apps/host/src/media-jobs.ts:628-632 | a size that fits is kept; any other is scaled by one factor, each side rounded to the nearest, and one side comes out exactly at its bound |
| Resolutions.ConstrainedOnGrid | apps/host/src/media-jobs.ts:633-642 | both sides come out as positive multiples of the grid |
| Resolutions.ConstrainedExactly | apps/host/src/media-jobs.ts:633-642 | with a grid both sides go to the nearest grid lines; only if that is outside the box are they scaled once more by one factor and cut down to the grid lines before |
| Resolutions.ConstrainedFitsExactly | apps/host/src/media-jobs.ts:633-642 | the result is inside the box if and only if one grid cell fits the shorter allowed side |
| Resolutions.OrientationKept | apps/host/src/media-jobs.ts:615-644 | landscape stays landscape and portrait stays portrait, with or without a maximum and a grid |
| Resolutions.ConstrainIdempotent | apps/host/src/media-jobs.ts:615-644 | constraining the result again changes nothing if and only if one grid cell fits the shorter allowed side or the result is a single cell |
| Resolutions.FitsAspect | apps/host/src/media-jobs.ts:653-667 | the fitted size always lies on the grid, is inside the canvas turned the image's way if and only if one grid cell fits the canvas's shorter side, and each side is less than one cell from its exact value; a canvas without area gives a single cell |
| Resolutions.OrientedExactly | apps/host/src/media-jobs.ts:653-667 | the canvas is turned the way the image lies; a square image gets a square of its shorter side |
| Conversations.Conversation.AllEntries | apps/host/src/conversation-turns.ts:134-143 | paging by 1000 returns every entry once and in order, and ends |
| Conversations.Conversation.HasNewerActivity | apps/host/src/agent-routes.ts:316-324 | true if and only if some later entry is not a compaction, however many pages there are |
| Conversations.Conversation.DeleteFrom | packages/storage/src/sqlite-workspace-store.ts:49 | deletes exactly the entries numbered from the sequence on and counts them |
| Conversations.Conversation.AppendReplacement | apps/host/src/conversation-turns.ts:98-108 | the replacement takes the next free number, keeps id and remaining content, and carries no run |
| Conversations.Conversation.EditUserTurn | apps/host/src/conversation-turns.ts:79-96 | either the whole edit happens or nothing changes, with the error the code reports |
| Conversations.Conversation.RegenerateLatestAssistant | apps/host/src/conversation-turns.ts:33-77 | either the answer's run is erased and its prompt put back or nothing changes, with the error the code reports |
| Conversations.Conversation.RequirePersistedUserMessage | apps/host/src/agent-routes.ts:297-314 | a claim succeeds exactly for the session's own user message with that text and nothing but compactions after it, and otherwise reports the first rule broken |
| Turns.EditExactly | apps/host/src/conversation-turns.ts:79-108 | an edit succeeds exactly when no run is active, the message exists and the text is not blank, and leaves the entries before it and one replacement under the same id without a run |
| Turns.EditRefusedExactly | apps/host/src/conversation-turns.ts:79-96 | why an edit is refused: the first that applies of a run under way, no such message, a blank text |
| Turns.NamedExactly | apps/host/src/conversation-turns.ts:119-132 | which message each kind of request names: the first with the sequence number or id, if that is the user's, otherwise the last one of the user, and where an original text is given the last that says it |
| Turns.RegenerateErasesRun | apps/host/src/conversation-turns.ts:45-67 | no entry of the regenerated run remains, and the conversation before the last user message in front of the run is kept and followed by that message with its trimmed text |
| Turns.RegenerateExactly | apps/host/src/conversation-turns.ts:33-65 | regenerating succeeds if and only if the run is known, none is under way, the latest final answer is of that run, and the last user message before the run has a text that is not blank |
| Turns.RegenerateRefusedExactly | apps/host/src/conversation-turns.ts:33-65 | why regenerating is refused: the first that applies of an unknown run, a run under way, another run's answer coming later, no prompt with a text |
| Turns.EditTwice | apps/host/src/conversation-turns.ts:79-108 | two edits of a message equal the second alone except for its stored block index, and in that too unless the first text, of equal length, left other blocks than the second parses to, or, of another length, dropped an index the second alone would have kept wrongly |
| Turns.IndexIsOwnExactly | packages/protocol/src/chat-content.ts:80-83 | the index saved with a replacement is what its own text parses to, unless the message had an index that covers a text of that length with other blocks |
| Turns.StaleIndex | packages/protocol/src/chat-content.ts:80-83 | a plain text edited into a formula of the same length keeps the plain text's blocks |
| ChatContents.ParseChatContent | packages/protocol/src/chat-content.ts:31-51 | the loop collects exactly the specified blocks, special ones and the plain lines between them |
| ChatContents.BlocksExactly | packages/protocol/src/chat-content.ts:31-135 | the blocks cover the lines of a text from first to last, each as much as its kind takes: a fence or formula up to the first line that closes it or to the end, a table with its rows, a single image or link, and the plain lines before the next of these |
| ChatContents.SplitLines | packages/protocol/src/chat-content.ts:137-148 | the loop cuts a text into the specified lines |
| ChatContents.LinesExactly | packages/protocol/src/chat-content.ts:137-148 | the lines of a text run from its beginning to its end, each up to and with its line feed, and read without the line end |
| ChatContents.IsChatContentDocument | packages/protocol/src/chat-content.ts:53-70 | an index is recognised if and only if its blocks are well formed, have ids of their own and cover the length without gaps |
| ChatContents.FitsExactly | packages/protocol/src/chat-content.ts:53-70 | an index is recognised exactly if its well-formed blocks have distinct names and tile a text of that length |
| ChatContents.ParsedFitsExactly | packages/protocol/src/chat-content.ts:31-70 | what a text parses to is recognised for texts of exactly that length |
| ChatContents.SameLengthOtherBlocks | packages/protocol/src/chat-content.ts:80-83 | two texts of equal length have different blocks, and each index is recognised for the other text |
| Turns.SequenceStillNames | apps/host/src/conversation-turns.ts:124-127 | after an edit the message is still found under its sequence number if and only if no earlier number was free |
| Turns.ReplacementClaimable | apps/host/src/agent-routes.ts:297-324 | a replacement can be claimed with its prompt, and stays claimable exactly while only compactions follow |
| Turns.ClaimExactly | apps/host/src/agent-routes.ts:297-324 | a message is claimed exactly for its own conversation, without attachments, by one text that is its own, if it is the user's and only compactions follow; otherwise the first rule broken is reported |
| Turns.CutOrdered | packages/storage/src/sqlite-workspace-store.ts:30-45 | truncating and appending keeps sequence numbers increasing and ids distinct |
| Turns.MayAppend | packages/storage/src/sqlite-workspace-store.ts:30-45 | an entry that is new and numbered behind all others keeps the order of a transcript |
| Hosting.HostingService.Update | apps/host/src/hosting-service.ts:89-129 | the update with its flags and its undoing in reverse order comes to the specified outcome, whichever calls fail |
| Hosting.HostingService.ReconcileStartup | apps/host/src/hosting-service.ts:158-162 | registers where wanted and possible, removes where not wanted; a failing installation throws and a failing removal does not |
| Hosting.HostingService.Watch | apps/host/src/hosting-service.ts:147-156 | one pass of the watcher comes to the specified machine, whichever calls fail |
| Hosting.HostingService.Initialize | apps/host/src/hosting-service.ts:48-65 | starting enforces an existing settings file and adopts a funnel found without one |
| Hosting.UpdateExactly | apps/host/src/hosting-service.ts:89-129 | on any machine, which calls have to work for an update to save, and where the funnel and the registration are afterwards, in terms of the two ports and the switches that change |
| Hosting.AgreementKeptExactly | apps/host/src/hosting-service.ts:89-129 | an update saves if and only if every call it makes works; if machine and settings agreed and undoing works they agree afterwards, except exactly after a save that deferred an enable or missed a removal and after a failure of a funnel command that took effect |
| Hosting.FailureRestoresExactly | apps/host/src/hosting-service.ts:111-127 | a failed update restores the machine exactly, unless a funnel command took effect that was reported as failed, or it removed a registration whose launcher is gone |
| Hosting.DriftExactly | apps/host/src/hosting-service.ts:111-127 | when undoing fails as well, exactly what had been applied and not undone drifts from the saved settings |
| Hosting.WatchSettlesExactly | apps/host/src/hosting-service.ts:147-156 | a working watcher brings any machine into agreement except exactly for an enable waiting for a restart |
| Hosting.WatchExactly | apps/host/src/hosting-service.ts:147-156 | however its calls turn out, a pass of the watcher moves the funnel exactly if it has to, switching on only with both ports as at the start, and the registration exactly if the funnel did not fail |
| Hosting.MissedUndoPublishes | apps/host/src/hosting-service.ts:111-127 | a failing undo can leave the gateway published although hosting is off |
| Hosting.StartSettles | apps/host/src/hosting-service.ts:48-65 | a start whose calls work brings any machine and settings into agreement, and keeps the settings unless it adopts a funnel found without a settings file |
| Hosting.StartExactly | apps/host/src/hosting-service.ts:48-65 | however its calls turn out, a start adopts a funnel found without a settings file, and otherwise moves funnel and registration to where the settings want them |
| HostingProtocol.ExposedExactly | apps/host/src/hosting-service.ts:48-156 | over every interleaving of updates, repairs, reloads, watcher passes and restarts, however their calls turn out, the gateway ends up published with hosting saved as off if and only if some step switched on while off was saved or saved off while published, and none since has switched off or saved on |
| HostingProtocol.InspectExactly | apps/host/src/hosting-service.ts:147-156 | a pass switches on exactly if the settings it read have hosting on, the status was off and both ports are those of the start, and off exactly if they have it off and the status was on |
| HostingProtocol.CommandsExactly | apps/host/src/hosting-service.ts:48-156 | a command that takes effect moves the funnel where the update, the undoing, the repair, the pass or the starting host wants it; no other step moves it |
| HostingProtocol.MayHappen | apps/host/src/hosting-service.ts:48-156 | no step is kept from happening: edits and restarts at any time, new calls, queued passes, and whatever is waited for, in either way |
| HostingProtocol.RepairExactly | apps/host/src/hosting-service.ts:131-139 | a repair publishes exactly if hosting is saved as on with the ports of the start |
| HostingProtocol.SavesExactly | apps/host/src/hosting-service.ts:89-110 | a call that saves merges its patch into the settings in force then; no other step of a call touches the settings |
| HostingProtocol.MergedExactly | apps/host/src/hosting-service.ts:89-110 | the merge takes each field from the patch if it sets it and keeps it otherwise |
| HostingProtocol.LookExactly | apps/host/src/hosting-service.ts:48-65 | the starting host adopts or switches as the whole start does, by the status it saw |
| HostingProtocol.AtRestExactly | apps/host/src/hosting-service.ts:48-156 | for operations that do not overlap this is so at rest if and only if the settings were turned off under it, an enabling that took effect was reported as failed, or the undoing of one was missed, and since then nothing has switched off, saved on or begun another enabling |
| HostingProtocol.NeverPublishedAtRest | apps/host/src/hosting-service.ts:48-156 | for operations that do not overlap and commands that work it is never so at rest, whatever is edited, refused or not saved |
| HostingProtocol.OverlapPublishes | apps/host/src/hosting-service.ts:147-156 | there is a run in which every command works and an update turning hosting off overlaps a watcher pass, and at rest the gateway is published |
| HostingProtocol.AloneIsUpdated | apps/host/src/hosting-service.ts:89-129 | an update that nothing overlaps comes, step by step, to the settings and funnel of the update taken as a whole |
| UserRoutes.RunsStayConsistent | apps/host/src/user-route-resolver.ts:134-176 | over every run of changes there is one connection per owner and id, one binding per owner and role, and every binding's recipe is in a connection of its owner |
| UserRoutes.OthersUntouched | apps/host/src/user-route-resolver.ts:134-176 | a change for one owner leaves every other owner's connections and bindings as they were, in order |
| UserRoutes.AssignExactly | apps/host/src/user-route-resolver.ts:161-172 | assigning succeeds exactly for a known chat recipe of the owner and changes what that one role resolves to |
| UserRoutes.AssignRefusedExactly | apps/host/src/user-route-resolver.ts:161-172 | why assigning is refused: the first that applies of an unknown recipe, one not for chat, and one no connection of the owner offers |
| UserRoutes.ClearExactly | apps/host/src/user-route-resolver.ts:174-176 | clearing unbinds that one role |
| UserRoutes.ReplaceExactly | apps/host/src/user-route-resolver.ts:134-142 | the replaced connection is found, others are as before, and the owner's roles keep exactly the recipes still offered |
| UserRoutes.RemoveExactly | apps/host/src/user-route-resolver.ts:144-151 | the connection is gone, others stay, and exactly the owner's roles bound to its recipes are unbound |
| UserRoutes.ResolvesExactly | apps/host/src/user-route-resolver.ts:81-109 | listed model ids are distinct, each resolves to its own route and recipe even when it reads like a route name, and any other name resolves as a route |
| UserRoutes.PublicRoutesExactly | apps/host/src/user-route-resolver.ts:87-94 | an owner is offered the default route and exactly the roles it has bound, fast before smart, and nothing without a default |
| UserRoutes.RouteExactly | apps/host/src/user-route-resolver.ts:69-74 | a name resolves to the default or to what the owner has bound for the role, with the recipe of the route; otherwise the route, or its recipe, is not found |
| UserRoutes.OfferExactly | apps/host/src/user-route-resolver.ts:100-109 | listing fails exactly without a default route or with an offered recipe the host does not know |
| UserRoutes.ListedLists | apps/host/src/user-route-resolver.ts:100-109 | the list has one model for the first route with each non-blank id, with that route's recipe, and misses none |
| UserRoutes.UserRouteResolver.ReplaceConnection | apps/host/src/user-route-resolver.ts:134-142 | the two settings are overwritten as specified, or nothing changes for a foreign owner |
| UserRoutes.UserRouteResolver.RemoveConnection | apps/host/src/user-route-resolver.ts:144-151 | the two settings are overwritten as specified, or nothing changes for an unknown connection |
| UserRoutes.UserRouteResolver.AssignRole | apps/host/src/user-route-resolver.ts:161-172 | the bindings are overwritten as specified, or the first error is reported and nothing changes |
| UserRoutes.UserRouteResolver.ClearRole | apps/host/src/user-route-resolver.ts:174-176 | the bindings are overwritten as specified |
| UserRoutes.UserRouteResolver.ListModels | apps/host/src/user-route-resolver.ts:100-109 | the loop with its set of seen ids computes the specified list |
| UserRoutes.UserRouteResolver.ResolvePublicModel | apps/host/src/user-route-resolver.ts:81-85 | a name that is the model id of an offered route resolves to the first such route and its recipe, any other name as a route; without a default route, or with an offered recipe unknown to the host, that is the error |

## Left out

- Plan texts: `planAdmissionReason`, `planCompletionIssue`, `formatPlan` and the patterns that recognise an implicit
  final-answer item; whether an item matches them is an input of the model.
- The plan item status `failed`, which no operation produces; time stamps everywhere; generated ids, which are
  taken to be fresh.
- SQLite: plans are a map from runs to plans, a save is a lookup followed by a write, and an insertion that meets
  an existing row raises. Transactions are taken to be atomic, and a transcript is that of one session.
- PlanTools.SubmitPlan: other writers are let in between the read and the save, not between the two store accesses
  of the save; that finer interleaving is in PlanProtocol.
- AgentRuns.AgentRunCoordinator.Start: canonical messages and attachments written to the transcript at admission
  are not modelled; listeners and store writes are taken not to throw.
- Run coordination: promises are steps, so what may happen between two awaits is any order of steps, and the
  callbacks of one settled task are one step; `recordModelRequest`, `recordClientRetry`, `steer` and queue listings
  for display are not modelled. An owner key is taken as already trimmed and not empty.
- No claim is made that a terminal event is a run's last event: a queue update can follow it while the job leaves the pool.
- SubagentTools.SubagentTool.Execute: how the route budget is resolved, the prompts and the role registry are not
  modelled; whether a role is known is an input.
- Wire formats: text decoding, JSON syntax and aborts are left out; JSON is a line of text and whether a payload
  parses is a predicate. Short reads of the file system are not modelled; how many calls the stack has room for
  when a GGUF header is inspected is a parameter.
- Lengths of strings count characters; the code counts UTF-16 units, which differ outside the basic plane.
- ContentBlocks: rendering, data attributes and the derivation of signatures; a block's signature is given, and
  block ids are distinct as in every valid document.
- Resolutions: sizes are computed in exact rationals, so floating-point rounding is not modelled; parsing and
  printing of sizes, `lineage` and the other parameters of a media job are left out.
- PlanProgress.CanAlwaysFinish: it is about the plan's own rules; how many launches the delegation tool's budget still
  allows is not counted.
- ChatContents: what the patterns for single lines recognise (fences, table dividers, images and links) is a parameter;
  names of blocks are pairs of type and start.
- Hosting: registering, saving and undoing calls have no effect when they fail, while a funnel command may fail after it
  took effect. Gateway start and stop and status reports are left out.
- HostingProtocol: the registration is left out apart from whether registering succeeds; of the settings file only the
  hosting part occurs, so an edit of the rest is an edit that changes nothing; a command issued before a restart is
  taken to have had its effect, or none, before it.
- UserRoutes: stored settings that do not parse are dropped by the code when read and do not occur in the model;
  display names, execution classes and media routes are left out.
- HTTP registration, authentication, process control, file system walks, engine reconcilers and request
  validation are not part of this model.
