# Bridge verification

A Dafny model of the self-contained cores of the bridge between a terminal client and an agent
runtime (`bridge/grok-leader`), with the guarantees those cores are there to give.

Concurrent code is modelled as the atomic steps between two suspension points. A state is a value,
each step a function on it; a run is any sequence of enabled steps, with whatever the environment
answers; an invariant is shown to survive every step, and the main results are statements about
every run. Beside each model stands a class with the source's own fields, updated in place by the
source's own loops and branches, whose methods are shown to be exactly those steps. What a step does
is in turn pinned by results that do not mention it: a story told from what the client and the agent
did, which every run is shown to follow.

| files | core |
|---|---|
| `PromptQueueModel`, `PromptQueueSafety`, `PromptQueueProgress`, `PromptQueueSettlement`, `PromptQueuePlaces`, `PromptQueue` | the prompt queue and its row controls: steps, invariants, progress, the queue in place |
| `PromptQueueAnswers`, `PromptQueueOrder`, `PromptQueueWording`, `PromptQueueRequests` | what each prompt is answered, when it runs, what it says, and what the client asked for, told from the actions alone |
| `AssistantStream`, `AssistantStreamRuns`, `OutputFifo`, `TokenMeters` | session output: streaming, ordered sending, token meters |
| `SessionRegistry`, `SessionRegistryReloads` | publication, withdrawal, reload and shutdown of sessions |
| `AdmissionLanes` | admission of remote calls |
| `CacheHitPercent`, `FrameCodec`, `CommandLine`, `CommandGrammar` | the cache-hit percentage, the frame codec, the slash-command tokenizer |
| `ChildHistory`, `RewindCut`, `SessionList`, `SessionListRuns`, `SessionListRequests` | the child-log index, the rewind cut, the session picker's index |
| `Refreshers` | the three coalesced refreshes |
| `Option`, `JsText` | shared vocabulary |

Some of what one would like to claim does not hold without a condition. In those places the model
keeps the code as it is and states the condition:

* A prompt row whose steering fails is rejected and stays queued, so a settled RPC may still hold a place; it does as long as it would if it were unsettled (`PromptQueueSafety.NoOrphan`, `PromptQueuePlaces.RowGoesOn`, `PromptQueuePlaces.FailedSteeringKeepsRow`).
* A settlement logged only after its end frame is sent whole again, and so is a committed message that embeds no stream: chunks repeat exactly if some were shown live (`AssistantStream.LateComesWhole`, `AssistantStream.ExactlyOnce`, with the runs `LateShownTwice` and `AssembledShownTwice`).
* An event folded while settlements before it wait for their end frame changes the meters exactly if it is the retry that fences the last held usage or brings a different usage (`TokenMeters.SyncStep`); after such a retry, once its step reports again, the totals are wrong exactly if the held usage weighs something else than what it replaced (`TokenMeters.FenceLost`, with the run `TokenMeters.OvertakenFence`), and after such a usage exactly as `TokenMeters.UsageOvertaken` and `TokenMeters.UsageOvertakenThen` say (with the run `TokenMeters.OvertakenUsage`).
* A picker inspection that lands after live events it did not read undoes them. It leaves the picker wrong exactly if they hold a first prompt that none read precedes, a title other than the last one read, or a later time (`SessionListRuns.LandingAgrees`, `SessionList.InspectTracks`); each of the three happens (`SessionListRuns.OneMissed`, `SessionListRuns.LostTitleTimePrompt`), and a hidden prompt does not come back (`SessionList.StaleInspection`).
* A log in which two turns start in a row makes the rewind before it refuse (`RewindCut.CutIsLongest`, `RewindCut.DoubleStartLeavesOpen`).
* A word with a control character does not survive the printed rerun command (`CommandLine.TokenizerUndoesPrinter`). JSON string literals follow section 7 of RFC 8259.
* A refresh requested while a session takes no input, as during a reload, is refused, and is not made up for if the reload fails: so for the command roster, the children and the reminders, each with its exact condition and a run (`NoLostRequest` and `RefusalLosesRequest` of `CommandRefresh`, `ChildRefresh` and `ReminderReads`). A command-roster read that fails drops a request that arrived during it (`CommandRefresh.FailureLosesRequest`).
* A cancelled children refresh deletes its entry twice; if another began in between, a third may run beside it (`ChildRefresh.OneAtATime`, `ChildRefresh.LateCleanUpOverlaps`).
* An RPC queued behind a held front row, or in a session lost without disposal, waits (`PromptQueueProgress.AtRest`).

## Environment

* `notify`, `echo`, `broadcast` and the native `cancel` do not throw; `whenIdle` does not reject.
* The prompt queue's `isLive` goes false for good, or through a reload that first cancels the queue.
* Timers, I/O, clocks and native services are completions that may happen at any point, with any answer.
* An output that is closed stays closed.
* A session record object is offered to `publish` once, or again while it is published, and under its own session id.
* Session logs number their events from zero where a result says so, and a creation time is one value per session.

## Model

| member | source | states |
|---|---|---|
| PromptQueueSafety.StepKeeps | bridge/grok-leader/src/prompt-queue.ts:150-523 | every atomic step of the queue, from any party, keeps the whole invariant: places, admissions, one running slot, service of the queue, history |
| PromptQueueSafety.NoOrphan | bridge/grok-leader/src/prompt-queue.ts:316-374 | after every interleaving an unsettled prompt RPC sits in exactly one of preparing, queue, running slot and steered; a settled one in none, except a row whose steering failed |
| PromptQueuePlaces.SettledPlace | bridge/grok-leader/src/queue-controls.ts:150-163 | in every run a settled RPC that has a place was answered by a failed steering and has had a place ever since |
| PromptQueuePlaces.NeverRegained | bridge/grok-leader/src/prompt-queue.ts:316-374 | a settled RPC without a place never gets one again, whatever runs |
| PromptQueuePlaces.RowGoesOn | bridge/grok-leader/src/queue-controls.ts:132-165 | the row a failed steering leaves goes through every later run exactly as if its RPC were unsettled: placed while that RPC would have no answer, gone once it would have one other than another failed steering |
| PromptQueuePlaces.FailedSteeringKeepsRow | bridge/grok-leader/src/queue-controls.ts:132-165 | a run in which a steering fails: the client is answered and the row stays queued |
| PromptQueueSafety.OneRunningSlot | bridge/grok-leader/src/prompt-queue.ts:150-273 | the in-flight prompt is the running one, steered prompts and a send-now trigger exist only beside it, a run starts only after the previous one ended, no prompt starts twice, and `admissions` counts the preparing slots |
| PromptQueueSafety.NotStranded | bridge/grok-leader/src/prompt-queue.ts:291-306 | a live queue whose front is not edit-held always has a running prompt or a scheduled promotion; a disposed queue is empty |
| PromptQueueSafety.AdmissionOrder | bridge/grok-leader/src/prompt-queue.ts:426-477 | prompts enter in submit order under any completion and cancellation order, none submitted before a whole-session cancel enters after it, and at most one slot that has not retired prepares at a time |
| PromptQueueSafety.DistinctIds | bridge/grok-leader/src/prompt-queue.ts:428-433 | two prompts that hold places never carry the same id |
| PromptQueueSafety.TurnIsMaximal | bridge/grok-leader/src/prompt-queue.ts:252-264 | with combining on, a promoted turn is the longest run of unheld, image-free rows behind an image-free front; otherwise the front alone |
| PromptQueueSafety.ReorderPermutes | bridge/grok-leader/src/queue-controls.ts:224-243 | reordering permutes the rows, whatever ids the client names, unknown or repeated ones included |
| PromptQueueAnswers.RunAnswered | bridge/grok-leader/src/prompt-queue.ts:166-236 | in every run, told from the actions: a flushed turn is marked ended, and its RPC answered, with what first ended it, which is the stop reason of the turn that claimed its message or cancelled, and a rejection exactly if its follow-up, its turn or the flush failed; prompts steered into it stop as it does; the mark tells whether a prompt jumped ahead |
| PromptQueueAnswers.AnsweredFor | bridge/grok-leader/src/prompt-queue.ts:382-475 | in every run a step answers an unanswered RPC exactly as it addresses it: clearing, removal and cancellation of a queued or preparing prompt, a failed or fenced preparation, a failed steering, the end of its turn; beyond that it only cancels prompts that it folds into a combined turn |
| PromptQueueOrder.JumperRunsNext | bridge/grok-leader/src/prompt-queue.ts:319-331 | in every run a send-now prompt that enters beside a turn, or an interjected row, is the next to start, and until then at the front with no turn under way, unless another interjection, a reorder, or a cancellation, removal or clearing that reaches it comes before |
| PromptQueueOrder.FirstComeFirstServed | bridge/grok-leader/src/prompt-queue.ts:364-373 | in every run in which nothing jumps the queue or is reordered, prompts start in the order they entered, and those queued are in that order behind all that started |
| PromptQueueOrder.TurnTakesOldest | bridge/grok-leader/src/prompt-queue.ts:239-273 | with the rows in that order, a turn starts with the oldest queued prompt, and those it folds are older than all it leaves |
| PromptQueueWording.RunsAsWritten | bridge/grok-leader/src/queue-controls.ts:94-103 | in every run a queued prompt says what was prepared for it as last edited for its version, and a turn starts with exactly that, or with the joined texts of the prompts it folds, its own first |
| PromptQueueRequests.HeldAndSteered | bridge/grok-leader/src/queue-controls.ts:132-222 | in every run the held ids are exactly those asked to be held and not yet lifted, no turn starts with a held prompt, and a prompt rides the running turn exactly from when it was prepared or its row steered beside it, if the agent took it, until that turn is flushed |
| PromptQueueRequests.SubmissionTaken | bridge/grok-leader/src/prompt-queue.ts:426-447 | in every run a submission is taken, unanswered and preparing, exactly if the session is live and no prompt that holds a place carries its id; else nothing changes |
| PromptQueueRequests.CancellationTold | bridge/grok-leader/src/prompt-queue.ts:395-418 | in every run a targeted cancellation answers cancelled exactly if a prompt with the id prepares, waits or runs and has not ended, already submitted if it rides a turn or its own has ended, not found if there is none |
| PromptQueueProgress.NoDeadlock | bridge/grok-leader/src/prompt-queue.ts:188-306 | no lost wakeup: while an RPC is unsettled a promised completion is still due, unless it is queued with no run before it, behind a held front of a live queue or in a session lost without disposal |
| PromptQueueProgress.CompletionOwes | bridge/grok-leader/src/prompt-queue.ts:459-475 | every completion strictly lowers a bound on what the environment still has to deliver |
| PromptQueueProgress.CompletionsEnd | bridge/grok-leader/src/prompt-queue.ts:459-475 | a run of completions without new input is no longer than that bound |
| PromptQueueProgress.AtRest | bridge/grok-leader/src/prompt-queue.ts:511-527 | in a queue at rest the unsettled RPCs are exactly those queued so, but for rows a failed steering left there |
| PromptQueueEngine.PromptQueue.FoldFollowers | bridge/grok-leader/src/prompt-queue.ts:252-264 | the splice loop takes exactly the followers of the turn off the queue, collects their texts and settles them cancelled |
| PromptQueueEngine.PromptQueue.AdvancePromptQueue | bridge/grok-leader/src/prompt-queue.ts:239-273 | the in-place promotion is the model step `Advance` |
| PromptQueueEngine.PromptQueue.PromoteWhenIdle | bridge/grok-leader/src/prompt-queue.ts:291-306 | the in-place promotion entry point is the model step `Promote` |
| PromptQueueEngine.PromptQueue.EnqueuePrompt | bridge/grok-leader/src/prompt-queue.ts:317-374 | send now, steering and queueing in place are the model step `Enqueue`, failed steering included |
| PromptQueueEngine.PromptQueue.DiscardPromptQueue | bridge/grok-leader/src/prompt-queue.ts:309-314 | the loop settles every queued prompt cancelled and clears the holds |
| PromptQueueEngine.PromptQueue.FlushDone | bridge/grok-leader/src/prompt-queue.ts:209-236 | the cleanup of a run in place is the model step: slot freed, outcome and steered prompts settled, promotion asked for |
| PromptQueueEngine.PromptQueue.CancelPrompt | bridge/grok-leader/src/prompt-queue.ts:395-418 | targeted cancellation finds the running, queued, steered or preparing owner in that order and answers which it was |
| PromptQueueEngine.NamedRows | bridge/grok-leader/src/queue-controls.ts:228-236 | the id index of the reorder loop takes each named row once, in the client's order, and leaves exactly the others |
| PromptQueueEngine.InOrder | bridge/grok-leader/src/queue-controls.ts:224-243 | the rebuilt queue is the named rows in the client's order, then the others in queue order |
| PromptQueueEngine.PromptQueue.Perform | bridge/grok-leader/src/prompt-queue.ts:420-527 | every enabled action in place is one step of the model and keeps the invariant |
| CacheHitPercent.RoundedIntegerPercent | bridge/grok-leader/src/projection.ts:188-203 | the binary search returns the percentage rounded half up, for every count |
| CacheHitPercent.Threshold | bridge/grok-leader/src/projection.ts:189-196 | each comparison decides the exact midpoint while no product exceeds the denominator (or 199 * 199) |
| CacheHitPercent.Percent | bridge/grok-leader/src/projection.ts:210-239 | no result exactly for no tokens; `100` when nothing missed; otherwise the half-up rounding at the least number of decimals that stays below 100; the decimal loop ends |
| CacheHitPercent.RoundedLoss | bridge/grok-leader/src/projection.ts:228-237 | the last digit is the least loss whose upper midpoint the gap does not pass |
| CacheHitPercent.LossTest | bridge/grok-leader/src/projection.ts:230-236 | the threshold of the loop stays at or below the denominator and decides the exact midpoint |
| CacheHitPercent.FewerRoundUp | bridge/grok-leader/src/projection.ts:221-227 | while the scaled gap is at most a tenth of the denominator, every smaller number of decimals still rounds up to 100 |
| CacheHitPercent.RenderReads | bridge/grok-leader/src/projection.ts:238-238 | a displayed percentage reads back as the share it was rendered from, to its last decimal |
| CacheHitPercent.OnlyFullShowsHundred | bridge/grok-leader/src/projection.ts:205-209 | a share at its least number of decimals is never displayed as `100` |
| AssistantStream.StepKeeps | bridge/grok-leader/src/session-output.ts:299-374 | every frame, event, replay and close keeps the stream invariant: delivered indices, what was shown live, fresh pending events |
| AssistantStream.ExactlyOnce | bridge/grok-leader/src/session-output.ts:296-337 | whatever ran before and follows, the client gets each displayable chunk of the event an end frame names once, across live frames, embedded stream and assembled content, with its own text, if and only if the event embeds its stream or nothing was shown live; and in log order if and only if, besides, what was shown live is a prefix |
| AssistantStream.AssembledShownTwice | bridge/grok-leader/src/projection.ts:434-446 | a run in which a committed message that embeds no stream repeats what was shown live |
| AssistantStream.NeverBorrows | bridge/grok-leader/src/session-output.ts:296-306 | a pending event the end frame does not name comes whole, whatever the attempt delivered live |
| AssistantStream.SupersededComesWhole | bridge/grok-leader/src/session-output.ts:312-322 | in every run and whatever follows, what an attempt left pending when a newer one superseded it comes whole on top of what was shown live: once each if and only if nothing was shown |
| AssistantStream.LateComesWhole | bridge/grok-leader/src/session-output.ts:365-374 | whatever follows, an event logged only after its end frame is sent whole on top of what was shown live: exactly once if and only if nothing was shown |
| AssistantStream.LateShownTwice | bridge/grok-leader/src/session-output.ts:365-374 | a run that ends so: the only chunk is sent twice |
| AssistantStream.InLogOrder | bridge/grok-leader/src/projection.ts:434-440 | shown and settled positions are in log order if and only if the shown ones are a prefix of the displayable ones |
| AssistantStreamRuns.LiveAsHeard | bridge/grok-leader/src/session-output.ts:309-337 | in every run, told from the inputs: what the client was sent live is exactly the text and reasoning chunks, none of them empty, of the delta frames heeded, the first of each index, in order of arrival, and what is pending is exactly what was logged since and held |
| AssistantStreamRuns.OthersComeWhole | bridge/grok-leader/src/session-output.ts:365-380 | in every run an event that does not wait for an end frame is sent whole from itself, once, with its own text, whatever follows |
| AssistantStreamRuns.IgnoredIsSilent | bridge/grok-leader/src/session-output.ts:365-412 | what was admitted before, comes to a closed output, or is replayed only for its meters, is not sent |
| AssistantStream.SessionOutput.DrainAssistantEvents | bridge/grok-leader/src/session-output.ts:299-308 | the settlement loop in place is the model step `Drain` |
| AssistantStream.SessionOutput.Assistant | bridge/grok-leader/src/session-output.ts:309-337 | the frame handler in place is the model step `OnFrame` |
| AssistantStream.SessionOutput.LiveEvent | bridge/grok-leader/src/session-output.ts:365-380 | live admission in place is the model step `OnEvent` |
| AssistantStream.SessionOutput.Restore | bridge/grok-leader/src/session-output.ts:401-428 | the replay loop is a run of replay steps: events the live side already carried are skipped |
| OutputFifo.StepKeeps | bridge/grok-leader/src/session-output.ts:122-201 | every call, drain step, settlement and close keeps the line of sent, current and waiting calls ascending and accounts for each accepted call |
| OutputFifo.SentInOrder | bridge/grok-leader/src/session-output.ts:157-201 | in every run what was sent is in call order with the captured prompt id and text, wire positions count 1, 2, 3 across updates and notifications, and each accepted call is in line once, failed to load, or came due after close |
| OutputFifo.DeliveredAsMade | bridge/grok-leader/src/session-output.ts:157-201 | in every run, told from the actions: each update sent carries the prompt id and replay mark of its call, and its own text or the content its loading delivered; a call failed exactly if its loading did, came too late exactly if it was due after the close, and every notification on an open output was sent |
| OutputFifo.SentAtOnce | bridge/grok-leader/src/session-output.ts:162-200 | a call on an open output is sent at once exactly if it is plain, live and finds the drain at rest; otherwise the drain owes it; a closed output takes none |
| OutputFifo.NothingMissing | bridge/grok-leader/src/session-output.ts:122-149 | once the drain rests on an open output, what was sent is every accepted call but those whose loading failed |
| OutputFifo.DrainGoesOn | bridge/grok-leader/src/session-output.ts:125-149 | the drain rests only on an empty queue; until then a drain step is possible and each one lowers the work left |
| OutputFifo.DrainEnds | bridge/grok-leader/src/session-output.ts:125-149 | a run of drain steps is no longer than that work |
| OutputFifo.OutputQueue.Update | bridge/grok-leader/src/session-output.ts:157-201 | a plain, promised or replayed update in place is sent at once or queued exactly as the model says |
| OutputFifo.OutputQueue.Take | bridge/grok-leader/src/session-output.ts:129-133 | taking at the head index is taking the oldest waiting item; an exhausted queue is reset |
| OutputFifo.OutputQueue.Compact | bridge/grok-leader/src/session-output.ts:137-142 | compaction changes no waiting item and keeps consumed slots at 1024 or about half of the queue |
| OutputFifo.OutputQueue.Settle | bridge/grok-leader/src/session-output.ts:168-200 | an item that is due is sent, recorded as failed, or dropped after close |
| TokenMeters.FoldIsSum | bridge/grok-leader/src/session-output.ts:204-223 | the running fold equals the sum over all positions of the last usage of each run: usage-bearing settlements of one turn and step with no other usage and no fence of theirs between |
| TokenMeters.EachKindCounted | bridge/grok-leader/src/session-output.ts:215-218 | each of the four counters is the sum of its own kind of token over those usages, a cache count that is not reported being none |
| TokenMeters.TotalsAreSum | bridge/grok-leader/src/session-output.ts:116-120 | under any overlap of replay and live delivery no event is folded twice and the totals are that sum over the folded events |
| TokenMeters.ExactlyOnce | bridge/grok-leader/src/session-output.ts:401-412 | when live delivery continues the restored prefix, exactly that prefix is folded or held back, each event once |
| TokenMeters.OrderedStep | bridge/grok-leader/src/session-output.ts:296-306 | log order is kept by a step if and only if no event is folded while an earlier settlement waits for its end frame |
| TokenMeters.OrderMatters | bridge/grok-leader/src/session-output.ts:204-223 | folding an event before the held settlements of one step instead of after them changes the meter if and only if it fences the last held usage or brings another usage than that one |
| TokenMeters.SyncStep | bridge/grok-leader/src/session-output.ts:296-306 | a step keeps the meter equal to that of log order, up to what is held back, if and only if it does not harm: it does not overtake a held usage with its own retry or with another usage |
| TokenMeters.TotalsOfPrefix | bridge/grok-leader/src/session-output.ts:204-223 | in a run without harmful steps, and with nothing held back, the totals are the sum over the admitted prefix of the log |
| TokenMeters.FenceLost | bridge/grok-leader/src/session-output.ts:206-209 | a retry that overtakes the held usage it fences, once that step reports again: the totals are those of log order if and only if the held usage weighs what it replaced |
| TokenMeters.OvertakenFence | bridge/grok-leader/src/session-output.ts:206-209 | a retry that overtakes the settlement it fences is lost: the later settlement replaces the earlier one instead of adding to it |
| TokenMeters.UsageOvertaken | bridge/grok-leader/src/session-output.ts:204-223 | a usage that overtakes a held one: the totals are those of log order if and only if, of one step, both weigh the same, or, of two, both replaced the same weight |
| TokenMeters.UsageOvertakenThen | bridge/grok-leader/src/session-output.ts:204-223 | and once another usage follows: if and only if that one is of the same step too or the two weigh the same, or, of two steps, what the overtaking one and the last one replaced weighs the same in both orders |
| TokenMeters.OvertakenUsage | bridge/grok-leader/src/session-output.ts:204-223 | a run in which the next step settles twice while this one is held: the totals are wrong unless its first usage is nothing |
| TokenMeters.AssistantEventUsage | bridge/grok-leader/src/projection.ts:255-265 | the backward scan answers the usage a message states, else the last its stream reports, for an attempt always that one, and none for other events |
| TokenMeters.OutputState.NoteEvent | bridge/grok-leader/src/session-output.ts:204-223 | the counters updated in place are the fold step |
| TokenMeters.OutputState.DrainPending | bridge/grok-leader/src/session-output.ts:299-307 | the loop folds the held settlements in order and empties the list |
| SessionRegistrySafety.StepKeeps | bridge/grok-leader/src/session-registry.ts:77-217 | every publication, withdrawal, teardown stage, reload phase and operation keeps each record's parts consistent with what happened to it |
| SessionRegistrySafety.IdExclusive | bridge/grok-leader/src/session-registry.ts:74-110 | in every run an id is never both published and retiring, and any earlier owner of a published id was refused or has drained, flushed (or been flushed by its reload) and been disposed, in that order and once |
| SessionRegistrySafety.PublicationStands | bridge/grok-leader/src/session-registry.ts:182-193 | in every run a record once offered bears one lasting mark: published if and only if, when it was offered, the leader was open, its client connected and its id neither published nor retiring; otherwise refused, and a refused one never owns an id |
| SessionRegistrySafety.FailedReload | bridge/grok-leader/src/session-registry.ts:118-172 | a reload takes input away and a second one is refused; however its preflight ends short of retiring, the same owners stay published and a still-published record of an open leader takes input again |
| SessionRegistryReloads.ReloadWithdraws | bridge/grok-leader/src/session-registry.ts:125-172 | in every run a reload withdraws its record exactly if all its five phases, cancellation hooks included, ended well and it was still the owner; then the record is retiring, flushed by its reload, and nobody has its id before it has drained and been disposed; from its second phase on the reload ends exactly if a phase failed or the place was lost |
| SessionRegistryReloads.NoFailureLost | bridge/grok-leader/src/session-registry.ts:93-107 | in every run a teardown has collected exactly the failures its stages met |
| SessionRegistrySafety.WaitsDescend | bridge/grok-leader/src/session-registry.ts:98-99 | in every run a wait goes to a task of lower rank: a withdrawn reload to its teardown, a teardown to the borrow it found, operations and shutdown to both |
| SessionRegistrySafety.NoWaitCycle | bridge/grok-leader/src/session-registry.ts:160-163 | no chain of waits comes back to where it started |
| SessionRegistrySafety.NoDeadlock | bridge/grok-leader/src/session-registry.ts:113-117 | even if every operation is blocked: while a record is to be swept, reloads or is torn down, one of those steps can be taken, and once nothing of the kind is left no operation waits |
| SessionRegistrySafety.MovesUnlessWaiting | bridge/grok-leader/src/session-registry.ts:96-172 | an outstanding reload or teardown has an enabled step of its own if and only if it waits for nothing |
| SessionRegistrySafety.SettlesDown | bridge/grok-leader/src/session-registry.ts:113-117 | left alone, the leader rests within a number of steps its state bounds |
| SessionRegistrySafety.ShutdownMissesNothing | bridge/grok-leader/src/session-registry.ts:202-217 | once a disposed leader has swept its records and every teardown is through, whatever reloads and operations are still about, no id is published or retiring and every record ever accepted or refused was disposed, once and last |
| SessionRegistryEngine.SessionRegistry.Withdraw | bridge/grok-leader/src/session-registry.ts:77-110 | withdrawal in place is the model step: one release per record, whatever reenters |
| SessionRegistryEngine.SessionRegistry.PublishRecord | bridge/grok-leader/src/session-registry.ts:182-193 | publication in place is the model step |
| SessionRegistryEngine.SessionRegistry.ContinueReload | bridge/grok-leader/src/session-registry.ts:137-172 | each continuation of a reload in place is the model step: recheck the owner, release the borrow before withdrawing itself |
| SessionRegistryEngine.SessionRegistry.ContinueTeardown | bridge/grok-leader/src/session-registry.ts:96-108 | each continuation of a teardown in place is the model step: failures never skip a later stage |
| SessionRegistryEngine.SessionRegistry.Disconnect | bridge/grok-leader/src/session-registry.ts:194-201 | every record of the client is withdrawn and retiring, and no other record moves |
| SessionRegistryEngine.SessionRegistry.Dispose | bridge/grok-leader/src/session-registry.ts:202-217 | shutdown withdraws every published record; a second call changes nothing |
| AdmissionLanes.StepKeeps | bridge/grok-leader/src/remote-channel.ts:195-228 | every step keeps each lane counting its client's slots and listing its waiters in arrival order |
| AdmissionLanes.Bounded | bridge/grok-leader/src/remote-channel.ts:192-208 | in every run, per client: at most 8 slots and 8 unsettled native calls, answered reads included, at most 32 waiters and only while all slots are taken, slots given in arrival order |
| AdmissionLanes.EvictsOldest | bridge/grok-leader/src/remote-channel.ts:222-225 | a waiter is dropped for overflow only as its lane's oldest, when exactly 32 newer ones wait |
| AdmissionLanes.SettlesOnce | bridge/grok-leader/src/remote-channel.ts:209-226 | an acquire gets a slot or is dropped, once, and neither changes afterwards |
| AdmissionLanes.ServedAsBooked | bridge/grok-leader/src/remote-channel.ts:195-228 | in every run the lanes treat each call as looking at all calls would: a new one gets a slot while its client holds fewer than 8, else waits unless its client is gone, at the cost of the oldest of 32 waiters; a released slot goes to the oldest waiter; a departure drops the client's waiters; nothing else moves a call |
| AdmissionLanes.ServingEnds | bridge/grok-leader/src/remote-channel.ts:317-334 | starting, settling, answering and releasing calls strictly lowers the work left |
| AdmissionLanes.NobodyStuck | bridge/grok-leader/src/remote-channel.ts:202-207 | while a call holds or awaits a slot, some call can be served |
| AdmissionLanes.Lanes.DoAcquire | bridge/grok-leader/src/remote-channel.ts:199-227 | acquiring in place is the model step: a slot, a place in line, a refusal, or the oldest pushed out |
| AdmissionLanes.Lanes.DoRelease | bridge/grok-leader/src/remote-channel.ts:202-207 | releasing in place hands the slot to the oldest waiter, frees it, or deletes the empty lane |
| AdmissionLanes.Lanes.DoLeave | bridge/grok-leader/src/remote-channel.ts:211-215 | the abort listeners drop each of the client's waiters and nobody else |
| FrameCodec.EncodeFrame | bridge/grok-leader/src/codec.ts:25-33 | the frame is the big-endian length and the payload, or an error exactly over the size cap |
| FrameCodec.RoundTrip | bridge/grok-leader/src/codec.ts:25-117 | scanning the concatenated encodings of payloads within the cap yields exactly those payloads and no rest |
| FrameCodec.ScanSplit | bridge/grok-leader/src/codec.ts:89-117 | scanning a stream in two parts is scanning it whole |
| FrameCodec.FrameDecoder.Push | bridge/grok-leader/src/codec.ts:89-117 | one push returns the frames a scan of the buffered bytes and the chunk completes and buffers its rest, or fails on an over-size header |
| FrameCodec.Fragmented | bridge/grok-leader/src/codec.ts:72-117 | any split of the encodings, empty chunks and empty payloads included, decodes to the payloads |
| FrameCodec.StateIsSuffix | bridge/grok-leader/src/codec.ts:77-81 | the decoder state is exactly the undecoded suffix of what was fed |
| FrameCodec.Poisoned | bridge/grok-leader/src/codec.ts:99-102 | after an over-size header every later non-empty push fails |
| FrameCodec.Receive | bridge/grok-leader/src/codec.ts:89-117 | feeding a decoder the chunks of encoded payloads one by one receives exactly those payloads |
| ChildHistory.AtOrBefore | bridge/grok-leader/src/child-history.ts:12-20 | the binary search finds the last entry at or before the position, as a scan does |
| ChildHistory.CallListAnswers | bridge/grok-leader/src/child-history.ts:75-78 | searching a call id's own list answers what scanning the log would |
| ChildHistory.CallAtIsLast | bridge/grok-leader/src/child-history.ts:52-59 | the answer is that of the last matching log position at or before the queried one, by its name and with the arguments of a dispatch unparsed; there is none exactly if nothing matches |
| ChildHistory.TurnListAnswers | bridge/grok-leader/src/child-history.ts:71-73 | searching the turn list answers what scanning the log would |
| ChildHistory.TurnAtIsLast | bridge/grok-leader/src/child-history.ts:71-73 | that answer is the time of the last turn start at or before the queried position, and there is none exactly if no turn started by then |
| ChildHistory.LastRunIs | bridge/grok-leader/src/child-history.ts:60-63 | of several runs of one command the last in the log counts |
| ChildHistory.ChildHistoryIndex.IngestPage | bridge/grok-leader/src/child-history.ts:46-62 | a page extends the indexed prefix by its contiguous beginning, event by event; a gap stops it there |
| ChildHistory.ChildHistoryIndex.Sync | bridge/grok-leader/src/child-history.ts:39-69 | whatever the outcome, the index stays the fold of one prefix extended by exactly what the pages continued it with; it reports success at a wanted count exactly when the prefix reached it |
| ChildHistory.ChildHistoryIndex.ToolCallAt | bridge/grok-leader/src/child-history.ts:75-78 | the answer is the scan of the indexed prefix |
| ChildHistory.ChildHistoryIndex.TurnStartAt | bridge/grok-leader/src/child-history.ts:71-73 | the answer is the scan of the indexed prefix |
| RewindCut.Cut | bridge/grok-leader/src/session-lifecycle.ts:353-361 | the backward scan stops at the open turn before the target, else at the target |
| RewindCut.CutIsLongest | bridge/grok-leader/src/session-lifecycle.ts:353-377 | for every log: the kept prefix ends in an open turn if and only if two turns started in a row just before the target, and otherwise it is the longest closed prefix before it |
| RewindCut.DoubleStartLeavesOpen | bridge/grok-leader/src/session-lifecycle.ts:353-377 | a log in which two turns start in a row before the only prompt, so that its rewind is refused |
| RewindCut.RewindNeverRefused | bridge/grok-leader/src/session-lifecycle.ts:375-377 | with alternating turn boundaries a rewind keeps the longest closed prefix that excludes its prompt, so the open-turn refusal cannot fire |
| RewindCut.PromptsAreAll | bridge/grok-leader/src/session-lifecycle.ts:346-351 | the positions a rewind chooses from are those of every user prompt, ascending |
| RewindCut.TextJoins | bridge/grok-leader/src/session-lifecycle.ts:352-352 | the text of a prompt is that of its blocks in order with nothing between |
| RewindCut.ForkSession | bridge/grok-leader/src/session-lifecycle.ts:344-377 | the fork's seed, prompt text and refusals, for every log and target |
| RewindCut.RewindPoints | bridge/grok-leader/src/session-lifecycle.ts:393-412 | a paged result is the points of `end` consecutively numbered events whatever the store answers, and an honest store always yields the points of its prefix |
| RewindCut.PointsNameTargets | bridge/grok-leader/src/session-discovery.ts:194-211 | point n of a durable prefix names the event and text that target n cuts at, however the log has grown since |
| SessionList.FirstUserPrompt | bridge/grok-leader/src/session-list.ts:39-51 | the nested loops return the first non-blank text block of a user message, trimmed |
| SessionList.FirstPromptIs | bridge/grok-leader/src/session-list.ts:39-51 | that prompt is the first text block of a user's message that is not blank, trimmed; there is none exactly if all are blank |
| SessionList.FoldedSessionTitle | bridge/grok-leader/src/session-list.ts:57-65 | the backward scan returns the latest non-blank title, trimmed |
| SessionList.LastTitleIs | bridge/grok-leader/src/session-list.ts:57-65 | that title is the latest that is not blank, trimmed; there is none exactly if all are blank |
| SessionList.LatestIs | bridge/grok-leader/src/session-list.ts:168-168 | a session was last active at the greatest of its times, creation included |
| JsText.TrimIs | bridge/grok-leader/src/session-list.ts:47-47 | trimming takes white space, all of it, off both ends and nothing else; a text is blank exactly if nothing is left |
| SessionList.StepKeeps | bridge/grok-leader/src/session-list.ts:95-206 | every operation keeps the cache within its cap and a cached entry behind every remembered revision |
| SessionList.InspectTracks | bridge/grok-leader/src/session-list.ts:162-170 | an inspection that read one part of a log and missed another agrees with both together once it lands if and only if the missed events hold no first prompt that none read precedes, no other title and no later time, and no prompt had been seen that the whole log lacks |
| SessionListRuns.StepKeeps | bridge/grok-leader/src/session-list.ts:95-206 | requests, retries, loads, landings, live events, projections and retained passes, in any interleaving, keep the index, the shared inspections and the two lanes consistent |
| SessionListRuns.ShownExactly | bridge/grok-leader/src/session-list.ts:162-204 | in every run the picker shows the projection of what the index was told: the log the last inspection read and the events recorded after it landed, without a first prompt that was evicted or lost |
| SessionListRuns.LandingAgrees | bridge/grok-leader/src/session-list.ts:143-149 | in every run a landing inspection leaves the index agreeing with its session's log, as it stands by then, if and only if the events it missed are harmless |
| SessionListRuns.RunTracks | bridge/grok-leader/src/session-list.ts:178-192 | an index that agrees with a growing log keeps agreeing through every interleaving whose landings are harmless |
| SessionListRuns.LiveIsWhole | bridge/grok-leader/src/session-list.ts:155-192 | in every run, after a harmless landing and live events the picker shows the whole log's title and activity, and its first prompt exactly unless a non-empty one was evicted |
| SessionListRuns.OneMissed | bridge/grok-leader/src/session-discovery.ts:320-322 | whatever log a load reads, a run in which any one event is recorded between its read and its landing |
| SessionListRuns.LostTitleTimePrompt | bridge/grok-leader/src/session-list.ts:162-170 | one missed title, one missed later event and one missed first prompt each spoil such a landing |
| SessionList.StaleInspection | bridge/grok-leader/src/session-list.ts:162-170 | an inspection that read before a live prompt and lands after it hides that prompt, and later messages do not bring it back |
| SessionList.PassEvictsNothing | bridge/grok-leader/src/session-list.ts:116-131 | a pass announced for its candidates evicts neither what was resident nor what it adds |
| SessionList.LeastRecentGoes | bridge/grok-leader/src/session-list.ts:95-115 | in every run the entries stand in the order of their last use, and none that is gone was used after one that stayed |
| SessionList.GoesForRoom | bridge/grok-leader/src/session-list.ts:100-105 | an entry goes only to make room for the one used, in a cache that stays at its cap |
| SessionListRuns.TwoLoads | bridge/grok-leader/src/session-list.ts:135-155 | in every run, with loads chained on their lanes and other revisions asked for again, at most two loads are begun and not settled, and no two unsettled ones are of one session |
| SessionListRuns.NoStuckLoad | bridge/grok-leader/src/session-list.ts:142-153 | while a load has not settled, some load can begin, read, land or finish |
| SessionListRequests.RequestAnswered | bridge/grok-leader/src/session-list.ts:135-154 | in every run a request, the first or a repeated one, shares the unsettled load of its session if that is of its revision and else asks again after it; a remembered revision is answered at once; otherwise exactly one load joins, on the lanes in turn, behind the last but one |
| SessionListRequests.RememberedWasLoaded | bridge/grok-leader/src/session-list.ts:139-147 | in every run a request answered without a load asks for a revision that a load of the session was asked for and landed with |
| SessionListRequests.LandedIsRemembered | bridge/grok-leader/src/session-list.ts:145-148 | in every run a load that lands is remembered at its own revision |
| SessionListRuns.Inspections.Inspect | bridge/grok-leader/src/session-list.ts:135-155 | sharing, chaining and queueing in the maps in place are the model step |
| SessionListRuns.Inspections.Settle | bridge/grok-leader/src/session-list.ts:151-151 | a settled load frees its session in place |
| SessionList.SessionListIndex.CacheFirstPrompt | bridge/grok-leader/src/session-list.ts:96-106 | the eviction loop leaves the newest entries up to the cap and forgets the revisions of the others |
| SessionList.SessionListIndex.RecordInspection | bridge/grok-leader/src/session-list.ts:162-170 | folding a log into the caches in place is the model step |
| SessionList.SessionListIndex.RecordEvent | bridge/grok-leader/src/session-list.ts:178-192 | folding a live event in place is the model step |
| ChildRefresh.NoLostRequest | bridge/grok-leader/src/native-children.ts:206-228 | in every run, with refused starts and cancelled refreshes included, a request without a pass begun after it is owed by a running dirty refresh or was dropped; when none owes one, a pass began after the last request if and only if no refresh that owed one stopped since |
| ChildRefresh.RefusalLosesRequest | bridge/grok-leader/src/session-work.ts:28-38 | a refresh refused at its start, as during a reload that then fails: its request is never read |
| ChildRefresh.OneAtATime | bridge/grok-leader/src/native-children.ts:216-227 | at most one refresh runs, and requests find it, exactly until a rejected refresh deletes the entry of one begun since |
| ChildRefresh.LateCleanUpOverlaps | bridge/grok-leader/src/native-children.ts:223-225 | a run in which that happens and two refreshes run side by side |
| ChildRefresh.ChildRefreshes.Continue | bridge/grok-leader/src/native-children.ts:216-223 | the loop test in place begins the next pass exactly if dirty and live, and leaving the loop deletes the entry |
| CommandRefresh.NoLostRequest | bridge/grok-leader/src/session-commands.ts:181-212 | in every run a read began after the last request to a roster at rest if and only if the run did not end with a refused start, nor with a read that failed after a request overtook it |
| CommandRefresh.RosterAtRest | bridge/grok-leader/src/session-commands.ts:196-207 | at rest the client has the roster of the last request if and only if the run ended with a read that succeeded while the client was open |
| CommandRefresh.RefusalLosesRequest | bridge/grok-leader/src/session-work.ts:28-38 | a run of the first kind: the start is refused and nothing reads again |
| CommandRefresh.PublishedIsCurrent | bridge/grok-leader/src/session-commands.ts:196-207 | at every step of every run a roster is sent only with no request since its read began, so each is newer than the one before |
| CommandRefresh.FailureLosesRequest | bridge/grok-leader/src/session-commands.ts:208-209 | a run of the second kind: the second request is never read and nothing is left to read it |
| CommandRefresh.Refresh.AfterRead | bridge/grok-leader/src/session-commands.ts:191-207 | the end of a turn of the loop in place is the model step |
| ReminderReads.NoLostRequest | bridge/grok-leader/src/native-tasks.ts:105-126 | in every run, reloads that stop and restart the intake included, at most one read runs and at most one waits, which can have its turn once the other is done; when none waits, a read began after the last request if and only if the last read decided had its turn and was neither turned away nor found its session closed |
| ReminderReads.RefusalLosesRequest | bridge/grok-leader/src/session-work.ts:28-38 | a request during a reload that then fails is turned away and never read |
| ReminderReads.Reminders.EmitReminders | bridge/grok-leader/src/native-tasks.ts:105-126 | a request shares the waiting read or chains a new one after the latest |
| CommandLine.ParseCommandLine | bridge/grok-leader/src/profile-plugins.ts:23-67 | the character loop returns the tokens, or the open escape or quote, of the lexer |
| CommandGrammar.ParsesExactly | bridge/grok-leader/src/profile-plugins.ts:23-67 | the tokens of an input are exactly the words of some way to type it: gaps of white space separate words; bare characters, escaped ones, single-quoted text kept as it is and double-quoted text with its escapes make them; an empty quote makes an empty word |
| CommandGrammar.ReadsWhatIsMeant | bridge/grok-leader/src/profile-plugins.ts:30-61 | whatever is typed so is read as the words it means |
| CommandLine.LiteralDenotes | bridge/grok-leader/src/profile-plugins.ts:276-276 | the literal printed for a word denotes that word |
| CommandLine.PrintedReads | bridge/grok-leader/src/profile-plugins.ts:276-276 | tokenizing the printed rerun command returns each word with the escapes of its control characters read back as letters |
| CommandLine.TokenizerUndoesPrinter | bridge/grok-leader/src/profile-plugins.ts:276-276 | it returns the words themselves if and only if none has a control character |
| CommandLine.TabIsLost | bridge/grok-leader/src/profile-plugins.ts:30-35 | a word with a tab does not survive |
| CommandLine.OnlyOpenInputFails | bridge/grok-leader/src/profile-plugins.ts:63-64 | seen from outside: a quote is open if and only if exactly one of the two quotes completes the input; the input is complete if and only if a space keeps it so and a backslash leaves an escape open; and an open escape takes any character |

## Left out

- PromptQueueSafety.StepKeeps: does not model calls that reenter from `notify` and `echo`, so a steered row is never seen in the queue before it joins the turn.
- PromptQueueEngine.PromptQueue.FlushDone: does not model the `x.ai/queue/changed` broadcasts, their sequence numbers or the running text they carry; `prompt_complete` is the end mark in the history.
- PromptQueueEngine.PromptQueue.Perform: a prepared slot gives up its place before its row enters and disposal cancels before it sets its flag; the source does each pair in the other order within one step, and neither half reads what the other writes. Collected failures are a list, the mapping of native stop reasons and the wording of errors are not modelled, and minted prompt ids are arbitrary fresh ids.
- AssistantStream.ExactlyOnce: asks that the attempt's live chunks are those of the content of the event its end frame commits, and that this event is pending by then; both are the native log's promise. Tool-call-writing notices, meters and system notices of the same updates are not modelled.
- OutputFifo.SentInOrder: does not model the wait for a slow reader after a replayed update beyond an arbitrary pause, nor the context snapshot stamped into an update.
- TokenMeters.TotalsAreSum: the fold order is the order `noteEvent` is called in; message, tool, turn and compaction counters and the decode speed are not modelled.
- SessionRegistrySafety.StepKeeps: what cancellation hooks do is not modelled, only that any step may happen while they run; the `unblocked` callback and aggregated error values are not modelled, failures are counted.
- SessionRegistrySafety.ShutdownMissesNothing: a publication attempted after shutdown starts a disposal of its own, which the rest of the shutdown then includes.
- AdmissionLanes.Bounded: lanes are values in the map rather than shared objects; encoding, binding and timeouts of calls are not modelled, and shutdown aborts one client's waiters at a time.
- FrameCodec.FrameDecoder.Push: JSON envelopes, sockets and back pressure are not modelled.
- ChildHistory.ChildHistoryIndex.Sync: the reader is the list of pages it answers with; a call whose list is used up is still reading.
- RewindCut.ForkSession: working directories, presets, activation and id reservation are not modelled.
- RewindCut.RewindPoints: timestamps and file-change fields of a point are not modelled; the flush that fixes the durable prefix is the caller's.
- SessionListRuns.TwoLoads: a job is a value in a list rather than a promise, so a retry runs at any time after the load it waits for and a load reads one prefix of its log at one moment.
- ReminderReads.NoLostRequest: the difference a read publishes is not modelled; a read that began and then failed counts as begun.
- ChildRefresh.NoLostRequest: a pass that began and then failed counts as begun; refreshes are values in a list rather than shared objects.
- CommandLine.TokenizerUndoesPrinter: lone surrogates are not characters here.
- Tool views, titles, notices, command tables, browser, SSH and preset handling: much branching without a property beyond one branch.
- Sockets, files, staging, npm, HTTP and YAML: input and output only.
- Presets, provider forms, MCP validation, approvals, question routing, origin and identity rules: policies over services that are not part of this model.
