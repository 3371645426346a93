# Verified model of the ghost-runner core

A Dafny model of the stateful heart of the ghost-runner core: the scheduler in front of the language model, the
speech path from text deltas to framed PCM, the replay log with the session and resume protocol, and the turn manager
that is the authority on cancellation. Each component is written twice. Classes with fields, loops and methods follow
the Python classes; functions on values say what one call computes, and every method is proved equal to its function.
The properties are proved about those functions: for all inputs, and for all runs of a step relation in which the
steps are what the event loop executes without an await in between.

| file | what it is |
|---|---|
| `Prelude.dfy`, `LittleEndian.dfy` | options, results, byte strings, little-endian fields |
| `BinFrame.dfy` | the 18-byte binary frame codec |
| `WavHeader.dfy` | the incremental RIFF/WAVE header walker |
| `TtsClient.dfy` | the carry loop of `synth_stream` |
| `SentenceChunker.dfy` | the streaming sentence splitter and its one-shot counterpart |
| `TurnSpeech.dfy` | the speech worker, and the identity from deltas and HTTP bytes to wire frames |
| `Envelopes.dfy`, `ReplayLog.dfy`, `Sessions.dfy` | envelopes, replay log, session manager, attach |
| `Resume.dfy`, `ResumeWitness.dfy` | runs of the resume protocol, as one reconnecting client sees them |
| `Deliveries.dfy` | what a broadcast and a handshake put on the sockets |
| `Turns.dfy`, `TokenStream.dfy` | the turn manager and `on_delta` at await granularity |
| `Scheduler.dfy`, `SchedulerObject.dfy` | the scheduler's operations, as functions and as an object |
| `SchedulerDispatch.dfy` | what one dispatch call guarantees |
| `SchedulerTasks.dfy` | who is asked to cancel, what a submission records, and dispatch in plain numbers |
| `SchedulerOnePass.dfy` | the dispatch loop against a single pass over the queue sorted once |
| `SchedulerVictims.dfy` | exactly what the worker preempts, and what a waiting chat can cost |
| `SchedulerRuns.dfy`, `SchedulerLimits.dfy` | what every run of the scheduler keeps |
| `SchedulerAnswers.dfy` | what submitters get back over a run |
| `SchedulerWitnesses.dfy` | runs that show why the guards are needed |
| `SchedulerDrain.dfy` | runs that empty the scheduler from any reachable state, and serve what waits |
| `SchedulerRevival.dfy` | exactly which jobs a cancelled turn keeps from starting again |
| `TurnAuthority.dfy` | the turn manager and the scheduler together |

`dafny verify dfyconfig.toml` checks the whole project.

## Assumptions

- Time is exact (reals for the scheduler, integer milliseconds for the sessions). The scheduler's clock never goes
  back; the sessions' clock may read anything at any call.
- A broadcast and an attach are single steps of the resume protocol. With their awaits exposed, a live envelope could
  overtake a replayed one. So is the broadcast of one token for a client that joins a stream: a session that is resumed
  while the fan-out is under way, and is reached by it later, does get that token.
- A freshly drawn session id or resume key, and a new socket, differ from those in use.
- White space, for `str.strip`, is an arbitrary predicate on characters: every chunker result holds for any notion of it.
- Futures, tasks, factories and HTTP replies are known by what they do to the modelled code: when a task takes its
  first step, how a factory ends, which pieces a reply is delivered in, and whether the transport breaks after them.

## Where the code does less than it seems to

Each line is proved, with the exact condition or a concrete run.

- A task that is cancelled before its first step never reaches the handler that requeues or settles its job. The
  job's future stays pending and the job is in no queue for good (`SchedulerWitnesses.CancelledBeforeFirstStepIsLost`).
- A dispatch call can do that to a job that it has just started: a job of prio 3 that has aged to level 0 takes the
  shared slot ahead of two chats, and the second chat evicts it (`SchedulerWitnesses.AgedJobPreemptedAtBirth`). The
  exact condition, for every reserve, is `SchedulerOnePass.SelfPreemptionExactly`.
- `cancel_turn` does not always stop a running job of its turn. When the cancellation arrives, however much later, the
  job is queued again if and only if it is marked as a preemption victim by then
  (`SchedulerWitnesses.NamedVictimIsRequeued`), and a waiting chat can mark it while it unwinds
  (`SchedulerWitnesses.MarkedAfterCancel`). A job of the turn can start again exactly if it is pending, preemptable and
  inside its factory when its turn is cancelled, marked or not (`SchedulerRevival.CancelTurnExactly`).
- One waiting chat can cost two victims, both inside their factories, when the worker turns again before the first
  cancellation takes effect (`SchedulerWitnesses.TwoVictimsForOneChat`). A turn marks one more victim exactly if its
  admission pass leaves a chat and a running task can still be chosen (`SchedulerVictims.VictimOfATurn`); earlier
  victims that are still winding down make no difference (`SchedulerVictims.EarlierVictimMakesNoDifference`), so that
  a chat can cost all victims there are while submissions keep waking the worker
  (`SchedulerVictims.EachTurnCostsAVictim`).
- With a negative reserve, which the constructor accepts, a worker turn can start a background job without a free slot
  and cancel it for a waiting chat, with no aging at all (`SchedulerWitnesses.NegativeReserveEvictsItsOwn`).
- Two overlapping `begin` calls leave a turn active in the store that the manager can never end
  (`Turns.OverlapOrphansATurn`); without such an overwrite there is one foreground, and only then
  (`Turns.OneForeground`).
- `on_delta` looks at the turn before it awaits the RESPONDING broadcast and not after, so one token can go out for a
  turn that was cancelled meanwhile, although the comment there says it must not (`TokenStream.LeakHappens` is such a
  run). Of a turn that is obsolete, `on_delta` broadcasts exactly that one token if a call was suspended there and is
  resumed before its task is cancelled, and otherwise nothing (`TokenStream.SilentOnceRetired`).
- A client that attaches while a token is being broadcast gets a snapshot that does not have it yet, and misses it; at
  any other moment the snapshot and the later tokens are the full text (`TokenStream.SnapshotThenTokens`).
- `begin` awaits the `started` notification before the caller gives the turn its task. A turn cancelled meanwhile has no
  task and no job to stop, and its chat job is submitted and started afterwards (`TurnAuthority.CancelComesTooEarly`).
  What a cancel stops for good is exactly the jobs submitted by the time `cancel_turn` runs, without the pending
  preemptable ones of the turn that are inside their factories then (`TurnAuthority.StoppedExactly`).
- `tail` refuses a negative `last_seen_seq` even when nothing was ever dropped (`ReplayLog.TailComplete`).
- The documentation of `broadcast` says that a resume never replays a SUCCESS or ERROR state. The snapshot never is one
  (`Resume.SnapshotIsLastSteady`), but the replayed tail can be: a handshake carries such a state if and only if the
  resume can be granted and one was logged after the seq that the client presents (`Resume.FlashReplayed`), as in the run
  `ResumeWitness.ResumeReplaysSuccess`. The model follows the code.

## Model

| member | source | states |
|---|---|---|
| SchedulerObject.LlmScheduler.constructor | src/ghost_runner_core/llm/scheduler.py:53-66 | a new scheduler is empty; a configuration whose reserve leaves no shared slot does not exist |
| SchedulerObject.LlmScheduler.SubmitJob | src/ghost_runner_core/llm/scheduler.py:112-117 | the job gets the next seq, joins the end of the queue, and nothing else changes |
| SchedulerObject.LlmScheduler.CancelTurnJobs | src/ghost_runner_core/llm/scheduler.py:124-136 | queued jobs of the turn leave the queue with cancelled futures, its unfinished running tasks are asked to cancel, and the count is that of these queued jobs and of all its entries in the running map, those finished and not yet reaped included |
| SchedulerObject.LlmScheduler.CancelQueuedJobs | src/ghost_runner_core/llm/scheduler.py:127-131 | removing the listed jobs one by one leaves exactly the jobs of other turns, in order |
| SchedulerObject.LlmScheduler.RemoveJob | src/ghost_runner_core/llm/scheduler.py:140-145 | the job's first occurrence leaves the queue and its running task is asked to cancel |
| SchedulerObject.LlmScheduler.ReapFinished | src/ghost_runner_core/llm/scheduler.py:157-159 | exactly the finished tasks leave the running map, the others keep their order |
| SchedulerObject.LlmScheduler.TryPreempt | src/ghost_runner_core/llm/scheduler.py:188-203 | true exactly if a victim exists; then the newest pure job of prio 2 or more that is not yet being preempted is asked to cancel |
| SchedulerObject.LlmScheduler.Choose | src/ghost_runner_core/llm/scheduler.py:165-178 | the scan of the sorted candidates settles on a job, on a preemption, or on neither |
| SchedulerObject.LlmScheduler.StartJob | src/ghost_runner_core/llm/scheduler.py:181-186 | the job leaves the queue and gets a task unless its future is done |
| SchedulerObject.LlmScheduler.DispatchJobs | src/ghost_runner_core/llm/scheduler.py:161-186 | the loop terminates in the state that the specification of dispatch gives |
| SchedulerObject.LlmScheduler.WorkerTurn | src/ghost_runner_core/llm/scheduler.py:147-159 | one turn of the worker is a reap followed by a dispatch, the worker step of the run relation |
| SchedulerObject.LlmScheduler.FactoryEnds | src/ghost_runner_core/llm/scheduler.py:205-224 | a preempted job is queued again with its future pending and its aging restarted; any other end settles a pending future and leaves a done one alone |
| SchedulerObject.MatchingCounts | src/ghost_runner_core/llm/scheduler.py:132-136 | what is counted of the running map is the number of its entries with a job of the turn |
| SchedulerTasks.CancelTurnAsks | src/ghost_runner_core/llm/scheduler.py:132-135 | in every state, `cancel_turn` asks each unfinished task of a job of the turn to cancel, started or not, and leaves every other entry as it is |
| SchedulerTasks.SubmitterGoneAsks | src/ghost_runner_core/llm/scheduler.py:140-145 | a submitter that has gone does the same for its own job |
| SchedulerTasks.VictimIsAsked | src/ghost_runner_core/llm/scheduler.py:196-202 | in every reachable state, a turn of the worker asks the task of the job that it marks to cancel, and no other |
| SchedulerTasks.AskedUntilFinished | src/ghost_runner_core/llm/scheduler.py:124-145 | over any run, a task that has been asked to cancel stays asked, in the running map, until it has finished |
| SchedulerTasks.SubmittedAs | src/ghost_runner_core/llm/scheduler.py:112-117 | the record at the returned seq has the given prio, purity and turn, then and after any run, and nothing else has changed |
| SchedulerTasks.EffectfulRunsOnce | src/ghost_runner_core/llm/scheduler.py:188-203 | over any run, a job submitted as effectful, or with prio 0 or 1, is started at most once and never preempted |
| SchedulerTasks.ChoiceInNumbers | src/ghost_runner_core/llm/scheduler.py:161-203 | each choice of the dispatch loop in terms of prio, level, seq, purity, free slots and marks |
| SchedulerTasks.NobodyWaitsInVain | src/ghost_runner_core/llm/scheduler.py:161-186 | after dispatch, a queued job of prio 0 means no free slot, and any other job no more free slots than the reserve, unless the call preempted with a negative one |
| SchedulerTasks.PicksRecordSlots | src/ghost_runner_core/llm/scheduler.py:164-186 | the free slots recorded with a pick are those left by the tasks running and those created earlier in the call |
| SchedulerDispatch.SortedOrdered | src/ghost_runner_core/llm/scheduler.py:165-166 | no candidate is preceded by one with a larger (effective_prio, seq) |
| SchedulerDispatch.IterationJustified | src/ghost_runner_core/llm/scheduler.py:161-186 | the job taken is the least by (effective_prio, seq) of those admissible at that moment; nothing is taken only if none is admissible; a victim is chosen only with no slot free, for a waiting chat, and is the newest possible |
| SchedulerDispatch.DispatchConservesWork | src/ghost_runner_core/llm/scheduler.py:161-186 | on return no chat is queued while a slot is free, and no background job while more are free than the reserve, for every reserve; save that with a negative one a background job may be, after a call that preempted |
| SchedulerDispatch.DispatchPicks | src/ghost_runner_core/llm/scheduler.py:163-186 | everything picked in a call was queued at its start, and earlier picks stay |
| SchedulerDispatch.NoSelfPreemption | src/ghost_runner_core/llm/scheduler.py:161-203 | with a reserve that is not negative, if no queued job of prio 2 or more has aged to level 0, a call never cancels a task that it created |
| SchedulerLimits.NoSelfPreemptionInRuns | src/ghost_runner_core/llm/scheduler.py:147-203 | so it is for a turn of the worker in every reachable state |
| SchedulerOnePass.DispatchIsOnePass | src/ghost_runner_core/llm/scheduler.py:161-186 | for every reserve, the loop, which sorts again for each job, does what one admission pass over the queue sorted once does, followed by at most one preemption, made if the pass leaves a chat and there is a victim |
| SchedulerOnePass.ReserveMakesItPlain | src/ghost_runner_core/llm/scheduler.py:161-186 | with a reserve that is not negative the pass admits each candidate that finds a slot open to it, and preemption plays no part in it |
| SchedulerOnePass.SelfPreemptionExactly | src/ghost_runner_core/llm/scheduler.py:161-203 | in every reachable state and for every reserve, a turn of the worker cancels a task of its own if and only if the admission pass leaves a chat after giving a slot to a preemptable job newer than every running victim |
| SchedulerVictims.VictimOfATurn | src/ghost_runner_core/llm/scheduler.py:188-203 | in every reachable state, a turn of the worker marks one more victim if and only if its admission pass leaves a chat and a running task can be one: the newest, not marked before |
| SchedulerVictims.EarlierVictimMakesNoDifference | src/ghost_runner_core/llm/scheduler.py:176-178 | it does so even while the task of an earlier victim is still unfinished |
| SchedulerVictims.EachTurnCostsAVictim | src/ghost_runner_core/llm/scheduler.py:147-203 | while nothing queued can start, a chat is among it and no task ends, over any run of worker turns, submissions and waiting, n worker turns mark the n newest victims, or all of them, and no others |
| SchedulerAnswers.StepAnswers | src/ghost_runner_core/llm/scheduler.py:124-136 | a step settles a pending future exactly if it ends a started task of that job without a preemption, with that outcome, or cancels it through its turn while queued or through its submitter; a done future never changes |
| SchedulerAnswers.AnswerIsFinal | src/ghost_runner_core/llm/scheduler.py:205-224 | over any run a future that is done stays what it is |
| SchedulerAnswers.AnswerIsOwn | src/ghost_runner_core/llm/scheduler.py:107-122 | in every run each answer comes from a step that ended a task of that very job with that outcome, or cancelled it |
| SchedulerAnswers.PreemptedStartsOver | src/ghost_runner_core/llm/scheduler.py:208-215 | a preempted job is queued last with its future as it was, and over any run in which it then waits, its level is its priority less the whole aging periods since the preemption |
| SchedulerAnswers.AgingRestarts | src/ghost_runner_core/llm/scheduler.py:208-215 | in every run a job's preemption count is the number of preemptions delivered to it, and its aging is measured from its submission or its last preemption, whichever is later |
| SchedulerDispatch.AgingLevels | src/ghost_runner_core/llm/scheduler.py:47-49 | a job gains one level per whole aging period waited, down to 0 |
| SchedulerDispatch.AgedToZero | src/ghost_runner_core/llm/scheduler.py:47-49 | after prio aging periods a job is at level 0 and stays there |
| SchedulerDispatch.DispatchBypass | src/ghost_runner_core/llm/scheduler.py:161-186 | while a background job at level 0 waits, every other job picked with more slots free than the reserve has a smaller seq |
| SchedulerRuns.StepPlaced | src/ghost_runner_core/llm/scheduler.py:107-224 | every step keeps jobs in at most one place, running tasks distinct, preemption marks on pure unqueued jobs, and pending jobs in some place unless lost at birth |
| SchedulerRuns.Conservation | src/ghost_runner_core/llm/scheduler.py:107-224 | in every run no job is in two places, and a job whose future is pending is in exactly one place if and only if its task was not cancelled before its first step |
| SchedulerRuns.StillbornForever | src/ghost_runner_core/llm/scheduler.py:205-218 | a job lost that way is in no place after any further steps |
| SchedulerLimits.Capacity | src/ghost_runner_core/llm/scheduler.py:55-60 | in every run at most `slots` tasks are in the running map (with a negative reserve, at most `slots - reserved`) and at most `slots - reserved` of them are background |
| SchedulerLimits.AtMostOnce | src/ghost_runner_core/llm/scheduler.py:161-218 | in every run a job is started at most once more than it was preempted; an effectful, chat or perception job at most once, and it is never preempted |
| SchedulerLimits.NeverAfterCancelTurn | src/ghost_runner_core/llm/scheduler.py:124-136 | once `cancel_turn` has named the turn of an effectful, chat or perception job, no task is created for it in any continuation |
| SchedulerLimits.WaitPassed | src/ghost_runner_core/llm/scheduler.py:161-186 | over a run in which a fully aged job waits, each shared slot goes to a job with a smaller seq |
| SchedulerLimits.BoundedBypass | src/ghost_runner_core/llm/scheduler.py:113-115 | until it leaves the queue, at most seq distinct jobs pass a fully aged job on shared slots, and none of them was submitted later |
| SchedulerWitnesses.CancelledBeforeFirstStepIsLost | src/ghost_runner_core/llm/scheduler.py:205-218 | a task cancelled before its first step leaves its job's future as it was and the job in no place, for good |
| SchedulerWitnesses.AgedJobPreemptedAtBirth | src/ghost_runner_core/llm/scheduler.py:161-203 | a concrete run, with both slots taken while the job ages, in which one turn of the worker starts a job and cancels it again, so that it is lost while pending |
| SchedulerWitnesses.NamedVictimIsRequeued | src/ghost_runner_core/llm/scheduler.py:132-135 | whatever happens between `cancel_turn` and the arrival of the cancellation, a job of the turn returns to the queue, with its future as it is, if and only if it is marked as a preemption victim at that moment; otherwise a pending future is cancelled |
| SchedulerWitnesses.MarkedAfterCancel | src/ghost_runner_core/llm/scheduler.py:188-215 | a concrete run in which a job that was not marked when its turn was cancelled is marked for a chat while it unwinds, and is queued again |
| SchedulerRevival.CancelTurnExactly | src/ghost_runner_core/llm/scheduler.py:124-136 | in every reachable state, `cancel_turn` keeps a job of the turn from being started again in every continuation if and only if the job is not pending, preemptable and inside its factory; earlier marks play no part |
| SchedulerWitnesses.TwoVictimsForOneChat | src/ghost_runner_core/llm/scheduler.py:188-203 | a concrete run in which two started tasks are asked to cancel for one waiting chat |
| SchedulerWitnesses.NegativeReserveEvictsItsOwn | src/ghost_runner_core/llm/scheduler.py:161-203 | a concrete run with a negative reserve in which a turn of the worker cancels the task of an unaged job that it has just started |
| TurnAuthority.OneCancelPerTurn | src/ghost_runner_core/orchestrator/orchestrator.py:76-83 | in every run a turn that the store has as cancelled has exactly one cancel notification, on its way, delivered to the scheduler or cut short; no other turn has one |
| TurnAuthority.CancelReachesTheScheduler | src/ghost_runner_core/orchestrator/orchestrator.py:76-83 | after the notification of a cancel, whatever interleaves, the turn stays cancelled in the store, and a job of it is started (again) only if it had not been submitted by then, or was a pending preemptable job inside its factory |
| TurnAuthority.StoppedExactly | src/ghost_runner_core/orchestrator/orchestrator.py:76-83 | in every reachable world, the jobs that a delivered cancel keeps from starting (again) in every continuation are exactly those submitted by then, but for the pending preemptable jobs of the turn that are inside their factories |
| TurnAuthority.CancelComesTooEarly | src/ghost_runner_core/orchestrator/orchestrator.py:105-112 | a concrete run in which a turn is cancelled before its task exists, and its chat job is submitted and started afterwards |
| SchedulerDrain.CanDrain | src/ghost_runner_core/llm/scheduler.py:107-224 | from every state that keeps the invariants, some run without `cancel_turn`, in which the submitters of queued jobs give up, empties the queue and the running map |
| SchedulerDrain.CanServe | src/ghost_runner_core/llm/scheduler.py:107-224 | from there, if there is a slot, some run in which nobody gives up or cancels anything empties both, and every chat, perception and effectful job that was queued, or that a task not asked to cancel before its first step was working on, gets its result |
| SchedulerDrain.AnyLaterJobCanStart | src/ghost_runner_core/llm/scheduler.py:107-186 | from there, for every configuration, a job of any later seq and any turn can be submitted and started |
| Turns.TurnManager.BeginEnter | src/ghost_runner_core/orchestrator/turns.py:48-57 | up to its first await, `begin` cancels an active current turn as superseded, or issues the new turn at once |
| Turns.TurnManager.BeginRest | src/ghost_runner_core/orchestrator/turns.py:53-56 | the new turn has the next id, an active row and a `started` notice, and is current |
| Turns.TurnManager.CancelTurn | src/ghost_runner_core/orchestrator/turns.py:59-77 | only the current turn is cancelled; a session that does not own it is refused unless it is proactive; row, notice and current turn change together |
| Turns.TurnManager.FinishTurn | src/ghost_runner_core/orchestrator/turns.py:79-88 | only the current turn is finished; a late finish changes nothing |
| Turns.BeginWrites | src/ghost_runner_core/orchestrator/turns.py:48-57 | a new turn has the given origin and owner, the next id, an active row and a start notice; or the current one is cancelled as superseded and the request waits |
| Turns.ResumeWrites | src/ghost_runner_core/orchestrator/turns.py:53-56 | the waiting request becomes the current turn with its own origin and owner |
| Turns.FinishWrites | src/ghost_runner_core/orchestrator/turns.py:79-88 | done and error go to the row and to the notice as told, for the current turn only |
| Turns.CancelWrites | src/ghost_runner_core/orchestrator/turns.py:59-77 | with authority the row says cancelled and the notice gives the reason; otherwise nothing changes |
| Turns.OwnerIsBeginner | src/ghost_runner_core/orchestrator/turns.py:48-57 | in every run, the origin and owner of the current turn are those of one of the `begin` calls |
| Turns.RetiredForGood | src/ghost_runner_core/orchestrator/turns.py:42-88 | a turn that stopped being current is never current again and its row never changes, under every interleaving |
| Turns.OneEnding | src/ghost_runner_core/orchestrator/turns.py:59-88 | each turn has exactly one terminal notice if its row is terminal and none otherwise |
| Turns.CancelAuthority | src/ghost_runner_core/orchestrator/turns.py:59-77 | over any run the current turn ends as cancelled if and only if, while it was current, a new turn superseded it or the core, its owner or, for a proactive turn, any session cancelled it |
| Turns.OneForeground | src/ghost_runner_core/orchestrator/turns.py:48-88 | the active rows are exactly the current turn if and only if no suspended `begin` ever woke up over another current turn |
| Turns.OneForegroundApart | src/ghost_runner_core/orchestrator/turns.py:48-88 | they are so in every run in which no two `begin` calls overlap, however cancels and finishes interleave |
| Turns.OverlapOrphansATurn | src/ghost_runner_core/orchestrator/turns.py:51-55 | a concrete run of overlapping `begin` calls that leaves a turn active with no way to end it |
| TokenStream.ReplyStream.OnDelta | src/ghost_runner_core/orchestrator/orchestrator.py:243-255 | from entry to the first await: nothing for an obsolete turn, else the RESPONDING state for a first delta, else the token under the next number |
| TokenStream.ReplyStream.ResumeCall | src/ghost_runner_core/orchestrator/orchestrator.py:252-257 | the first delta's token follows the RESPONDING state without another look at the turn; text and number grow only after the token broadcast |
| TokenStream.StreamNumbered | src/ghost_runner_core/orchestrator/orchestrator.py:207-215 | in every run the tokens of a turn are numbered 0, 1, 2, ..., a resync snapshot carries exactly the deltas below its base, one token is ahead of it exactly while that token is being broadcast (after its task has been cancelled, at most one), and RESPONDING comes once, before the first token |
| TokenStream.TextIsWhatWasGiven | src/ghost_runner_core/orchestrator/orchestrator.py:243-259 | in every run without a cancellation of its task, the tokens of a turn, with the delta of a call still in the RESPONDING broadcast, are exactly the deltas that met an idle call of the current turn, in order; with one, at most the last is missing |
| TokenStream.SnapshotThenTokens | src/ghost_runner_core/orchestrator/orchestrator.py:200-215 | in every run, a resync snapshot followed by the tokens broadcast from then on is the full text if and only if no token is being broadcast at that moment; otherwise exactly the delta of that token is missing |
| TokenStream.SilentOnceRetired | src/ghost_runner_core/orchestrator/orchestrator.py:243-259 | in every run, what `on_delta` still broadcasts of a retired turn is exactly one token if a call was suspended in the RESPONDING broadcast and is resumed before its task is cancelled, and nothing otherwise |
| TokenStream.LeakHappens | src/ghost_runner_core/orchestrator/orchestrator.py:249-255 | a concrete run in which a turn is cancelled during its RESPONDING broadcast and its first token goes out afterwards |
| ReplayLog.Replay.Append | src/ghost_runner_core/server/session.py:35-39 | the entry joins the log, its seq is the last, and the log is pruned |
| ReplayLog.Replay.Prune | src/ghost_runner_core/server/session.py:41-47 | the loop drops the oldest entry while there are more than 500 or it is over age, and the horizon is the last seq dropped |
| ReplayLog.Replay.Tail | src/ghost_runner_core/server/session.py:49-58 | after pruning: nothing for a current client, a refusal below the horizon, else the entries after the given seq |
| ReplayLog.AppendFaithful | src/ghost_runner_core/server/session.py:35-47 | whatever the clock shows, the log stays what is left of the full history after dropping a prefix, and has at most 500 entries |
| ReplayLog.TailFaithful | src/ghost_runner_core/server/session.py:49-58 | asking for a tail keeps that agreement |
| ReplayLog.TailComplete | src/ghost_runner_core/server/session.py:49-58 | an answer is every envelope ever appended after the given seq, in order; the log refuses exactly if it has dropped one of these or the seq is negative |
| ReplayLog.PrunesByCountAndAge | src/ghost_runner_core/server/session.py:41-47 | pruning drops from the front exactly while there are more than 500 entries or the head is older than 86 400 000 ms, and the horizon is the last seq dropped |
| ReplayLog.SurvivesIffKept | src/ghost_runner_core/server/session.py:41-47 | an entry survives if and only if it or an older one is within 500 of the end and at most that old |
| Sessions.SessionManager.CreateSession | src/ghost_runner_core/server/session.py:96-104 | the session is found under its id and its key |
| Sessions.SessionManager.ResumeSession | src/ghost_runner_core/server/session.py:106-119 | an unknown key finds nothing, an expired session is dropped, any other is moved to the new socket |
| Sessions.SessionManager.DetachSession | src/ghost_runner_core/server/session.py:121-124 | the session is kept without a socket |
| Sessions.SessionManager.DropSession | src/ghost_runner_core/server/session.py:126-129 | the session and its key go together |
| Sessions.SessionManager.NextSeqForResend | src/ghost_runner_core/server/session.py:185-188 | the next seq of the one global counter |
| Sessions.SessionManager.BroadcastEnvelope | src/ghost_runner_core/server/session.py:137-158 | a durable envelope gets the next seq, a time stamp if it has none, a log entry, and becomes the snapshot if it is a steady state; then it goes to every connected session |
| Sessions.SessionManager.SendToAll | src/ghost_runner_core/server/session.py:149-158 | each session with a working socket gets the envelope once, in whatever order, and one whose socket fails is detached without disturbing the others |
| Sessions.SessionManager.DecideResume | src/ghost_runner_core/server/ws_server.py:140-156 | a session continues with its replay tail, or is dropped if the log refuses, or there was none |
| Sessions.SessionManager.AttachSocket | src/ghost_runner_core/server/ws_server.py:139-180 | the resume decision, a new session if it fails, and then the new socket gets the answer, the replay tail and the snapshot |
| Sessions.SessionManager.Greet | src/ghost_runner_core/server/ws_server.py:158-180 | the answer, then the replay tail, then the snapshot under a fresh seq, in this order |
| Resume.StepKeeps | src/ghost_runner_core/server/session.py:94-188 | every step keeps keys and sessions matched, sockets unshared, the log faithful, and both what the client has received and what is on its way free of gaps |
| Resume.GapFree | src/ghost_runner_core/server/session.py:137-188 | in every run, with any number of reconnects, what the client received in its session is strictly increasing and has every logged envelope after the first; once it has handled all that a live socket carries, none is missing at the end either |
| Resume.ReplayGranted | src/ghost_runner_core/server/ws_server.py:139-185 | a handshake says replay=true for the old session exactly if the key names an unexpired session, the seq is not negative and nothing after it was dropped; otherwise replay=false for a fresh session and key |
| Deliveries.ReplayGrantedByAge | src/ghost_runner_core/server/ws_server.py:139-185 | in every run, replay=true exactly if the key names a session at most a day old, the seq is not negative, and no entry after it was dropped before or is dropped now by count and age |
| Deliveries.Published | src/ghost_runner_core/server/session.py:137-158 | one broadcast, of a durable type or not: a socket gains one envelope if and only if a session sends on it and it works; that envelope has the published type, state, content and turn, and for durable types the next seq and the given or present time; the same envelope joins the history; failing sockets are detached |
| Deliveries.AttachedIsServed | src/ghost_runner_core/server/ws_server.py:139-169 | after a handshake the session named in the answer sends on the new socket under the key given, with its old creation time or the clock's, and no other session has changed |
| Deliveries.SnapshotComesLast | src/ghost_runner_core/server/ws_server.py:176-180 | the last thing a handshake sends is the snapshot's state, content and turn under the next seq, without a time stamp |
| Deliveries.RefusedIsDropped | src/ghost_runner_core/server/ws_server.py:147-156 | a handshake begins with its answer, and a session is gone afterwards, with its key, if and only if its key was given and the answer does not promise a replay |
| Deliveries.DetachAndDrop | src/ghost_runner_core/server/session.py:121-129 | detaching clears the socket of one session and keeps its key and age; dropping removes that session and its key; no other session is touched |
| Resume.SnapshotIsLastSteady | src/ghost_runner_core/server/session.py:147-148 | in every run the snapshot is the newest state ever logged that is not SUCCESS or ERROR |
| Resume.FlashReplayed | src/ghost_runner_core/server/session.py:138-148 | in every run, a handshake carries a SUCCESS or ERROR state if and only if the resume can be granted (key, age, sign and horizon) and one was logged after the seq presented |
| ResumeWitness.ResumeReplaysSuccess | src/ghost_runner_core/server/ws_server.py:146-180 | a concrete run in which SUCCESS is published while a client is away and its resume replays it, before the snapshot |
| SentenceChunker.Chunker.Feed | src/ghost_runner_core/voice/chunker.py:43-55 | the loop over the characters emits what the state machine completes, stripped and filtered |
| SentenceChunker.Chunker.Accept | src/ghost_runner_core/voice/chunker.py:46-54 | one character joins the held sentence if it is glue, else the held one is emitted and the character joins the next, which ends at a terminator or at 200 characters |
| SentenceChunker.Chunker.Flush | src/ghost_runner_core/voice/chunker.py:57-65 | all that is pending is emitted and the chunker is as new |
| SentenceChunker.Chunker.Emit | src/ghost_runner_core/voice/chunker.py:67-73 | the held sentence is emitted if anything in it can be spoken, and is no longer held |
| SentenceChunker.TakeKeepsRemaining | src/ghost_runner_core/voice/chunker.py:43-65 | the segments completed by some text and those then pending are together the ones that the one-shot splitter gives for the whole |
| SentenceChunker.StreamRefinesSplitter | src/ghost_runner_core/voice/chunker.py:43-77 | for any deltas, all `feed` results followed by that of `flush` are the stripped and filtered segments of the joined text, so token boundaries do not matter |
| SentenceChunker.SegmentsPartition | src/ghost_runner_core/voice/chunker.py:43-65 | the segments join to the text |
| SentenceChunker.NothingSpeakableLost | src/ghost_runner_core/voice/chunker.py:23-26 | the characters that are neither content-free nor white space come out in order, none lost, none added |
| SentenceChunker.SegmentsShaped | src/ghost_runner_core/voice/chunker.py:20-28 | every segment is a core of at most 200 characters followed by glue only, all but the last are finished, and only the first may start with glue |
| SentenceChunker.CoresAreBounded | src/ghost_runner_core/voice/chunker.py:28-55 | no segment has more than 200 characters before its glue, and a segment that another follows ends its core at a terminator or at the 200th |
| SentenceChunker.SegmentIsSpoken | src/ghost_runner_core/voice/chunker.py:67-77 | a segment is emitted without the white space at its ends if anything in it can be spoken, and dropped otherwise |
| SentenceChunker.EmittedIsTrimmedAndSpeakable | src/ghost_runner_core/voice/chunker.py:67-77 | whatever the deltas, every emitted sentence has a character that can be spoken and no white space at its ends |
| SentenceChunker.TerminatorsAre | src/ghost_runner_core/voice/chunker.py:20 | the terminators, by code point |
| SentenceChunker.GlueIs | src/ghost_runner_core/voice/chunker.py:21-23 | the glue characters, by code point |
| SentenceChunker.ContentFreeIs | src/ghost_runner_core/voice/chunker.py:24-26 | the characters that say nothing, by code point |
| WavHeader.WavHeaderParser.FindStart | src/ghost_runner_core/tts/client.py:78-125 | the walk terminates on all bytes with the verdict of the recursive walk, and reads within bounds |
| WavHeader.WavHeaderParser.Feed | src/ghost_runner_core/tts/client.py:56-71 | bytes pass through once the header is complete; before, they are buffered, refused, or the PCM behind the header comes out and the buffer is cleared |
| WavHeader.WavHeaderParser.Finish | src/ghost_runner_core/tts/client.py:73-76 | an error exactly if the header is not complete |
| WavHeader.VerdictStable | src/ghost_runner_core/tts/client.py:78-125 | an error or a found header is unchanged by any bytes that follow |
| WavHeader.MagicVerdict | src/ghost_runner_core/tts/client.py:80-85 | which magic is missed, and when more bytes are needed before the walk |
| WavHeader.ChunkVerdict | src/ghost_runner_core/tts/client.py:89-125 | what one turn of the walk does at any offset, byte by byte: every error by name, in the order of the tests, a fmt chunk passed only with format 1, 16 bits and one channel |
| WavHeader.FmtFaultIs | src/ghost_runner_core/tts/client.py:112-122 | a fmt payload passes if and only if its bytes at 0, 2 and 14 are 1 0, 1 0 and 16 0; otherwise the first of format, bits and channels that differs is named with its value |
| WavHeader.FragmentationInvariant | src/ghost_runner_core/tts/client.py:56-125 | however the bytes are cut into feeds, the joined output, rate and completion, or the first error, are those of one feed of the whole |
| WavHeader.PrintedIsFound | src/ghost_runner_core/tts/client.py:87-125 | a printed list of acceptable chunks with a data header is found at its own length with the last fmt chunk's rate, or refused if it has no fmt chunk |
| WavHeader.FoundIffPrinted | src/ghost_runner_core/tts/client.py:78-125 | a header is found if and only if the bytes begin with a print of chunks in which each fmt chunk has at least 16 bytes with 1 0, 1 0 and 16 0 at 0, 2 and 14, and the PCM starts right behind it |
| WavHeader.HeaderRoundTrip | tests/test_tts_client.py:17-43 | a printed PCM16 mono header with any other chunks, followed by any PCM and cut in any way, gives back exactly that rate and PCM |
| TtsClient.SynthStream | src/ghost_runner_core/tts/client.py:198-238 | yields the specified chunks and raises the specified error; a transport that breaks is a failed request whatever the status, and otherwise errors depend on the status and the body alone |
| TtsClient.ErrorsByCause | src/ghost_runner_core/tts/client.py:200-238 | every error has its cause, in the order in which they are noticed, and only a reply with status 200 yields anything: its body up to the last whole sample |
| TtsClient.Align | src/ghost_runner_core/tts/client.py:213-231 | the carry loop yields the specified chunks, holds back at most the last byte, and knows whether it has yielded any |
| TtsClient.YieldedIsBody | src/ghost_runner_core/tts/client.py:213-231 | joined, the yielded chunks are the body up to its last whole sample, however it was cut |
| TtsClient.YieldedAligned | src/ghost_runner_core/tts/client.py:225-231 | every yielded chunk is non-empty and of even length |
| TtsClient.CleanSynthIsWhole | src/ghost_runner_core/tts/client.py:198-238 | a call that raises nothing has yielded exactly its whole body, which is non-empty and even |
| TtsClient.SynthIsPart | src/ghost_runner_core/tts/client.py:213-238 | whatever a call raises, it has yielded non-empty runs of whole samples from the front of the body |
| BinFrame.DecodeEncode | src/ghost_runner_core/binframe.py:39-69 | encoding succeeds exactly for a known kind, u64 id, u32 seq and 1 to 2^32-1 payload bytes, and then decoding gives all of them back |
| BinFrame.EncodeDecode | src/ghost_runner_core/binframe.py:52-69 | every accepted frame with a payload is the encoding of what it decodes to; one without is a bare header |
| BinFrame.DecodeInjective | src/ghost_runner_core/binframe.py:52-69 | two accepted frames that decode to the same are the same bytes |
| BinFrame.PrefixFree | src/ghost_runner_core/binframe.py:66-68 | no extension of an accepted frame is accepted |
| BinFrame.Layout | src/ghost_runner_core/binframe.py:5-29 | a frame is accepted if and only if it has version 1 at byte 0, a kind of 1, 2 or 3 at byte 1 and its payload length at bytes 14 to 17; the id and the seq are at 2 to 9 and 10 to 13, least significant byte first |
| BinFrame.EncodeVerdict | src/ghost_runner_core/binframe.py:39-49 | which arguments encode, and which error the others get, in the order of the tests |
| BinFrame.DecodeVerdict | src/ghost_runner_core/binframe.py:58-68 | which error each refused frame gets, in the order of the tests |
| TurnSpeech.TurnSpeech.Feed | src/ghost_runner_core/voice/tts_pipeline.py:61-63 | whatever was fed is with the chunker, in the queue or taken by the worker, in order |
| TurnSpeech.TurnSpeech.WorkOne | src/ghost_runner_core/voice/tts_pipeline.py:85-100 | the worker may take its next sentence at any time, and has then spoken exactly the sentences it took |
| TurnSpeech.TurnSpeech.Finish | src/ghost_runner_core/voice/tts_pipeline.py:65-72 | however far the worker had come, the broadcasts and the fault are those of draining all sentences of the text |
| TurnSpeech.TurnSpeech.Run | src/ghost_runner_core/voice/tts_pipeline.py:83-102 | the queue is drained up to the first fault, and the closing meta goes out only if the stream was opened and nothing failed |
| TurnSpeech.TurnSpeech.Speak | src/ghost_runner_core/voice/tts_pipeline.py:88-100 | the opening meta precedes the first piece of the turn, and a synthesis error comes after the pieces that were yielded |
| TurnSpeech.TurnSpeech.SendPiece | src/ghost_runner_core/voice/tts_pipeline.py:96-100 | a piece goes out as slices of at most 65536 bytes under consecutive numbers |
| TurnSpeech.SlicesAreFull | src/ghost_runner_core/voice/tts_pipeline.py:96-99 | every slice of a piece but the last has exactly 65536 bytes, and none is empty |
| TurnSpeech.FrameOnTheWire | src/ghost_runner_core/voice/tts_pipeline.py:97-99 | the bytes of a frame: version 1, kind 1, the stream id and the number, then the payload |
| TurnSpeech.AudioIdentity | src/ghost_runner_core/voice/tts_pipeline.py:83-112 | for any deltas and any cutting of sound replies, there is no fault exactly if the frames fit the 32-bit counter; then the frames decode to numbers 0, 1, 2, ... of one stream with even non-empty payloads of at most 65536 bytes that join to exactly the reply bytes, between one opening and one closing meta, and nothing goes out when nothing was spoken |
| TurnSpeech.FailureNeverCloses | src/ghost_runner_core/voice/tts_pipeline.py:74-102 | on any fault, wherever, what went out is the opening meta and frames 0, 1, 2, ... of one stream, whose payloads are whole samples that join to a prefix of the reply bytes, with no closing meta; and a first reply that fails without audio broadcasts nothing |

## Left out

- SchedulerObject.LlmScheduler.constructor: the source also accepts an `aging_s` of zero, with which the first dispatch of a queued job divides by zero, and a negative one, with which jobs lose priority as they wait; the model has a positive one.
- NoSelfPreemption: its guards on aging and on the sign of the reserve are sufficient and not necessary, since an aged job need not be evicted; `AgedJobPreemptedAtBirth` and `NegativeReserveEvictsItsOwn` show that neither can be dropped, and the exact condition is `SelfPreemptionExactly`.
- NoSelfPreemptionInRuns: has the same two guards.
- CanServe: is about jobs that cannot be preempted, since the worker may lose a preemptable one (`AgedJobPreemptedAtBirth`), and needs a slot, since without any, which the constructor accepts beside a smaller reserve, no chat is ever started.
- DispatchConservesWork: after a call that preempted with a negative reserve, nothing is said of background jobs.
- AudioIdentity: replies that fail are covered by `FailureNeverCloses`, not by the identity.
- Sessions.SessionManager.AttachSocket: the constant fields of the answer and the token resync that follows the snapshot are not part of the model.
- The awaits inside broadcast and attach, and thus live envelopes between replayed ones.
- The displacement of a live socket by a resume, whose old handler would later detach the session; `Unhook` steps cover the effect.
- The session stamp on outgoing envelopes.
- The allocation of stream ids; a stream id is a parameter of the speech pipeline.
- Scheduler start, stop and worker death, the wake event, and job labels; a worker step may happen at any time.
- The identity of job, task, session and turn objects: these are records in the fields of the scheduler and the managers, which replace them where the source updates them in place. A job is its seq, and the running map is listed in the order of creation.
- A factory that raises something that is neither an exception nor a cancellation.
- Float rounding in the aging quotient.
- A `finish` with a status that the store refuses.
- JSON, SQL and sockets; the store is a turn counter with a status map, an envelope is its type, state, time stamp, seq, turn and an uninterpreted rest.
- HTTP, health checks and the format probe request; a reply is its status, its pieces and whether the transport breaks.
- What `_run_chat_turn` broadcasts beside `on_delta`: the THINKING, SUCCESS and ERROR states and the closing token, which also go out for a turn that was cancelled before its task existed.
- The second TTS client (its carry loop is the same), speech cancellation, latency figures, the decay to idle, skills, configuration and the voice tools.
