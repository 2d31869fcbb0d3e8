# Verification of the event-sourced kernel

This project models one run of the testbed kernel as a transition system with two layers of
state and proves what holds through every history of the run.

* The **database** (`KernelState.Tables`): canonical log, archive, checkpoints, attempts. The
  connection is in autocommit mode, so a `Disk` also carries its trail, the tables after every
  single statement; a crash leaves exactly one of these behind.
* The **memory** (`KernelState.Session`): World with its delivery queue, journal counters and
  random streams, driver state, and the restorable states of the agents.

A *history* is any sequence of attempts. Each attempt runs with arbitrary agents and is killed
after an arbitrary statement, fails with an exception, or reaches its end. A history is *orderly*
(`Histories.Orderly`) if each attempt found a checkpoint or an empty log, or was fruitless: it
left its own rows and no checkpoint, be it that the store answered its events with an error or
as duplicates. Results about the log and the checkpoints are about orderly histories; `Swallowed`
says what the others do.

## How the files fit together

| files | content |
|---|---|
| `Contracts`, `KernelState` | events, views, manifest data, memory and database as values |
| `Sorting`, `Scheduler`, `Rng`, `Journal`, `Store`, `World`, `Drivers`, `Controller`, `Playback`, `Measures` | the source's objects as classes whose methods are proved against rules |
| `WorldRules`, `DriverRules`, `RunRules` | the rules: each operation as a function on values, with the source's branches, order and constants |
| `Invariants`, `DriverInvariants`, `Recovery`, `Histories`, `Outcomes`, `Books`, `Accounting` | what memory and log say about each other, kept by every operation, by every attempt, in every history |
| `Equivalence`, `Punctuality`, `Growth`, `Resumption`, `Writers`, `Continuity`, `EnvResumption`, `Kinship`, `TickActions`, `TickAgain`, `EnvEquivalence`, `EnvContinuity` | resuming against never having been interrupted, for any session and for whole runs |
| `Chronicle`, `Narration`, `Messages`, `Tallies`, `Requests`, `Performance`, `Pace`, `Changes`, `Beginnings`, `Verdicts`, `Utf8` | the log read on its own and the audience of each event; what messages, requests, streams, changes, beginnings and ends come to, without the rules' own words |
| `Swallowed`, `Examples` | attempts on a log without a checkpoint that store one; three concrete runs that go wrong |
| `FaultFold`, `Simultaneous`, `Liveness`, `Views`, `Inequality` | the fault pipeline in closed form, parallel ticks, an endless loop, projections, payoff inequality |

Plug-ins, agents, the verifier, the values of random streams and the content hash are function
parameters (`Setup`, `Minds`). Identifiers that the source derives by hashing are injective
constructors. The `Ledger` holds history variables no decision reads: which items were
scheduled, popped, removed and handed over, how often each fault fired, and the resources that
were counted but written to no event. A checkpoint of the model carries the ledger along, so that the
books of a resumed attempt begin where the checkpoint left them.

## Where the code does not do what its documentation says

* Resuming is documented to neither duplicate nor lose work. In session runs no scheduled item is
  delivered twice (`Histories.AtMostOnce`), but work is lost: `pop_due` takes the whole batch out
  of the queue before the first of its items is handled, and checkpoints are written in between.
  Such a checkpoint forgets the rest of the invocation and of the batch.
  `Continuity.CrashedRunDoesTheSameWork` states exactly when a resumed attempt does the work of
  the uninterrupted one, `Examples.PairLosesItsWork` is a run in which it does not.
* In environment runs work is also done twice: checkpoints are written inside a tick, and a
  resumed attempt begins that tick over at the same logical time, in both modes, even after the
  last action of the tick. Exactly when the log does not show it: if the agents, asked once more
  in the state captured, would offer the actions that were left (`EnvContinuity.CrashedEnvRun`,
  for a checkpoint anywhere in a tick). What they remember and spend is then decided in the same
  way where agents act or stay as they are (`EnvContinuity.CrashedBetweenActions`,
  `EnvContinuity.CrashedAfterTick`) or remember for good. `Examples.SoloActsTwice` is a run in
  which an action is done twice.
* A run that dies before its first checkpoint cannot be resumed: `resume` falls through to
  `execute`, whose journal starts at sequence 0 and clashes with what is there
  (`Outcomes.DeathBeforeTheFirstCheckpointStrands`, `Outcomes.StrandedWhileFruitless`).
* Which of several broken constraints an insert reports decides what happens then. If it is the
  sequence, the attempt ends with an error. If it is the key, `append` answers a duplicate, nobody
  looks at the answer, and the attempt goes on for as long as it repeats the logged kinds and
  actors (`Swallowed.SwallowedWhileReplaying`). Should a checkpoint fall due meanwhile, it is
  stored with sequence 0, and the next attempt archives the whole log and continues from it with
  an action index that is no position (`Swallowed.SwallowedCheckpoint`, `Examples.SoloIsSwallowed`).
* A dropout fault is said to be handled by the driver at turn boundaries; neither driver calls
  `drop_out`, so such a fault never fires (`Outcomes.FaultsFireAsListed`) and nobody is ever
  dropped (`Accounting.NobodyIsDropped`).
* Playback starts from an empty state, World from the case's initial state
  (`Outcomes.PlaybackAgainstWorld`).
* Resources reported with an error emission are counted against the limits but not logged
  (`Outcomes.BudgetsSurviveCrashes`); the environment driver logs none at all.
* The mean hand-off latency is counted from the sender's first message of the run
  (`Measures.CountedFromTheFirstMessage`).
* With a clock step that is not positive the environment driver need not end (`Liveness.NeverEnds`).

## Model

| member | source | states |
|---|---|---|
| `Histories.EveryHistoryIsSound` | src/testbed_kernel/controller.py:115-179 | in every orderly history - any number of attempts with any agents, each killed after any statement, failed with an exception, run to its end, or, where there is a log but no checkpoint, leaving nothing but its rows - the database is sound: the log is dense, in order of time and secretive, and every checkpoint pins a prefix of it that its own memory agrees with |
| `Histories.CanonicalLog` | src/testbed_kernel/journal.py:42-91 | in every orderly history the log is numbered 0 to n-1, the event at position i has action index i, keys are pairwise distinct, logical time never falls, there is at most one payoff assignment, one verifier result and one end, and the end is the last event |
| `Histories.CheckpointsDescribeTheLog` | src/testbed_kernel/controller.py:251-283 | every stored checkpoint of every orderly history: its state is the initial state overlaid with the in-order merge of the state changes logged before it; no verdict, payoff or end is before it; every item scheduled is queued, popped or removed, exactly once, and the counters count them; every queued item may still be delivered |
| `Histories.PinnedForever` | src/testbed_kernel/controller.py:146-159 | a stored checkpoint and the prefix of the log it covers are never altered by anything that happens later in an orderly history |
| `Histories.AtMostOnce` | src/testbed_kernel/drivers.py:157-183 | in every orderly history the k-th delivered event shows the k-th item handed over, not before it was due, and the items handed over are among those scheduled, each used up once |
| `Histories.SecretsStaySecret` | src/testbed_kernel/world.py:198-208 | in every orderly history fault, payoff and verifier events project to nothing in every view but the omniscient one |
| `Narration.EveryEventInPlace` | src/testbed_kernel/journal.py:42-91 | in every orderly history each event is what it may be in the scene that those before it set - dated by the clock events, of the attempt last started, an invocation numbered and caused by the delivery just before it, an utterance by the agent being heard and before the end of the episode, a change or refusal settling the action before it, a fault between ends its lists name, a refusal for a reason that holds - and exactly those it concerns may see it |
| `Narration.PrivateStaysPrivate` | src/testbed_kernel/drivers.py:239-268 | if an agent only sends privately and no handler speaks up in its name, then in every orderly history no view but the omniscient one, its own and those of the recipients shows any message of its, neither as sent nor as delivered |
| `Narration.CheckpointsTell` | src/testbed_kernel/controller.py:251-283 | at every checkpoint of every orderly history clock, tool calls, invocations, the end of the episode and its reason are those the log before it tells |
| `Chronicle.Audience` | src/testbed_contracts/events.py:102-130 | a public event is seen by all, a secret one in the omniscient view alone, any other exactly by those it concerns and the omniscient view |
| `Recovery.AttemptIsSafe` | src/testbed_kernel/controller.py:294-383 | one attempt from a sound database with a checkpoint or an empty log: every durable state it passes through is sound and keeps what was pinned, its log only grows once the cut-back is done, and at the end memory and log agree and the log is finished |
| `Outcomes.BudgetsSurviveCrashes` | src/testbed_kernel/drivers.py:221-225 | at every checkpoint of every orderly history the model calls and the cost counted equal the sums over the log before it if and only if error emissions reported none; always when error emissions are free |
| `Outcomes.FaultsFireAsListed` | src/testbed_kernel/world.py:168-175 | at every checkpoint of every orderly history a fault with listed occurrences fired as often as there are distinct listed numbers among the deliveries that reached it, a dropout fault never, and the log before it holds one fault record per firing |
| `Outcomes.NothingArrivesEarly` | src/testbed_kernel/world.py:153-159 | in every orderly history every delivered event shows a scheduled item and, when no fault shortens a delay, is dated at least the latency and the extra delay of its delivery after the item was scheduled; without delay faults the item was due exactly then |
| `Performance.NothingArrivesLate` | src/testbed_kernel/drivers.py:113-140 | a session loop with positive latency and no negative delay, from where nothing is overdue, makes no delivery before it is due or a whole clock step after |
| `Outcomes.EndAgreesWithLog` | src/testbed_kernel/controller.py:358-383 | an attempt that reaches its end after any orderly history leaves a log with exactly one end, its last event, that the live state and the call budget agree with; each fault with listed occurrences fired as often as there are distinct listed numbers among the deliveries that reached it, a dropout fault never, and the log holds one record per firing |
| `Outcomes.PlaybackAgainstWorld` | src/testbed_kernel/playback.py:67-85 | at every checkpoint of every orderly history the playback of the log before it equals the stored state if and only if the logged changes cover every key the case started with |
| `Outcomes.EveryViewOfEveryHistory` | src/testbed_kernel/playback.py:73-78 | every view of every log plays back to the same state |
| `Outcomes.FirstCommit` | src/testbed_kernel/controller.py:140-174 | the first event of an attempt is accepted by the store if and only if there is a checkpoint or the log is empty |
| `Outcomes.DeathBeforeTheFirstCheckpointStrands` | src/testbed_kernel/controller.py:148-150 | a run killed after its first event has no checkpoint and a log that is not empty, and every event a fresh journal can offer clashes with it |
| `Outcomes.StrandedWhileFruitless` | src/testbed_kernel/controller.py:148-150 | such a run stays without a checkpoint and with the same log for as long as no attempt stores a checkpoint, whatever rows the attempts leave |
| `Swallowed.SwallowedWhileReplaying` | src/testbed_kernel/journal.py:42-91 | a fresh journal on a dense log that is not empty has nothing accepted, and may be answered duplicates alone if and only if it offers the kinds and actors of the log in the log's order |
| `Swallowed.StandsStill` | src/testbed_kernel/journal.py:42-91 | an attempt begun on a log without a checkpoint, none of whose events is accepted, after any interleaving of row writes, offers and checkpoints: sequence 0, action index the number of offers, log and archive as found, and a checkpoint, if any, with sequence 0 and a positive index |
| `Swallowed.ExecutedAgain` | src/testbed_kernel/controller.py:115-138 | an attempt that takes again the steps of one that got as far as the log shows may have all it offers answered as duplicates, and is then in memory where the first one was |
| `Swallowed.ShownFromMemory` | src/testbed_kernel/drivers.py:395-407 | what an environment driver shows to agents and handlers is a matter of that memory alone |
| `Swallowed.SoundIffNoCheckpoint` | src/testbed_kernel/controller.py:251-283 | after any such steps the database is sound if and only if none of them stored a checkpoint; the attempt is then a fruitless step of an orderly history |
| `Swallowed.SwallowedCheckpoint` | src/testbed_store/sqlite.py:231-241 | if it stores one after any steps with an offer: the database is not sound, the next attempt resumes from it, archives the whole log, and its first event has the number of swallowed events as action index |
| `Swallowed.NeverCanonicalAgain` | src/testbed_kernel/controller.py:140-179 | the log of that next attempt, run to its end, is not numbered by its positions |
| `Examples.SoloIsSwallowed` | src/testbed_kernel/journal.py:81-84 | a concrete run that dies between the commit at which its checkpoint falls due and the statement that stores it, and takes the same steps again: all it offers may be swallowed, it is in memory where the first attempt was, and the log of the third attempt is never canonical |
| `Examples.SoloCourse` | src/testbed_kernel/drivers.py:388-429 | on an empty database those steps lead to the session the rules lead to |
| `Outcomes.ResumeFindsItsPlace` | src/testbed_kernel/controller.py:204-212 | in every orderly history the latest checkpoint has equal sequence and action index, inside a dense log |
| `Outcomes.BatchInHandIsForgotten` | src/testbed_kernel/drivers.py:122-136 | a checkpoint written with popped items still in hand: for a resumed attempt run to its end, the items handed over are, together with those in hand, at most the items scheduled; so if no two scheduled items are equal, none of those in hand is ever handed over, and each delivered event shows one that was |
| `Examples.PairForgetsTheOther` | src/testbed_kernel/drivers.py:122-136 | the same on a concrete run with one of two messages in hand |
| `Accounting.EverythingIsLogged` | src/testbed_kernel/drivers.py:315-323 | with free error emissions nothing is counted unlogged in any checkpoint of any history of session runs |
| `Accounting.NobodyIsDropped` | src/testbed_kernel/world.py:224-228 | no fault ever drops anybody: the set of dropped agents is empty in every checkpoint of every history and at the end of every attempt, in both drivers |
| `Resumption.ResumeEquivalence` | src/testbed_kernel/controller.py:140-179 | a resumed attempt does exactly the work (kind, actor, time, targets, visibility, payload, resources) of the uninterrupted one, and ends with the same state, if and only if nobody was left to receive the rest of the batch and nothing falls due before the next round would have begun; the outcome is then the same too, except at the last tick |
| `Continuity.CrashedRunDoesTheSameWork` | src/testbed_kernel/controller.py:140-179 | any attempt of a session run, from scratch or resumed, with positive latency, no negative delay, a clock step of at most one, and agents that can be restored or never move from where they start, killed anywhere: the next attempt does exactly the work the killed one would have done if and only if the killed one had stored no checkpoint, or, left alone, would have logged no more work at the logical time of its latest one; the outcome is then the same too if and only if that was not the last tick |
| `Continuity.AnyNumberOfCrashes` | src/testbed_kernel/controller.py:140-179 | after any number of such crashes of the same team, none of which loses part of a round, the next attempt does exactly the work of a run that was never interrupted |
| `Continuity.CursorsComeBack` | src/testbed_kernel/controller.py:174-178 | a resume brings every cursor back if and only if each agent can be restored or is where the new attempt starts it; an agent without a snapshot starts over |
| `Continuity.Origin` | src/testbed_kernel/controller.py:251-283 | a checkpoint in any durable state of an attempt was found there, or was written by a session of the attempt in the middle or at the end of a round, from which the attempt left alone goes on to its end |
| `Writers.LoopWrites` | src/testbed_kernel/drivers.py:113-140 | every checkpoint stored at the end of a session loop was there before, or some session wrote it and went on through its round to that end |
| `Writers.BatchWrites` | src/testbed_kernel/drivers.py:122-138 | the same for one batch |
| `Resumption.CrashAfterRoundIsHarmless` | src/testbed_kernel/drivers.py:129-138 | with positive latency, no negative delay and a clock step of at most one, a crash anywhere after a checkpoint that ends a round, before the next one, loses and repeats no work |
| `Resumption.UnfinishedRoundIsLost` | src/testbed_kernel/drivers.py:122-138 | a checkpoint written while the round had work left: however the round ends, the resumed attempt does not do the same work |
| `Resumption.MidInvocationIsLost` | src/testbed_kernel/drivers.py:221-227 | so for a checkpoint written while an agent still had something to emit |
| `Resumption.DeliveredNotInvokedIsLost` | src/testbed_kernel/drivers.py:164-188 | so for a checkpoint written between a delivered event and the invocation it was for |
| `Examples.PairLosesItsWork` | src/testbed_kernel/drivers.py:122-188 | a concrete run of two agents, killed right after its first checkpoint: the resumed attempt invokes nobody, ends quiescent, and does not do the work of the run left alone |
| `Examples.PairHolds` | src/testbed_kernel/drivers.py:122-138 | at that checkpoint one of the two messages due is still in hand |
| `EnvContinuity.CrashedEnvRun` | src/testbed_kernel/controller.py:140-179 | any attempt of an environment run, in both modes, killed anywhere: the same result if it had stored no checkpoint; otherwise its latest one was written by a session with some rest of the tick left, and the next attempt logs the same work at its logical time if and only if the episode was over or the agents, asked once more in the state of that session, would offer the actions left; and comes to the same result if they also remember what they do already and spend what was left to be spent, and only then where cursors agree anyhow or agents remember for good |
| `EnvContinuity.CrashedBetweenActions` | src/testbed_kernel/drivers.py:388-429 | for agents that act or stay as they are, and a checkpoint after the last action of the agent then asked: the same result if and only if the episode was over, or none of those asked before would act when asked once more and nothing was left to be spent in the turn |
| `EnvContinuity.CrashedAfterTick` | src/testbed_kernel/drivers.py:376-429 | so after the last action of the tick: the same work at that time if and only if the episode was over or nobody would act when asked once more; the same result if and only if moreover nothing was left to be spent in the turn |
| `EnvContinuity.EnvOrigin` | src/testbed_kernel/controller.py:251-283 | a checkpoint in any durable state of an attempt was found there, or was written by a session of the attempt, with what was left of its tick leading to the end of the attempt left alone |
| `EnvContinuity.TickWrites` | src/testbed_kernel/drivers.py:388-429 | every checkpoint stored after a tick was there before, or some session wrote it, in the middle of a stream or of the commits, with a rest that leads to the end of the tick |
| `EnvEquivalence.ResumeExactly` | src/testbed_kernel/drivers.py:376-429 | the same for any checkpoint with a given rest of the tick, whoever stored it |
| `EnvEquivalence.ResumeBetweenActions` | src/testbed_kernel/drivers.py:376-429 | the same for one between two actions of agents that act or stay as they are |
| `TickAgain.FinishedOrOver` | src/testbed_kernel/drivers.py:388-429 | beginning a tick over logs the work that finishing it logs if and only if the agents, asked once more, would offer the actions left; and exactly which cursors and resources then differ |
| `EnvEquivalence.AkinLoop` | src/testbed_kernel/drivers.py:376-386 | sessions that differ in what was spent go on to do the same work and keep that difference |
| `EnvEquivalence.LoopApart` | src/testbed_kernel/drivers.py:376-386 | if an agent remembers something else, and agents remember for good, the results differ |
| `TickActions.CommitAllShows` | src/testbed_kernel/drivers.py:424-444 | the log shows the actions performed, in their order, those beyond the end of the episode left out |
| `EnvResumption.EnvLoopAlike` | src/testbed_kernel/drivers.py:376-429 | environment sessions with the same work done end with the same work done and the same outcome, as long as the event limit is not reached |
| `Examples.SoloActsTwice` | src/testbed_kernel/drivers.py:376-429 | a concrete environment run of one agent: left alone it logs one action, killed right after the checkpoint that follows it and resumed it logs two |
| `Examples.SoloByTheRule` | src/testbed_kernel/drivers.py:376-429 | that its results differ follows from the general condition: asked once more, the agent would act |
| `Resumption.SameWorkSameVerdict` | src/testbed_kernel/controller.py:385-416 | a verifier that judges state and work gives the resumed attempt the same verdict and payoffs, hence the same terminal state for the same outcome |
| `Resumption.ReloadInStep` | src/testbed_kernel/world.py:315-343 | memory reloaded from a checkpoint has the same world, delivery schedule, random streams, driver state and agent cursors as the memory that was captured |
| `Equivalence.LoopAlike` | src/testbed_kernel/drivers.py:113-140 | two sessions with the same work done, one with more bookkeeping in its log, end with the same work done and the same outcome, as long as the event limit is not reached |
| `Equivalence.SameWorkSeen` | src/testbed_kernel/drivers.py:325-331 | what an agent sees of the work in its history depends on the work logged alone |
| `Punctuality.BatchLeavesPending` | src/testbed_kernel/drivers.py:122-138 | with positive latency and no negative delay everything queued while a batch is handled is due later |
| `Growth.LoopGrowsLog` | src/testbed_kernel/drivers.py:113-140 | all that a session loop writes, it writes after what is there and dates no earlier than the time it started at |
| `Drivers.SessionDriver.Run` | src/testbed_kernel/drivers.py:113-140 | ends for every topology, latency and clock step, and leaves the session the rule says, with its outcome |
| `Drivers.SessionDriver.Activate` | src/testbed_kernel/drivers.py:88-109 | opens the episode once, in the order of the agents taking part |
| `Beginnings.OpensForEach` | src/testbed_kernel/drivers.py:88-109 | exactly the agents with an opening are activated, in order, and what is queued are private first messages for them |
| `Beginnings.OpeningArrives` | src/testbed_kernel/drivers.py:96-108 | without faults a first message not too long is queued once as the topology words it, due after the latency; no message, nothing |
| `Drivers.SessionDriver.LimitHit` | src/testbed_kernel/drivers.py:142-155 | nothing means that no limit is exceeded; otherwise the limit is exceeded and none of those before it is, in the order time, events, messages, calls, cost |
| `Drivers.SessionDriver.DeliverAndInvoke` | src/testbed_kernel/drivers.py:157-188 | new session of one delivery: nothing for a dropped recipient, else the delivered event, a possible checkpoint, and the invocation if the recipient has a handle |
| `Performance.BatchHands` | src/testbed_kernel/drivers.py:122-188 | a batch is handed over in its order at the time of the round, each item with the event that shows it, all of it or up to the one that finished the episode |
| `Drivers.SessionDriver.Invoke` | src/testbed_kernel/drivers.py:190-227 | new session of one invocation, from the agent's projection of the log before it; what the agent is shown is the next four rows |
| `Requests.ShownInSession` | src/testbed_kernel/drivers.py:197-210 | the delivery, the public facts and of the state what is not hidden under them, the agent's own facts, and of the log exactly its projections |
| `Requests.ShownInTick` | src/testbed_kernel/drivers.py:398-407 | the same in an environment run, with the task's instruction, no message and no history |
| `Requests.HiddenStateStaysHidden` | src/testbed_kernel/world.py:103-109 | sessions that differ only in hidden state, in what other agents know privately and in events the agent may not see give it the same request |
| `Requests.ShownToPlugins` | src/testbed_kernel/world.py:84-101 | topologies and handlers are shown the world as it is, all agents in manifest order with their roles, and those of them that take part |
| `Drivers.SessionDriver.RunStream` | src/testbed_kernel/drivers.py:221-227 | emissions are taken in order up to the one that finishes the episode |
| `Performance.AgentIsHeard` | src/testbed_kernel/drivers.py:184-219 | under the next number, with what it remembers and the request for this delivery; it remembers its answer and nobody else does; what it says leaves one event each, in order |
| `Performance.StreamUtters` | src/testbed_kernel/drivers.py:221-323 | each emission from the first on, all of them or up to the one that finishes the episode, leaves exactly one utterance that says what it was, in order, and nothing else is said or delivered |
| `Drivers.SessionDriver.HandleAgentEvent` | src/testbed_kernel/drivers.py:229-323 | new core for each of the five kinds of emission |
| `Drivers.SessionDriver.HandleMessage` | src/testbed_kernel/drivers.py:230-274 | routed, logged before any of its deliveries is scheduled, and scheduled unless blocked; what comes of it is the next five rows |
| `Messages.SentMessage` | src/testbed_kernel/drivers.py:230-274 | one event says what the agent said to those it reaches, private if the agent wants it so and otherwise as the topology decided; what is queued is by that agent for those alone, with that visibility, and nothing if blocked; beside it only faults and policy events are logged |
| `Messages.PrivateMessage` | src/testbed_kernel/drivers.py:239-268 | a private message is read by the omniscient view, the sender and those it reaches, each delivery made of it by the omniscient view and its two ends, and no other event of it says anything |
| `Tallies.MessageTally` | src/testbed_kernel/drivers.py:255-268 | for each recipient, what was scheduled for it and what the log says was dropped on its way grow together by one for each time the message reaches it, unless it was blocked or is too long |
| `Messages.HandedTo` | src/testbed_kernel/drivers.py:164-182 | the event that hands a non-public item over is for its sender, its recipient and the omniscient view alone |
| `Messages.WhomItReaches` | src/testbed_kernel/world.py:232-248 | of those decided on the ones in the run that take part, in order; the first only, with a policy event, where broadcasts are not allowed |
| `Messages.QueuedIntact` | src/testbed_kernel/world.py:153-166 | without corruption faults what is queued for a delivery is the delivery itself |
| `Drivers.SessionDriver.MaybeCheckpoint` | src/testbed_kernel/drivers.py:333-339 | a checkpoint every so many steps, counted from the last |
| `Changes.RoundEnds` | src/testbed_kernel/drivers.py:137-138 | the clock moves one step if that is forward, with one event, and one turn more was taken; nothing else |
| `Pace.SessionPaced` | src/testbed_kernel/drivers.py:333-339 | from the start of a session to its end: one checkpoint in so many deliveries, messages, actions, calls, results and errors, counted from the last |
| `Pace.EnvPaced` | src/testbed_kernel/drivers.py:412-429 | the same in an environment, where the actions performed are counted |
| `Drivers.SessionDriver.WriteCheckpoint` | src/testbed_kernel/controller.py:251-284 | the row pins the log before the event that records it |
| `Changes.CheckpointHolds` | src/testbed_kernel/controller.py:251-284 | place, attempt, world with its queue in order of delivery, driver, random streams and the cursors that can be restored; stored before its event |
| `Drivers.TakeAction` | src/testbed_kernel/drivers.py:276-293 | the action event, then the change its handler declares, or a policy event |
| `Changes.ActionIsAnswered` | src/testbed_kernel/drivers.py:270-293 | the event first, as it was wanted; then the handler is shown the action and the world, and what it answers is applied; without one a policy event says so and nothing changes |
| `Drivers.EnvDriver.Run` | src/testbed_kernel/drivers.py:376-386 | ends for every positive clock step, with the outcome the rule says |
| `Drivers.EnvDriver.Tick` | src/testbed_kernel/drivers.py:388-429 | in turn-taking mode actions are committed as they come; in parallel mode all are collected first and committed by kind and agent |
| `Pace.AgentIsAsked` | src/testbed_kernel/drivers.py:393-422 | under the next number, with what it remembers; it remembers its answer and nobody else does; in turns all that it says is heard, or as much as ends the episode, and the actions among it are performed in order; in parallel mode they are collected; all that is heard is paid for |
| `Pace.AskedInTurn` | src/testbed_kernel/drivers.py:392-420 | all agents are asked, or those up to the one that ends the episode, and the actions stand in the log in the order of the agents |
| `DriverInvariants.SessionLoopKeeps` | src/testbed_kernel/drivers.py:113-140 | the session loop keeps memory and log in agreement and the disk durable, whatever the agents do |
| `DriverInvariants.RunBatchKeeps` | src/testbed_kernel/drivers.py:134-137 | after a batch every popped item was handed over or is owed by nobody |
| `DriverInvariants.EnvLoopKeeps` | src/testbed_kernel/drivers.py:376-386 | the environment loop keeps them too, in both modes |
| `DriverInvariants.SaveCheckpointKeeps` | src/testbed_kernel/controller.py:251-283 | what a checkpoint pins agrees with the log so far |
| `Simultaneous.ParallelTickIsOrderFree` | src/testbed_kernel/drivers.py:388-429 | in parallel mode the driver's own tick leaves the same session, log and world included, as a tick over the agents taking part in any other order |
| `Simultaneous.OrderOfVisitsIsInvisible` | src/testbed_kernel/drivers.py:424-429 | the committed order of the actions is the same for every permutation of the agents |
| `Simultaneous.ActionOrderIsTotal` | src/testbed_kernel/drivers.py:426 | the comparison by kind and agent is a total preorder |
| `Simultaneous.CommittedInOrder` | src/testbed_kernel/drivers.py:424-429 | simultaneous actions are sorted by kind, and within a kind by agent, as in a dictionary |
| `Liveness.NeverEnds` | src/testbed_kernel/drivers.py:376-386 | with a clock step that is not positive and agents that never act, the environment loop goes on after any number of iterations |
| `Controllers.RunController.Resume` | src/testbed_kernel/controller.py:140-179 | leaves the database the rules of an attempt say, from the latest checkpoint or an empty log |
| `Controllers.RunController.Execute` | src/testbed_kernel/controller.py:115-138 | the same on an empty log |
| `Beginnings.FreshSession` | src/testbed_kernel/controller.py:128-138 | the new world, the initial memos and streams, nothing counted, and a row under a number above all others |
| `Beginnings.AnnouncedInOrder` | src/testbed_kernel/controller.py:306-330 | the start, then each agent of the manifest with its role, in order; and the rows say running |
| `Beginnings.ResumedSession` | src/testbed_kernel/controller.py:157-178 | memory as the checkpoint has it, a new row that says where it resumed, and a first event that says so and how many events were superseded |
| `Controllers.RunController.Drive` | src/testbed_kernel/controller.py:294-383 | announces, drives, verifies, concludes; the terminal state is the run row's; which one that is is the next three rows |
| `Verdicts.AttemptIsSettled` | src/testbed_kernel/controller.py:419-430 | blocked by policy exactly if the session stopped with messages, calls or cost exceeded and time and events left; otherwise failed exactly if there is a negative verdict; otherwise complete; run row, attempt row and last event agree, the log holds the verdict as given and the payoffs added up |
| `Verdicts.FailureIsInTheLog` | src/testbed_kernel/controller.py:419-430 | the same read off the verdict in the log |
| `Verdicts.SessionStops` | src/testbed_kernel/drivers.py:113-155 | a session stops because the episode is over, for the first exceeded limit, because what is left is due after the last time, or with nothing left to deliver; and says which |
| `Verdicts.EnvStops` | src/testbed_kernel/drivers.py:376-386 | an environment run stops because the episode is over, for its time, or else for its events |
| `Controllers.RunController.Build` | src/testbed_kernel/controller.py:195-225 | world, journal and random streams are those of the checkpoint |
| `Controllers.RunController.Verify` | src/testbed_kernel/controller.py:385-416 | payoffs before the verdict, both hidden, only if there is a verifier |
| `Controllers.RunController.StartAttempt` | src/testbed_kernel/controller.py:183-193 | the next free attempt number |
| `Worlds.World.constructor` | src/testbed_kernel/world.py:36-80 | a new world is at time 0 with the initial state, no deliveries and nothing counted |
| `Beginnings.FreshWorld` | src/testbed_kernel/world.py:36-80 | time 0, what the case gives, each agent its own facts, no payoff, nothing queued or counted |
| `Worlds.World.AdvanceTo` | src/testbed_kernel/world.py:116-125 | the clock moves forward only, and every move is logged |
| `Worlds.World.Enqueue` | src/testbed_kernel/world.py:129-166 | the whole new state of scheduling one delivery; in closed form `FaultFold.EnqueueClosedForm` |
| `Tallies.EnqueueTally` | src/testbed_kernel/world.py:129-166 | a permitted delivery is scheduled, once, or the log says that it was dropped; copies come beside it |
| `Worlds.World.FaultFires` | src/testbed_kernel/world.py:168-175 | counts the occurrence, draws only when no occurrences are listed |
| `Worlds.World.ApplyFault` | src/testbed_kernel/world.py:193-222 | the whole new state of one fault on one delivery; in closed form `FaultFold.FoldClosedForm` |
| `FaultFold.FaultReached` | src/testbed_kernel/world.py:168-191 | a fault whose lists do not name the right end of the delivery passes it on and changes nothing; one whose lists do is reached once more, unless it is a dropout, and no other fault is |
| `Worlds.World.ApplyFaults` | src/testbed_kernel/world.py:160-163 | the loop over the faults is the fold over all of them, a drop ends it |
| `Worlds.World.DropOut` | src/testbed_kernel/world.py:224-228 | the agent takes no more part and its deliveries are removed and counted |
| `Changes.DroppedOut` | src/testbed_kernel/world.py:224-228 | everything on its way to the agent is gone, the rest of the queue lies as it lay, and one policy event says how many are gone |
| `Worlds.World.Route` | src/testbed_kernel/world.py:232-248 | recipients unknown or dropped out are left away, and all but the first where broadcasts are not allowed |
| `Utf8.SizeIsEncoded` | src/testbed_kernel/world.py:147-151 | the size that is limited is the length of the UTF-8 encoding (RFC 3629, section 3) |
| `Utf8.RoundTrip` | src/testbed_kernel/world.py:147-151 | that encoding decodes to the character, and no more is read than its bytes |
| `Worlds.World.ApplyChange` | src/testbed_kernel/world.py:250-273 | state and facts first, then messages, then the end, then one event |
| `Changes.AppliedChange` | src/testbed_kernel/world.py:250-273 | rejected: one policy event and nothing else; else state and private facts overlaid, messages queued, the episode over for its reason if the change says so, and one last event that says what it was |
| `Tallies.ChangeTally` | src/testbed_kernel/world.py:258-259 | for each recipient, scheduled and dropped grow together by one for each message of the change that is for it and permitted |
| `Worlds.World.AssignPayoffs` | src/testbed_kernel/world.py:275-286 | payoffs add up and are logged out of everyone's sight |
| `Worlds.World.Snapshot` | src/testbed_kernel/world.py:315-329 | every field, the queue in canonical order |
| `Worlds.World.Restore` | src/testbed_kernel/world.py:331-343 | the world becomes the one that was stored |
| `FaultFold.FoldClosedForm` | src/testbed_kernel/world.py:160-222 | the fold over the faults without the fold: the delivery is lost iff some fault drops it; else due later by the sum of the delays that fired, content reversed iff the corruptions are odd in number, payload emptied iff there was one; one copy per duplication before the drop, shaped by the faults before it; one record per hit; each applicable fault counted once |
| `FaultFold.EnqueueClosedForm` | src/testbed_kernel/world.py:153-166 | what a permitted delivery adds to queue, counters, resources and log, in those terms; it is due its own extra delay and the latency from now |
| `FaultFold.RefusedDelivery` | src/testbed_kernel/world.py:141-151 | a delivery that may not be made leaves one policy event that says why and nothing else |
| `FaultFold.ExtentIsFirstDrop` | src/testbed_kernel/world.py:160-163 | the faults reached are all, or those up to the first that drops the delivery |
| `FaultFold.ReverseTwice` | src/testbed_kernel/world.py:217-221 | corrupting the content twice restores it |
| `Invariants.EnqueueKeeps` | src/testbed_kernel/world.py:129-166 | scheduling keeps memory and log in agreement, and the clock, the state and who takes part as they are |
| `Invariants.ApplyChangeKeeps` | src/testbed_kernel/world.py:250-273 | after a change the state is again the initial state overlaid with the log's changes |
| `Invariants.PopKeeps` | src/testbed_kernel/scheduler.py:63-69 | popped items leave the queue and are owed a delivery |
| `Invariants.HandKeeps` | src/testbed_kernel/drivers.py:164-182 | handing over the first owed item settles it, in the log and in the books |
| `Invariants.DropOutKeeps` | src/testbed_kernel/world.py:224-228 | dropping an agent keeps the books: its items are removed, not lost |
| `Scheduler.DeliveryQueue.PopDue` | src/testbed_kernel/scheduler.py:63-69 | the due items in canonical order leave the queue, the others stay in place |
| `Scheduler.DeliveryQueue.DropFor` | src/testbed_kernel/scheduler.py:77-81 | how many items were removed, and which stay |
| `Scheduler.PopDueConserves` | src/testbed_kernel/scheduler.py:63-69 | popped and remaining items together are the queue, split at the time |
| `Scheduler.PoppedInOrder` | src/testbed_kernel/scheduler.py:33-45 | deliveries leave by due time, then hint, then content key, copies last |
| `Scheduler.PoppedIsDuePartOfCanon` | src/testbed_kernel/scheduler.py:63-75 | a pop is the due part of the canonical order |
| `Scheduler.PopInTwoGoes` | src/testbed_kernel/scheduler.py:63-69 | popping at a and then at b delivers what one pop at b delivers, in the same order |
| `Scheduler.PhysicalOrderIsInvisible` | src/testbed_kernel/scheduler.py:33-45 | queues that are permutations of each other pop the same keys, and hash collisions aside the same deliveries, in the same order |
| `Scheduler.LoadOfDumpIsFaithful` | src/testbed_kernel/scheduler.py:85-90 | a queue loaded from its dump cannot be told apart by any sequence of pushes, pops and drops |
| `Scheduler.NextDueIsFirst` | src/testbed_kernel/scheduler.py:71-72 | the next due time is that of the first item in canonical order |
| `Sorting.SortStable` | src/testbed_kernel/scheduler.py:66 | equal keys keep the order they had |
| `Sorting.SortCanonical` | src/testbed_kernel/drivers.py:426 | a stable sort sees its input only through the order inside each class of equal keys |
| `Journals.EventJournal.Commit` | src/testbed_kernel/journal.py:42-91 | accepted exactly when no constraint is broken; a duplicate key advances the action index alone; at the end of a dense log always accepted |
| `Journals.FreshJournalNeedsEmptyLog` | src/testbed_kernel/journal.py:25-40 | a journal at sequence 0 clashes with every dense log but the empty one |
| `Store.SqliteStore.Append` | src/testbed_store/sqlite.py:212-241 | accepted exactly when id, sequence and key are free; a refusal names a constraint that is broken and changes nothing |
| `Store.SqliteStore.SupersedeFrom` | src/testbed_store/sqlite.py:267-292 | every durable state on the way, the final tables and the number of rows moved |
| `Store.InterruptedSupersedeIsHarmless` | src/testbed_store/sqlite.py:267-292 | at every point between two statements each event is in the log or in the archive, and superseding again reaches the tables of an uninterrupted call |
| `Store.SupersedeTrail` | src/testbed_store/sqlite.py:282-291 | the durable states are: each first part of the rows archived, then all of them deleted |
| `Store.SqliteStore.LatestCheckpoint` | src/testbed_store/sqlite.py:315-320 | nothing means that there is no checkpoint; otherwise a stored checkpoint that no stored sequence exceeds |
| `Recovery.CutBackIsDurable` | src/testbed_kernel/controller.py:157-161 | cutting the log back to the latest checkpoint leaves exactly the prefix it pins, through sound states only |
| `Recovery.RejoinIsHealthy` | src/testbed_kernel/controller.py:161-178 | after the rejoin, memory reloaded from the checkpoint agrees with the cut-back log |
| `Randomness.DeterministicRng.Random` | src/testbed_kernel/rng.py:30-39 | the value is a function of seed, label and how often the label was drawn; only its own counter moves |
| `Randomness.StreamsAreIndependent` | src/testbed_kernel/rng.py:17-34 | after any interleaving of draws the next value of a stream depends only on how often that stream was drawn from |
| `Views.Noninterference` | src/testbed_contracts/events.py:102-143 | logs that agree position by position on what a view may see give the same view |
| `Views.ViewIsIdempotent` | src/testbed_contracts/events.py:118-143 | projecting a view again changes nothing |
| `Views.ViewsCompose` | src/testbed_contracts/events.py:118-143 | through one agent's view and then another's, exactly the public events are left |
| `Views.OnlyOwnAuthorisation` | src/testbed_contracts/events.py:125-129 | nobody learns from a view who else may see an event |
| `Views.ViewIsFilter` | src/testbed_contracts/events.py:141-143 | a view holds exactly the projections of the visible events, in order |
| `Views.ViewGrows` | src/testbed_contracts/events.py:141-143 | the view of a longer log continues the view of a shorter one |
| `Views.NothingLeaks` | src/testbed_kernel/playback.py:88-101 | a view never holds a payload it was not authorised to see |
| `Views.SumResources` | src/testbed_contracts/events.py:161-165 | the loop adds up the resources of all events |
| `Playbacks.Playback` | src/testbed_kernel/playback.py:67-85 | over a dense log with public state changes, any view rebuilds the in-order merge of all logged changes |
| `Playbacks.EveryViewPlaysBackAlike` | src/testbed_kernel/playback.py:73-78 | every view plays back to the same state |
| `Inequality.GiniIsMeanDifference` | src/testbed_kernel/measures.py:18-29 | the closed form over sorted values equals the sum of the distances over all ordered pairs, divided by 2 n times the total, of the shifted values |
| `Inequality.GiniBounds` | src/testbed_kernel/measures.py:18-29 | between 0 and (n-1)/n |
| `Inequality.GiniZero` | src/testbed_kernel/measures.py:18-29 | 0 exactly when all values are equal |
| `Inequality.GiniPermuted` | src/testbed_kernel/measures.py:26-28 | the same for every permutation of the values |
| `Inequality.GiniScaled` | src/testbed_kernel/measures.py:22-29 | the same for every positive multiple of the values, negative values included |
| `Measures.HandoffLatencies` | src/testbed_kernel/measures.py:40-53 | the latencies counted, in order, none negative |
| `Measures.CountedFromTheFirstMessage` | src/testbed_kernel/measures.py:44-51 | in a log in order of time every latency of a sender is counted from the first message it ever sent |

## Left out

- Resumption.ResumeEquivalence: for agents that answer alike when their history shows the same work; answers that depend on the bookkeeping beside it (how often the run was started, the clock and snapshot events, sequence numbers, ids and attempts) are left out, because a resumed log differs in it. And for uninterrupted runs that stay below the event limit by the number of agents and one, since that many more events of bookkeeping are logged.
- Resumption.CrashAfterRoundIsHarmless: the same.
- Continuity.CrashedRunDoesTheSameWork: the same. And for agents of which the resumed ones start alike, and each of which can be restored or never moves from where it starts; another one is started over by a resume (`Continuity.CursorsComeBack`), and what it then does is its own affair.
- Continuity.AnyNumberOfCrashes: the same, for every attempt of the history.
- Equivalence.LoopAlike: the same.
- EnvContinuity.CrashedEnvRun: a positive clock step, agents that answer alike whatever the number of the invocation, start alike and can be restored or never move from where they start, every agent of the manifest present, and runs that end below the event limit. Where the actions left would be offered again but some cursor would differ, the results are shown to differ only for agents that remember for good (`EnvEquivalence.Remembers`): others may forget the difference later.
- EnvContinuity.CrashedBetweenActions: the same.
- EnvContinuity.CrashedAfterTick: the same.
- EnvEquivalence.ResumeExactly: the same, for a given checkpoint and rest.
- EnvEquivalence.ResumeBetweenActions: the same.
- Histories.EveryHistoryIsSound: orderly histories. Left out are those with an attempt, on a log that is not empty and has no checkpoint, whose events the store answers as duplicates up to a checkpoint; the database is then never sound (`Swallowed.SoundIffNoCheckpoint`). The same holds for the other members that speak of orderly histories.
- Swallowed.ExecutedAgain: the steps of the second attempt are given as those of the first. That rules with swallowed events take them is shown for what an environment driver shows (`Swallowed.ShownFromMemory`) and, as steps, for one run (`Examples.SoloCourse`); a session driver shows agents the log, which is then that of the first attempt.
- Pace.SessionPaced: from where nobody has dropped out, which is so in every history (`Accounting.NobodyIsDropped`).
- Outcomes.BatchInHandIsForgotten: two scheduled items with equal content and times are not told apart.
- Controllers.RunController.Execute: only on an empty log. On another one the first insert breaks several constraints at once; which of them SQLite names is left open by `Store.SqliteStore.Append`, and what then follows is `Swallowed`.
- Controllers.RunController.Resume: only with a checkpoint or an empty log, for the same reason.
- An agent missing from the agents of an environment run: the source raises a key error, the model gives it an empty restorable state.
- Invocations are atomic finite sequences of emissions: an agent that is stopped in the middle of its stream leaves the same restorable state as one that was heard to the end.
- Plug-ins are pure functions of what they are shown: topologies that keep state or draw random numbers, and `randint`, `choice` and `shuffled`, are not modelled.
- Several runs in one database, run ids, manifest rows, results, scores and artifacts; the manifest comparison at the start of `resume`.
- Wall-clock fields, `superseded_at`, correlation ids, the `_private` entry of an observation (the request carries the private facts themselves), event text built from several values (kept as the values).
- Duplicate ids in a manifest, which its validation rejects.
- Money, seconds and payoffs are reals; rounding is not modelled.
- `plan`, `welfare`, transcripts and the counting measures of `compute_measures` would add only easy members.
- Catalog, command line, sandboxes, exporters, packs, scorers and statistics.
