# Durable sessions, verified

A Dafny model of the session runtime `entourage` and proofs of what it promises. Processes crash, leases expire, queues
deliver twice and handlers are retried; the proofs are about every run under those conditions.

- **Session store** (`Mail`, `SessionStore`, `LocalSessions`, `SessionHistory`, `SessionSafety`, `SessionTheorems`,
  `SessionScheduling`, `SessionCheckpoints`, `SessionTimes`): the leased protocol over the sessions and inputs tables.
  `LocalSessions` is the table code, one method for each transaction; `SessionHistory` turns any interleaving of
  workers, zombies and retries into a run.
- **Dispatching and staging** (`Dispatching`, `DispatchedWork`, `LocalDispatcher`, `RequestReply`, `LocalExchanges`):
  the worker loop over that store, stable identities for staged mail, and the pending-exchange table.
- **Plans** (`Plans`, `PlanMeaning`, `GraphEdges`, `PlanSplicing`, `Scheduling`, `SchedulingTheorems`, `LiveGraph`,
  `LocalGraph`, `LocalEngine`): plan trees compiled to graphs, run by a ready-set engine with duplicate deliveries, and
  grown while they run.
- **Agent turns** (`Conversation`, `TurnAccounting`, `TurnSafety`, `TurnTheorems`, `TurnClash`, `TurnMail`,
  `TurnEffects`, `TurnTools`, `TurnContent`, `PanelIngest`, `LocalAgent`): one activation of a chat agent with open
  tool calls, deferred answers and buffered messages; the model and the tools are arbitrary functions.
- **Redis structures** (`FairQueue`, `FairOrder`, `FairBatch`, `GraphCommit`, `CommitEffects`, `StoredSplice`, `IdOrder`,
  `RedisGraph`): the fair-share queue one command at a time, and the indexed graph store with its pipelined commit.
- **Mailboxes and outbox** (`Mailboxes`, `MailboxLists`, `LocalMailbox`, `RedisMailbox`, `MailboxBackends`,
  `MailboxTimes`, `Outbox`, `LocalOutbox`): one contract, two backends, and the replay of committed effects.
- **Runner** (`RunnerCapacity`, `LocalRunner`): what one tick starts.

The classes follow the code statement by statement and are tied to specification functions; the theorems are about
those functions and about whole runs of them, and say of every main operation, in terms of the rows, edges, events and
messages before and after, when it is accepted and all that it leaves.

Three promises hold only under a condition, which is proved exact or shown necessary:

- A batch that asks something on a held call's exchange and then ends that exchange answers the call twice
  (`TurnClash.ClashBreaksTheTranscript`, in a life that starts with nothing); every other batch keeps the transcript
  well formed (`TurnClash.WellFormedUnlessClash`).
- An eager member that reserves no worker starts its first one past the pool check. The pool limit is kept by every tick
  exactly when the pool spares a slot for each such member (`RunnerCapacity.CapacityExactly`).
- Replay publishes once only while tombstones of uncleared publications are kept (`Outbox.AppendsBalance`,
  `Outbox.TombstoneMatters`).

Conventions. Each transaction reads the clock once. Lease tokens are a counter. The digests in `_identity` are taken as
injective, so event identities are a datatype. Payloads, states and definitions are opaque. Where the docstring of the
failure notices promises a new report after every retry, the code can repeat an identity; nothing is claimed of it.

`dafny verify dfyconfig.toml` checks everything.

## Model

| member | source | states |
|---|---|---|
| `LocalSessionsModel.LocalSessions.BindDefinition` | entourage/sessions.py:69-78 | binding a definition changes exactly the definition table, and fails without change when another contract is bound under the name |
| `LocalSessionsModel.LocalSessions.Create` | entourage/sessions.py:154-158 | a created session is ready at revision 0 with an empty inbox and the next row; an existing identity or an empty argument changes nothing |
| `LocalSessionsModel.LocalSessions.Append` | entourage/sessions.py:181-184 | appending adds one pending input behind all accepted mail, once per event identity; complete and unknown sessions, empty and timer identities are errors that change nothing |
| `LocalSessionsModel.LocalSessions.SelectFirst` | entourage/sessions.py:210-214 | the claim query finds the one matching row that was claimed least recently, then is oldest, and finds nothing exactly when no row matches |
| `LocalSessionsModel.LocalSessions.Claim` | entourage/sessions.py:186-241 | one claim parks exhausted sessions in claim order and leases the first that is left, with its timer input and its bounded batch; the loop ends because each pass removes one ready session |
| `LocalSessionsModel.LocalSessions.Release` | entourage/sessions.py:256-269 | only the current holder gives a lease back; a backoff keeps the session unclaimable until it ends; errors change nothing |
| `LocalSessionsModel.LocalSessions.Retry` | entourage/sessions.py:271-281 | only a failed session is put back in service, with its attempts reset and its revision kept |
| `LocalSessionsModel.LocalSessions.SpawnChildren` | entourage/sessions.py:313-317 | the spawn loop creates every child or reports the first error |
| `LocalSessionsModel.LocalSessions.MarkIncorporated` | entourage/sessions.py:318-321 | the incorporation loop marks exactly the inputs named |
| `LocalSessionsModel.LocalSessions.PublishMail` | entourage/sessions.py:322-323 | the publication loop delivers in order, skipping known identities, or reports the first error |
| `LocalSessionsModel.LocalSessions.Commit` | entourage/sessions.py:283-333 | a checkpoint changes all of its tables together or, on any error, none |
| `LocalSessionsModel.LocalSessions.Purge` | entourage/sessions.py:335-354 | removes the oldest completed sessions before the limit, with their inputs, and nothing else |
| `SessionTheorems.SerialHistory` | entourage/sessions.py:227-250 | in every run the accepted checkpoints of a session form one chain: each was computed from exactly the state and revision the one before left, by a different lease, and the revision counts them |
| `SessionTheorems.CommitSeesStoredState` | entourage/sessions.py:243-250 | an accepted checkpoint was computed from the state, revision and executable stored at that moment and extends the history by one entry |
| `SessionTheorems.AcceptedOnce` | entourage/sessions.py:307-333 | however a run goes on, no lease is accepted twice, not even from a zombie worker |
| `SessionTheorems.MailTakenOnce` | entourage/sessions.py:301-318 | an input is marked incorporated exactly when one accepted checkpoint took it, and no other one ever does; identities in an inbox are distinct |
| `SessionTheorems.MailInOrder` | entourage/sessions.py:159-241 | when checkpoints take their whole batches, the committed batches one after the other followed by the pending mail are the acceptance order |
| `SessionTheorems.OneTimerPerRevision` | entourage/sessions.py:221-226 | leasing a session whose deadline is due leaves exactly one timer input of its revision, not taken by any checkpoint; a retry finds the same input |
| `SessionTheorems.WakeKept` | entourage/sessions.py:252-269 | one transaction keeps a runnable session runnable unless it is its own checkpoint or parks it as failed |
| `SessionTheorems.NoLostWake` | entourage/sessions.py:96-101 | over any run with a clock that does not go back a runnable session stays runnable through claims, crashes, releases and mail until it commits or is parked |
| `SessionTheorems.RetryWakes` | entourage/sessions.py:271-281 | a session returned to service is claimable at once, with a fresh attempt count |
| `SessionScheduling.ReadyWorkIsClaimed` | entourage/sessions.py:207-231 | a valid claim leases something whenever a matching ready session has attempts left |
| `SessionScheduling.BoundedBypass` | entourage/sessions.py:207-231 | while a session waits, claims that serve others are at most the live sessions ahead of it in claim order plus those created or retried meanwhile |
| `SessionScheduling.AttemptsBounded` | entourage/sessions.py:217-231 | the attempt counter counts exactly the leases since the last checkpoint or retry, and under a uniform limit never exceeds it |
| `SessionScheduling.OnlyPurged` | entourage/sessions.py:335-354 | no transaction touches a complete session except a purge, and that removes it |
| `SessionScheduling.CompleteForGood` | entourage/sessions.py:335-354 | over any run a complete session stays as it was until a purge names it |
| `SessionScheduling.CheckpointFrame` | entourage/sessions.py:283-333 | a rejected checkpoint changes no table; an accepted one changes only the committer, its new children and its publication targets, these only by new mail |
| `SessionSafety.StepKeeps` | entourage/sessions.py:207-354 | every transaction keeps the store invariant: active iff a token is held, complete implies no pending mail, one chain and one order of mail for each session |
| `SessionSafety.CommitterHolds` | entourage/sessions.py:243-250 | only the current holder of a lease can commit |
| `SessionCheckpoints.AcceptedExactly` | entourage/sessions.py:283-333 | a checkpoint is accepted exactly when its arguments are well formed, its lease is in force, its definition is bound, every child can be created, every publication has somewhere to go and a completion leaves no mail; it is stale exactly when only the lease is missing |
| `SessionCheckpoints.CheckpointWrites` | entourage/sessions.py:307-333 | every field an accepted checkpoint leaves: state, deadline, completion, definition and revision are the proposal's, its lease and failures are gone, the inputs it names are taken, children are born in order, published mail is received once each, and nothing else changes |
| `SessionTimes.LeasedExactly` | entourage/sessions.py:51-60 | a claim for one session leases it exactly when it is in service, no lease or backoff runs, and it is new, abandoned, at its deadline, or has mail |
| `SessionTimes.LeasedMatches` | entourage/sessions.py:207-217 | what a claim leases passes its filters, and nothing that passes them with attempts left comes before it |
| `SessionTimes.ClaimWrites` | entourage/sessions.py:221-241 | every field a lease leaves, with its end after the whole lease length, the timer told, the oldest mail up to the limit, and the attempt and its last error; every other row is untouched or parked |
| `SessionTimes.LeaseLasts` | entourage/sessions.py:227-231 | until a lease ends no claim of any run leases the session again unless its worker reports; from then on the next claim for it does |
| `SessionTimes.ReportsInTime` | entourage/sessions.py:243-250 | all that time its worker may release, and its checkpoint is not stale; afterwards both are |
| `SessionTimes.ReleaseWrites` | entourage/sessions.py:256-269 | every field a release leaves: the attempt stays counted, the reason is kept, and the session is served again after the backoff or at once |
| `SessionTimes.BackoffLasts` | entourage/sessions.py:261-269 | nobody is leased a session in its backoff, in any run, and the first claim for it after the backoff is |
| `SessionTimes.SleepsUntil` | entourage/sessions.py:326-333 | a session that parks with a deadline and no mail left is untouched by every run that brings it no mail, is not leased before its deadline, and is from then on; without a deadline it sleeps until mail comes |
| `SessionTimes.ServedAfterCommit` | entourage/sessions.py:283-333 | right after its checkpoint a session is served exactly when it continues and mail is left or its deadline has come |
| `SessionTimes.AppendWrites` | entourage/sessions.py:159-184 | mail is accepted exactly from outside by a session that is not complete or has it, and is added last and once |
| `SessionTimes.MailWakes` | entourage/sessions.py:98-101 | new mail has a session served at once unless a lease or a backoff blocks it |
| `SessionTimes.CreateServes` | entourage/sessions.py:144-158 | a session is created exactly under a new name, with every field as given or empty, and is served from then on |
| `SessionTimes.RetryServes` | entourage/sessions.py:271-281 | a retried session is served from then on, its attempts and last error forgotten and all else as it was |
| `SessionTimes.RetryWrites` | entourage/sessions.py:271-281 | only a failed session is returned to service, the answer says whether it was, and an unknown one is an error |
| `SessionTimes.PurgeWrites` | entourage/sessions.py:335-354 | a purge takes only sessions completed before the time given and leaves all others as they are |
| `SessionTimes.BoundForGood` | entourage/sessions.py:69-78 | over any run a definition once bound keeps its contract, and a binding is accepted exactly when it does not change it |
| `LocalExchangesModel.Context.Send` | entourage/executables.py:180-195 | staged mail carries an identity that depends on the session and the key alone, so every attempt stages the same; an empty key stages nothing |
| `LocalExchangesModel.Context.Request` | entourage/executables.py:197-200 | a request names itself as the exchange its replies belong to and its sender as the one to answer |
| `LocalExchangesModel.Context.Reply` | entourage/executables.py:202-207 | a result goes to whoever the request names, under an identity that depends on the provider, the request and the reply key; mail that asks nothing cannot be replied to |
| `LocalExchangesModel.Context.Spawn` | entourage/executables.py:209-223 | a child is named after its parent and the key; an empty key stages nothing |
| `LocalDispatcherModel.Dispatcher.TryCommit` | entourage/executables.py:341-358 | a handler's answer is committed exactly when the check and the store accept it, and the store moves as one commit step of the session protocol |
| `LocalDispatcherModel.Dispatcher.GiveBack` | entourage/executables.py:363-373 | a failed step is released with its backoff, as one release step of the protocol |
| `LocalDispatcherModel.Dispatcher.Take` | entourage/executables.py:341-362 | a leased step ends committed, or given back by its last step |
| `LocalDispatcherModel.Dispatcher.RunOnce` | entourage/executables.py:319-362 | one pass asks the definitions in turn from the cursor, each that is passed over had nothing to claim, the first with work is served, and the cursor moves just past it; every table change is a run of protocol steps |
| `LocalDispatcherModel.Dispatcher.RunUntilIdle` | entourage/executables.py:375-385 | the outcomes are those of consecutive passes, each starting where the one before left the store and the cursor; stopping below the budget means the last whole pass found nothing |
| `Dispatching.ServedInTurn` | entourage/executables.py:319-331 | over consecutive passes of the dispatcher, a definition that has work at each of its turns is served within one pass more than there are definitions between it and the cursor, whatever else becomes ready |
| `Dispatching.WaitDoubles` | entourage/executables.py:363-370 | the first failure waits a second and each further one twice as long, within the lease |
| `Dispatching.WaitPositive` | entourage/executables.py:363-370 | the backoff after a failure is positive and never exceeds the lease |
| `DispatchedWork.TakesItsOwn` | entourage/executables.py:319-331 | the session a pass serves is of the definition whose turn it is, leased for that definition's length under the dispatcher's name, with at most its batch of mail and attempts to spare |
| `DispatchedWork.CommitsTheAnswer` | entourage/executables.py:332-362 | a committed step wrote what the handler answered to the stored state, and a session of an old definition is then one of its successor and goes on |
| `LocalGraphModel.PlanStager.Expand` | entourage/runtime/planner.py:117-179 | walking the plan tree appends exactly the executions and edges of its compiled form and returns where to enter and leave it; it fails exactly when a sequence in the plan is empty, while an empty parallel is a merge of nothing |
| `LocalGraphModel.PlanStager.ExpandSequence` | entourage/runtime/planner.py:118-127 | items are wired end to start |
| `LocalGraphModel.PlanStager.ExpandParallel` | entourage/runtime/planner.py:148-155 | every branch ends in one merge, in branch order |
| `LocalGraphModel.StagePlan` | entourage/runtime/planner.py:84-180 | staging a plan yields its compiled form and touches no store; a plan with an empty sequence is refused |
| `LocalGraphModel.LocalGraph.StartSession` | entourage/runtime/queue.py:227-281 | a new session is START, the compiled plan and END, with START completed and every other execution pending |
| `LocalGraphModel.LocalGraph.AddEdge` | entourage/runtime/memory.py:208-220 | adding an edge puts it last, or replaces the condition in place |
| `LocalGraphModel.LocalGraph.RemoveEdge` | entourage/runtime/memory.py:222-223 | removes just that edge |
| `LocalGraphModel.LocalGraph.GetParents` | entourage/runtime/memory.py:225-233 | parents come in the order their edges were added |
| `LocalGraphModel.LocalGraph.GetReadyExecutions` | entourage/runtime/interfaces.py:211-237 | exactly the pending executions with every parent completed and every condition met |
| `LocalGraphModel.LocalGraph.CollectInputState` | entourage/runtime/interfaces.py:239-258 | the parents' nonempty results merged in edge order, or the initial state |
| `LocalGraphModel.LocalGraph.EnqueueReady` | entourage/runtime/queue.py:827-831 | all ready work and nothing else is queued |
| `LocalGraphModel.LocalGraph.Deliver` | entourage/runtime/queue.py:283-335 | taking one delivered message, duplicate or not, is one step of the scheduler |
| `LocalGraphModel.LocalGraph.Recover` | entourage/runtime/queue.py:899-931 | after a crash whatever was running is pending again and all ready work is queued |
| `LocalGraphModel.LocalGraph.CommitSplice` | entourage/runtime/interfaces.py:260-283 | committing a node that returned a plan leaves the spliced graph, only that node completed and the new executions pending |
| `LocalEngineModel.QueueRuntime.StartSession` | entourage/runtime/queue.py:227-281 | a new session leaves a message queued for every ready execution |
| `LocalEngineModel.QueueRuntime.ExecuteNode` | entourage/runtime/queue.py:283-461 | a duplicate changes nothing; otherwise the node has run, is completed, and every execution this made ready has a message |
| `LocalEngineModel.QueueRuntime.Drain` | entourage/runtime/queue.py:899-977 | handling messages until the queue is empty completes the session, and END has collected the meaning of the plan |
| `LocalEngineModel.QueueRuntime.RunPlan` | entourage/runtime/queue.py:899-977 | a fresh session run to its end hands END the meaning of the plan |
| `LocalEngineModel.QueueRuntime.Run` | entourage/runtime/queue.py:899-977 | a worker started after another died, at any point of any run, drives the session to the same end |
| `PlanMeaning.StageMeans` | entourage/runtime/planner.py:117-179 | the meaning of a plan and of its parts solves the equations of its compiled graph, and the exit carries the plan's meaning |
| `PlanMeaning.ParallelMeans` | entourage/runtime/interfaces.py:248-258 | a parallel runs its branches on one input, and a key comes from the last branch that writes it |
| `PlanMeaning.SequenceMeans` | entourage/runtime/planner.py:118-127 | a sequence hands each result on: a longer one starts where the shorter one ended |
| `PlanMeaning.PlainIsOpen` | entourage/runtime/planner.py:129-136 | the condition of the meaning theorem: a plan without conditionals meets it on every input, a conditional exactly when its condition is met and its body is open |
| `PlanMeaning.StageClimbs` | entourage/runtime/planner.py:117-155 | every edge of a compiled plan goes up in rank, so it has no cycle |
| `SchedulingTheorems.PlanKeepsItsMeaning` | entourage/runtime/queue.py:254-297 | for every order of picking work, every duplicate delivery, retry and crash, a session that completes hands END the plan's meaning |
| `SchedulingTheorems.RunsAgree` | entourage/runtime/queue.py:283-461 | any two runs of a plan agree on every result both have |
| `SchedulingTheorems.EverythingRan` | entourage/runtime/queue.py:254-297 | when END completes every execution has completed, with the result its part of the plan means |
| `SchedulingTheorems.NeverStuck` | entourage/runtime/interfaces.py:211-237 | a session that is not complete has something running or ready |
| `SchedulingTheorems.ExactlyOnce` | entourage/runtime/queue.py:283-461 | a completed execution never changes again, each completes at most once, and its node is attempted once more than it was interrupted |
| `SchedulingTheorems.ResultsStay` | entourage/runtime/queue.py:283-297 | no later step touches a completed execution |
| `SchedulingTheorems.WorkEnds` | entourage/runtime/queue.py:899-945 | progress is bounded by twice the executions plus the interruptions, so runs terminate |
| `SchedulingTheorems.CanAlwaysFinish` | entourage/runtime/queue.py:899-945 | from every reachable state, after any crashes, some continuation completes the session |
| `PlanSplicing.StageShift` | entourage/runtime/planner.py:117-179 | a plan staged elsewhere is the same graph with its identities moved |
| `PlanSplicing.StageGrows` | entourage/runtime/planner.py:117-179 | compiling the plan in which one leaf is followed by an extra plan gives the compiled plan with the extra one put in behind that leaf |
| `LiveGraph.SpliceEdges` | entourage/runtime/interfaces.py:260-283 | exactly which edges a splice leaves: the old ones without the node's outgoing ones, the plan's, and those that join the two |
| `LiveGraph.SpliceGrows` | entourage/runtime/interfaces.py:260-283 | one splice into a live graph is, up to names, static growth of the plan |
| `LiveGraph.SplicingIsStatic` | entourage/runtime/interfaces.py:260-354 | any number of splices leaves, up to execution names, the executions and edges of the statically grown plan |
| `LiveGraph.SplicingStaysAcyclic` | entourage/runtime/interfaces.py:260-354 | every edge of a spliced graph goes up in the grown plan's order |
| `LocalAgentModel.LocalAgent.DeliverMessage` | entourage/turn.py:236-243 | a message is buffered and every interruptible wait is promoted with its answer deferred |
| `LocalAgentModel.LocalAgent.SettleWith` | entourage/turn.py:222-234 | an outcome answers a held call or is told as a message, and a question or failure ends the wait early |
| `LocalAgentModel.LocalAgent.FoldReply` | entourage/turn.py:205-220 | folding a reply writes its outcome; progress and fenced work are dropped |
| `LocalAgentModel.LocalAgent.Ingest` | entourage/panel.py:43-60 | replies are matched by exchange and sender, results close their entries, and every matched entry is marked |
| `LocalAgentModel.LocalAgent.FailEntries` | entourage/panel.py:107-115 | failed work closes all its entries and each is told |
| `LocalAgentModel.LocalAgent.PromoteDueWaits` | entourage/turn.py:193-196 | waits past their budget are promoted with their answers deferred |
| `LocalAgentModel.LocalAgent.FlushMessages` | entourage/turn.py:245-251 | deferred results, then buffered messages join the transcript once no call is held open |
| `LocalAgentModel.LocalAgent.HearLetters` | entourage/turn.py:171-192 | the rest of the mail is heard in order up to a cancel; an unexpected item fails the activation |
| `LocalAgentModel.LocalAgent.DelegateTo` | entourage/turn.py:308-323 | a delegation spawns a provider, sends it the request and opens an entry in the chosen mode |
| `LocalAgentModel.LocalAgent.ControlWork` | entourage/turn.py:325-345 | steer, cancel and answer act on the named live work, and refusals are answered too |
| `LocalAgentModel.LocalAgent.RunOneCall` | entourage/turn.py:280-306 | one tool call is answered now, held open by a wait, or asks the caller |
| `LocalAgentModel.LocalAgent.CallModel` | entourage/turn.py:255-278 | one model call and its tools |
| `LocalAgentModel.LocalAgent.FinishJob` | entourage/turn.py:347-353 | replies to the caller and completes |
| `LocalAgentModel.LocalAgent.ResumeTurn` | entourage/turn.py:162-203 | one whole activation, statement by statement, proposes what its specification function says or fails |
| `TurnTheorems.ActivationKeeps` | entourage/turn.py:162-278 | an activation keeps the account of open calls, and shows the model a well formed transcript, exactly when its batch answers no call twice |
| `TurnTheorems.FlushScan` | entourage/turn.py:245-251 | the flush closes the transcript exactly when the deferred results are the open calls |
| `TurnAccounting.SortFacts` | entourage/panel.py:43-60 | after matching, no reply comes after its exchange's result and the table holds what is still pending |
| `TurnAccounting.FoldAllKeeps` | entourage/turn.py:205-234 | folding writes one answer for every call closed and one more for every question that came with its result |
| `TurnClash.DoubledMeansClash` | entourage/turn.py:205-234 | a batch answers a call twice exactly when it asks something on a held call's exchange and then ends it |
| `TurnClash.WellFormedUnlessClash` | entourage/turn.py:162-278 | the model is shown a well formed transcript if and only if the batch holds no question followed by the result of one held exchange |
| `TurnClash.EveryModelCallIsWellFormed` | entourage/turn.py:162-345 | over any life of mail, budgets, promotions, cancels and failures without such a batch, every model call gets a well formed transcript |
| `TurnClash.EveryCallAnsweredOnce` | entourage/turn.py:245-278 | well formed means: each assistant message is followed at once by exactly one tool message for each of its calls, before anything else |
| `TurnClash.ClashBreaksTheTranscript` | entourage/exchanges.py:61-69 | the condition is met by real lives: for every call that a fresh session's model can hold open, a batch in which the provider asks and then finishes makes the next model call see that call answered twice |
| `TurnEffects.Delivers` | entourage/turn.py:236-243 | a message is added last, and exactly the interruptible waits go on as connected work, each told once that it still runs |
| `TurnEffects.BudgetsEnd` | entourage/turn.py:193-196 | exactly the waits whose budget has passed go on as connected work, each told once |
| `TurnEffects.FoldTells` | entourage/turn.py:205-234 | a reply is dropped if its work is fenced or it is mere progress; otherwise it answers the held call or becomes a note, in words fixed by question, completion or other end |
| `TurnEffects.FailTells` | entourage/turn.py:183-189 | failed work leaves the table, its held calls are answered so and its other entries told by notes |
| `TurnEffects.Hears` | entourage/turn.py:171-192 | exactly which mail is understood, and what each kind does to job, buffer and panel |
| `TurnEffects.Flushes` | entourage/turn.py:245-251 | everything in hand joins the transcript once no call is held open, and not before |
| `TurnEffects.DeadlineIsFirst` | entourage/panel.py:79-82 | the deadline is the earliest budget among the calls held open, none if none has one |
| `TurnTools.PickedOnce` | entourage/turn.py:309-312 | the mode a delegation opens in is determined by the pipe and the model's wish |
| `TurnTools.Delegates` | entourage/turn.py:308-323 | a delegation asks a new provider for the task; the call is held for at most the budget or answered at once, in the mode asked for if the pipe has it |
| `TurnTools.Controls` | entourage/turn.py:325-345 | a control reaches the first live entry of the named work and does exactly what steer, answer or cancel mean, or says why not |
| `TurnTools.Calls` | entourage/turn.py:280-306 | what each tool call does, and exactly when one fails the turn |
| `TurnTools.AskedExactly` | entourage/turn.py:280-306 | a turn counts as asking exactly when a call of the ask tool was answered |
| `TurnTools.TakesTurn` | entourage/turn.py:255-278 | the prompt comes first once; a final answer goes to the caller and ends the job or to the output address; after tools the next activation is at the first budget, at once, or when the caller answers |
| `TurnContent.Resumes` | entourage/turn.py:162-203 | what an activation proposes once its mail is heard: a cancel ends the job with an empty result, otherwise it parks or calls the model, and exactly when and until when |
| `TurnContent.ResultTold` | entourage/turn.py:205-220 | the result of delegated work is in the agent's hand and in the transcript the model is shown: its text alone as the answer of the held call when the work completed, with name and status otherwise, and in a note when no call is held |
| `TurnContent.AnsweredOnce` | entourage/turn.py:193-220 | a batch that ends the work a call is held open for adds exactly one answer to it, and more than one if it asked something before |
| `TurnContent.QuestionTold` | entourage/turn.py:205-234 | a question reaches the model as the held call's answer or in a note, and ends the wait |
| `TurnContent.FailureTold` | entourage/turn.py:183-189 | the model is told of failed work as the held call's answer or by a note |
| `TurnContent.LateIsDropped` | entourage/panel.py:47-53 | replies of cancelled work are folded in without a trace |
| `TurnContent.HandIsKept` | entourage/turn.py:236-251 | over any life, whatever was once in hand stays and is in every transcript the model is shown from then on |
| `TurnMail.MessagesKept` | entourage/turn.py:169-191 | over one activation transcript and buffer grow by exactly the texts of its mail, in order; a cancel cuts its own batch short |
| `TurnMail.ModelSeesEveryMessage` | entourage/turn.py:236-251 | whenever the model is called it is shown exactly the texts delivered so far, each once and in arrival order, until a cancel |
| `FairQueue.NothingStranded` | entourage/runtime/redis_queue.py:127-221 | under every interleaving of commands a nonempty list's key is active, or a worker that pruned it is about to look again, and every sent envelope is acknowledged, listed, in flight or held mid-step |
| `FairQueue.RestFindsAll` | entourage/runtime/redis_queue.py:163-199 | when all workers are idle every envelope not acknowledged is in flight or listed under an active key |
| `FairQueue.PruneAloneStrands` | entourage/runtime/redis_queue.py:163-192 | without the recheck after pruning an envelope would be stranded: a concrete interleaving |
| `FairOrder.FirstComeFirstServed` | entourage/runtime/redis_queue.py:127-192 | over every interleaving a key's envelopes in the order of their first claims, followed by those never claimed, are its envelopes in the order sent; returned ones are listed before them |
| `FairOrder.AckedWasHandedOut` | entourage/runtime/redis_queue.py:194-195 | only what a worker was handed is acknowledged |
| `FairOrder.AckedStaysAway` | entourage/runtime/redis_queue.py:194-199 | an envelope acknowledged by its holder and listed nowhere else is never listed or handed out again, unless a holder returns it all the same |
| `FairOrder.ClaimTakesHead` | entourage/runtime/redis_queue.py:163-192 | an uninterrupted claim takes the envelope at the head of the key's list and puts it in flight, and changes nothing else |
| `FairOrder.ClaimRetiresKey` | entourage/runtime/redis_queue.py:165-175 | a claim that finds nothing retires the key, unless an envelope came in before it looks again |
| `FairOrder.SendGoesLast` | entourage/runtime/redis_queue.py:101-141 | a new envelope is the last of its key, which becomes active |
| `FairOrder.ReleaseGoesFirst` | entourage/runtime/redis_queue.py:197-199 | a returned envelope is the next of its key to be claimed |
| `FairOrder.ReclaimGoesFirst` | entourage/runtime/redis_queue.py:201-221 | so is a reclaimed one, and of several reclaimers only the first puts it back |
| `FairBatchModel.LocalFairQueue.ClaimOne` | entourage/runtime/redis_queue.py:163-192 | takes the oldest envelope of a key and puts it in flight, or prunes an empty key |
| `FairBatchModel.LocalFairQueue.ClaimBatch` | entourage/runtime/redis_queue.py:143-161 | after p completed passes each active key has given its oldest min(p, n) envelopes, or one more in the pass under way, in order; a short batch drained them all |
| `FairBatchModel.FairlyShared` | entourage/runtime/redis_queue.py:143-161 | two keys that both still have work differ by at most one claim |
| `GraphCommit.Commute` | entourage/runtime/redis_store.py:450-539 | lists of writes to different places can be exchanged |
| `GraphCommit.CommitsAgree` | entourage/runtime/redis_store.py:450-539 | for freshly generated identities the pipelined commit reaches the graph of the step by step commit |
| `CommitEffects.EdgesLeft` | entourage/runtime/redis_store.py:501-526 | exactly which edges a commit leaves: the old ones except the node's when it returned a plan, the plan's, from the node to its entries, from its exit to the old children under the old conditions, and those of new child sessions |
| `CommitEffects.RowsLeft` | entourage/runtime/redis_store.py:459-538 | exactly which executions it leaves: the node completed with its result and effects, the plan's and the new children's pending, a child's head completed, every other as it was |
| `CommitEffects.SessionsLeft` | entourage/runtime/redis_store.py:452-470 | child sessions that are not there are created with their initial state, and no other session changes |
| `StoredSplice.CommitIsSplice` | entourage/runtime/redis_store.py:490-526 | committing a returned plan leaves in the store the nodes and edges of the live splice, under the generated identities |
| `RedisGraphModel.RedisGraph.CreateSession` | entourage/runtime/redis_store.py:110-155 | a new session row; an identity that exists is refused and nothing changes |
| `RedisGraphModel.RedisGraph.PutRow` | entourage/runtime/redis_store.py:223-247 | an execution row and its index entries appear together |
| `RedisGraphModel.RedisGraph.PutEdge` | entourage/runtime/redis_store.py:383-393 | both hashes of an edge are written |
| `RedisGraphModel.RedisGraph.DropEdge` | entourage/runtime/redis_store.py:395-399 | both hashes of an edge are removed |
| `RedisGraphModel.RedisGraph.SetStatus` | entourage/runtime/redis_store.py:274-354 | any change of status moves the execution between the index sets that go with it |
| `RedisGraphModel.RedisGraph.MarkRunning` | entourage/runtime/redis_store.py:286-291 | a running execution leaves the pending set and keeps its result |
| `RedisGraphModel.RedisGraph.MarkCompleted` | entourage/runtime/redis_store.py:293-298 | a completed execution carries its result and leaves the pending set |
| `RedisGraphModel.RedisGraph.MarkRetrying` | entourage/runtime/redis_store.py:300-310 | a retried execution is pending again |
| `RedisGraphModel.RedisGraph.MarkFailed` | entourage/runtime/redis_store.py:312-318 | a failed execution carries its error and leaves the pending set |
| `RedisGraphModel.RedisGraph.MarkWaiting` | entourage/runtime/redis_store.py:320-330 | a waiting execution joins the waiting set |
| `RedisGraphModel.RedisGraph.WakeExecution` | entourage/runtime/redis_store.py:332-354 | an execution is woken exactly when it waits, and then is pending and no longer waits, so of two wakers only one wakes |
| `RedisGraphModel.RedisGraph.StoreEffects` | entourage/runtime/redis_store.py:364-372 | the outbox set holds exactly the executions with effects |
| `RedisGraphModel.RedisGraph.Finish` | entourage/runtime/redis_store.py:529-538 | the committing node's result, status and effects are one write |
| `RedisGraphModel.RedisGraph.CommitTransition` | entourage/runtime/redis_store.py:430-541 | the pipeline reaches the graph of the step by step commit and keeps every index; with freshly generated identities it leaves exactly the edges, executions and sessions a transition means |
| `RedisGraphModel.RedisGraph.PendingOf` | entourage/runtime/redis_store.py:261-272 | the pending set alone answers exactly the pending executions of a session, in identity order |
| `RedisGraphModel.RedisGraph.WaitingNow` | entourage/runtime/redis_store.py:356-362 | exactly the executions that wait, in identity order |
| `RedisGraphModel.RedisGraph.OutboxNow` | entourage/runtime/redis_store.py:374-381 | exactly the executions with effects, in identity order |
| `RedisGraphModel.RedisGraph.ParentsOf` | entourage/runtime/redis_store.py:401-406 | exactly the stored parents, in identity order, each with the condition of its edge |
| `RedisGraphModel.RedisGraph.ChildrenOf` | entourage/runtime/redis_store.py:408-410 | exactly the children, in identity order, each with the condition of its edge |
| `IdOrder.Sorted` | entourage/runtime/redis_store.py:261-272 | the identities of a set, each once, in character order |
| `LocalMailboxModel.LocalMailbox.AppendEvent` | entourage/mailbox.py:108-135 | appends once per identity behind everything stored; an identity never moves to another conversation |
| `LocalMailboxModel.LocalMailbox.Claim` | entourage/mailbox.py:137-167 | leases the oldest claimable events of the conversation, up to the limit, in append order |
| `LocalMailboxModel.LocalMailbox.ClaimAny` | entourage/mailbox.py:169-191 | leases from the conversation of the globally oldest claimable event and mixes no conversations |
| `LocalMailboxModel.LocalMailbox.ForceAck` | entourage/mailbox.py:193-217 | acknowledges the named events of the conversation whatever their leases and ignores the rest |
| `LocalMailboxModel.LocalMailbox.Settle` | entourage/mailbox.py:193-228 | settles exactly when the consumer holds every event under an unexpired lease; a failure part way has settled only events it held |
| `LocalMailboxModel.LocalMailbox.PurgeAcknowledged` | entourage/mailbox.py:230-270 | removes the oldest acknowledged events in scope, up to the limit, and keeps their identities |
| `RedisMailboxModel.RedisMailbox.Load` | entourage/redis_mailbox.py:101-104 | the sorted set leads to exactly the conversation's events in append order |
| `RedisMailboxModel.RedisMailbox.AppendEvent` | entourage/redis_mailbox.py:64-99 | the same contract, over records, sorted sets, the conversation set and the deduplication hash |
| `RedisMailboxModel.RedisMailbox.Claim` | entourage/redis_mailbox.py:155-164 | the same claims |
| `RedisMailboxModel.RedisMailbox.ClaimLocked` | entourage/redis_mailbox.py:113-133 | the scan under the lock is a claim |
| `RedisMailboxModel.RedisMailbox.ClaimAny` | entourage/redis_mailbox.py:166-183 | the same choice of conversation; arguments are checked even when nothing is claimable |
| `RedisMailboxModel.RedisMailbox.ForceAck` | entourage/redis_mailbox.py:207-237 | the same forced acknowledgement |
| `RedisMailboxModel.RedisMailbox.Settle` | entourage/redis_mailbox.py:207-249 | the same settling, in any order |
| `RedisMailboxModel.RedisMailbox.PurgeAcknowledged` | entourage/redis_mailbox.py:251-284 | the same purge; emptied conversations leave the set |
| `Mailboxes.AcknowledgedForGood` | entourage/mailbox.py:193-217 | after an acknowledgement no call of any run leases the event again, and its identity still deduplicates |
| `Mailboxes.LeaseEnds` | entourage/mailbox.py:137-228 | a lease ends only by its consumer settling it, by a replayed acknowledgement, or by a claim that finds it expired |
| `MailboxTimes.TakenExactly` | entourage/mailbox.py:137-167 | a claim takes an event exactly when it is of the conversation, pending or with its lease run out, and fewer such events than the limit come before it |
| `MailboxTimes.AnyTakes` | entourage/mailbox.py:169-191 | a claim on any conversation takes something whenever an event is free, the globally oldest first and the rest of its conversation |
| `MailboxTimes.NoneFree` | entourage/mailbox.py:169-191 | and takes nothing when none is |
| `MailboxTimes.LeaseWrites` | entourage/mailbox.py:154-161 | what was taken is leased to the claimer until the lease ends, and nothing else changes |
| `MailboxTimes.LeaseInForce` | entourage/mailbox.py:137-228 | over any run in which nobody settles it a leased event is taken by no claim before its lease ends, may be settled by its consumer exactly until then, and is taken by a claim of its conversation from then on |
| `MailboxTimes.AppendWrites` | entourage/mailbox.py:108-135 | an event is appended as given, pending, behind everything stored; its identity belongs to one conversation |
| `MailboxTimes.SettlesExactly` | entourage/mailbox.py:193-228 | a call settles all of its events exactly when its consumer holds each under a running lease; an unknown event is a key error and settles nothing, anything else a value error |
| `MailboxTimes.SettleWrites` | entourage/mailbox.py:193-228 | what settling and a replayed acknowledgement make of each event, and that they touch nothing else |
| `MailboxTimes.PurgedExactly` | entourage/mailbox.py:230-270 | a purge removes an event exactly when it is acknowledged, in scope and old enough, and fewer such than the limit come before it; its identity stays |
| `MailboxBackends.ClaimsAgree` | entourage/mailbox.py:137-167 | the contract leaves no choice of the events a claim takes |
| `MailboxBackends.AnyAgree` | entourage/mailbox.py:169-191 | nor of those a claim on any conversation takes |
| `MailboxBackends.PurgesAgree` | entourage/mailbox.py:230-270 | nor of those a purge removes |
| `MailboxBackends.BackendsAgree` | entourage/redis_mailbox.py:64-301 | every run of calls with its outcomes is possible on one backend exactly when it is on the other and leaves the same mailbox up to numbering |
| `MailboxBackends.BackendsStartAlike` | entourage/redis_mailbox.py:82-82 | the empty mailboxes differ only in where numbering starts |
| `LocalOutboxModel.LocalOutbox.ApplyEffects` | entourage/runtime/queue.py:770-825 | one pass applies the effects in order and clears them, or stops at a failed delivery and leaves them pending; deliverable effects are always cleared |
| `LocalOutboxModel.LocalOutbox.Recover` | entourage/runtime/queue.py:933-943 | startup replays every pending execution: whatever was deliverable is cleared, and over the run before the crash and the replay together everything cleared was published exactly once and acknowledged for good |
| `Outbox.AppendsBalance` | entourage/runtime/queue.py:770-800 | through crashes, replays and consumers, effective appends of an identity minus dropped tombstones is whether it is known |
| `Outbox.PublishedOnce` | entourage/runtime/queue.py:770-800 | once effects are cleared each publication was appended exactly once, and never more than once before, while tombstones are kept |
| `Outbox.AcknowledgedForever` | entourage/mailbox.py:193-217 | once effects are cleared the events they acknowledge are never claimed again |
| `Outbox.BodyKept` | entourage/runtime/queue.py:792-796 | the event under a publication's identity carries the committed body |
| `Outbox.ClearsExactly` | entourage/runtime/queue.py:933-943 | replaying from the start clears effects if and only if every target resolves and takes its publication, alone and after the others |
| `Outbox.ReplayClears` | entourage/runtime/queue.py:933-943 | from any state, replaying from the start clears effects whose targets take them |
| `Outbox.TombstoneMatters` | entourage/mailbox.py:272-288 | dropping a tombstone before its effects are cleared lets a replay append twice: a run for every publication |
| `LocalRunnerModel.Runner.ObserveExits` | entourage/runner.py:306-318 | quick exits raise an alias's backoff and postpone its next start, long runs reset it, and other aliases keep theirs; backoff is 0 or in [1, max]; several exits of an alias in one tick act in order |
| `LocalRunnerModel.Runner.KillStuck` | entourage/runner.py:324-331 | exactly the live workers whose lease expired are killed |
| `LocalRunnerModel.Runner.Start` | entourage/runner.py:296-304 | starts under a fresh name unless the backoff forbids it |
| `LocalRunnerModel.Runner.Offer` | entourage/runner.py:344-362 | what policy wants of one member |
| `LocalRunnerModel.Runner.Tick` | entourage/runner.py:320-364 | one tick starts exactly what the specification starts, spaces the next start of each, and keeps a shard within its limits when the pool has the slots it needs |
| `LocalRunnerModel.LastExitDecides` | entourage/runner.py:306-318 | of several exits of an alias in one tick the last decides whether its next start waits |
| `LocalRunnerModel.NoExit` | entourage/runner.py:306-318 | an alias none of whose workers exited keeps its backoff and next start |
| `RunnerCapacity.OneStartEach` | entourage/runner.py:342-364 | at most one start for each member, and exactly the members listed |
| `RunnerCapacity.ReservedNeverRefused` | entourage/runner.py:344-362 | below its reserved count a member starts exactly when its backoff allows and it is eager or has more ready sessions than idle workers, whatever the pool |
| `RunnerCapacity.StartsExactly` | entourage/runner.py:341-364 | who is started: an eager member below what it keeps, or one with more ready sessions than idle workers, below its parallel limit, that is below its reserved count or finds a pool slot left at its turn; each when its backoff allows, and nobody else |
| `RunnerCapacity.ParallelKept` | entourage/runner.py:352-354 | no member ends above its parallel limit |
| `RunnerCapacity.CapacityKept` | entourage/runner.py:341-364 | a tick within the pool and parallel limits stays within them when every eager member with nothing reserved has a slot to spare |
| `RunnerCapacity.CapacityBroken` | entourage/runner.py:346-351 | otherwise some shard state within its limits is taken over them by one tick |
| `RunnerCapacity.CapacityExactly` | entourage/runner.py:341-364 | every tick keeps the limits if and only if the pool spares such a slot |
| `RunnerCapacity.ReservedSpares` | entourage/runner.py:341-364 | in particular when every eager member reserves a worker |
| `RunnerCapacity.BackoffDoubles` | entourage/runner.py:306-318 | k+1 quick exits in a row wait min(2^k, max) seconds |
| `LocalExchangesModel.Exchanges.Request` | entourage/exchanges.py:42-46 | a request is staged and remembered under its identity, in place of an entry it replaces |
| `LocalExchangesModel.Exchanges.Ingest` | entourage/exchanges.py:54-72 | mail splits into matched replies and the rest; a result closes its exchange |
| `LocalExchangesModel.Exchanges.Drop` | entourage/exchanges.py:74-79 | every exchange with a session is forgotten and named in table order |
| `PanelIngest.SortIsIngest` | entourage/panel.py:43-60 | the agent's panel matches mail exactly as the exchange table does |
| `RequestReply.IngestSplits` | entourage/exchanges.py:54-72 | replies and others are the two halves of the batch, each in order of arrival |
| `RequestReply.ClosedOnce` | entourage/exchanges.py:61-69 | a batch closes a pending exchange at most once, and one that is not pending never |
| `RequestReply.ClosedAsAsked` | entourage/exchanges.py:42-79 | over the life of a table an exchange is closed at most as often as it was asked |
| `RequestReply.OneCopy` | entourage/sessions.py:171-178 | a request or a result is in an inbox at most once under its identity, and at most one checkpoint takes it |
| `RequestReply.RequestClosedOnce` | entourage/executables.py:180-207 | a request answered under one reply key is closed at most once by the results that all the caller's accepted checkpoints took, whatever part of its mail each takes |
| `RequestReply.RoundTrip` | entourage/executables.py:197-207 | the answer to a request goes to its caller and closes exactly the exchange the caller remembered; no other answer closes it |

## Left out

- LocalMailboxModel.LocalMailbox.ClaimAny: holds the lock from choosing the conversation to leasing its events, where the code lets go of it in between.
- LocalMailboxModel.LocalMailbox.Settle: which of its events a failed call had settled is given as a set, not as an order; so for `RedisMailboxModel.RedisMailbox.Settle`.
- MailboxBackends.BackendsAgree: runs are of calls that succeed; a settling that fails part way leaves what a successful one of the settled part leaves.
- LocalMailboxModel.LocalMailbox.AppendEvent: the caller supplies the event identity, and the stored event keeps its body but not its creation time.
- RedisMailboxModel.RedisMailbox.Load: an index entry without a record, which the code skips, does not occur.
- SessionTheorems.MailInOrder: speaks of handlers that incorporate their whole batch; a handler that takes less keeps exactly-once but not this order.
- RequestReply.RequestClosedOnce: counts results a checkpoint took; it supposes that the provider answers the request under one reply key; under more keys it sends more results.
- SchedulingTheorems.PlanKeepsItsMeaning: for nonempty sequences and parallels of nodes that return states; conditionals enter only where their condition is met, because a skipped conditional leaves its join waiting for ever.
- LocalEngineModel.QueueRuntime.ExecuteNode: without node timeouts, retry limits and delays, waits on mailboxes or timers, terminal failure of a session, or several workers on one store.
- LiveGraph.SplicingIsStatic: claims edge sets, not the order in which a join sees its parents.
- FairQueue.NothingStranded: without key expiry and without crashes inside a claim, a nack or a reclaim, which the code does not survive. A reclaim may take any envelope in flight, whatever its age.
- RedisGraphModel.RedisGraph.CommitTransition: for freshly generated, distinct identities (so too `CommitEffects.EdgesLeft` and `StoredSplice.CommitIsSplice`); deleting terminal sessions is not modelled.
- RedisGraphModel.RedisGraph.CreateSession: without the set of running sessions and serial keys.
- RedisGraphModel.RedisGraph.PutRow: for an identity not stored yet; the code would write over the row and leave the old row's index entries.
- RedisGraphModel.RedisGraph.SetStatus: input states, attempts, retry times and wake conditions of a row are absent.
- TurnMail.ModelSeesEveryMessage: ends at a cancel, which drops the rest of its batch with the job.
- LocalAgentModel.LocalAgent.Ingest: the texts of questions and progress kept on an entry for display are absent.
- LocalAgentModel.LocalAgent.RunOneCall: tool wording, schemas and prompt text are constructors of a datatype, and argument parsing is part of the arbitrary environment.
- LocalDispatcherModel.Dispatcher.RunOnce: definitions are given at construction; registration and its duplicate checks, and exceptions of the store other than its own errors, are not modelled.
- LocalRunnerModel.Runner.Tick: workers exit only between ticks and starting one never fails.
- LocalOutboxModel.LocalOutbox.ApplyEffects: without monitors, which a replay may arm again, and without the wake that follows.
- Progress of a job: it stays waiting for input after its answer arrives, so nothing is claimed of it.
- `Exchanges.call`, the read-only peeks of the mailboxes, and the purge of tombstones as a call of its own.
- The SQLite and Redis clients, SQS, launchers, signals, polling and threads.
- Manifests, YAML, module loading, fingerprints and JSON encoding.
- `notify_failures`, session ingress, garbage collection, capabilities, configuration, event history and the older agent code.
