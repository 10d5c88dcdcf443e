# flowctl, a Dafny model

The model covers the three parts of flowctl in which the hard promises are made, and proves them.

**The workflow engine.** A definition becomes a dependency graph (`Graph`, `Dag`), which is sorted into layers and
checked (`Validator`). One Execute call (`Executor`) takes ready nodes wave by wave, in Go's random map order, with
retries, skips, approvals and a checkpoint after every node. `Semantics` says what a processed node does to the
results, `OrderIndependence`, `TwoCalls`, `Resume` and `Restarts` compare whole runs, `Waves` and `AcceptedRuns` relate
runs to the sort.
Runners, approval decisions, deadlines and the outcome of database statements are parameters or arbitrary choices.

**The multi-node protocol.** `System` is the shared database and every live Execute call as one state machine: one
atomic step per SQL statement, crashes at any point, takeovers, zombie calls, cancels and decisions in any
interleaving. `SystemInvariant` and `SystemMoves` prove one inductive invariant, `Safety` and `Handover` draw the
theorems about all runs from it, and `Cancellation` and `LostCancels` say exactly when a cancel is final. The `Executor`
object carries the state of this machine along: every call, whatever fails in it, is a run of the machine (`CallMoves`),
so the theorems hold of it (`CallRuns`).
`Scheduler` has the code of a scheduler node and of the handlers as methods that let
everybody else act between their statements; what they leave behind is always a run of the state machine. `Versions`
and `VersionHandlers` do the same for publishing, rollback and idempotent starts. Uniqueness constraints of the schema
are part of the insert statements; the advisory lock may be granted or refused at any time.

**The HUML front end and its expressions.** The lexer, the block parser, the expression parser, the converter and the
template evaluator are imperative and proved against grammar and token functions (`Tokens`, `HumlSyntax`,
`ExprSyntax`, `Convert`, `Templates`). Printers written for the model give round trips in both directions, for tokens,
trees, expressions and whole definitions, and `MinimalParentheses` shows that no text of an expression has fewer
parentheses than the printed one.

Where the code differs from what one would expect, the model follows the code:

- A retry policy with `max_attempts` below one never calls the runner and the step succeeds
  (`Semantics.SucceedsUncalled`); the validator refuses it, but the front end can express it, even negative through
  64-bit wrap-around.
- Exponential backoff overflows: with the default times attempt 34 gives a negative wait
  (`Backoff.DefaultsOverflowAt34`; exactly when the wait is the intended one, `Backoff.ExponentialWait`).
- A step whose runner is unknown, or whose deadline passes between two attempts, fails and leaves its row running
  (`Semantics.MarkTellsOutcome`).
- A step row is always inserted with attempt 1, so a step in flight at a crash is refused when the execution is run
  again, unless its condition then skips it (`Restarts.InFlightStepsOnlySkip`).
- Running an execution again from a checkpoint forgets skipped steps, and a template whose evaluation reaches one as a
  whole then fails (`Resume.BareReadBreaksResume`; exactly when, `Restarts.ResumesExactly`).
- `transitionExecution` checks the status in memory only, so a cancel can be lost (`LostCancels.CancelIsLost`). A call
  can still overwrite it before its first transition, around a pending or granted approval, while it remembers running
  up to its last transition, and while it remembers waiting only if an approval can still be reached; from nowhere else
  (`LostCancels.CancelStaysExactly`).
- A start without an idempotency key stores the empty text and so collides with the next one of its tenant
  (`Versions.KeylessStartSucceedsOnce`, `Versions.SecondKeylessStartFails`).
- `ParseExpression` ignores trailing text, an expression that is never closed is accepted at run time, and a step and an
  approval with the same ID are one node, the approval.

## Model

| member | source | states |
|---|---|---|
| `Dag.BuildDAG` | internal/engine/dag.go:22-68 | fails exactly when some dependency names no node; otherwise its node map and its edge lists, duplicates included, are those of the definition |
| `Dag.DAG.AddNodes` | internal/engine/dag.go:29-45 | fills the node map; the last step with an ID wins, and an approval overwrites a step of the same ID |
| `Dag.DAG.AddEdges` | internal/engine/dag.go:47-65 | appends both edge entries for every dependency of a node and stops at the first unknown one |
| `Dag.GraphIsValid` | internal/engine/dag.go:47-68 | the forward edges are the dependency edges turned around with the same multiplicity, and all ends are nodes |
| `Dag.DAG.TopologicalSort` | internal/engine/dag.go:70-108 | succeeds exactly when the graph has no cycle, with a layering of all nodes; otherwise the nodes it reports contain a cycle |
| `Dag.VisitLayer` | internal/engine/dag.go:98-104 | after a layer is visited every counter again equals the number of unvisited dependency entries of its node |
| `Dag.DAG.DetectCycles` | internal/engine/dag.go:110-113 | succeeds exactly when the graph has no cycle |
| `Dag.DAG.GetReadyNodes` | internal/engine/dag.go:115-133 | lists every node that is not completed and whose dependencies all are, each once, in any order |
| `Graph.StuckMeansCycle` | internal/engine/dag.go:91-96 | when nodes are left and none is ready, a cycle among the remaining nodes exists |
| `Graph.CoveredIffAcyclic` | internal/engine/dag.go:70-108 | processing layer by layer covers the graph exactly when it has no cycle |
| `Graph.LayersAreDisjoint` | internal/engine/dag.go:79-107 | no node is in two layers |
| `Graph.DependencyIsEarlier` | internal/engine/dag.go:79-107 | every dependency of a node is in a strictly earlier layer |
| `Graph.LayerIsLongestChain` | internal/engine/dag.go:79-107 | the layer index of a node is the length of the longest dependency chain ending in it |
| `Graph.AllUpstreamDone` | internal/engine/dag.go:115-133 | when the direct dependencies of a ready node are done in a dependency-closed set, so is everything it transitively needs |
| `Waves.WavesAreLayers` | internal/engine/executor.go:50-97 | from an empty checkpoint the k-th ready batch is the k-th layer of the sort |
| `Waves.WavesCoverTheSort` | internal/engine/executor.go:57-63 | a finished run has as many waves as the sort has layers, equal one by one as sets |
| `Waves.WavesCoverIffAcyclic` | internal/engine/executor.go:57-63 | waves taken from nothing until none is left cover the graph exactly when it has no cycle |
| `Waves.NoCycleNoDeadEnd` | internal/engine/executor.go:57-63 | without a cycle, no node is ready only when all are completed, from whatever set of completed nodes |
| `StateMachine.ValidateExecutionTransition` | internal/engine/statemachine.go:54-61 | the scan of the table answers exactly for the pairs that may follow each other |
| `StateMachine.TableMatches` | internal/engine/statemachine.go:21-38 | table and successor relation agree in both directions |
| `StateMachine.StateMachine.TransitionTo` | internal/engine/statemachine.go:84-90 | changes the status exactly when the table allows it |
| `StateMachine.PathsStopAtTerminal` | internal/engine/statemachine.go:21-38 | on a path of accepted transitions succeeded and cancelled can only come last, and failed only right before retrying |
| `StateMachine.WriteNext` | internal/engine/statemachine.go:21-38 | whatever the table lets an executor write next keeps the written statuses in running (waiting running)* waiting? terminal? |
| `Backoff.CalculateBackoff` | internal/engine/executor.go:465-487 | the doubling loop and its products on 64-bit integers compute the wrapped wait |
| `Backoff.ExponentialWait` | internal/engine/executor.go:470-480 | the wait is min(base * 2^attempt, cap) if and only if the product fits in 64 bits or its wrapped value still reaches the cap |
| `Backoff.WaitsAreMonotone` | internal/engine/executor.go:470-480 | in range, waits are the ideal ones, positive, at most the cap, and never shorter for a later attempt |
| `Backoff.DefaultsOverflowAt34` | internal/engine/executor.go:465-480 | with the default times attempt 33 is still in range and attempt 34 gives a negative wait |
| `Semantics.RetryStopsAtFirstSuccess` | internal/engine/executor.go:156-171 | the runner is called at most as often as allowed and never again after a success; success and exhaustion are characterised by the number of calls and the last one |
| `Semantics.CompensationIsLast` | internal/engine/executor.go:156-190 | the compensation is called at most once, after the last attempt the policy allows, and only when every attempt failed |
| `Semantics.TotalWaitIsBounded` | internal/engine/executor.go:156-171 | all exponential waiting of a step together is at most (attempts - 1) times the cap, overflow included, and not negative while the last wait is in range |
| `Semantics.SucceedsUncalled` | internal/engine/executor.go:150-202 | a step succeeds without any runner call if and only if its runner exists and its policy allows no attempt |
| `Semantics.MarkTellsOutcome` | internal/engine/executor.go:173-202 | the row of a step is marked succeeded exactly when the step is done and failed exactly when all allowed attempts were made in vain; otherwise it stays running |
| `Semantics.PlainNodesHaveOneVerdict` | internal/engine/executor.go:100-118 | a node without an expression in its condition and its command is never an error, and skipped exactly when its condition is the text false |
| `OrderIndependence.OutcomeDependsOnPaths` | internal/engine/executor.go:100-280 | what becomes of a node depends on the context only through the reference paths in its templates |
| `OrderIndependence.NodesAreKeyed` | internal/engine/dag.go:29-36 | every step node carries its own ID |
| `OrderIndependence.OrderDoesNotMatter` | internal/engine/executor.go:50-97 | if one order that respects dependencies succeeds, every such order does, with the same results; if one fails, none succeeds |
| `TwoCalls.FinishedRunDecides` | internal/engine/executor.go:47-97 | when one order runs out of ready nodes, no order that respects dependencies is stopped, and all that run out of ready nodes give the same results, even on a stuck graph |
| `TwoCalls.TwoCallsEndAlike` | internal/engine/executor.go:32-98 | two Execute calls from the same rows, with their own choices of order: both are cut short or none is, and then results and final status are the same |
| `Resume.CheckpointRemembers` | internal/engine/executor.go:390-419 | what a saved and reloaded checkpoint remembers is everything except the entries of nodes with empty or no outputs |
| `Resume.Lockstep` | internal/engine/executor.go:50-97 | a run from a reloaded state stops for the same reason as the original or ends with results that are saved alike |
| `Resume.ResumeEqualsUninterrupted` | internal/engine/executor.go:390-419 | one restart: executing again from a checkpoint ends like the uninterrupted run when no template mentions the list of all steps or a forgotten one as a whole |
| `Resume.ResumeInAnyOrder` | internal/engine/executor.go:47-97 | the restart may also take the remaining nodes in any other order |
| `Resume.BareReadBreaksResume` | internal/engine/executor.go:408-419 | a two-step definition that succeeds in one go fails when it is run again from its checkpoint |
| `Restarts.EvaluatesExactly` | internal/huml/evaluator.go:24-65 | without a read of the list of all steps, a tree fails in the forgetful context exactly when its evaluation reaches a forgotten step as a whole or failed before, and has the same value otherwise |
| `Restarts.TemplateExactly` | internal/huml/evaluator.go:67-110 | the same for every template, by the branches that its evaluation takes |
| `Restarts.NodeExactly` | internal/engine/executor.go:100-240 | after a restart a node stops the run if evaluating its condition or command reaches a forgotten step, and else ends as before |
| `Restarts.LockstepExactly` | internal/engine/executor.go:50-97 | the run after a restart stops at the first such read, and otherwise goes on in lockstep with the one before |
| `Restarts.RestartsExactly` | internal/engine/executor.go:390-419 | with any number of restarts, from any consistent state, the run stops at the first read of a forgotten step or ends like the run without restarts |
| `Restarts.ThroughIsWhole` | internal/engine/executor.go:50-97 | the run through any number of segments without restarts is the run of all their nodes in one go |
| `Restarts.ResumesExactly` | internal/engine/executor.go:390-419 | so it ends like the run of all segments in one go if and only if no processed node reads a forgotten step as a whole, or that run stops for the very reason such a read gives |
| `Restarts.InFlightStepsOnlySkip` | internal/engine/executor.go:118-129 | a run that starts with the row of an unfinished step only goes through when that step's condition skips it |
| `Executor.Executor.TransitionExecution` | internal/engine/executor.go:361-388 | checks the status in memory only; on success row and memory hold the new status, every move to running writes the start time, the end time is set exactly for terminal statuses; on failure nothing changes but the clock, which only goes forward; the trace stays in the status language, and the system has only seen time pass, so that the move the statement belongs to can be made |
| `Executor.Executor.SaveCheckpoint` | internal/engine/executor.go:390-399 | writes all completed results, or nothing when the statement fails |
| `Executor.Executor.LoadCheckpoint` | internal/engine/executor.go:401-419 | rebuilds the completed map and the outputs templates can read from the checkpoint column |
| `Executor.Executor.CallRunner` | internal/engine/executor.go:156-160 | one call of the runner of a step, which the system counts |
| `Executor.Executor.RunAttempts` | internal/engine/executor.go:150-171 | the retry loop makes exactly the calls and waits of the specification, and never more when statements fail; each is a move of the system |
| `Executor.Executor.RunCompensation` | internal/engine/executor.go:299-326 | calls the compensation runner once, falling back to the runner of the step, with an empty command when it cannot be evaluated |
| `Executor.Executor.RunRow` | internal/engine/executor.go:131-209 | a step after its row was inserted: outcome, the mark on its row, and runner calls, a prefix of them when the call is interrupted |
| `Executor.Executor.Conclude` | internal/engine/executor.go:173-209 | after the retry loop the row is marked, the compensation is called exactly after a failure, and the outputs are those of the last call |
| `Executor.Executor.InsertRow` | internal/engine/executor.go:118-129 | the row is inserted exactly when the statement succeeds and none is there |
| `Executor.Executor.ExecuteStepNode` | internal/engine/executor.go:100-210 | skip, error or success of a step, and the row it leaves; a row that is there already refuses it before any runner call, and no other row changes |
| `Executor.Executor.Wait` | internal/engine/executor.go:223-280 | one request is made, the status goes to waiting, and the decision sends it back to running; a failing statement ends the call |
| `Executor.Executor.HandleApproval` | internal/engine/executor.go:212-280 | a condition that evaluates to nothing or false waives the approval; otherwise one request is made and its decision is the answer, with the status going to waiting and back |
| `Executor.Executor.RunNode` | internal/engine/executor.go:65-96 | a processed node's result is kept and saved, or the call ends failed, cancelled or with the approval error |
| `Executor.Executor.RunReadyNode` | internal/engine/executor.go:65-96 | one turn of the node loop extends the processed order by the node, or the call is cut short by it |
| `Executor.Executor.RunWave` | internal/engine/executor.go:65-97 | a whole wave is processed as the sequence of its nodes |
| `Executor.Executor.Load` | internal/engine/executor.go:328-359 | the status is read; a failing statement or an unknown dependency ends the call in the system |
| `Executor.Executor.Start` | internal/engine/executor.go:42-48 | the first transition with the results of the checkpoint, or a call that is over without having written |
| `Executor.Executor.RunGraph` | internal/engine/executor.go:42-97 | the call from its first transition on |
| `Executor.Executor.Execute` | internal/engine/executor.go:32-98 | whatever fails, the call is a run of the shared system from the state in which it was acquired, with the deciders of its approvals in between, and at its end the system holds exactly what its rows hold; the written statuses are in the language and memory equals the row, and a call that fails before its first transition changes nothing; a call without failures runs wave by wave, is never refused after its first transition, and ends succeeded exactly when all nodes are completed |
| `Validator.ValidateWorkflow` | internal/validator/validator.go:24-38 | reports every complaint in order, and is valid exactly for well-formed definitions: good parts, unique names per kind, known dependencies, no cycle |
| `Validator.ValidateInputs` | internal/validator/validator.go:40-60 | reports missing and repeated names and bad types, input by input |
| `Validator.ValidateStep` | internal/validator/validator.go:69-103 | all complaints about one step, in order |
| `Validator.ValidateSteps` | internal/validator/validator.go:62-105 | reports the complaints about all steps; a step without ID is reported and skipped |
| `Validator.ValidateApprovals` | internal/validator/validator.go:107-123 | reports missing and repeated IDs and missing roles |
| `Validator.ValidateDAG` | internal/validator/validator.go:125-135 | reports the graph when it cannot be built or has a cycle |
| `Validator.ValidateExpressions` | internal/validator/validator.go:137-166 | reports one complaint per unknown dependency entry |
| `Validator.NoDependencyErrors` | internal/validator/validator.go:151-165 | the second dependency check finds nothing that the graph check has not |
| `Validator.NoErrorsIffAccepted` | internal/validator/validator.go:24-38 | no complaint at all if and only if the definition is well formed |
| `AcceptedRuns.StuckIffCyclic` | internal/engine/executor.go:57-63 | a call that starts from nothing and runs out of ready nodes has finished every node, each once, exactly when the graph has no cycle |
| `AcceptedRuns.AcceptedRunSucceeds` | internal/engine/executor.go:32-98 | an accepted definition ends succeeded with every node completed, from whatever checkpoint over its nodes, when every node finishes in the contexts that runs from there reach |
| `AcceptedRuns.GoodWorldRunsSmoothly` | internal/engine/executor.go:47-97 | every node finishes in every reachable context when runners succeed within their attempts, approvals are granted and templates evaluate on the outputs of upstream steps |
| `AcceptedRuns.AcceptedInGoodWorldSucceeds` | internal/engine/executor.go:32-98 | so an accepted definition, its templates reading inputs and earlier outputs, succeeds in such a world |
| `AcceptedRuns.ReadingUpstreamEvaluates` | internal/huml/evaluator.go:113-164 | the hypothesis covers templates that read an earlier step: it holds for a two-step definition whose second command is such a read |
| `AcceptedRuns.AcceptedRunFollowsTheSort` | internal/engine/executor.go:57-63 | for an accepted definition the waves are one by one the layers, and the stuck-so-failed branch is not taken |
| `SystemMoves.FinishKeeps` | internal/engine/executor.go:75-95 | finishing a node keeps every completed map dependency-closed and made of finished nodes |
| `SystemMoves.InsertKeeps` | internal/engine/executor.go:120-129 | inserting a step row under UNIQUE (execution, step, attempt) gives one call the right to run the step, and nobody has run it before |
| `SystemMoves.MoveKeepsInv` | internal/engine/executor.go:32-419 | every atomic move of an Execute call, failing statements and crashes included, keeps the system invariant |
| `CallMoves.LoadMove` | internal/engine/executor.go:328-359 | a call that loads its execution is ready to start it with the saved results, or is over when the statement fails, a dependency is unknown or the status cannot become running |
| `CallMoves.ConsiderMove` | internal/engine/executor.go:100-118 | the verdict on the next node, its condition and its command, takes the call where the system says: to its row, to the request, to the next node, or to its end |
| `CallMoves.AttemptMove` | internal/engine/executor.go:156-171 | every call of a runner adds one to the calls of that step in the system, and the call goes on as the policy says |
| `CallMoves.CompensateMove` | internal/engine/executor.go:299-326 | the compensation adds one to the calls under its own name, and none when its runner is unknown |
| `CallMoves.DecideMove` | internal/engine/executor.go:243-280 | with a decision of somebody in between, a waiting call goes on or is about to end cancelled |
| `Safety.AcquireKeeps` | internal/engine/scheduler.go:331-353 | acquiring an execution, again or concurrently, keeps the invariant; the advisory lock is not relied on |
| `Safety.RowStepKeeps` | internal/engine/scheduler.go:271-274 | inserts, cancels and takeovers keep timestamps and checkpoints sound |
| `Safety.ActionKeepsInv` | internal/engine/scheduler.go:223-353 | every atomic action of anybody keeps the system invariant |
| `Safety.RunsKeepInv` | internal/engine/scheduler.go:223-380 | the invariant holds after every interleaving |
| `Safety.RunnerAtMostOnce` | internal/engine/executor.go:120-190 | at most one call ever runs a step of an execution, at most as often as its policy allows; its compensation runs at most once, by that call, after all attempts |
| `Safety.NothingStartsEarly` | internal/engine/executor.go:47-97 | no node is begun before everything it transitively depends on has finished, in whatever call |
| `Safety.CheckpointsAreSound` | internal/engine/executor.go:390-406 | every saved checkpoint and every live completed map holds only finished nodes, closed under dependencies, even after a zombie has overwritten a newer one |
| `Safety.ApprovalsGate` | internal/engine/executor.go:212-297 | nothing downstream of an approval begins unless a request for it was approved or its condition waived it |
| `Safety.TimesAlwaysMatch` | internal/engine/executor.go:366-381 | in every reachable state finished_at is set exactly in terminal statuses, and running, waiting, succeeded and failed rows have started_at |
| `CallRuns.CallGoesOn` | internal/engine/executor.go:32-98 | an Execute call acquired in a run, whatever failed in it, has gone on with that run, and the system then holds its status, times, checkpoint, step rows and runner calls |
| `CallRuns.CallLeavesSoundRows` | internal/engine/executor.go:361-399 | so the rows it leaves have times that match their status and a checkpoint closed under dependencies |
| `CallRuns.CallRunsStepsOnce` | internal/engine/executor.go:120-171 | and it has called no runner of a step more often than the policy allows, nor at all when another call has |
| `Prospects.ChoiceOpensNothing` | internal/engine/executor.go:55-66 | whatever order a call takes the next wave in, nothing comes ahead of it that was not there before |
| `Prospects.PassedInOrder` | internal/engine/executor.go:65-96 | and when all listed nodes can be passed, what is ahead after them is ahead before them |
| `Cancellation.MovesStay` | internal/engine/executor.go:361-388 | no move of a call that cannot overwrite a cancel changes the cancelled status or makes the call able to |
| `LostCancels.MayMeansCan` | internal/engine/executor.go:361-388 | from every other place a continuation exists that gives the row another status, with only such verdicts on nodes as their templates can come to |
| `LostCancels.CancelStaysExactly` | internal/api/handler/execution.go:189-211 | in every reachable state a cancelled row stays cancelled whatever happens if and only if no call of the execution is at a place from which it may overwrite it; what is ahead of a call takes into account which nodes its templates let it skip and which step rows are there |
| `LostCancels.CancelStaysWithoutCalls` | internal/api/handler/execution.go:189-211 | in particular when every call of the execution has not loaded it yet or has ended |
| `LostCancels.CancelIsLost` | internal/engine/executor.go:243-280 | a run from the initial state in which an approved execution is cancelled and set back to running by its call |
| `Handover.DecisionIsFinal` | internal/api/handler/approval.go:91-102 | a decided request keeps its decision for the rest of every run |
| `Handover.OneDecisionWins` | internal/api/handler/approval.go:130-141 | of all racing Approve and Reject calls at most one finds the request pending, and its decision stays |
| `Handover.SomeDecisionWins` | internal/api/handler/approval.go:91-102 | once somebody of the right tenant has tried, some call has won |
| `Handover.TakersSawStale` | internal/engine/scheduler.go:249-266 | every node a takeover works on was seen by its own query with a heartbeat older than the threshold |
| `Handover.OwnerStays` | internal/engine/scheduler.go:271-274 | an owned execution stays with its node until such a takeover releases it |
| `Handover.HandoverNeedsTakeover` | internal/engine/scheduler.go:331-353 | two different nodes acquire the same execution only with such a takeover in between |
| `Handover.HeartbeatIsYoung` | internal/engine/scheduler.go:137-155 | a registered node's heartbeat is at least as young as any sign of life it gave |
| `Handover.PunctualNodesAreNeverTaken` | internal/engine/scheduler.go:249-256 | a node whose signs of life are never further apart than the threshold is never found by a takeover query |
| `Handover.PunctualNodesKeepTheirWork` | internal/engine/scheduler.go:249-281 | and its executions are never handed over |
| `Scheduler.Scheduler.RegisterNode` | internal/engine/scheduler.go:382-389 | the node is registered with a heartbeat of now |
| `Scheduler.Scheduler.Heartbeat` | internal/engine/scheduler.go:147-152 | renews an existing heartbeat and registers nobody |
| `Scheduler.Scheduler.TryAcquireExecution` | internal/engine/scheduler.go:331-353 | on success the row is owned by this node and a fresh call exists; with the lock granted and no failing statement it only fails when another node owns the execution, whatever all others do in between; the advisory lock is kept exactly on success and released otherwise |
| `Scheduler.Scheduler.PollForWork` | internal/engine/scheduler.go:223-247 | starts only calls of executions its query found and the guarded update acquired; without failing statements every one it found is started or was refused by the lock or owned elsewhere; only locks of started calls are kept |
| `Scheduler.Scheduler.ExecutionReturned` | internal/engine/scheduler.go:359-374 | a returned call leaves the map of running calls and releases its lock |
| `Scheduler.Scheduler.PerformTakeover` | internal/engine/scheduler.go:249-282 | releases and deletes only nodes its query found stale, never its own, whatever others do in between; and all of those when no statement fails |
| `Scheduler.Scheduler.TakeOverFrom` | internal/engine/scheduler.go:268-281 | the work on one dead node: only its release and its deletion, and both when no statement fails |
| `Scheduler.Database.SelectQueued` | internal/engine/scheduler.go:224-227 | queued, unowned executions, oldest first, at most ten, and none older left out |
| `Scheduler.Respond` | internal/api/handler/approval.go:91-102 | succeeds exactly when its statement found the request pending for the tenant, and has then decided it |
| `Scheduler.Approve` | internal/api/handler/approval.go:76-112 | on success the request is approved; without failing statements it succeeds exactly when its statement found the request pending for the tenant |
| `Scheduler.Reject` | internal/api/handler/approval.go:115-151 | the same for a rejection |
| `Scheduler.CancelExecution` | internal/api/handler/execution.go:189-211 | on success the execution is cancelled with its end time set; otherwise it was not there or terminal |
| `Versions.InsertVersionKeeps` | internal/api/handler/workflow.go:249-280 | an insert under UNIQUE (workflow, version) can only add the number after the last, however stale its read |
| `Versions.StepKeepsInv` | internal/api/handler/workflow.go:249-285 | every statement of every request keeps versions, active pointers, keys and answers consistent |
| `Versions.VersionsAreContiguous` | internal/api/handler/workflow.go:249-285 | under concurrent publishers, stale and failed reads, the versions of a workflow are numbered exactly 1 to n, each once |
| `Versions.ActiveVersionBelongs` | internal/api/handler/workflow.go:281-285 | the active version, when set, is a version of that workflow |
| `Versions.StartsAreIdempotent` | internal/api/handler/execution.go:141-180 | all successful starts of a tenant with the same key return the same execution |
| `Versions.KeylessStartSucceedsOnce` | internal/api/handler/execution.go:172-176 | over whole runs: the insert of a start without a key succeeds if and only if its statement does not fail and no earlier one of its tenant has succeeded |
| `Versions.SecondKeylessStartFails` | internal/api/handler/execution.go:141-180 | a run from the empty store in which the second start of a tenant without a key fails |
| `VersionHandlers.Publish` | internal/api/handler/workflow.go:239-293 | on success the returned version exists under the returned number and is active, and the numbers are 1 to n, with any requests in between; without failing statements it only loses to a publisher who took its number |
| `VersionHandlers.Rollback` | internal/api/handler/workflow.go:297-341 | on success an existing version with that number is active again; it fails only when there is none or the workflow is not there |
| `VersionHandlers.Start` | internal/api/handler/execution.go:141-185 | the answer is an execution that carries the key, and the existing one when there is one; a start without a key fails when the tenant has such an execution, and without failing statements a start with an active version only fails when its key is taken |
| `VersionHandlers.Tables.SelectMax` | internal/api/handler/workflow.go:250-254 | the greatest version number, zero when there is none |
| `Lexer.Lexer.Tokenize` | internal/huml/lexer.go:82-157 | yields exactly the tokens of the token specification, or fails when it does |
| `Lexer.Lexer.ReadString` | internal/huml/lexer.go:182-230 | reads a quoted string with its escapes, and fails exactly on unterminated ones |
| `Lexer.Lexer.ReadExpression` | internal/huml/lexer.go:232-262 | reads an embedded expression to its balancing brace |
| `Lexer.Lexer.ReadNumber` | internal/huml/lexer.go:264-294 | reads a sign, digits and at most one dot |
| `Lexer.Lexer.ReadIdentifier` | internal/huml/lexer.go:296-315 | reads a word and tells literals from names |
| `TokenRoundTrip.LexRoundTrip` | internal/huml/lexer.go:82-315 | every token stream the lexer can produce is read back from its rendering |
| `TokenRoundTrip.LexedIsStream` | internal/huml/lexer.go:82-315 | and the lexer produces no other streams |
| `HumlParser.Parser.Parse` | internal/huml/parser.go:18-50 | the block parser computes the grammar function on the token list |
| `HumlParser.Parser.ParseBody` | internal/huml/parser.go:52-68 | reads statements up to the closing brace |
| `HumlParser.Parser.ParseStatementNode` | internal/huml/parser.go:70-98 | reads a block, an assignment or a bare word, and drops any other token |
| `HumlParser.Parser.ParseBlock` | internal/huml/parser.go:100-132 | reads a keyword block with an optional name |
| `HumlParser.Parser.ParseAssignment` | internal/huml/parser.go:134-152 | reads a key and its value |
| `HumlParser.Parser.ParseValueNode` | internal/huml/parser.go:154-192 | reads a value, and the tree of an embedded expression |
| `HumlParser.Parser.ParseList` | internal/huml/parser.go:194-221 | reads a list with optional separators |
| `SyntaxRoundTrip.WorkflowRoundTrip` | internal/huml/parser.go:18-221 | every printable workflow tree, nested lists and blocks included, is parsed back from its tokens |
| `SyntaxRoundTrip.ParsedWorkflowIsPrintable` | internal/huml/parser.go:18-221 | and every parsed tree is printable |
| `ExprParser.ExprParser.ParseTernary` | internal/huml/parser.go:302-330 | conditional expressions, right-nested in both branches |
| `ExprParser.ExprParser.ParseOr` | internal/huml/parser.go:332-351 | a left-associative chain of the or operator |
| `ExprParser.ExprParser.ParseAnd` | internal/huml/parser.go:353-372 | a left-associative chain of the and operator |
| `ExprParser.ExprParser.ParseComparison` | internal/huml/parser.go:374-392 | one pass over the operators in list order, each at most once |
| `ExprParser.ExprParser.ParseAddition` | internal/huml/parser.go:394-415 | a left-associative chain of + and - |
| `ExprParser.ExprParser.ParseMultiplication` | internal/huml/parser.go:417-438 | a left-associative chain of *, / and % |
| `ExprParser.ExprParser.ParseUnary` | internal/huml/parser.go:440-451 | negations |
| `ExprParser.ExprParser.ParsePrimaryExpr` | internal/huml/parser.go:453-493 | parentheses, strings, numbers, references and calls |
| `ExprParser.ParseExpressionText` | internal/huml/parser.go:289-296 | parses an expression at the start of a text and ignores what follows |
| `ExprRoundTrip.RoundTrip` | internal/huml/parser.go:298-599 | at every precedence level, a printed tree followed by anything that cannot continue it is read back, and exactly the printed part is consumed |
| `ExprRoundTrip.ExpressionRoundTrip` | internal/huml/parser.go:289-599 | the parser consumes the whole minimal-parentheses text of a tree and returns that tree |
| `ExprRoundTrip.ParsedIsBuildable` | internal/huml/parser.go:298-599 | the parser builds no other trees than those of the round trip |
| `ExprRoundTrip.ParenthesesAreForced` | internal/huml/parser.go:298-493 | any text that reads as a looser tree than its level opens with a parenthesis |
| `ExprRoundTrip.LeftComparisonIsForced` | internal/huml/parser.go:374-392 | a comparison left of an operator that is not later in the list needs its parentheses |
| `MinimalParentheses.NoFewer` | internal/huml/parser.go:298-599 | at every level, a text that reads as a tree has at least as many parentheses as the printer writes for the tree |
| `MinimalParentheses.PrintIsMinimal` | internal/huml/parser.go:289-599 | among all texts the parser reads as a tree, the printed one has the fewest parentheses |
| `Convert.ConvertTree` | internal/huml/convert.go:9-48 | the loops that build a definition compute the folds of the specification |
| `Convert.ConvertStep` | internal/huml/convert.go:77-126 | known keys, config entries, retry and compensation blocks of a step; later ones win |
| `Convert.IntOf` | internal/huml/convert.go:219-230 | the digit loop wraps around at 64 bits |
| `Huml.ParseSource` | internal/huml/huml.go:5-19 | lexer, parser and converter composed, failing when either of the first two does |
| `HumlRoundTrip.HumlReadsItsPrint` | internal/huml/huml.go:5-19 | every expressible definition is read back from its printed text: arbitrary strings, nested lists, retry and compensation blocks |
| `HumlRoundTrip.HumlExpressesExactly` | internal/huml/huml.go:5-19 | a definition is expressible if and only if some text denotes it |
| `Evaluator.EvalFunc` | internal/huml/evaluator.go:250-297 | arguments are evaluated in order, then the function is applied |
| `Evaluator.DrillDownLoop` | internal/huml/evaluator.go:166-178 | follows fields through nested maps and fails at the first that is missing |
| `Evaluator.EvaluateDependsOnPaths` | internal/huml/evaluator.go:24-65 | evaluation depends on the context only through the references in the tree |
| `Templates.EvaluateStringLoop` | internal/huml/evaluator.go:67-110 | the scanning loop computes the template specification; an expression that is never closed runs to the end |
| `Templates.ScanBraces` | internal/huml/evaluator.go:79-92 | the run-time brace scanner |
| `Templates.PlainTextExpandsToItself` | internal/huml/evaluator.go:68-70 | text without a marker is its own expansion, so the early return agrees with the loop |
| `Templates.EvaluateStringConcat` | internal/huml/evaluator.go:67-110 | after a prefix of complete pieces and without a marker split at the join, evaluation of a concatenation is the concatenation of the evaluations, and fails exactly when one does |
| `Templates.ScannersAgree` | internal/huml/lexer.go:232-262 | the brace scanners of the lexer and of the evaluator split closed text alike |
| `Templates.EvaluateStringDependsOnPaths` | internal/huml/evaluator.go:67-110 | so does the evaluation of a template |
| `ParseTime.ParseTimeIsRunTime` | internal/huml/parser.go:174-180 | for every expression in a parsed source, evaluating its converted text later gives exactly the formatted value, or the error, of the tree built at parse time |

## Left out

- ResumeEqualsUninterrupted: the condition on the text of templates is sufficient only; `Restarts.ResumesExactly` has the exact one, by what evaluation reaches.
- ResumesExactly: for runs in which no processed node reads the list of all steps, and no image, host or environment text, whose errors are swallowed, reads a forgotten step as a whole; there the request changes, and what the runner makes of it is an oracle.
- LoadCheckpoint: the JSON text of checkpoints is not modelled; a round trip through it keeps results except that empty outputs are dropped. Exit codes that come back as floating-point numbers print the same.
- RunnerAtMostOnce: counts the calls made to runners; what a runner does with one call (`internal/runner`) is an oracle.
- Execute: between two of its statements only the clock and the deciders of its approvals act; what other calls and handlers do to its rows meanwhile is in the moves of the system and the theorems over all runs, not in the executor object.
- MayMeansCan: takes for each node any verdict that some outputs of other steps make its templates come to; that one set of outputs gives all these verdicts together, and that runners put out such values, is not asked.
- CancelStaysExactly: its half about places from which a cancel may be overwritten has the same limit; the half about cancels that stay has none.
- TwoCallsEndAlike: which node stops two calls that are both cut short, and so whether they end failed or cancelled, depends on their orders.
- TryAcquireExecution: which locks a node keeps is modelled, but not what they do to the requests of others: a lock may be granted or refused at any time, since it belongs to a pooled session and its release may reach another one.
- RunAttempts: whether the deadline of a step has passed at a wait is an oracle per attempt, wall-clock time is not modelled.
- Respond: who responded, the comment and the response time are not modelled.
- SelectMax: the aggregate query is one atomic step; a failing query counts as zero, as in the source.
- EvaluateStringLoop: Go's `%v` of numbers, lists and maps, `strconv` and `Sscanf` conversions and letter case are parameters; arithmetic is over reals, without rounding, infinities or NaN.
- HumlReadsItsPrint: number literals stay text, and nil and empty collections are the same; `StepDef.Env` is never set by the converter.
- TransitionExecution: error values are not distinguished, only that the call fails; the clock only goes forward, by any amount.
- Line and column positions of tokens and the texts of error messages.
- The definition of a workflow is the parsed one: JSON and YAML encodings, checksums and the source text of a version are not modelled.
- Reference to undefined environment and secret providers: execution contexts start with none, as the engine builds them.
- Step rows of execution_steps keep status and owner only; their times, outputs, logs and audit entries are not read by the engine.
- Step status transitions (internal/engine/statemachine.go:40-70): no code calls their check.
- Notifications (LISTEN and NOTIFY): optional wake-ups, covered by acquiring any execution at any time.
- Cron triggering: computes no time; its inserts are inserts of a queued execution without a key.
- Cancelling calls when a node stops: the cancelled call is one that fails its statements or crashes.
- PostgreSQL itself: connection pooling, deletion of tenants, workflows and executions, and statements that fail after taking effect.
- Tenant concurrency counts, listing handlers, authentication, vault, secrets, RBAC, HTTP routing, command line, clients and user interface.
