# Agent Task Orchestrator: a verified model

This project models the parts of the orchestrator where its safety is decided, and proves what they promise over every
input, every run and every interleaving.

**Task domain** (`Graphs`, `Sorting`, `Domain*`). A snapshot holds projects and tasks with a parent forest, a dependency
graph, a six-state task machine, revisions and state-dependent facts. Parsing (`DomainModel`), the graph searches as they
run (`DomainGraphs`, `DomainLoops`), every mutator with its local guards (`DomainMutations`) and the re-validation of its
whole result are modelled. Each mutator's local guards are shown to decide exactly what the full re-validation would
(`DomainValidity`, `DomainOutcomes`, `DomainTransitions`, `DomainRegistration`, `DomainCommands`), and runs of commands keep
what tasks promise each other (`DomainRuns`, `DomainDecisions`, `DomainCancellation`).

**Authorization** (`Vocabulary`, `Authorization`, `Grants`, `GrantRuns`). Evaluation of a request against grants, issuing
under proofs of authority, and the bootstrap, upgrade, renewal, issue and revoke steps of the service on one store. Whatever
a run of these steps allows, a root grant covers.

**Integration** (`Integration*`). Reservations with leases and fencing tokens, effects in five transactions around one
backend call, recovery of unclear effects. The tables are a class whose transactions undo themselves when a write fails; the
protocol is a machine in which any transaction, or a crash, may come between two others. Where the check of the whole state
at the end of a transaction refuses a result, the transaction aborts
(src/persistence/application-repository-transaction.ts:2034-2048).

**Gates, completion and cleanup** (`GateModel`, `GateTables`, `Phase3*`). Completion gates, policy-gated completion that
reopens its gates, and workspace cleanup share one world with the integration protocol and with everything the rest of the
application may do to tasks, executions and workspaces, an execution ending together with its task. A workspace is cleaned
only for an execution whose gates passed again while it was being completed, and nothing goes on in that execution
meanwhile.

**Codex effects** (`Codex*`). The acceptor of a turn's event stream, the backend turn that publishes a terminal event only
when the stream was accepted as a whole, and the product operation whose driver runs at most once in spite of crashes,
recoveries and concurrent invocations. Every transaction on a product operation ends with the check that its stage, its
allowed Acts and its intent agree, and is undone when they do not.

## What turned out not to hold

* A ready task may gain a dependency on a task that is already cancelled, and superseding may go in a circle
  (`DomainLimits`). Each happens through one command only, exactly under a condition its caller can check.
* An origin whose times coincide with those of an earlier origin is never renewed or upgraded again
  (`GrantRuns.AmbiguousForEver`); bootstrapping and upgrading within one instant gets there.
* A reservation may become impossible to give up, and its target reserved for ever: after an inspection alone that made it
  ambiguous; after a finalization denied once the receipt was stored, because receipts are unique per intent; after a crash
  outside the ambiguous state; when an inspection takes the observation number that the answer of a call comes back under
  (`IntegrationReach.InspectionTakesNumber`); or when its owner execution is cancelled, or its task waits and that execution
  cannot itself run it again, since only a completed owner releases and the check of the whole state lets no successor follow
  an execution that a reservation names (`Phase3Example.CancellationStrands`, `Phase3Example.WaitingStrands`). Exactly which
  reservations can still be given up, by anything the operations and the rest of the application may do, is
  `Phase3Release.GivenUpExactly`.
* Completing an execution can leave a workspace behind that is never cleaned. A gate that has not acted, or not been decided
  on its receipt, when the execution completes can never end, since completion changed the revision its binding names; nor
  can one that crashed or ended unclear, nor a cleanup that crashed, went stale or ended unclear. Exactly which workspaces
  can still be cleaned is `Phase3Reach.CleanedExactly`, and a run without crashes that gets there is
  `Phase3Example.CompletionLeavesGateBehind`.
* A recovered Act that is denied is written back to the stage before the Act, which the check of the whole state never lets
  commit: the denial is answered by an error instead, and nothing of it is recorded (`CodexReach.DeniedRecoveryUndone`).
  Exactly when the driver of an operation can still run is `CodexReach.CanRunInRuns`.

## Model

| member | source | states |
|---|---|---|
| DomainParsing.ParseAccepts | src/domain.ts:759-839 | a snapshot is accepted exactly when every task has a proper shape and the sorted, normalized form has distinct ids, existing references and no parent or dependency cycle; that form is the result |
| DomainParsing.ParseIdempotent | src/domain.ts:759-839 | parsing a parsed snapshot gives it back unchanged |
| DomainParsing.ParseOrderIrrelevant | src/domain.ts:642-839 | permuting projects, tasks or dependency ids changes neither acceptance nor the result |
| DomainGraphs.ParseByLoops | src/domain.ts:759-839 | the loops of the parser compute exactly the specified result, in both modes |
| DomainGraphs.CycleSearch.Visit | src/domain.ts:734-755 | the recursive three-colour search terminates; what it leaves visited is closed and free of cycles; an id it returns lies on a cycle |
| DomainGraphs.DependencyCycle | src/domain.ts:734-757 | nothing is returned exactly when the dependency graph is acyclic; an id returned lies on a cycle |
| DomainGraphs.ParentCycle | src/domain.ts:720-732 | nothing is returned exactly when no parent chain loops; an id returned has a looping chain |
| DomainGraphs.DependencyReaches | src/domain.ts:1309-1321 | the stack search terminates and is true exactly when a path exists |
| DomainGraphs.ParentChainMeets | src/domain.ts:1274-1284 | the walk up the parents finds the task exactly when the proposed parent reaches it |
| Graphs.ReplaceNode | src/domain.ts:1323-1362 | changing the edges of one node of an acyclic graph keeps it acyclic exactly when none of the new targets reaches the node: why a local search can replace the full check |
| DomainOutcomes.AddDependencyGuardExact | src/domain.ts:1323-1362 | once the earlier guards pass, DEPENDENCY_CYCLE is reported exactly when committing the edge would fail the full re-validation, which is exactly when the dependency reaches the task |
| DomainOutcomes.SetParentGuardExact | src/domain.ts:1244-1298 | the same for PARENT_CYCLE |
| DomainOutcomes.AddDependencySucceeds | src/domain.ts:1323-1362 | adding succeeds exactly when task and dependency may be linked, revisions remain and the dependency does not lead back |
| DomainOutcomes.RemoveDependencyOutcome | src/domain.ts:1364-1396 | removing succeeds exactly when the task may be changed, depends on it and has revisions left, and then changes just its dependencies |
| DomainOutcomes.SetSupersessionOutcome | src/domain.ts:1398-1436 | setting a supersession succeeds exactly for a task that is not terminal, another existing task and a new value, and changes just that field; acyclicity is not asked for |
| DomainOutcomes.UpdateBodyOutcome | src/domain.ts:1158-1183 | updating a body succeeds exactly for a task that is not terminal and a new body, and changes just the body |
| DomainOutcomes.UpdateWaitingOutcome | src/domain.ts:1201-1242 | updating waiting metadata succeeds exactly for a waiting task and new, well-formed metadata, and changes just them |
| DomainTransitions.TransitionOutcome | src/domain.ts:1692-1877 | a transition other than a cancellation succeeds exactly when its event is enabled and revisions remain, and then moves exactly that task to the target |
| DomainTransitions.CancelTransitionOutcome | src/domain.ts:1627-1690 | a cancelling transition succeeds exactly when its grounds hold, the dependents are covered exactly and revisions remain; then the task is cancelled, its ready dependents wait, and nothing else changes |
| DomainRegistration.RegisterProjectOutcome | src/domain.ts:860-886 | registering succeeds exactly for a new project and adds just that project |
| DomainRegistration.SetProjectEnabledOutcome | src/domain.ts:888-916 | enabling or disabling changes just that project |
| DomainRegistration.CreateTaskOutcome | src/domain.ts:1104-1156 | creating succeeds exactly for a new id in an enabled project with a body and an existing superseded task, and adds one idea at revision one |
| DomainCommands.NeverInvalid | src/domain.ts:918-935 | on a snapshot that parses, no command ever fails the re-validation of its own result |
| DomainCommands.ExactChange | src/domain.ts:841-935 | a successful command reports exactly the tasks that differ, sorted, each one revision on or new at revision one, with one event each |
| DomainRuns.OneCommand | src/domain.ts:1692-1877 | a command keeps the snapshot valid, moves tasks only along the transition relation, and keeps started tasks on completed dependencies |
| DomainRuns.RunKeepsTasks | src/domain.ts:1711-1713 | in every run no task is lost, revisions never fall, and terminal tasks never change |
| DomainRuns.StartedClosure | src/domain.ts:967-979 | in every snapshot reached from the empty one, everything a running or completed task depends on, however indirectly, is completed |
| DomainDecisions.EligibleIsComplete | src/domain.ts:797-819 | a decision-mode snapshot whose task is eligible is also accepted in complete mode |
| DomainDecisions.EligibleExactlyWhenClaimable | src/domain.ts:1438-1464 | a task is eligible exactly when claiming it with a current acceptance succeeds, exhausted revisions aside |
| DomainDecisions.ContinuableExactlyWhenContinued | src/domain.ts:1466-1488 | the same for evaluating a continuation and resuming or retrying |
| DomainLimits.StrandedExactly | src/domain.ts:1333-1347 | a task that was not stranded, that is ready on a cancelled dependency, is stranded by a command exactly when the command gives it a cancelled dependency while it is ready |
| DomainLimits.ReadyTaskGainsCancelledDependency | src/domain.ts:1333-1347 | such a command exists |
| DomainLimits.SupersessionExactly | src/domain.ts:1414-1422 | supersession stays acyclic exactly unless the command sets a task to supersede one that supersedes it, however indirectly |
| DomainLimits.SupersessionCircle | src/domain.ts:1414-1422 | such a command exists |
| DomainCancellation.GeneratedCovers | src/application-domain.ts:129-154 | the dependents the application generates always pass the exact-cover check |
| DomainCancellation.CancelCommandSucceeds | src/application-domain.ts:129-154 | the application's cancellation succeeds exactly for a cancellable task with an acceptable reason, exhausted revisions aside |
| DomainCancellation.CancelCommandEffect | src/application-domain.ts:129-154 | it cancels the task, moves exactly its ready direct dependents to waiting for it, leaves no ready task depending on it and changes nothing else |
| DomainCancellation.AffectedProjectIds | src/application-domain.ts:43-51 | the result is sorted, without repetition, and has exactly the projects of the changed tasks |
| DomainCancellation.AddThenRemove | src/domain.ts:1348-1396 | adding a dependency and removing it again restores the snapshot up to that task's revision plus two |
| DomainLoops.AddTaskDependencyByLoops | src/domain.ts:1323-1362 | the mutator run with its loops, its search and its re-validation gives the specified result |
| DomainLoops.SetTaskParentByLoops | src/domain.ts:1244-1298 | the mutator run with its walk up the parents gives the specified result |
| DomainLoops.CancelByLoops | src/domain.ts:1627-1690 | the loop over the dependents gives the specified replacements, events and result |
| Authorization.EvaluateAuthorization | src/authorization.ts:367-432 | the loop over the grants computes the specified evaluation |
| Authorization.AllowedExactly | src/authorization.ts:387-418 | a request is allowed exactly when some live grant of that actor and action matches its target and policy and confirmation permit it; the evaluation names such a grant |
| Authorization.GrantOrderIrrelevant | src/authorization.ts:387-418 | permuting the grants does not change whether a request is allowed |
| Authorization.CanIssueGrant | src/authorization.ts:434-475 | a proof is found exactly when an issuing grant and a source of at least the candidate's scope and window exist, and it names two such grants |
| Grants.AuthorizationStore.Bootstrap | src/application-service.ts:106-185 | the store after a bootstrap, and that any failure leaves it unchanged |
| Grants.AuthorizationStore.Upgrade | src/application-service.ts:187-345 | the store after an upgrade: one epoch with the next vocabulary and its root grants |
| Grants.AuthorizationStore.Renew | src/application-service.ts:347-503 | the store after a renewal: one epoch with the same vocabulary and its root grants |
| Grants.AuthorizationStore.Issue | src/application-service.ts:785-807 | a grant is inserted exactly when policy and proof allow it, naming the proof |
| Grants.AuthorizationStore.Revoke | src/application-service.ts:808-812 | exactly the named grant at the expected revision is revoked |
| GrantRuns.StepKeepsLineage | src/application-service.ts:785-812 | every step keeps each grant either a root of a known origin or derived from an earlier grant that covers it |
| GrantRuns.NoAmplification | src/authorization.ts:434-475 | in every run each grant's chain of sources ends in a root grant of the bootstrap actor with the same action, a covering scope and a containing window |
| GrantRuns.AllowedWithinRoot | src/authorization.ts:387-418 | whatever is allowed in any run, a root grant of the bootstrap actor covers |
| GrantRuns.OriginCompleteExactly | src/application-policy.ts:72-111 | in every run the current origin is found complete exactly when no earlier origin has the same times |
| GrantRuns.AssessmentsExactly | src/application-policy.ts:72-160 | exactly when renewal is granted or denied, and what upgrade answers in every case: granted exactly below the last vocabulary, with an unambiguous origin and all its grants active |
| GrantRuns.AmbiguousOriginArises | src/application-policy.ts:72-160 | a run reaches an origin that can never be renewed |
| GrantRuns.AmbiguousForEver | src/application-policy.ts:72-160 | in every run an ambiguous origin stays the current one, and renewal and upgrade are refused to everyone from then on |
| IntegrationTables.IntegrationStore.Reserve | src/completion-application.ts:1663-1735 | the tables after a reservation and its answer, undone when a write fails |
| IntegrationTables.IntegrationStore.Mutate | src/completion-application.ts:1757-1815 | the tables after a renewal, takeover or release |
| IntegrationTables.IntegrationStore.RecordInspection | src/completion-application.ts:1895-1924 | the tables after an inspection, which may make the reservation ambiguous, but is undone when that would happen while an effect is under way |
| IntegrationTables.IntegrationStore.Prepare | src/completion-application.ts:2039-2095 | the tables after an effect was prepared, under an observation number the reservation has reached |
| IntegrationTables.IntegrationStore.Act | src/completion-application.ts:2102-2150 | the tables after an effect was acted on or denied |
| IntegrationTables.IntegrationStore.RecordReceipt | src/completion-application.ts:2250-2320 | the tables after the backend's answer was recorded |
| IntegrationTables.IntegrationStore.RecordFailure | src/completion-application.ts:2186-2215 | the tables after a backend call gave no usable receipt: failed, or unclear with its reservation ambiguous |
| IntegrationTables.IntegrationStore.Verify | src/completion-application.ts:2334-2346 | the tables after a receipt was stored for the observation of that intent |
| IntegrationTables.IntegrationStore.Finalize | src/completion-application.ts:2365-2418 | the tables after an effect was finalized, or found unclear |
| IntegrationTables.IntegrationStore.Recover | src/completion-application.ts:2497-2590 | the tables after an unclear effect was settled by an inspection |
| IntegrationTheorems.ReservationsAndIntents | src/persistence/application-repository-state.ts:1039-1043 | in every interleaving a reservation has at most one unfinished intent, which makes it current, and it is ambiguous then exactly when that intent is unclear; released and expired reservations have only terminal intents |
| IntegrationTheorems.ReconciliationNeverRequired | src/completion-application.ts:1696-1700 | the refusal for a prior reservation that is not terminal is never given |
| IntegrationTheorems.TargetsAndFences | src/completion-application.ts:1678-1722 | at most one reservation of a target is current, and the stored sequence is the largest fence issued |
| IntegrationTheorems.FencesInRuns | src/completion-application.ts:1678-1722 | in every run fences never change, and a later reservation of a target has a greater fence |
| IntegrationTheorems.OwnerInRuns | src/completion-application.ts:1774-1801 | in every run the lease owner stays the same from any moment to a later one at which an intent of the earlier one is still unfinished |
| IntegrationTheorems.ActsApart | src/completion-application.ts:2110-2139 | two Acts of different lease owners on one reservation are separated by the end of the first intent and a takeover after an inspection no earlier than the expired lease |
| IntegrationTheorems.BackendCalledOnce | src/completion-application.ts:2136-2170 | the backend is called at most once per key, only after the Act of that intent |
| IntegrationTheorems.FinalizationsEvidenced | src/completion-application.ts:2333-2403 | a finalization of success or refusal has a stored receipt that repeats an observation of that very intent |
| IntegrationTheorems.SettledExactly | src/completion-application.ts:2422-2590 | an ambiguous reservation can still be settled, by some continuation, exactly when one of its intents is unclear without a stored receipt |
| IntegrationReach.FreedExactly | src/completion-application.ts:1738-2590 | for the protocol alone, which takes it as given that owners are completed: a current reservation can be given up exactly when it is freeable: an ambiguous one has an intent that is unclear without a receipt; an active one has no unfinished intent, or one whose process has no receipt yet, has one under a free number, or observed the reservation just as it still is |
| IntegrationReach.JammedInRuns | src/completion-application.ts:1678-1722 | in every run a reservation that is not freeable stays current and not freeable, and its target taken |
| IntegrationReach.AbandonedJams | src/completion-application.ts:1979-2018 | an unfinished intent without a process that is not unclear stays so in the rest of every run, and an active reservation it pursues is not freeable |
| IntegrationReach.Freeing | src/completion-application.ts:1738-2590 | once its owner is completed, the actions that give a freeable reservation up take no time and touch nothing else |
| IntegrationReach.InspectionTakesNumber | migrations/0001-current-baseline.sql:2264 | a run without crashes or doubt after which the answer of a call can never be recorded, an inspection having taken its number |
| IntegrationDoubt.UndoubtingStays | src/completion-application.ts:1786-1790 | without a release, and without a new effect, an active reservation whose unfinished intent can no longer come to be in doubt stays so, or jams |
| IntegrationDoubt.Doubting | src/completion-application.ts:2136-2590 | the actions that lead from an intent that may come to be in doubt to a recovery that gives its reservation up |
| IntegrationTheorems.InspectionStrands | src/completion-application.ts:1902-1909 | one inspection leaves a reservation ambiguous with no intent to settle it by |
| IntegrationTheorems.DeniedFinalizationStrands | migrations/0001-current-baseline.sql:2269-2281 | so does a finalization denied after verification, its receipt being unique |
| IntegrationTheorems.CrashAbandons | src/completion-application.ts:2136-2170 | a crash between the Act and the call abandons an intent |
| GateStores.GateStore.PrepareGate | src/completion-application.ts:1205-1250 | the gate tables after a gate was prepared |
| GateStores.GateStore.ActGate | src/completion-application.ts:1262-1300 | the gate tables after the Act or its denial |
| GateStores.GateStore.RecordGateReceipt | src/completion-application.ts:1366-1400 | the gate tables after an observation: determinate, or the intent unclear |
| GateStores.GateStore.VerifyGate | src/completion-application.ts:1410-1428 | the gate tables after a determinate observation became a receipt, unless it is a pass that is over by then |
| GateStores.GateStore.FinalizeGate | src/completion-application.ts:1440-1489 | the gate tables after a gate was decided or found unclear |
| GateModel.GateSetEvidence | src/completion-application.ts:2619-2670 | the loops over gates and requests compute the specified set of receipts, or none |
| GateModel.GateSetPasses | src/completion-application.ts:2619-2670 | a gate set names, gate by gate, finalized accepted inspections under this very binding and policy whose pass is still valid; there is none exactly when some gate has no such inspection |
| GateModel.LatestPasses | src/completion-application.ts:2646-2658 | of the passing inspections of a gate the one verified last is chosen |
| Phase3Stores.Phase3Store.ActCleanup | src/completion-application.ts:3253-3300 | a cleanup goes ahead exactly when it is pending, bound, allowed, and everything is quiet; otherwise it fails or is left alone |
| Phase3Stores.Phase3Store.RecordCleanup | src/completion-application.ts:3445-3555 | intent and workspace after the backend's answer |
| Phase3Stores.Phase3Store.FinalizeCleanup | src/completion-application.ts:3596-3655 | intent and workspace after a cleanup was finalized or its finalization denied |
| Phase3Stores.Phase3Store.AcceptCompletion | src/completion-application.ts:2866-2942 | decision, task and terminal state are written together exactly when the evidence is unchanged and the execution is the present attempt |
| Phase3Safety.QuietStays | src/completion-application.ts:3015-3059 | no step whatever creates an unfinished gate or integration intent or a current reservation for a quiet execution |
| Phase3Safety.CleaningKept | src/completion-application.ts:3253-3295 | every step keeps each workspace being cleaned to its one intent, and its execution quiet |
| Phase3History.HistoryKept | src/completion-application.ts:1178-1308 | every step keeps the log of gate transactions in agreement with their intents: decided exactly when finalized, called once, after the Act |
| Phase3Theorems.QuiescenceStable | src/completion-application.ts:3015-3059 | in every reachable world a workspace being cleaned has just its one unfinished intent, and its execution is completed and quiet |
| Phase3Theorems.QuietForEver | src/completion-application.ts:1193-1195 | a quiet execution stays quiet in the rest of every run |
| Phase3Theorems.CleanedOnlyWhenAccepted | src/completion-application.ts:2958-2988 | a workspace is cleaned only for an execution with a completion decision, every required gate of which passed during that call |
| Phase3Theorems.CompletionRestsOn | src/completion-application.ts:2829-2942 | a decision is taken only for an undecided, unfinished execution, on gates and integration equal to what was read again after reopening, each gate finalized during that call and still valid |
| Phase3Theorems.DecidedOnce | src/completion-application.ts:2864-2942 | in every run an execution has at most one decision, which never changes and whose evidence stays |
| Phase3Theorems.GateCalledOnce | src/completion-application.ts:1178-1308 | the gate backend is called at most once per intent and per key, after the Act |
| Phase3Theorems.ActIsAllowed | src/completion-application.ts:1262-1300 | an Act takes a pending intent to executing only when allowed, its binding and policy current |
| Phase3Theorems.BlockedNeverCleaned | src/completion-application.ts:3029-3032 | after one gate operation crashed or ended unclear, before or after completion, no workspace of its execution is ever cleaned |
| Phase3Reach.CleanedExactly | src/completion-application.ts:3015-3059 | in every reachable world a cleanup of a decided execution's ready workspace can still go ahead, by some continuation, exactly when every open gate of the execution is about to call or has failed without doubt, every open intent on the workspace is a cleanup that can still act or another that is not unclear, and every current reservation is freeable |
| Phase3Reach.GateJamStays | src/completion-application.ts:1262-1489 | once an execution is decided, no gate of it that is not at its call ever ends |
| Phase3Reach.Clearing | src/completion-application.ts:3015-3059 | the actions that clear the way of everything that can still end |
| Phase3Release.StepOwned | src/persistence/application-repository-state.ts:3718-3738 | every step keeps at most one present attempt for each task, the task of an attempt that has not ended running or waiting, and every owner of a reservation a present attempt |
| Phase3Release.GivenUpExactly | src/completion-application.ts:1786-1790 | in every reachable world a current reservation can still be given up, by some continuation, exactly when it is freeable and, if it is active, its owner is neither cancelled nor waiting without being resumable, or its unfinished intent may still come to be in doubt |
| Phase3Release.HeldInRuns | src/execution-loop.ts:2283-2297 | in every run a reservation that cannot be given up stays so, and its target reserved |
| Phase3Example.CompletionLeavesGateBehind | src/completion-application.ts:1268-1273 | a run without crashes in which completion leaves a pending gate behind that can never act again, and a workspace no continuation cleans |
| Phase3Example.CancellationStrands | src/execution-loop.ts:2283-2297 | a run without crashes in which the owner of a freeable reservation is cancelled, and no continuation gives the reservation up |
| Phase3Example.WaitingStrands | src/persistence/application-repository-state.ts:1022-1027 | the same for an owner whose task comes to wait, the continuation of which would be a successor |
| Phase3Example.CrashBlocks | src/completion-application.ts:1262-1300 | a run in which a gate operation crashes and blocks |
| Phase3Example.CleaningHappens | src/completion-application.ts:3141-3657 | a run that completes an execution on a gate that passed during the call and comes to clean its workspace |
| CodexStream.TurnState.ObserveEvent | src/codex-sdk-worker.ts:88-131 | an event is taken exactly when the events so far and it can still become a whole turn, is shown to the observer then, and is refused with its own code otherwise |
| CodexStream.Run | src/codex-sdk-worker.ts:140-172 | returns exactly when the visible events are a whole turn, the stream ended orderly and the observer threw nothing; the observer saw exactly them; every failure is located with its code |
| CodexStream.ViableExactly | src/codex-sdk-worker.ts:88-131 | the four places a stream that can still be accepted can have come to |
| CodexBackend.Journal.Prepare | src/persistence/codex-backend-repository.ts:362-420 | a turn is inserted only when its intent has none; otherwise the one it has is handed out as replayed |
| CodexBackend.Journal.MarkActive | src/persistence/codex-backend-repository.ts:422-452 | the journal after a turn was marked active, or the error |
| CodexBackend.Journal.RecordTerminal | src/persistence/codex-backend-repository.ts:454-523 | terminal and operation of an active turn are written together, once |
| CodexBackend.WholeTurnAccepted | src/codex-execution-backend.ts:541-553 | the callback accepts every event of a whole turn exactly when the thread can be marked |
| CodexBackend.Backend.Consume | src/codex-execution-backend.ts:535-560 | a terminal event comes out exactly of a stream accepted as a whole, and is that stream's own |
| CodexBackend.Backend.RunFresh | src/codex-execution-backend.ts:492-585 | a terminal operation is recorded exactly when the stream was accepted and nothing else stood in the way, from that stream's turn, thread and terminal event |
| CodexBackend.Backend.Replay | src/codex-execution-backend.ts:497-507 | a prepared turn is answered by the receipt stored for it, or as ambiguous, and nothing is run |
| CodexBackend.Backend.Invoke | src/codex-execution-backend.ts:587-626 | start and resume: success exactly under those conditions, a second invocation for an intent runs nothing, and no driver is run twice for a turn |
| CodexProduct.ProductStore.PersistActDenial | src/codex-product-application.ts:1112-1190 | the tables after a denial before the Act, and after the check that ends the transaction |
| CodexProduct.ProductStore.AuthorizeAct | src/codex-product-application.ts:2456-2585 | the tables after the Act guard: allowed, denied or refused, and everything undone when the result is not coherent |
| CodexRuns.StepSound | src/codex-product-application.ts:2397-2600 | every step keeps turns, attempts, operations and log in agreement |
| CodexRuns.DriverRunsOnce | src/codex-product-application.ts:2496-2587 | the driver runs at most once per product operation, after a committed Act, the journaling of its turn and a check that found the operation effect-possible |
| CodexRuns.StageInRuns | src/persistence/application-repository-state.ts:3155-3158 | in every run an operation whose effect became possible never falls back, and the Acts allowed for it stay on record |
| CodexRuns.UnguardedActUndone | src/persistence/application-repository-state.ts:3155-3158 | an Act that does not pass the guard never commits on the intent of a product operation |
| CodexRuns.ActsWhileAbsent | src/codex-product-application.ts:2496-2509 | an Act, fresh or recovered, is granted only while its intent has no turn and no result and its driver has not run |
| CodexReach.CanRunExactly | src/codex-product-application.ts:2397-2600 | from every sound world the driver can still run for an operation, by some continuation, exactly when an attempt is about to run it, or is about to check it and the operation passes, or it is open with no turn in its way and either its effect is not yet possible and its intent pending or yet to come, or its effect is possible and its intent executing |
| CodexReach.CanRunInRuns | src/codex-product-application.ts:2397-2600 | the same in every reachable world |
| CodexReach.DeniedRecoveryUndone | src/codex-product-application.ts:2565-2572 | in every run the denial of a recovered Act leaves all tables as they were, and the driver can still run for the operation |
| CodexRuns.RecoveryRuns | src/codex-product-application.ts:2397-2400 | a run in which an invocation crashes between the Act and the journal, the recovered Act of a second is denied, and that of a third is granted and the driver runs |

## Left out

- Ids are integers: any totally ordered set of ids behaves alike; the syntax of identifiers, Unicode checks, exact-record and
  prototype checks, and the parsing of timestamps are not part of this model. Times are natural numbers.
- A cancellation reason is acceptable when it has 1 to 4096 characters; the finer text rules are not modelled.
- Error messages and details, correlation and audit rows, events beyond kind, task and revisions, and stored result JSON.
- Root identity, runtime lifecycle and the scheduler's time floor in the grant steps; policies enter as their outcome.
- Hashing and canonical JSON: equality of digests is equality of what was digested. SQLite, its constraints apart from those
  cited, Git, credentials, files and the SDK's network are inputs chosen freely.
- Releases, cleanups and other operations may be asked for at any time.
- The check of the whole state at the end of a transaction, apart from what is said above of integration, gates, attempts at
  tasks and product operations.
- `updated_at` guards of reservations, and which of several integration proofs of one reservation is picked.
- What other files do to tasks, executions, workspaces, intents and product operations is an environment that may take any
  step its own rules allow, so that a task that runs may be completed with its execution; evaluation of project policies is an
  input. Of the leases of executions only the revision is modelled, and whether an attempt can be resumed.
- A completion call is not required to have found its gates before it starts reopening them, and its other evidence (execution
  success, workspace) is not modelled: the machine allows more calls than the source.
- Between two events of a stream the journal writes of the callback are computed together once the stream has ended; other
  users of the journal during the stream, cancellation requests and `markUnproved` are not modelled.
- The receipts of `inspect` and `requestCancel`, continuation sources, dispatcher runs and members, and the stages of a product
  operation before its intent is prepared and after its effect is terminal.
- Progress under fairness is not claimed: what can still happen is shown by continuations, not forced.
- GateModel.GateSetEvidence: the order of the required gates is the order given, the sort by id and version is not modelled.
