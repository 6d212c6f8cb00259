/**
 Integration, completion gates, policy-gated completion and workspace cleanup as one machine over shared tables.
 Every operation is a process whose transactions may be interleaved with those of any other, with crashes, and with
 what the rest of the application does to tasks, executions and workspaces.
 */
module Phase3Model {
  import opened Options
  import opened IntegrationModel
  import opened GateModel
  import I = IntegrationRuns
  import D = DomainModel
  import DM = DomainMutations

  datatype TaskRow = TaskRow(state: D.TaskState, revision: nat)

  datatype TerminalStatus = CompletedStatus | CancelledStatus

  /**
   An attempt at a task; superseded: a later attempt has taken its place; resumable: when its task waits, it can itself run
   the task again, as a manual attempt under a live lease can.
   */
  datatype ExecutionRow =
    ExecutionRow(task: Id, revision: nat, superseded: bool, resumable: bool, terminal: Option<TerminalStatus>)

  datatype WorkspaceStatus = Allocated | Reserved | Creating | Ready | Cleaning | Cleaned | RecoveryRequired

  /** One generation of a workspace. */
  datatype WorkspaceRow = WorkspaceRow(task: Id, execution: Id, revision: nat, status: WorkspaceStatus)

  datatype WorkspaceIntentKind = CleanupIntent | OtherIntent

  datatype WorkspaceIntent = WorkspaceIntent(workspace: Id, kind: WorkspaceIntentKind, state: IntentState)

  /** What an operation read before its first transaction: a binding, with the task in the state it asks for. */
  datatype Capture = Capture(b: Binding, wanted: D.TaskState)

  datatype GateResult = NoGateReceipt(doubtful: bool) | GotGateReceipt(receipt: GateReceipt)

  datatype GateProgress = GateToAct | GateToCall | GateCalled(result: GateResult) | GateToVerify | GateToFinalize

  datatype GateEvent = Prepared(intent: Id) | GateActed(intent: Id) | CalledGate(intent: Id) | Decided(intent: Id)

  datatype CleanupResult = CleanupFailure(doubtful: bool) | CleanupReceipt(determinate: bool, succeeded: bool)

  datatype CleanupProgress =
    | CleanupToAct(b: Binding) | CleanupToCall(b: Binding) | CleanupCalled(result: CleanupResult)
    | CleanupToVerify(succeeded: bool) | CleanupToFinalize(succeeded: bool)

  datatype PolicyRow = PolicyRow(requiredGates: seq<Id>, integrationRequired: bool, preservationRequired: bool)

  /** The reservation and the two finalized intents that show an integration, or that none is required. */
  datatype IntegrationProof = NotRequired | Integrated(reservation: Id, fence: nat, apply: Id, push: Id)

  datatype Refreshed = Refreshed(gates: seq<Id>, proof: IntegrationProof, now: nat)

  /** A call of acceptCompletion: since when it runs, the gate intents it prepared, and those it saw pass again. */
  datatype CompletionCall = CompletionCall(
    b: Binding, policy: Id, since: nat, inspections: set<Id>, reopened: set<Id>, refreshed: Option<Refreshed>)

  datatype Decision = Decision(b: Binding, policy: Id, gates: seq<Id>, proof: IntegrationProof, at: nat, since: nat)

  datatype World = World(
    tasks: map<Id, TaskRow>, executions: map<Id, ExecutionRow>, workspaces: map<Id, WorkspaceRow>,
    policies: map<Id, PolicyRow>, captures: set<Capture>, integration: I.World,
    gates: GateTables, gateProcesses: map<Id, GateProgress>, gateLog: seq<GateEvent>,
    workspaceIntents: map<Id, WorkspaceIntent>, cleanups: map<Id, CleanupProgress>,
    calls: map<Id, CompletionCall>, decisions: map<Id, Decision>)

  // ---------------------------------------------------------------- reading

  /** The binding names current rows, and the workspace has the status asked for. */
  predicate Binds(w: World, b: Binding, status: WorkspaceStatus) {
    && b.task in w.tasks && w.tasks[b.task].revision == b.taskRevision
    && b.execution in w.executions && w.executions[b.execution].task == b.task
    && w.executions[b.execution].revision == b.executionRevision
    && b.workspace in w.workspaces && w.workspaces[b.workspace].revision == b.workspaceRevision
    && w.workspaces[b.workspace].task == b.task && w.workspaces[b.workspace].execution == b.execution
    && w.workspaces[b.workspace].status == status
  }

  predicate TaskIn(w: World, t: Id, state: D.TaskState) {
    t in w.tasks && w.tasks[t].state == state
  }

  predicate NotTerminal(w: World, e: Id) {
    e in w.executions && w.executions[e].terminal.None?
  }

  predicate CompletedExecution(w: World, e: Id) {
    e in w.executions && w.executions[e].terminal == Some(CompletedStatus)
  }

  /** The execution is the present attempt at its task. */
  predicate Attempting(w: World, e: Id) {
    e in w.executions && !w.executions[e].superseded
  }

  predicate HasAttempt(w: World, t: Id) {
    exists e :: e in w.executions && w.executions[e].task == t && !w.executions[e].superseded
  }

  /** The present attempt at a waiting task can run it again. */
  predicate Resumable(w: World, t: Id) {
    exists e :: e in w.executions && w.executions[e].task == t && !w.executions[e].superseded && w.executions[e].resumable
  }

  /** The states of a task whose present attempt has not ended. */
  predicate Ongoing(state: D.TaskState) {
    state == D.Running || state == D.Waiting
  }

  /** Reservations and gates name the revision of their execution for ever. */
  predicate Referenced(w: World, e: Id) {
    || (exists r :: r in w.integration.ledger.reservations && w.integration.ledger.reservations[r].ownerExecution == e)
    || (exists i :: i in w.gates.intents && w.gates.intents[i].binding.execution == e)
  }

  predicate ReservationFree(w: World, e: Id) {
    forall r :: r in w.integration.ledger.reservations && w.integration.ledger.reservations[r].ownerExecution == e ==>
      !Current(w.integration.ledger.reservations[r])
  }

  predicate GatesDone(w: World, e: Id) {
    forall i :: i in w.gates.intents && w.gates.intents[i].binding.execution == e ==> Terminal(w.gates.intents[i].state)
  }

  predicate OwnedBy(l: Ledger, i: Id, e: Id) {
    && i in l.intents && l.intents[i].reservation in l.reservations
    && l.reservations[l.intents[i].reservation].ownerExecution == e
  }

  predicate IntegrationDone(w: World, e: Id) {
    forall i :: i in w.integration.ledger.intents && OwnedBy(w.integration.ledger, i, e) ==>
      Terminal(w.integration.ledger.intents[i].state)
  }

  /** The only unfinished intent of the workspace is this one, in the given state. */
  predicate OnlyIntent(w: World, workspace: Id, intent: Id, state: IntentState) {
    && intent in w.workspaceIntents && w.workspaceIntents[intent] == WorkspaceIntent(workspace, CleanupIntent, state)
    && !Terminal(state)
    && forall i :: i in w.workspaceIntents && i != intent && w.workspaceIntents[i].workspace == workspace ==>
         Terminal(w.workspaceIntents[i].state)
  }

  /** The execution was completed by a policy-gated decision, and an integration its policy required is over. */
  predicate CleanupEvidence(w: World, b: Binding) {
    && b.execution in w.decisions && w.decisions[b.execution].b.task == b.task
    && w.decisions[b.execution].b.taskRevision + 1 == b.taskRevision
    && w.decisions[b.execution].policy in w.policies
    && (w.policies[w.decisions[b.execution].policy].integrationRequired ==> WasReserved(w.integration.ledger, b.execution))
  }

  predicate WasReserved(l: Ledger, e: Id) {
    exists r :: r in l.reservations && l.reservations[r].ownerExecution == e && !Current(l.reservations[r])
  }

  predicate Quiescent(w: World, b: Binding, intent: Id, state: IntentState) {
    && CleanupEvidence(w, b)
    && CompletedExecution(w, b.execution) && ReservationFree(w, b.execution) && GatesDone(w, b.execution)
    && IntegrationDone(w, b.execution) && OnlyIntent(w, b.workspace, intent, state)
  }

  predicate Proves(l: Ledger, b: Binding, policy: PolicyRow, p: IntegrationProof) {
    match p
    case NotRequired => !policy.integrationRequired && !policy.preservationRequired
    case Integrated(r, fence, apply, push) =>
      && policy.integrationRequired && r in l.reservations && l.reservations[r].status == Active
      && l.reservations[r].ownerExecution == b.execution && l.reservations[r].fence == fence
      && ShowsEffect(l, r, apply, Apply) && ShowsEffect(l, r, push, Push)
  }

  predicate ShowsEffect(l: Ledger, r: Id, i: Id, operation: Operation) {
    && i in l.intents && l.intents[i].reservation == r && l.intents[i].operation == operation
    && l.intents[i].state == Finalized
    && i in l.finalizations && l.finalizations[i].outcome == FinalSucceeded
    && i in l.receipts && l.receipts[i].outcome == Succeeded
  }

  // ---------------------------------------------------------------- actions

  datatype Action =
    | EnvTask(task: Id, taskRow: TaskRow)
    | EnvExecution(execution: Id, executionRow: ExecutionRow)
    | EnvWorkspace(workspace: Id, workspaceRow: WorkspaceRow)
    | EnvWorkspaceIntent(other: Id, otherRow: WorkspaceIntent)
    | EnvPolicy(newPolicy: Id, policyRow: PolicyRow)
    | Preflight(capture: Capture)
    | Integrate(action: I.Action)
    | GatePrepare(intent: Id, key: Id, operation: GateOperation, capture: Capture, policy: Id, gate: Id, resolved: bool,
                  granted: bool, forCall: Option<Id>)
    | GateAct(intent: Id, resolved: bool, granted: bool)
    | GateCall(intent: Id, gateResult: GateResult)
    | GateRecord(intent: Id, resolved: bool)
    | GateVerify(intent: Id, now: nat)
    | GateFinalize(intent: Id, resolved: bool, granted: bool)
    | GateCrash(intent: Id)
    | CleanupPrepare(cleanup: Id, capture: Capture, granted: bool)
    | CleanupAct(cleanup: Id, granted: bool)
    | CleanupCall(cleanup: Id, cleanupResult: CleanupResult)
    | CleanupRecord(cleanup: Id)
    | CleanupVerify(cleanup: Id)
    | CleanupFinalize(cleanup: Id, granted: bool)
    | CleanupCrash(cleanup: Id)
    | CompletionStart(call: Id, capture: Capture, policy: Id)
    | CompletionReopen(call: Id, intent: Id)
    | CompletionRefresh(call: Id, proof: IntegrationProof, now: nat)
    | CompletionDecide(call: Id, proof: IntegrationProof, granted: bool)

  // ---------------------------------------------------------------- gates

  /** What the operation read before its first transaction still binds. */
  predicate StillBinds(w: World, c: Capture, wanted: D.TaskState) {
    c in w.captures && c.wanted == wanted && Binds(w, c.b, Ready)
  }

  predicate GateBound(w: World, intent: Id) {
    intent in w.gates.intents && Binds(w, w.gates.intents[intent].binding, Ready)
  }

  function StepGatePrepare(w: World, a: Action): World
    requires a.GatePrepare?
  {
    var s := PrepareGate(w.gates, a.intent, a.key, a.operation, a.capture.b, a.policy, a.gate,
                         StillBinds(w, a.capture, D.Running), a.resolved, a.granted);
    w.(gates := s.tables,
       gateProcesses := if s.answer == Done then w.gateProcesses[a.intent := GateToAct] else w.gateProcesses,
       gateLog := if s.answer == Done then w.gateLog + [Prepared(a.intent)] else w.gateLog,
       calls := if s.answer == Done then Noted(w.calls, a.forCall, a.intent) else w.calls)
  }

  /** The completion call that is reopening the gate remembers the inspection it prepared. */
  function Noted(calls: map<Id, CompletionCall>, call: Option<Id>, intent: Id): map<Id, CompletionCall> {
    if call.Some? && call.value in calls
    then calls[call.value := calls[call.value].(inspections := calls[call.value].inspections + {intent})] else calls
  }

  function StepGateAct(w: World, a: Action): World
    requires a.GateAct?
  {
    var s := ActGate(w.gates, a.intent, GateBound(w, a.intent), a.resolved, a.granted);
    w.(gates := s.tables,
       gateProcesses := if s.answer == Done then w.gateProcesses[a.intent := GateToCall] else w.gateProcesses - {a.intent},
       gateLog := if s.answer == Done then w.gateLog + [GateActed(a.intent)] else w.gateLog)
  }

  predicate StillCurrent(w: World, intent: Id, resolved: bool) {
    GateBound(w, intent) && resolved
  }

  function StepGateRecord(w: World, a: Action, result: GateResult): World
    requires a.GateRecord?
  {
    match result
    case NoGateReceipt(doubtful) =>
      w.(gates := RecordGateFailure(w.gates, a.intent, doubtful).tables, gateProcesses := w.gateProcesses - {a.intent})
    case GotGateReceipt(receipt) =>
      var s := RecordGateReceipt(w.gates, a.intent, receipt, StillCurrent(w, a.intent, a.resolved));
      w.(gates := s.tables,
         gateProcesses :=
           if s.answer == Done && a.intent in s.tables.intents && s.tables.intents[a.intent].state == Observed
           then w.gateProcesses[a.intent := GateToVerify] else w.gateProcesses - {a.intent})
  }

  function StepGateVerify(w: World, a: Action): World
    requires a.GateVerify?
  {
    var s := VerifyGate(w.gates, a.intent, a.now);
    w.(gates := s.tables,
       gateProcesses := if s.answer == Done then w.gateProcesses[a.intent := GateToFinalize] else w.gateProcesses - {a.intent})
  }

  function StepGateFinalize(w: World, a: Action): World
    requires a.GateFinalize?
  {
    var s := FinalizeGate(w.gates, a.intent, GateBound(w, a.intent), a.resolved, a.granted);
    w.(gates := s.tables, gateProcesses := w.gateProcesses - {a.intent},
       gateLog := w.gateLog +
         if s.answer == Done && a.intent in s.tables.intents && s.tables.intents[a.intent].state == Finalized
         then [Decided(a.intent)] else [])
  }

  predicate GateAt(w: World, intent: Id, p: GateProgress) {
    intent in w.gateProcesses && w.gateProcesses[intent] == p
  }

  // ---------------------------------------------------------------- cleanup

  /** An intent moves on, with its workspace when that has a new status, and its process goes on or is gone. */
  function CleanupMove(
    w: World, intent: Id, state: IntentState, status: Option<WorkspaceStatus>, progress: Option<CleanupProgress>): World
    requires intent in w.workspaceIntents && w.workspaceIntents[intent].workspace in w.workspaces
  {
    var x := w.workspaceIntents[intent].workspace;
    var row := w.workspaces[x];
    w.(workspaceIntents := w.workspaceIntents[intent := w.workspaceIntents[intent].(state := state)],
       workspaces := if status.None? then w.workspaces
                     else w.workspaces[x := row.(status := status.value, revision := row.revision + 1)],
       cleanups := if progress.None? then w.cleanups - {intent} else w.cleanups[intent := progress.value])
  }

  function StepCleanupPrepare(w: World, a: Action): World
    requires a.CleanupPrepare?
  {
    if !StillBinds(w, a.capture, D.Completed) ||
       !TaskIn(w, a.capture.b.task, D.Completed) || !CleanupEvidence(w, a.capture.b) || !a.granted || a.cleanup in w.workspaceIntents
    then w
    else w.(workspaceIntents := w.workspaceIntents[a.cleanup := WorkspaceIntent(a.capture.b.workspace, CleanupIntent, Pending)],
            cleanups := w.cleanups[a.cleanup := CleanupToAct(a.capture.b)])
  }

  function StepCleanupAct(w: World, a: Action, b: Binding): World
    requires a.CleanupAct?
  {
    if a.cleanup !in w.workspaceIntents || w.workspaceIntents[a.cleanup].state != Pending || !Binds(w, b, Ready) ||
       w.workspaceIntents[a.cleanup].workspace != b.workspace
    then w.(cleanups := w.cleanups - {a.cleanup})
    else if !a.granted || !Quiescent(w, b, a.cleanup, Pending) then CleanupMove(w, a.cleanup, Failed, None, None)
    else CleanupMove(w, a.cleanup, Executing, Some(Cleaning), Some(CleanupToCall(b)))
  }

  /** The intent is in the given state and its workspace is being cleaned. */
  predicate BeingCleaned(w: World, intent: Id, state: IntentState) {
    && intent in w.workspaceIntents && w.workspaceIntents[intent].state == state
    && w.workspaceIntents[intent].workspace in w.workspaces
    && w.workspaces[w.workspaceIntents[intent].workspace].status == Cleaning
  }

  function StepCleanupCall(w: World, a: Action, b: Binding): World
    requires a.CleanupCall?
  {
    var cleaned := b.(workspaceRevision := b.workspaceRevision + 1);
    if BeingCleaned(w, a.cleanup, Executing) && Binds(w, cleaned, Cleaning) && Quiescent(w, b, a.cleanup, Executing)
    then w.(cleanups := w.cleanups[a.cleanup := CleanupCalled(a.cleanupResult)])
    else w.(cleanups := w.cleanups - {a.cleanup})
  }

  function StepCleanupRecord(w: World, a: Action, result: CleanupResult): World
    requires a.CleanupRecord?
  {
    if !BeingCleaned(w, a.cleanup, Executing) then w.(cleanups := w.cleanups - {a.cleanup})
    else match result
      case CleanupFailure(true) => CleanupMove(w, a.cleanup, Unclear, Some(RecoveryRequired), None)
      case CleanupFailure(false) => CleanupMove(w, a.cleanup, Failed, Some(Ready), None)
      case CleanupReceipt(true, succeeded) => CleanupMove(w, a.cleanup, Observed, None, Some(CleanupToVerify(succeeded)))
      case CleanupReceipt(false, _) => CleanupMove(w, a.cleanup, Unclear, Some(RecoveryRequired), None)
  }

  function StepCleanupVerify(w: World, a: Action, succeeded: bool): World
    requires a.CleanupVerify?
  {
    if !BeingCleaned(w, a.cleanup, Observed) then w.(cleanups := w.cleanups - {a.cleanup})
    else CleanupMove(w, a.cleanup, Verified, None, Some(CleanupToFinalize(succeeded)))
  }

  function StepCleanupFinalize(w: World, a: Action, succeeded: bool): World
    requires a.CleanupFinalize?
  {
    if !BeingCleaned(w, a.cleanup, Verified) then w.(cleanups := w.cleanups - {a.cleanup})
    else if !a.granted then CleanupMove(w, a.cleanup, Unclear, Some(RecoveryRequired), None)
    else CleanupMove(w, a.cleanup, Finalized, Some(if succeeded then Cleaned else Ready), None)
  }

  // ---------------------------------------------------------------- completion

  /** A binding whose task is running and whose execution has not ended. */
  predicate Underway(w: World, b: Binding) {
    Binds(w, b, Ready) && TaskIn(w, b.task, D.Running) && NotTerminal(w, b.execution)
  }

  /** The gate passed again: the inspection was finalized and accepted. */
  predicate PassedAgain(g: GateTables, i: Id) {
    && i in g.intents && g.intents[i].operation == InspectGate && g.intents[i].state == Finalized
    && i in g.finalizations && g.finalizations[i] == GateAccepted && i in g.receipts && g.receipts[i].verdict == Pass
  }

  function StepCompletionRefresh(w: World, a: Action, call: CompletionCall): World
    requires a.CompletionRefresh?
  {
    if !Underway(w, call.b) || call.policy !in w.policies then w
    else
      var policy := w.policies[call.policy];
      match GateSet(w.gates, policy.requiredGates, call.b, call.policy, a.now)
      case None => w
      case Some(chosen) =>
        if |chosen| != |call.reopened| || (exists i :: i in chosen && i !in call.reopened) ||
           !Proves(w.integration.ledger, call.b, policy, a.proof)
        then w
        else w.(calls := w.calls[a.call := call.(refreshed := Some(Refreshed(chosen, a.proof, a.now)))])
  }

  function StepCompletionDecide(w: World, a: Action, call: CompletionCall): World
    requires a.CompletionDecide?
  {
    if call.refreshed.None? || !Underway(w, call.b) || call.policy !in w.policies || !a.granted ||
       w.executions[call.b.execution].superseded
    then w
    else
      var policy, seen := w.policies[call.policy], call.refreshed.value;
      match GateSet(w.gates, policy.requiredGates, call.b, call.policy, seen.now)
      case None => w
      case Some(chosen) =>
        if chosen != seen.gates || |chosen| != |call.reopened| || (exists i :: i in chosen && i !in call.reopened) ||
           a.proof != seen.proof || !Proves(w.integration.ledger, call.b, policy, a.proof)
        then w
        else w.(decisions := w.decisions[call.b.execution :=
                               Decision(call.b, call.policy, chosen, a.proof, seen.now, call.since)],
                tasks := w.tasks[call.b.task := TaskRow(D.Completed, call.b.taskRevision + 1)],
                executions := w.executions[call.b.execution :=
                                w.executions[call.b.execution].(terminal := Some(CompletedStatus))])
  }

  // ---------------------------------------------------------------- the machine

  predicate GateAction(a: Action) {
    a.GatePrepare? || a.GateAct? || a.GateCall? || a.GateRecord? || a.GateVerify? || a.GateFinalize? || a.GateCrash?
  }

  predicate CleanupAction(a: Action) {
    a.CleanupPrepare? || a.CleanupAct? || a.CleanupCall? || a.CleanupRecord? || a.CleanupVerify? || a.CleanupFinalize? ||
    a.CleanupCrash?
  }

  predicate CompletionAction(a: Action) {
    a.CompletionStart? || a.CompletionReopen? || a.CompletionRefresh? || a.CompletionDecide?
  }

  function NextGate(w: World, a: Action): World
    requires GateAction(a)
  {
    if a.GatePrepare? then StepGatePrepare(w, a)
    else if a.GateAct? then (if GateAt(w, a.intent, GateToAct) then StepGateAct(w, a) else w)
    else if a.GateCall? then
      (if GateAt(w, a.intent, GateToCall)
       then w.(gateProcesses := w.gateProcesses[a.intent := GateCalled(a.gateResult)],
               gateLog := w.gateLog + [CalledGate(a.intent)])
       else w)
    else if a.GateRecord? then
      (if a.intent in w.gateProcesses && w.gateProcesses[a.intent].GateCalled?
       then StepGateRecord(w, a, w.gateProcesses[a.intent].result) else w)
    else if a.GateVerify? then (if GateAt(w, a.intent, GateToVerify) then StepGateVerify(w, a) else w)
    else if a.GateFinalize? then (if GateAt(w, a.intent, GateToFinalize) then StepGateFinalize(w, a) else w)
    else w.(gateProcesses := w.gateProcesses - {a.intent})
  }

  function NextCleanup(w: World, a: Action): World
    requires CleanupAction(a)
  {
    if a.CleanupPrepare? then StepCleanupPrepare(w, a)
    else if a.CleanupCrash? then w.(cleanups := w.cleanups - {a.cleanup})
    else if a.cleanup !in w.cleanups then w
    else
      var p := w.cleanups[a.cleanup];
      if a.CleanupAct? then (if p.CleanupToAct? then StepCleanupAct(w, a, p.b) else w)
      else if a.CleanupCall? then (if p.CleanupToCall? then StepCleanupCall(w, a, p.b) else w)
      else if a.CleanupRecord? then (if p.CleanupCalled? then StepCleanupRecord(w, a, p.result) else w)
      else if a.CleanupVerify? then (if p.CleanupToVerify? then StepCleanupVerify(w, a, p.succeeded) else w)
      else (if p.CleanupToFinalize? then StepCleanupFinalize(w, a, p.succeeded) else w)
  }

  function NextCompletion(w: World, a: Action): World
    requires CompletionAction(a)
  {
    if a.CompletionStart? then
      (if a.call !in w.calls && StillBinds(w, a.capture, D.Running)
       then w.(calls := w.calls[a.call := CompletionCall(a.capture.b, a.policy, |w.gateLog|, {}, {}, None)]) else w)
    else if a.call !in w.calls then w
    else
      var call := w.calls[a.call];
      if a.CompletionReopen? then
        (if a.intent in call.inspections && PassedAgain(w.gates, a.intent)
         then w.(calls := w.calls[a.call := call.(reopened := call.reopened + {a.intent})]) else w)
      else if a.CompletionRefresh? then StepCompletionRefresh(w, a, call)
      else StepCompletionDecide(w, a, call)
  }

  function EndState(s: TerminalStatus): D.TaskState {
    match s
    case CompletedStatus => D.Completed
    case CancelledStatus => D.Cancelled
  }

  /** An execution ends together with its task. */
  function TasksAfter(w: World, e: Id, row: ExecutionRow): map<Id, TaskRow> {
    if e in w.executions && w.executions[e].terminal.None? && row.terminal.Some? && row.task in w.tasks
    then w.tasks[row.task := TaskRow(EndState(row.terminal.value), w.tasks[row.task].revision + 1)] else w.tasks
  }

  function NextEnv(w: World, a: Action): World
    requires !GateAction(a) && !CleanupAction(a) && !CompletionAction(a)
  {
    match a
    case EnvTask(t, row) => w.(tasks := w.tasks[t := row])
    case EnvExecution(e, row) => w.(executions := w.executions[e := row], tasks := TasksAfter(w, e, row))
    case EnvWorkspace(x, row) => w.(workspaces := w.workspaces[x := row])
    case EnvWorkspaceIntent(i, row) => w.(workspaceIntents := w.workspaceIntents[i := row])
    case EnvPolicy(p, row) => w.(policies := w.policies[p := row])
    case Preflight(c) => w.(captures := w.captures + {c})
    case Integrate(step) => w.(integration := I.Next(w.integration, step))
  }

  function Next(w: World, a: Action): World {
    if GateAction(a) then NextGate(w, a)
    else if CleanupAction(a) then NextCleanup(w, a)
    else if CompletionAction(a) then NextCompletion(w, a)
    else NextEnv(w, a)
  }

  /** A new attempt, once there is no other. */
  predicate MayBegin(w: World, row: ExecutionRow) {
    && !row.superseded && row.terminal.None? && !HasAttempt(w, row.task)
    && row.task in w.tasks && Ongoing(w.tasks[row.task].state)
  }

  /**
   A present attempt is renewed or superseded, under a new revision, as long as no reservation and no gate names it; or
   it ends, completed while its task runs or cancelled while that is ongoing.
   */
  predicate MayBecome(w: World, e: Id, row: ExecutionRow)
    requires e in w.executions
  {
    var o := w.executions[e];
    && row.task == o.task && row.revision >= o.revision
    && (o.superseded || o.terminal.Some? ==> row == o)
    && (row.superseded ==> row.terminal.None? && (o.superseded || row.revision > o.revision))
    && (row.revision > o.revision ==> !Referenced(w, e))
    && (row.resumable && !o.resumable ==> row.revision > o.revision)
    && (o.terminal.None? && row.terminal.Some? ==>
          && row.revision == o.revision && row.task in w.tasks
          && (row.terminal == Some(CompletedStatus) ==> w.tasks[row.task].state == D.Running)
          && Ongoing(w.tasks[row.task].state))
  }

  /** How a workspace moves on without a cleanup. */
  predicate WorkspaceMoves(s: WorkspaceStatus, t: WorkspaceStatus) {
    match s
    case Allocated => t in {Allocated, Reserved, RecoveryRequired}
    case Reserved => t == Creating
    case Creating => t in {Ready, Reserved, RecoveryRequired}
    case RecoveryRequired => t in {Allocated, Reserved, Ready, Cleaned}
    case _ => false
  }

  /** How an intent on a workspace moves on. */
  predicate IntentMoves(s: IntentState, t: IntentState) {
    match s
    case Pending => t in {Executing, Failed}
    case Executing => t in {Observed, Unclear, Failed}
    case Observed => t in {Verified, Unclear, Failed}
    case Verified => t in {Finalized, Unclear}
    case _ => false
  }

  /** What the rest of the application may do, and what the flags given to the integration steps stand for. */
  predicate Possible(w: World, a: Action) {
    match a
    case EnvTask(t, row) =>
      t in w.tasks ==>
        !DM.Terminal(w.tasks[t].state) && row.revision == w.tasks[t].revision + 1 &&
        (row.state == w.tasks[t].state || DM.SomeTransition(w.tasks[t].state, row.state)) &&
        (HasAttempt(w, t) ==>
           Ongoing(row.state) && (w.tasks[t].state == D.Waiting && row.state == D.Running ==> Resumable(w, t)))
    case EnvExecution(e, row) => if e in w.executions then MayBecome(w, e, row) else MayBegin(w, row)
    case EnvWorkspace(x, row) =>
      row.status != Cleaning &&
      (x in w.workspaces ==>
         WorkspaceMoves(w.workspaces[x].status, row.status) && row.task == w.workspaces[x].task &&
         row.execution == w.workspaces[x].execution && row.revision == w.workspaces[x].revision + 1)
    case EnvWorkspaceIntent(i, row) =>
      row.kind == OtherIntent && (row.workspace in w.workspaces ==> w.workspaces[row.workspace].status != Cleaning) &&
      row.workspace in w.workspaces &&
      if i in w.workspaceIntents
      then w.workspaceIntents[i].kind == OtherIntent && w.workspaceIntents[i].workspace == row.workspace &&
           IntentMoves(w.workspaceIntents[i].state, row.state)
      else row.state == Pending
    case EnvPolicy(p, row) => p !in w.policies
    case Preflight(c) => Binds(w, c.b, Ready) && TaskIn(w, c.b.task, c.wanted)
    case Integrate(step) => I.Possible(w.integration, step) && Faithful(w, step)
    case _ => true
  }

  /** The binding of a reservation holds only for the attempt at a running task; an effect is prepared only while its task runs. */
  predicate Faithful(w: World, step: I.Action) {
    && (step.DoReserve? && step.bound ==>
          Attempting(w, step.execution) &&
          exists c :: c in w.captures && c.b.execution == step.execution && StillBinds(w, c, D.Running))
    && (step.DoPrepare? && step.running && step.id in w.integration.ledger.reservations ==>
          var e := w.integration.ledger.reservations[step.id].ownerExecution;
          NotTerminal(w, e) && TaskIn(w, w.executions[e].task, D.Running))
    && (step.DoMutate? && step.completed && step.id in w.integration.ledger.reservations ==>
          CompletedExecution(w, w.integration.ledger.reservations[step.id].ownerExecution))
  }

  const START: World :=
    World(map[], map[], map[], map[], {}, I.START, NO_GATES, map[], [], map[], map[], map[], map[])

  ghost predicate Run(worlds: seq<World>, actions: seq<Action>) {
    && |worlds| == |actions| + 1 && worlds[0] == START
    && forall k :: 0 <= k < |actions| ==> Possible(worlds[k], actions[k]) && worlds[k + 1] == Next(worlds[k], actions[k])
  }
}
