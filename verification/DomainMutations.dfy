/**
 The mutators and decisions of the task domain, guard by guard.  Every mutator is given on the parsed snapshot
 (Apply does the parsing they all begin with), runs its own local guards, and re-validates the whole result.
 */
module DomainMutations {
  import opened Options
  import opened Graphs
  import opened Sorting
  import opened DomainModel

  datatype EventKind =
    | Created | Transitioned | BodyChanged | WaitingChanged | ParentChanged
    | DependencyAdded | DependencyRemoved | SupersessionChanged

  datatype DomainEvent = DomainEvent(kind: EventKind, taskId: Id, before: Option<int>, after: int)

  datatype Mutation = Mutation(snapshot: Snapshot, changedTaskIds: seq<Id>, events: seq<DomainEvent>)

  datatype ProjectMutation = ProjectMutation(snapshot: Snapshot, changedProjectIds: seq<Id>)

  predicate Terminal(state: TaskState) {
    state == Completed || state == Cancelled
  }

  predicate GraphMutable(state: TaskState) {
    state == Idea || state == Ready || state == Waiting
  }

  // ---------------------------------------------------------------- building the next snapshot

  function MutationOf(s: Snapshot, changed: seq<Id>, events: seq<DomainEvent>): Mutation {
    Mutation(s, Sort(IdKey, changed), events)
  }

  /** One revision on; waiting metadata follows the revision. */
  function Advance(candidate: Task): Task {
    var revision := candidate.revision + 1;
    var waiting :=
      if candidate.state == Waiting && candidate.waiting.Some?
      then Some(candidate.waiting.value.(taskRevision := revision))
      else candidate.waiting;
    candidate.(revision := revision, waiting := waiting)
  }

  /** The candidate carries the task's old revision; it comes back advanced and parsed. */
  function NextTask(candidate: Task): Result<Task> {
    if candidate.revision == MAX_SAFE_INTEGER then Err(RevisionExhausted) else ParseTask(Advance(candidate))
  }

  function Replaced(replacements: map<Id, Task>): Task -> Task {
    (t: Task) => if t.id in replacements then replacements[t.id] else t
  }

  ghost function ReplaceTasks(s: Snapshot, replacements: map<Id, Task>, additions: seq<Task>): Result<Snapshot> {
    ParseSnapshot(Snapshot(s.projects, Map(Replaced(replacements), s.tasks) + additions), Complete)
  }

  /** Puts one changed task into the snapshot and reports it. */
  ghost function CommitOne(s: Snapshot, before: Task, candidate: Task, kind: EventKind): Result<Mutation> {
    var changed :- NextTask(candidate);
    var next :- ReplaceTasks(s, map[changed.id := changed], []);
    Ok(MutationOf(next, [changed.id], [DomainEvent(kind, changed.id, Some(before.revision), changed.revision)]))
  }

  function RequireMutableTask(s: Snapshot, taskId: Id): Result<Task> {
    match TaskById(s.tasks, taskId)
    case None => Err(TaskNotFound)
    case Some(task) => if Terminal(task.state) then Err(TerminalImmutable) else Ok(task)
  }

  function RequireGraphMutableTask(s: Snapshot, taskId: Id): Result<Task> {
    var task :- RequireMutableTask(s, taskId);
    if GraphMutable(task.state) then Ok(task) else Err(MutationNotAllowed)
  }

  // ---------------------------------------------------------------- projects

  ghost function RegisterProject(s: Snapshot, projectId: Id): Result<ProjectMutation> {
    if ProjectById(s.projects, projectId).Some? then Err(ProjectAlreadyExists)
    else
      var next :- ParseSnapshot(Snapshot(s.projects + [Project(projectId, true)], s.tasks), Complete);
      Ok(ProjectMutation(next, [projectId]))
  }

  function Enabling(projectId: Id, enabled: bool): Project -> Project {
    (p: Project) => if p.id == projectId then Project(projectId, enabled) else p
  }

  ghost function SetProjectEnabled(s: Snapshot, projectId: Id, enabled: bool): Result<ProjectMutation> {
    match ProjectById(s.projects, projectId)
    case None => Err(ProjectNotFound)
    case Some(project) =>
      if project.enabled == enabled then Err(NoOp)
      else
        var next :- ParseSnapshot(Snapshot(Map(Enabling(projectId, enabled), s.projects), s.tasks), Complete);
        Ok(ProjectMutation(next, [projectId]))
  }

  // ---------------------------------------------------------------- tasks

  function NewTask(id: Id, projectId: Id, body: string, supersedes: Option<Id>): Task {
    Task(id, projectId, Idea, 1, body, None, [], None, None, None, supersedes)
  }

  ghost function CreateTask(s: Snapshot, id: Id, projectId: Id, body: string, supersedes: Option<Id>)
    : Result<Mutation>
  {
    if TaskById(s.tasks, id).Some? then Err(TaskAlreadyExists)
    else if ProjectById(s.projects, projectId).None? then Err(ProjectNotFound)
    else if supersedes == Some(id) then Err(SupersessionSelf)
    else if supersedes.Some? && TaskById(s.tasks, supersedes.value).None? then Err(SupersessionNotFound)
    else
      var task :- ParseTask(NewTask(id, projectId, body, supersedes));
      var next :- ReplaceTasks(s, map[], [task]);
      Ok(MutationOf(next, [task.id], [DomainEvent(Created, task.id, None, 1)]))
  }

  ghost function UpdateTaskBody(s: Snapshot, taskId: Id, body: string): Result<Mutation> {
    var task :- RequireMutableTask(s, taskId);
    if task.body == body then Err(NoOp)
    else CommitOne(s, task, task.(body := body), BodyChanged)
  }

  ghost function UpdateTaskWaiting(s: Snapshot, taskId: Id, waiting: WaitingInput): Result<Mutation> {
    var task :- RequireMutableTask(s, taskId);
    if task.state != Waiting || task.waiting.None? then Err(MutationNotAllowed)
    else
      var w :- ParseWaitingInput(waiting);
      if task.waiting.value.input == w then Err(NoOp)
      else CommitOne(s, task, task.(waiting := Some(WaitingMetadata(w, task.revision))), WaitingChanged)
  }

  ghost function SetTaskParent(s: Snapshot, taskId: Id, parentId: Option<Id>): Result<Mutation> {
    var task :- RequireGraphMutableTask(s, taskId);
    if task.parentId == parentId then Err(NoOp)
    else if parentId == Some(task.id) then Err(ParentSelf)
    else
      var checked :- CheckParent(s, task, parentId);
      CommitOne(s, task, task.(parentId := parentId), ParentChanged)
  }

  /** The local guards on a proposed parent, in the order they run. */
  ghost function CheckParent(s: Snapshot, task: Task, parentId: Option<Id>): Result<Option<Id>> {
    match parentId
    case None => Ok(None)
    case Some(p) =>
      var parent := TaskById(s.tasks, p);
      if parent.None? then Err(ParentNotFound)
      else if parent.value.projectId != task.projectId then Err(ParentProjectMismatch)
      else if Reaches(ParentGraph(s.tasks), p, task.id) then Err(ParentCycle)
      else Ok(parentId)
  }

  ghost function AddTaskDependency(s: Snapshot, taskId: Id, dependencyId: Id): Result<Mutation> {
    var task :- RequireGraphMutableTask(s, taskId);
    if taskId == dependencyId then Err(DependencySelf)
    else if TaskById(s.tasks, dependencyId).None? then Err(DependencyNotFound)
    else if dependencyId in task.dependencyIds then Err(DependencyDuplicate)
    else if Reaches(DependencyGraph(s.tasks), dependencyId, task.id) then Err(DependencyCycle)
    else CommitOne(s, task, task.(dependencyIds := Sort(IdKey, task.dependencyIds + [dependencyId])), DependencyAdded)
  }

  function Without(ids: seq<Id>, id: Id): seq<Id> {
    Filter((d: Id) => d != id, ids)
  }

  ghost function RemoveTaskDependency(s: Snapshot, taskId: Id, dependencyId: Id): Result<Mutation> {
    var task :- RequireGraphMutableTask(s, taskId);
    if dependencyId !in task.dependencyIds then Err(NoOp)
    else CommitOne(s, task, task.(dependencyIds := Without(task.dependencyIds, dependencyId)), DependencyRemoved)
  }

  ghost function SetTaskSupersession(s: Snapshot, taskId: Id, supersedes: Option<Id>): Result<Mutation> {
    var task :- RequireMutableTask(s, taskId);
    if task.supersedesTaskId == supersedes then Err(NoOp)
    else if supersedes == Some(task.id) then Err(SupersessionSelf)
    else if supersedes.Some? && TaskById(s.tasks, supersedes.value).None? then Err(SupersessionNotFound)
    else CommitOne(s, task, task.(supersedesTaskId := supersedes), SupersessionChanged)
  }

  // ---------------------------------------------------------------- decisions

  datatype EligibilityReason =
    | StateNotReady | ProjectNotRegistered | ProjectNotEnabled | DependencyNotRegistered | DependencyNotCompleted

  predicate ProjectDisabledIn(s: Snapshot, task: Task) {
    var p := ProjectById(s.projects, task.projectId);
    p.Some? && !p.value.enabled
  }

  predicate DependencyMissing(s: Snapshot, task: Task) {
    exists d :: d in task.dependencyIds && TaskById(s.tasks, d).None?
  }

  predicate DependencyUnfinished(s: Snapshot, task: Task) {
    exists d :: d in task.dependencyIds &&
      var t := TaskById(s.tasks, d); t.Some? && t.value.state != Completed
  }

  predicate DependencyIsCancelled(s: Snapshot, task: Task) {
    exists d :: d in task.dependencyIds &&
      var t := TaskById(s.tasks, d); t.Some? && t.value.state == Cancelled
  }

  function When<T>(condition: bool, reason: T): set<T> {
    if condition then {reason} else {}
  }

  function EligibilityReasons(s: Snapshot, task: Task): set<EligibilityReason> {
    When(task.state != Ready, StateNotReady) +
    When(ProjectById(s.projects, task.projectId).None?, EligibilityReason.ProjectNotRegistered) +
    When(ProjectDisabledIn(s, task), EligibilityReason.ProjectNotEnabled) +
    When(DependencyMissing(s, task), EligibilityReason.DependencyNotRegistered) +
    When(DependencyUnfinished(s, task), EligibilityReason.DependencyNotCompleted)
  }

  ghost function EvaluateTaskEligibility(input: Snapshot, taskId: Id): Result<set<EligibilityReason>> {
    var s :- ParseSnapshot(input, Decision(taskId));
    match TaskById(s.tasks, taskId)
    case None => Err(TaskNotFound)
    case Some(task) => Ok(EligibilityReasons(s, task))
  }

  datatype ContinuationKind = Resume | Retry

  datatype RequiredActionReceipt = RequiredActionReceipt(
    taskId: Id, taskRevision: int, requiredAction: string, accepted: bool)

  datatype Continuation = Continuation(
    taskId: Id, expectedTaskRevision: int, kind: ContinuationKind, receipt: RequiredActionReceipt,
    targetExecutionId: Option<Id>, targetWorkspaceRevision: Option<Id>, targetBackendThreadId: Option<Id>,
    trustedTime: int)

  datatype ContinuationReason =
    | StateNotWaiting | TaskRevisionStale | ProjectNotRegistered | ProjectNotEnabled
    | DependencyNotRegistered | DependencyNotCompleted | RequiredActionReceiptStale | IdentityMismatch
    | ExecutionIdRequired | NotRetryable | RetryTooEarly

  function ParseContinuation(c: Continuation): Result<Continuation> {
    if !PositiveInteger(c.receipt.taskRevision) || !c.receipt.accepted then Err(InvalidInput)
    else if !PositiveInteger(c.expectedTaskRevision) || !SafeInteger(c.trustedTime) then Err(InvalidInput)
    else Ok(c)
  }

  predicate Mismatch(expected: Option<Id>, actual: Option<Id>) {
    expected.Some? && expected != actual
  }

  function ContinuationReasons(s: Snapshot, task: Task, c: Continuation): set<ContinuationReason> {
    if task.state != Waiting || task.waiting.None? then {StateNotWaiting}
    else
      var w := task.waiting.value;
      When(task.revision != c.expectedTaskRevision || w.taskRevision != c.expectedTaskRevision, TaskRevisionStale) +
      When(ProjectById(s.projects, task.projectId).None?, ContinuationReason.ProjectNotRegistered) +
      When(ProjectDisabledIn(s, task), ContinuationReason.ProjectNotEnabled) +
      When(DependencyMissing(s, task), ContinuationReason.DependencyNotRegistered) +
      When(DependencyUnfinished(s, task), ContinuationReason.DependencyNotCompleted) +
      When(c.receipt.taskId != task.id || c.receipt.taskRevision != c.expectedTaskRevision ||
           c.receipt.requiredAction != w.input.requiredAction || !c.receipt.accepted, RequiredActionReceiptStale) +
      When(Mismatch(w.input.executionId, c.targetExecutionId) ||
           Mismatch(w.input.workspaceRevision, c.targetWorkspaceRevision) ||
           Mismatch(w.input.backendThreadId, c.targetBackendThreadId), IdentityMismatch) +
      match c.kind
      case Resume => When(w.input.executionId.None?, ExecutionIdRequired)
      case Retry =>
        When(!w.input.retryable, NotRetryable) +
        When(w.input.retryAfter.Some? && w.input.retryAfter.value > c.trustedTime, RetryTooEarly)
  }

  ghost function EvaluateWaitingContinuation(input: Snapshot, command: Continuation): Result<set<ContinuationReason>> {
    var c :- ParseContinuation(command);
    var s :- ParseSnapshot(input, Decision(c.taskId));
    match TaskById(s.tasks, c.taskId)
    case None => Err(TaskNotFound)
    case Some(task) => Ok(ContinuationReasons(s, task, c))
  }

  // ---------------------------------------------------------------- transitions

  datatype TransitionEvent =
    | MarkReady | Cancel | ClaimAccepted | DependencyCancelled | ExecutionWait | CompletionAccepted
    | InterruptionVerified | ResumeAccepted | RetryAccepted

  predicate Legal(from: TaskState, event: TransitionEvent, to: TaskState) {
    (from, event, to) in {
      (Idea, MarkReady, Ready), (Idea, Cancel, Cancelled),
      (Ready, ClaimAccepted, Running), (Ready, TransitionEvent.DependencyCancelled, Waiting),
      (Ready, Cancel, Cancelled), (Running, ExecutionWait, Waiting), (Running, CompletionAccepted, Completed),
      (Running, InterruptionVerified, Cancelled), (Waiting, ResumeAccepted, Running),
      (Waiting, RetryAccepted, Running), (Waiting, Cancel, Cancelled)}
  }

  predicate SomeTransition(from: TaskState, to: TaskState) {
    exists event :: Legal(from, event, to)
  }

  datatype ExternalAcceptance = ExternalAcceptance(taskId: Id, taskRevision: int, authorized: bool, reliable: bool)

  datatype CompletionDecision = CompletionDecision(decisionId: Id, taskId: Id, taskRevision: int, accepted: bool)

  datatype DispositionStatus = Absent | Stopped

  datatype Disposition = Disposition(
    receiptId: Id, taskId: Id, taskRevision: int, executionId: Option<Id>, status: DispositionStatus)

  datatype DependentWaiting = DependentWaiting(taskId: Id, waiting: WaitingInput)

  datatype Payload =
    | EmptyPayload
    | AcceptancePayload(acceptance: ExternalAcceptance)
    | WaitingPayload(waiting: WaitingInput)
    | DecisionPayload(decision: CompletionDecision)
    | ContinuationPayload(continuation: Continuation, acceptance: ExternalAcceptance)
    | CancelPayload(reason: string, disposition: Option<Disposition>, dependents: seq<DependentWaiting>)
    | InterruptionPayload(reason: string, verification: Disposition, dependents: seq<DependentWaiting>)

  datatype TransitionCommand = TransitionCommand(
    taskId: Id, event: TransitionEvent, targetState: TaskState, payload: Payload)

  predicate CurrentAcceptance(a: ExternalAcceptance, task: Task) {
    a.taskId == task.id && a.taskRevision == task.revision && a.authorized && a.reliable
  }

  predicate CurrentDisposition(d: Disposition, task: Task) {
    d.taskId == task.id && d.taskRevision == task.revision
  }

  function DependentKey(d: DependentWaiting): int { d.taskId }

  function DependentId(d: DependentWaiting): Id { d.taskId }

  function ParseDependents(dependents: seq<DependentWaiting>): Result<seq<DependentWaiting>> {
    if exists d :: d in dependents && !WaitingInputOk(d.waiting) then Err(InvalidInput)
    else
      var entries := Sort(DependentKey, dependents);
      if |Elements(Map(DependentId, entries))| != |entries| then Err(InvalidInput) else Ok(entries)
  }

  ghost function ApplySimple(s: Snapshot, task: Task, candidate: Task): Result<Mutation> {
    CommitOne(s, task, candidate, Transitioned)
  }

  /** Waiting metadata for the revision about to be reached. */
  function WaitingFor(task: Task, input: WaitingInput): Result<WaitingMetadata> {
    if task.revision == MAX_SAFE_INTEGER then Err(RevisionExhausted)
    else ParseWaiting(WaitingMetadata(input, task.revision + 1))
  }

  predicate ReadyDependent(t: Task, id: Id) {
    t.state == Ready && id in t.dependencyIds
  }

  function ReadyDependents(tasks: seq<Task>, id: Id): seq<Task> {
    Filter((t: Task) => ReadyDependent(t, id), tasks)
  }

  predicate Covers(dependents: seq<DependentWaiting>, affected: seq<Task>) {
    |affected| == |dependents| && forall i :: 0 <= i < |affected| ==> affected[i].id == dependents[i].taskId
  }

  datatype Cascade = Cascade(replacements: map<Id, Task>, changed: seq<Id>, events: seq<DomainEvent>)

  /** Moves each affected dependent to waiting, adding to what the cancellation itself replaces. */
  function CascadeOver(affected: seq<Task>, dependents: seq<DependentWaiting>, done: Cascade): Result<Cascade>
    requires |affected| == |dependents|
  {
    if affected == [] then Ok(done)
    else if dependents[0].waiting.reason != WaitingReason.DependencyCancelled then Err(InvalidInput)
    else
      var waiting :- WaitingFor(affected[0], dependents[0].waiting);
      var changed :- NextTask(affected[0].(state := Waiting, waiting := Some(waiting)));
      CascadeOver(affected[1..], dependents[1..], Cascade(
        done.replacements[changed.id := changed], done.changed + [changed.id],
        done.events + [DomainEvent(Transitioned, changed.id, Some(affected[0].revision), changed.revision)]))
  }

  /** The event of a transition from one revision to the next. */
  function TransitionedEvent(before: Task): DomainEvent {
    DomainEvent(Transitioned, before.id, Some(before.revision), before.revision + 1)
  }

  function CancelledTask(task: Task, fact: CancellationFact): Task {
    task.(state := Cancelled, waiting := None, completion := None, cancellation := Some(fact))
  }

  ghost function CommitCascade(s: Snapshot, cascade: Result<Cascade>): Result<Mutation> {
    var c :- cascade;
    var next :- ReplaceTasks(s, c.replacements, []);
    Ok(MutationOf(next, c.changed, c.events))
  }

  ghost function CancelWithDirectDependents(
    s: Snapshot, task: Task, cancellation: CancellationFact, dependents: seq<DependentWaiting>): Result<Mutation>
  {
    var affected := Sort(TaskKey, ReadyDependents(s.tasks, task.id));
    if !Covers(dependents, affected) then Err(InvalidInput)
    else
      var cancelled :- NextTask(CancelledTask(task, cancellation));
      CommitCascade(s, CascadeOver(affected, dependents,
        Cascade(map[cancelled.id := cancelled], [cancelled.id], [TransitionedEvent(task)])))
  }

  /** The disposition a cancel must carry, and the receipt it yields. */
  function CancelDisposition(task: Task, disposition: Option<Disposition>): Result<Option<Id>> {
    if task.state == Waiting then
      var executionId := if task.waiting.Some? then task.waiting.value.input.executionId else None;
      if executionId.None? then (if disposition.Some? then Err(InvalidInput) else Ok(None))
      else if disposition.None? then Err(InvalidInput)
      else if !CurrentDisposition(disposition.value, task) then Err(ExternalPreconditionFailed)
      else if executionId != disposition.value.executionId then Err(ExternalPreconditionFailed)
      else Ok(Some(disposition.value.receiptId))
    else if disposition.Some? then Err(InvalidInput) else Ok(None)
  }

  ghost function TransitionTask(s: Snapshot, c: TransitionCommand): Result<Mutation> {
    match TaskById(s.tasks, c.taskId)
    case None => Err(TaskNotFound)
    case Some(task) =>
      if Terminal(task.state) then Err(TerminalImmutable)
      else if !Legal(task.state, c.event, c.targetState) then Err(IllegalTransition)
      else Fire(s, task, c)
  }

  ghost function Fire(s: Snapshot, task: Task, c: TransitionCommand): Result<Mutation> {
    match c.event
    case MarkReady =>
      if !c.payload.EmptyPayload? then Err(InvalidInput)
      else if ProjectById(s.projects, task.projectId).None? then Err(ProjectNotFound)
      else if ProjectDisabledIn(s, task) then Err(ProjectDisabled)
      else if DependencyIsCancelled(s, task) then Err(ErrorCode.DependencyCancelled)
      else ApplySimple(s, task, task.(state := Ready))
    case ClaimAccepted =>
      if !c.payload.AcceptancePayload? then Err(InvalidInput)
      else if EligibilityReasons(s, task) != {} then Err(TaskNotEligible)
      else if !CurrentAcceptance(c.payload.acceptance, task) then Err(ExternalPreconditionFailed)
      else ApplySimple(s, task, task.(state := Running))
    case DependencyCancelled =>
      if !c.payload.WaitingPayload? then Err(InvalidInput)
      else if !DependencyIsCancelled(s, task) then Err(ErrorCode.DependencyCancelled)
      else
        var waiting :- WaitingFor(task, c.payload.waiting);
        if waiting.input.reason != WaitingReason.DependencyCancelled then Err(InvalidInput)
        else ApplySimple(s, task, task.(state := Waiting, waiting := Some(waiting)))
    case ExecutionWait =>
      if !c.payload.WaitingPayload? then Err(InvalidInput)
      else
        var waiting :- WaitingFor(task, c.payload.waiting);
        ApplySimple(s, task, task.(state := Waiting, waiting := Some(waiting)))
    case CompletionAccepted =>
      if !c.payload.DecisionPayload? then Err(InvalidInput)
      else
        var d := c.payload.decision;
        if d.taskId != task.id || d.taskRevision != task.revision || !d.accepted then Err(ExternalPreconditionFailed)
        else ApplySimple(s, task, task.(state := Completed,
                                        completion := Some(CompletionFact(d.decisionId, task.revision))))
    case ResumeAccepted => FireContinuation(s, task, c, Resume)
    case RetryAccepted => FireContinuation(s, task, c, Retry)
    case Cancel =>
      if !c.payload.CancelPayload? || !CanonicalReason(c.payload.reason) then Err(InvalidInput)
      else
        var dependents :- ParseDependents(c.payload.dependents);
        var verificationId :- CancelDisposition(task, c.payload.disposition);
        CancelWithDirectDependents(
          s, task, CancellationFact(ByCancel, c.payload.reason, verificationId, task.revision), dependents)
    case InterruptionVerified =>
      if !c.payload.InterruptionPayload? || !CanonicalReason(c.payload.reason) then Err(InvalidInput)
      else
        var v := c.payload.verification;
        if !CurrentDisposition(v, task) || v.status != Stopped || v.executionId.None?
        then Err(ExternalPreconditionFailed)
        else
          var dependents :- ParseDependents(c.payload.dependents);
          CancelWithDirectDependents(
            s, task, CancellationFact(ByInterruption, c.payload.reason, Some(v.receiptId), task.revision), dependents)
  }

  ghost function FireContinuation(s: Snapshot, task: Task, c: TransitionCommand, kind: ContinuationKind)
    : Result<Mutation>
  {
    if !c.payload.ContinuationPayload? then Err(InvalidInput)
    else
      var continuation :- ParseContinuation(c.payload.continuation);
      if continuation.taskId != task.id || continuation.kind != kind then Err(InvalidInput)
      else if ContinuationReasons(s, task, continuation) != {} then Err(ContinuationNotEligible)
      else if !CurrentAcceptance(c.payload.acceptance, task) then Err(ExternalPreconditionFailed)
      else ApplySimple(s, task, task.(state := Running, waiting := None))
  }

  // ---------------------------------------------------------------- commands

  datatype Command =
    | CRegisterProject(projectId: Id)
    | CSetProjectEnabled(projectId: Id, enabled: bool)
    | CCreateTask(taskId: Id, projectId: Id, body: string, supersedes: Option<Id>)
    | CUpdateBody(taskId: Id, body: string)
    | CUpdateWaiting(taskId: Id, waiting: WaitingInput)
    | CSetParent(taskId: Id, parentId: Option<Id>)
    | CAddDependency(taskId: Id, dependencyId: Id)
    | CRemoveDependency(taskId: Id, dependencyId: Id)
    | CSetSupersession(taskId: Id, supersedes: Option<Id>)
    | CTransition(command: TransitionCommand)

  /** A command on a parsed snapshot; the two project commands change no task and emit no task event. */
  ghost function Execute(s: Snapshot, c: Command): Result<Mutation> {
    match c
    case CRegisterProject(p) => var m :- RegisterProject(s, p); Ok(Mutation(m.snapshot, [], []))
    case CSetProjectEnabled(p, e) => var m :- SetProjectEnabled(s, p, e); Ok(Mutation(m.snapshot, [], []))
    case CCreateTask(t, p, b, x) => CreateTask(s, t, p, b, x)
    case CUpdateBody(t, b) => UpdateTaskBody(s, t, b)
    case CUpdateWaiting(t, w) => UpdateTaskWaiting(s, t, w)
    case CSetParent(t, p) => SetTaskParent(s, t, p)
    case CAddDependency(t, d) => AddTaskDependency(s, t, d)
    case CRemoveDependency(t, d) => RemoveTaskDependency(s, t, d)
    case CSetSupersession(t, x) => SetTaskSupersession(s, t, x)
    case CTransition(command) => TransitionTask(s, command)
  }

  /** What a command answers on any input: every mutator parses its snapshot first. */
  ghost function Apply(input: Snapshot, c: Command): Result<Mutation> {
    var s :- ParseSnapshot(input, Complete);
    Execute(s, c)
  }
}
