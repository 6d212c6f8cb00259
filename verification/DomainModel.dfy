/**
 Projects, tasks and snapshots of the task domain, and the parser every operation runs its snapshot through.

 The parser is given as specification functions: the two cycle checks are stated as acyclicity of the graphs
 a snapshot spans.  Module DomainGraphs has the loops that decide them.
 */
module DomainModel {
  import opened Options
  import opened Graphs
  import opened Sorting

  datatype ErrorCode =
    | InvalidInput | InvalidSnapshot
    | TaskNotFound | ProjectNotFound | ProjectAlreadyExists | TaskAlreadyExists
    | IllegalTransition | TerminalImmutable | MutationNotAllowed | NoOp | RevisionExhausted
    | ProjectDisabled | TaskNotEligible
    | DependencyNotFound | DependencyCancelled | DependencySelf | DependencyDuplicate | DependencyCycle
    | ParentNotFound | ParentSelf | ParentProjectMismatch | ParentCycle
    | SupersessionNotFound | SupersessionSelf
    | ExternalPreconditionFailed | ContinuationNotEligible

  datatype Result<+T> = Ok(value: T) | Err(code: ErrorCode) {
    predicate IsFailure() { Err? }
    function PropagateFailure<U>(): Result<U> requires Err? { Err(code) }
    function Extract(): T requires Ok? { value }
  }

  datatype TaskState = Idea | Ready | Running | Waiting | Completed | Cancelled

  datatype WaitingReason =
    | HumanInput | AuthorizationRequired | ExecutionFailed | PolicyGateFailed | ResourceExhausted | RateLimited
    | DiskFull | WorkspaceConflict | DependencyCancelled | StaleLease | AmbiguousExternalState | BackendIncompatible

  datatype WaitingInput = WaitingInput(
    reason: WaitingReason, phase: string, requiredAction: string, lastErrorCode: string,
    lastErrorSummary: Option<string>, retryable: bool, retryCount: int, retryAfter: Option<int>,
    executionId: Option<Id>, workspaceRevision: Option<Id>, backendThreadId: Option<Id>)

  datatype WaitingMetadata = WaitingMetadata(input: WaitingInput, taskRevision: int)

  datatype CompletionFact = CompletionFact(decisionId: Id, acceptedTaskRevision: int)

  datatype CancellationCause = ByCancel | ByInterruption

  datatype CancellationFact = CancellationFact(
    cause: CancellationCause, reason: string, verificationId: Option<Id>, acceptedTaskRevision: int)

  datatype Project = Project(id: Id, enabled: bool)

  datatype Task = Task(
    id: Id, projectId: Id, state: TaskState, revision: int, body: string, parentId: Option<Id>,
    dependencyIds: seq<Id>, waiting: Option<WaitingMetadata>, completion: Option<CompletionFact>,
    cancellation: Option<CancellationFact>, supersedesTaskId: Option<Id>)

  datatype Snapshot = Snapshot(projects: seq<Project>, tasks: seq<Task>)

  /** Largest integer a double represents exactly together with all smaller ones. */
  const MAX_SAFE_INTEGER: int := 9007199254740991

  predicate SafeInteger(n: int) {
    -MAX_SAFE_INTEGER <= n <= MAX_SAFE_INTEGER
  }

  predicate PositiveInteger(n: int) {
    0 < n <= MAX_SAFE_INTEGER
  }

  /** The length bound of a cancellation reason; its Unicode conditions are not modelled. */
  predicate CanonicalReason(reason: string) {
    1 <= |reason| <= 4096
  }

  function IdKey(id: Id): int { id }
  function TaskKey(t: Task): int { t.id }
  function ProjectKey(p: Project): int { p.id }

  function Elements<T>(s: seq<T>): set<T> {
    set x | x in s
  }

  // ---------------------------------------------------------------- tasks

  predicate WaitingInputOk(w: WaitingInput) {
    && 0 <= w.retryCount && SafeInteger(w.retryCount)
    && (w.retryAfter.Some? ==> SafeInteger(w.retryAfter.value))
  }

  function ParseWaitingInput(w: WaitingInput): Result<WaitingInput> {
    if WaitingInputOk(w) then Ok(w) else Err(InvalidInput)
  }

  function ParseWaiting(w: WaitingMetadata): Result<WaitingMetadata> {
    var input :- ParseWaitingInput(w.input);
    if !PositiveInteger(w.taskRevision) then Err(InvalidSnapshot)
    else Ok(WaitingMetadata(input, w.taskRevision))
  }

  function ParseCompletion(c: CompletionFact): Result<CompletionFact> {
    if PositiveInteger(c.acceptedTaskRevision) then Ok(c) else Err(InvalidSnapshot)
  }

  function ParseCancellation(c: CancellationFact): Result<CancellationFact> {
    if CanonicalReason(c.reason) && PositiveInteger(c.acceptedTaskRevision) then Ok(c) else Err(InvalidSnapshot)
  }

  function ParseOptional<T>(parse: T -> Result<T>, value: Option<T>): Result<Option<T>> {
    match value
    case None => Ok(None)
    case Some(v) => var p :- parse(v); Ok(Some(p))
  }

  /** The facts a task carries are exactly those its state calls for. */
  predicate FactsCoherent(t: Task) {
    match t.state
    case Waiting =>
      t.waiting.Some? && t.waiting.value.taskRevision == t.revision && t.completion.None? && t.cancellation.None?
    case Completed =>
      t.waiting.None? && t.completion.Some? && t.completion.value.acceptedTaskRevision == t.revision - 1 &&
      t.cancellation.None?
    case Cancelled =>
      t.waiting.None? && t.completion.None? && t.cancellation.Some? &&
      t.cancellation.value.acceptedTaskRevision == t.revision - 1
    case _ => t.waiting.None? && t.completion.None? && t.cancellation.None?
  }

  function ParseTask(t: Task): Result<Task> {
    if !PositiveInteger(t.revision) then Err(InvalidSnapshot)
    else
      var dependencyIds := Sort(IdKey, t.dependencyIds);
      if |Elements(dependencyIds)| != |dependencyIds| then Err(InvalidSnapshot)
      else if t.parentId == Some(t.id) then Err(InvalidSnapshot)
      else if t.id in dependencyIds then Err(InvalidSnapshot)
      else if t.supersedesTaskId == Some(t.id) then Err(InvalidSnapshot)
      else
        var waiting :- ParseOptional(ParseWaiting, t.waiting);
        var completion :- ParseOptional(ParseCompletion, t.completion);
        var cancellation :- ParseOptional(ParseCancellation, t.cancellation);
        if !FactsCoherent(t) then Err(InvalidSnapshot)
        else Ok(t.(dependencyIds := dependencyIds, waiting := waiting, completion := completion,
                   cancellation := cancellation))
  }

  /** What a task must satisfy to be accepted, whatever the order of its dependency identifiers. */
  ghost predicate TaskShape(t: Task) {
    && PositiveInteger(t.revision)
    && DistinctKeys(IdKey, t.dependencyIds)
    && t.parentId != Some(t.id) && t.id !in t.dependencyIds && t.supersedesTaskId != Some(t.id)
    && (t.waiting.Some? ==> WaitingInputOk(t.waiting.value.input) && PositiveInteger(t.waiting.value.taskRevision))
    && (t.completion.Some? ==> PositiveInteger(t.completion.value.acceptedTaskRevision))
    && (t.cancellation.Some? ==>
          CanonicalReason(t.cancellation.value.reason) && PositiveInteger(t.cancellation.value.acceptedTaskRevision))
    && FactsCoherent(t)
  }

  /** An accepted task in canonical form. */
  ghost predicate TaskOk(t: Task) {
    TaskShape(t) && Canonical(IdKey, t.dependencyIds)
  }

  function Normalize(t: Task): Task {
    t.(dependencyIds := Sort(IdKey, t.dependencyIds))
  }

  lemma {:induction false} ElementsBound<T>(s: seq<T>)
    ensures |Elements(s)| <= |s|
  {
    if |s| > 0 {
      ElementsBound(s[1..]);
      assert Elements(s) == {s[0]} + Elements(s[1..]);
    }
  }

  lemma DistinctTail(s: seq<Id>)
    requires |s| > 0
    ensures DistinctKeys(IdKey, s) <==> s[0] !in s[1..] && DistinctKeys(IdKey, s[1..])
  {
    if DistinctKeys(IdKey, s) {
      forall j | 0 < j < |s| ensures s[j] != s[0] { assert IdKey(s[0]) != IdKey(s[j]); }
      forall i, j | 0 <= i < j < |s[1..]| ensures IdKey(s[1..][i]) != IdKey(s[1..][j]) {
        assert IdKey(s[i + 1]) != IdKey(s[j + 1]);
      }
    }
    if s[0] !in s[1..] && DistinctKeys(IdKey, s[1..]) {
      forall i, j | 0 <= i < j < |s| ensures IdKey(s[i]) != IdKey(s[j]) {
        assert s[j] == s[1..][j - 1];
        if i > 0 { assert IdKey(s[1..][i - 1]) != IdKey(s[1..][j - 1]); }
      }
    }
  }

  /** Comparing the size of a set of elements with the length detects duplicates. */
  lemma {:induction false} DistinctCount(s: seq<Id>)
    ensures |Elements(s)| == |s| <==> DistinctKeys(IdKey, s)
  {
    if |s| > 0 {
      DistinctTail(s);
      DistinctCount(s[1..]);
      ElementsBound(s[1..]);
      if s[0] in s[1..] {
        assert Elements(s) == Elements(s[1..]);
      } else {
        assert Elements(s) == {s[0]} + Elements(s[1..]);
      }
    }
  }

  /** Optional facts come out of their parsers unchanged, or not at all. */
  lemma ParseFacts(t: Task)
    ensures ParseOptional(ParseWaiting, t.waiting).Ok? <==>
            (t.waiting.Some? ==> WaitingInputOk(t.waiting.value.input) && PositiveInteger(t.waiting.value.taskRevision))
    ensures ParseOptional(ParseCompletion, t.completion).Ok? <==>
            (t.completion.Some? ==> PositiveInteger(t.completion.value.acceptedTaskRevision))
    ensures ParseOptional(ParseCancellation, t.cancellation).Ok? <==>
            (t.cancellation.Some? ==> CanonicalReason(t.cancellation.value.reason) &&
                                      PositiveInteger(t.cancellation.value.acceptedTaskRevision))
    ensures ParseOptional(ParseWaiting, t.waiting).Ok? ==> ParseOptional(ParseWaiting, t.waiting).value == t.waiting
    ensures ParseOptional(ParseCompletion, t.completion).Ok? ==>
              ParseOptional(ParseCompletion, t.completion).value == t.completion
    ensures ParseOptional(ParseCancellation, t.cancellation).Ok? ==>
              ParseOptional(ParseCancellation, t.cancellation).value == t.cancellation
  {
  }

  /** Sorting reveals duplicates and leaves membership alone. */
  lemma ParseDependencies(ids: seq<Id>)
    ensures var sorted := Sort(IdKey, ids);
            && (|Elements(sorted)| == |sorted| <==> DistinctKeys(IdKey, ids))
            && (DistinctKeys(IdKey, ids) <==> Canonical(IdKey, sorted))
            && (Canonical(IdKey, sorted) ==> DistinctKeys(IdKey, sorted))
  {
    var sorted := Sort(IdKey, ids);
    DistinctCount(sorted);
    SortDistinct(IdKey, ids);
    if DistinctKeys(IdKey, sorted) { CanonicalIsDistinct(IdKey, sorted); }
    if Canonical(IdKey, sorted) { assert DistinctKeys(IdKey, sorted); }
  }

  /** A task is accepted exactly when it has the right shape, and comes out with its dependencies sorted. */
  lemma ParseTaskAccepts(t: Task)
    ensures ParseTask(t).Ok? <==> TaskShape(t)
    ensures ParseTask(t).Ok? ==> ParseTask(t).value == Normalize(t) && TaskOk(Normalize(t))
  {
    ParseDependencies(t.dependencyIds);
    ParseFacts(t);
  }

  lemma ParseTaskCanonical(t: Task)
    requires TaskOk(t)
    ensures ParseTask(t) == Ok(t)
  {
    ParseTaskAccepts(t);
    SortCanonical(IdKey, t.dependencyIds);
  }

  // ---------------------------------------------------------------- snapshots

  function TaskById(tasks: seq<Task>, id: Id): (r: Option<Task>)
    ensures r.Some? ==> r.value in tasks && r.value.id == id
    ensures r.None? ==> forall t :: t in tasks ==> t.id != id
  {
    if tasks == [] then None
    else if tasks[0].id == id then Some(tasks[0])
    else TaskById(tasks[1..], id)
  }

  function ProjectById(projects: seq<Project>, id: Id): (r: Option<Project>)
    ensures r.Some? ==> r.value in projects && r.value.id == id
    ensures r.None? ==> forall p :: p in projects ==> p.id != id
  {
    if projects == [] then None
    else if projects[0].id == id then Some(projects[0])
    else ProjectById(projects[1..], id)
  }

  function OptionalEdge(target: Option<Id>): seq<Id> {
    match target case None => [] case Some(v) => [v]
  }

  function TaskIds(tasks: seq<Task>): set<Id> {
    set t | t in tasks :: t.id
  }

  function DependencyGraph(tasks: seq<Task>): Graph {
    map id | id in TaskIds(tasks) :: match TaskById(tasks, id) case Some(t) => t.dependencyIds case None => []
  }

  function ParentGraph(tasks: seq<Task>): Graph {
    map id | id in TaskIds(tasks) :: match TaskById(tasks, id) case Some(t) => OptionalEdge(t.parentId) case None => []
  }

  function SupersessionGraph(tasks: seq<Task>): Graph {
    map id | id in TaskIds(tasks) ::
      match TaskById(tasks, id) case Some(t) => OptionalEdge(t.supersedesTaskId) case None => []
  }

  /** In decision mode the task decided about may name an unregistered project and unregistered dependencies. */
  datatype Mode = Complete | Decision(taskId: Id)

  predicate Exempt(mode: Mode, t: Task) {
    mode.Decision? && t.id == mode.taskId
  }

  predicate RefsOk(projects: seq<Project>, tasks: seq<Task>, mode: Mode, t: Task) {
    && (ProjectById(projects, t.projectId).Some? || Exempt(mode, t))
    && (t.parentId.Some? ==>
          var parent := TaskById(tasks, t.parentId.value);
          parent.Some? && parent.value.projectId == t.projectId)
    && (forall d :: d in t.dependencyIds ==> TaskById(tasks, d).Some? || Exempt(mode, t))
    && (t.supersedesTaskId.Some? ==> TaskById(tasks, t.supersedesTaskId.value).Some?)
  }

  function ParseTasks(tasks: seq<Task>): Result<seq<Task>> {
    if tasks == [] then Ok([])
    else
      var first :- ParseTask(tasks[0]);
      var rest :- ParseTasks(tasks[1..]);
      Ok([first] + rest)
  }

  ghost function ParseSnapshot(s: Snapshot, mode: Mode): Result<Snapshot> {
    var projects := Sort(ProjectKey, s.projects);
    if |Elements(Map(ProjectKey, projects))| != |projects| then Err(InvalidSnapshot)
    else
      var parsed :- ParseTasks(s.tasks);
      var tasks := Sort(TaskKey, parsed);
      if |Elements(Map(TaskKey, tasks))| != |tasks| then Err(InvalidSnapshot)
      else if exists t :: t in tasks && !RefsOk(projects, tasks, mode, t) then Err(InvalidSnapshot)
      else if !Acyclic(ParentGraph(tasks)) then Err(InvalidSnapshot)
      else if !Acyclic(DependencyGraph(tasks)) then Err(InvalidSnapshot)
      else Ok(Snapshot(projects, tasks))
  }

  /** A snapshot in canonical form that the parser accepts. */
  ghost predicate WellFormed(s: Snapshot, mode: Mode) {
    && Canonical(ProjectKey, s.projects)
    && Canonical(TaskKey, s.tasks)
    && (forall t :: t in s.tasks ==> TaskOk(t))
    && (forall t :: t in s.tasks ==> RefsOk(s.projects, s.tasks, mode, t))
    && Acyclic(ParentGraph(s.tasks))
    && Acyclic(DependencyGraph(s.tasks))
  }

  ghost predicate Valid(s: Snapshot) {
    WellFormed(s, Complete)
  }
}
