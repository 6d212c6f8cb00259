/**
 Every command on every snapshot: no mutator ever fails the full re-validation of its own result, and a
 successful one reports exactly the tasks it changed, each one revision on.
 */
module DomainCommands {
  import opened Options
  import opened Graphs
  import opened Sorting
  import opened DomainModel
  import opened DomainParsing
  import opened DomainMutations
  import opened DomainValidity
  import opened DomainOutcomes
  import opened DomainTransitions
  import opened DomainRegistration

  /** The task a command is about. */
  function Subject(c: Command): Id
    requires !c.CRegisterProject? && !c.CSetProjectEnabled?
  {
    if c.CTransition? then c.command.taskId else c.taskId
  }

  predicate Cancels(c: Command) {
    c.CTransition? && Cascading(c.command.event)
  }

  /** Commands that change one registered task. */
  predicate ChangesOne(c: Command) {
    !c.CRegisterProject? && !c.CSetProjectEnabled? && !c.CCreateTask? && !Cancels(c)
  }

  /** The facts the payload of a transition must bring for its target to make sense. */
  predicate PayloadFits(c: TransitionCommand) {
    && (c.event.DependencyCancelled? || c.event.ExecutionWait? ==> c.payload.WaitingPayload?)
    && (c.event.CompletionAccepted? ==> c.payload.DecisionPayload?)
  }

  /** What a command makes of the one task it changes, before the revision moves on. */
  function Intended(c: Command, t: Task): Task
    requires ChangesOne(c)
  {
    match c
    case CUpdateBody(_, body) => t.(body := body)
    case CUpdateWaiting(_, waiting) => t.(waiting := Some(WaitingMetadata(waiting, t.revision)))
    case CSetParent(_, parentId) => t.(parentId := parentId)
    case CAddDependency(_, dependencyId) => WithDependency(t, dependencyId)
    case CRemoveDependency(_, dependencyId) => WithoutDependency(t, dependencyId)
    case CSetSupersession(_, supersedes) => t.(supersedesTaskId := supersedes)
    case CTransition(command) => if PayloadFits(command) then Target(t, command) else t
  }

  function KindOf(c: Command): EventKind
    requires ChangesOne(c)
  {
    match c
    case CUpdateBody(_, _) => BodyChanged
    case CUpdateWaiting(_, _) => WaitingChanged
    case CSetParent(_, _) => ParentChanged
    case CAddDependency(_, _) => DependencyAdded
    case CRemoveDependency(_, _) => DependencyRemoved
    case CSetSupersession(_, _) => SupersessionChanged
    case CTransition(_) => Transitioned
  }

  /** What the guards of a command on one task have established by the time it commits. */
  ghost predicate Guarded(s: Snapshot, c: Command, t: Task)
    requires ChangesOne(c)
  {
    match c
    case CUpdateBody(_, _) => !Terminal(t.state)
    case CUpdateWaiting(_, _) => t.state == Waiting
    case CSetParent(_, parentId) => MayParent(s, t, parentId)
    case CAddDependency(_, dependencyId) => MayDepend(s, t, dependencyId)
    case CRemoveDependency(_, dependencyId) => GraphMutable(t.state) && dependencyId in t.dependencyIds
    case CSetSupersession(_, supersedes) => !Terminal(t.state)
    case CTransition(command) => PayloadFits(command) && Enabled(s, t, command) && Target(t, command).state == command.targetState
  }

  /** Exactly what a successful command does. */
  ghost predicate Effect(s: Snapshot, c: Command, m: Mutation) {
    if c.CRegisterProject? then
      OneProjectChanged(s, m.snapshot, Project(c.projectId, true)) && m.changedTaskIds == [] && m.events == []
    else if c.CSetProjectEnabled? then
      OneProjectChanged(s, m.snapshot, Project(c.projectId, c.enabled)) && m.changedTaskIds == [] && m.events == []
    else if c.CCreateTask? then
      TaskAdded(s, m, NewTask(c.taskId, c.projectId, c.body, c.supersedes))
    else
      var task := TaskById(s.tasks, Subject(c));
      task.Some? && TaskEffect(s, c, task.value, m)
  }

  ghost predicate TaskEffect(s: Snapshot, c: Command, t: Task, m: Mutation)
    requires ChangesOne(c) || Cancels(c)
  {
    if Cancels(c) then CancelEnabled(s, t, c.command) && CancelEffect(s, m, t, CancelFact(t, c.command))
    else Guarded(s, c, t) && OneTaskChanged(s, m, t, Intended(c, t), KindOf(c))
  }

  lemma ExecuteTransition(s: Snapshot, c: TransitionCommand)
    requires Valid(s)
    ensures TransitionTask(s, c) != Err(InvalidSnapshot)
    ensures TransitionTask(s, c).Ok? ==> Effect(s, CTransition(c), TransitionTask(s, c).value)
  {
    hide Valid, TransitionTask, OneTaskChanged, CancelEffect, CancelEnabled, CancelFact, Enabled;
    if Cascading(c.event) {
      CancelTransitionOutcome(s, c);
    } else {
      TransitionOutcome(s, c);
      if TransitionTask(s, c).Ok? { EnabledPayload(s, TaskById(s.tasks, c.taskId).value, c); }
    }
  }

  lemma EnabledPayload(s: Snapshot, task: Task, c: TransitionCommand)
    requires Enabled(s, task, c)
    ensures PayloadFits(c)
  {
  }

  /** On a valid snapshot no command fails the re-validation, and a successful one has its exact effect. */
  lemma ExecuteOutcome(s: Snapshot, c: Command)
    requires Valid(s)
    ensures Execute(s, c) != Err(InvalidSnapshot)
    ensures Execute(s, c).Ok? ==> Effect(s, c, Execute(s, c).value)
  {
    hide Valid, RegisterProject, SetProjectEnabled, CreateTask, UpdateTaskBody, UpdateTaskWaiting, SetTaskParent,
         AddTaskDependency, RemoveTaskDependency, SetTaskSupersession, TransitionTask, OneTaskChanged, TaskAdded;
    match c {
      case CRegisterProject(p) => RegisterProjectOutcome(s, p);
      case CSetProjectEnabled(p, e) => SetProjectEnabledOutcome(s, p, e);
      case CCreateTask(t, p, b, x) => CreateTaskOutcome(s, t, p, b, x);
      case CUpdateBody(t, b) => UpdateBodyOutcome(s, t, b);
      case CUpdateWaiting(t, w) => UpdateWaitingOutcome(s, t, w);
      case CSetParent(t, p) => SetParentOutcome(s, t, p);
      case CAddDependency(t, d) => AddDependencyOutcome(s, t, d);
      case CRemoveDependency(t, d) => RemoveDependencyOutcome(s, t, d);
      case CSetSupersession(t, x) => SetSupersessionOutcome(s, t, x);
      case CTransition(command) => ExecuteTransition(s, command);
    }
  }

  lemma EffectValid(s: Snapshot, c: Command, m: Mutation)
    requires Effect(s, c, m)
    ensures Valid(m.snapshot)
  {
    hide Valid, Guarded, CancelEffectOn;
  }

  /**
   Whatever snapshot and command it is given, a mutator reports an invalid snapshot exactly when the snapshot
   it was given is one: its own guards imply that the re-validation of its result passes.
   */
  lemma NeverInvalid(input: Snapshot, c: Command)
    ensures Apply(input, c) == Err(InvalidSnapshot) <==> ParseSnapshot(input, Complete) == Err(InvalidSnapshot)
    ensures Apply(input, c).Ok? ==> Valid(Apply(input, c).value.snapshot)
  {
    hide Valid, Execute, ParseSnapshot, Effect;
    ParseAccepts(input, Complete);
    var s := ParseSnapshot(input, Complete);
    if s.Ok? {
      assert Valid(s.value) by { hide *; ParsedValid(input); }
      ExecuteOutcome(s.value, c);
      if Execute(s.value, c).Ok? { EffectValid(s.value, c, Execute(s.value, c).value); }
    }
  }

  lemma ParsedValid(input: Snapshot)
    requires ParseSnapshot(input, Complete).Ok?
    ensures Valid(ParseSnapshot(input, Complete).value)
  {
    hide ParseSnapshot, WellFormed;
    ParseIdempotent(input, Complete);
  }

  // ---------------------------------------------------------------- exactly the changed tasks are reported

  lemma OneTaskLookup(s: Snapshot, m: Mutation, before: Task, candidate: Task, kind: EventKind)
    requires OneTaskChanged(s, m, before, candidate, kind)
    ensures TaskById(s.tasks, before.id) == Some(before)
    ensures Advance(candidate).id == before.id && Advance(candidate).revision == before.revision + 1
    ensures forall id :: TaskById(m.snapshot.tasks, id) ==
                         if id == before.id then Some(Advance(candidate)) else TaskById(s.tasks, id)
    ensures m.snapshot.projects == s.projects
    ensures m.changedTaskIds == [before.id]
    ensures m.events == [DomainEvent(kind, before.id, Some(before.revision), before.revision + 1)]
  {
    hide Valid;
    var r := map[before.id := Advance(candidate)];
    forall id ensures TaskById(m.snapshot.tasks, id) ==
      if id == before.id then Some(Advance(candidate)) else TaskById(s.tasks, id)
    {
      LookupPut(s.tasks, r, id);
    }
  }

  /** The change from one lookup to another: a new task at revision 1, or a known one exactly one revision on. */
  predicate RevisionStep(before: Option<Task>, after: Option<Task>) {
    after.Some? && if before.None? then after.value.revision == 1 else after.value.revision == before.value.revision + 1
  }

  /** The event reports the task's revisions before and after. */
  predicate Reports(e: DomainEvent, before: Option<Task>, after: Option<Task>) {
    && after.Some? && e.taskId == after.value.id && e.after == after.value.revision
    && e.before == if before.Some? then Some(before.value.revision) else None
  }

  function EventTask(e: DomainEvent): Id { e.taskId }

  /**
   The mutation names, in order and once each, exactly the tasks that differ, and has exactly one event for each
   of them, carrying its old and new revision.
   */
  ghost predicate ExactlyReported(s: Snapshot, m: Mutation) {
    && Canonical(IdKey, m.changedTaskIds)
    && (forall id :: id in m.changedTaskIds <==> TaskById(s.tasks, id) != TaskById(m.snapshot.tasks, id))
    && (forall id :: id in m.changedTaskIds ==> RevisionStep(TaskById(s.tasks, id), TaskById(m.snapshot.tasks, id)))
    && multiset(Map(EventTask, m.events)) == multiset(m.changedTaskIds)
    && (forall e :: e in m.events ==> Reports(e, TaskById(s.tasks, e.taskId), TaskById(m.snapshot.tasks, e.taskId)))
  }

  lemma OneTaskReported(s: Snapshot, m: Mutation, before: Task, candidate: Task, kind: EventKind)
    requires OneTaskChanged(s, m, before, candidate, kind)
    ensures ExactlyReported(s, m)
  {
    hide OneTaskChanged, Advance;
    OneTaskLookup(s, m, before, candidate, kind);
    assert Map(EventTask, m.events) == [before.id];
  }

  lemma CascadeIdsDistinct(affected: seq<Task>, id: Id)
    requires Canonical(TaskKey, affected) && id !in TaskIds(affected)
    ensures DistinctKeys(IdKey, [id] + Map(TaskKey, affected))
  {
    var all := [id] + Map(TaskKey, affected);
    forall i, j | 0 <= i < j < |all| ensures IdKey(all[i]) != IdKey(all[j]) {
      assert affected[j - 1] in affected;
      assert all[j] == affected[j - 1].id;
      if i > 0 { assert TaskKey(affected[i - 1]) < TaskKey(affected[j - 1]); }
    }
  }

  lemma CascadeIdsMembers(affected: seq<Task>, id: Id)
    ensures forall x :: x in [id] + Map(TaskKey, affected) <==> x == id || x in TaskIds(affected)
  {
    var all := [id] + Map(TaskKey, affected);
    forall x ensures x in all <==> x == id || x in TaskIds(affected) {
      if x in TaskIds(affected) {
        var i :| 0 <= i < |affected| && affected[i].id == x;
        assert all[i + 1] == x;
      }
      if x in all && x != id {
        var i :| 1 <= i < |all| && all[i] == x;
        assert affected[i - 1] in affected;
      }
    }
  }

  /** The tasks a cancellation touches: the cancelled one and its ready direct dependents. */
  predicate Touched(s: Snapshot, task: Task, id: Id) {
    id == task.id || (TaskById(s.tasks, id).Some? && ReadyDependent(TaskById(s.tasks, id).value, task.id))
  }

  lemma DependentIds(s: Snapshot, task: Task, id: Id)
    requires DistinctKeys(TaskKey, s.tasks)
    ensures id in TaskIds(ReadyDependents(s.tasks, task.id)) <==>
            TaskById(s.tasks, id).Some? && ReadyDependent(TaskById(s.tasks, id).value, task.id)
  {
    if id in TaskIds(ReadyDependents(s.tasks, task.id)) {
      var t :| t in ReadyDependents(s.tasks, task.id) && t.id == id;
      FindTask(s.tasks, t);
    }
  }

  lemma CascadeIds(s: Snapshot, task: Task)
    requires Valid(s) && task in s.tasks
    ensures var ids := Sort(IdKey, [task.id] + Map(TaskKey, ReadyDependents(s.tasks, task.id)));
            Canonical(IdKey, ids) && forall id :: id in ids <==> Touched(s, task, id)
  {
    hide Valid, ReadyDependents, ReadyDependent;
    assert DistinctKeys(TaskKey, s.tasks) by { CanonicalTasks(s); }
    AffectedCanonical(s, task.id);
    NotItsOwnDependent(s, task);
    var affected := ReadyDependents(s.tasks, task.id);
    CascadeIdsDistinct(affected, task.id);
    SortDistinct(IdKey, [task.id] + Map(TaskKey, affected));
    CascadeIdsMembers(affected, task.id);
    forall id ensures id in TaskIds(affected) <==>
      TaskById(s.tasks, id).Some? && ReadyDependent(TaskById(s.tasks, id).value, task.id)
    {
      DependentIds(s, task, id);
    }
  }

  lemma CanonicalTasks(s: Snapshot)
    requires Valid(s)
    ensures Canonical(TaskKey, s.tasks) && DistinctKeys(TaskKey, s.tasks)
  {
  }

  lemma CancelTouched(s: Snapshot, m: Mutation, task: Task, fact: CancellationFact, id: Id)
    requires TaskById(s.tasks, task.id) == Some(task) && CancelEffectOn(s, m, task, fact, id)
    requires !Terminal(task.state)
    ensures Touched(s, task, id) <==> TaskById(s.tasks, id) != TaskById(m.snapshot.tasks, id)
    ensures Touched(s, task, id) ==>
              TaskById(s.tasks, id).Some? && RevisionStep(TaskById(s.tasks, id), TaskById(m.snapshot.tasks, id))
  {
  }

  lemma EventIds(task: Task, affected: seq<Task>)
    ensures Map(EventTask, [TransitionedEvent(task)] + Map(TransitionedEvent, affected)) ==
            [task.id] + Map(TaskKey, affected)
  {
  }

  lemma CancelEvents(s: Snapshot, m: Mutation, task: Task, fact: CancellationFact)
    requires DistinctKeys(TaskKey, s.tasks) && task in s.tasks && CancelEffect(s, m, task, fact)
    ensures multiset(Map(EventTask, m.events)) == multiset(m.changedTaskIds)
    ensures forall e :: e in m.events ==>
              TaskById(s.tasks, e.taskId).Some? && e == TransitionedEvent(TaskById(s.tasks, e.taskId).value)
  {
    hide Valid, CancelEffectOn, TaskOk, TaskById, DistinctKeys;
    var affected := ReadyDependents(s.tasks, task.id);
    EventIds(task, affected);
    forall e | e in m.events
      ensures TaskById(s.tasks, e.taskId).Some? && e == TransitionedEvent(TaskById(s.tasks, e.taskId).value)
    {
      var i :| 0 <= i < |m.events| && m.events[i] == e;
      if i == 0 {
        FindTask(s.tasks, task);
      } else {
        assert affected[i - 1] in affected;
        FindTask(s.tasks, affected[i - 1]);
      }
    }
  }

  lemma EventIsReported(changed: seq<Id>, events: seq<DomainEvent>, e: DomainEvent)
    requires multiset(Map(EventTask, events)) == multiset(changed) && e in events
    ensures e.taskId in changed
  {
    var i :| 0 <= i < |events| && events[i] == e;
    assert Map(EventTask, events)[i] == e.taskId;
    InSameElements(Map(EventTask, events), changed);
  }

  lemma CancelParts(s: Snapshot, m: Mutation, task: Task, fact: CancellationFact)
    requires CancelEffect(s, m, task, fact)
    ensures forall id :: CancelEffectOn(s, m, task, fact, id)
    ensures m.changedTaskIds == Sort(IdKey, [task.id] + Map(TaskKey, ReadyDependents(s.tasks, task.id)))
    ensures m.events == [TransitionedEvent(task)] + Map(TransitionedEvent, ReadyDependents(s.tasks, task.id))
  {
  }

  lemma CancelReported(s: Snapshot, m: Mutation, task: Task, fact: CancellationFact)
    requires Valid(s) && task in s.tasks && !Terminal(task.state) && CancelEffect(s, m, task, fact)
    ensures ExactlyReported(s, m)
  {
    hide Valid, CancelEffect, CancelEffectOn, ReadyDependents, Touched, Sort, Map, RevisionStep, TaskById, Terminal,
         Reports, DistinctKeys, Canonical;
    CanonicalTasks(s);
    FindTask(s.tasks, task);
    CancelParts(s, m, task, fact);
    CascadeIds(s, task);
    CancelEvents(s, m, task, fact);
    forall id
      ensures Touched(s, task, id) <==> TaskById(s.tasks, id) != TaskById(m.snapshot.tasks, id)
      ensures Touched(s, task, id) ==> TaskById(s.tasks, id).Some?
      ensures Touched(s, task, id) ==> RevisionStep(TaskById(s.tasks, id), TaskById(m.snapshot.tasks, id))
    {
      CancelTouched(s, m, task, fact, id);
    }
    forall e | e in m.events ensures Reports(e, TaskById(s.tasks, e.taskId), TaskById(m.snapshot.tasks, e.taskId)) {
      EventIsReported(m.changedTaskIds, m.events, e);
      TransitionReported(TaskById(s.tasks, e.taskId).value, TaskById(m.snapshot.tasks, e.taskId), e);
    }
  }

  lemma TransitionReported(before: Task, after: Option<Task>, e: DomainEvent)
    requires e == TransitionedEvent(before) && RevisionStep(Some(before), after)
    requires after.Some? ==> after.value.id == before.id
    ensures Reports(e, Some(before), after)
  {
  }

  /** A successful command reports exactly the tasks it changed, each moved on by exactly one revision. */
  lemma ExactChange(s: Snapshot, c: Command)
    requires Valid(s) && Execute(s, c).Ok?
    ensures ExactlyReported(s, Execute(s, c).value)
  {
    ExecuteOutcome(s, c);
    EffectReported(s, c, Execute(s, c).value);
  }

  lemma EffectReported(s: Snapshot, c: Command, m: Mutation)
    requires Valid(s) && Effect(s, c, m)
    ensures ExactlyReported(s, m)
  {
    hide Valid, Guarded, OneTaskChanged, CancelEffect, CancelFact;
    if c.CRegisterProject? || c.CSetProjectEnabled? {
      assert Map(EventTask, m.events) == [];
    } else if c.CCreateTask? {
      assert Map(EventTask, m.events) == [c.taskId];
    } else {
      var t := TaskById(s.tasks, Subject(c)).value;
      if Cancels(c) {
        CancelReported(s, m, t, CancelFact(t, c.command));
      } else {
        OneTaskReported(s, m, t, Intended(c, t), KindOf(c));
      }
    }
  }
}
