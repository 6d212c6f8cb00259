/**
 The outcome of every single-task mutator on a valid snapshot: it never fails the full re-validation, and when
 it succeeds exactly the named task has changed in exactly the named way.
 */
module DomainOutcomes {
  import opened Options
  import opened Graphs
  import opened Sorting
  import opened DomainModel
  import opened DomainParsing
  import opened DomainMutations
  import opened DomainValidity

  /** The mutation replaced one task by the advanced candidate, and nothing else. */
  ghost predicate OneTaskChanged(s: Snapshot, m: Mutation, before: Task, candidate: Task, kind: EventKind) {
    && before in s.tasks && TaskById(s.tasks, before.id) == Some(before)
    && candidate.id == before.id && candidate.projectId == before.projectId && candidate.revision == before.revision
    && before.revision < MAX_SAFE_INTEGER
    && m == Committed(s, before, candidate, kind)
    && Valid(m.snapshot)
  }

  /** A commit whose candidate keeps both kinds of edges cannot fail the re-validation. */
  lemma PlainCommit(s: Snapshot, before: Task, candidate: Task, kind: EventKind)
    requires Valid(s) && Candidate(s, before, candidate)
    requires candidate.parentId == before.parentId
    requires forall d :: d in candidate.dependencyIds ==> d in before.dependencyIds
    ensures if before.revision == MAX_SAFE_INTEGER then CommitOne(s, before, candidate, kind) == Err(RevisionExhausted)
            else CommitOne(s, before, candidate, kind).Ok? &&
                 OneTaskChanged(s, CommitOne(s, before, candidate, kind).value, before, candidate, kind)
  {
    KeptEdgesSafe(s, before, candidate);
    CommitOneOutcome(s, before, candidate, kind);
    FindTask(s.tasks, before);
  }

  lemma ValidTask(s: Snapshot, id: Id)
    requires Valid(s) && TaskById(s.tasks, id).Some?
    ensures var t := TaskById(s.tasks, id).value;
            t in s.tasks && TaskOk(t) && RefsOk(s.projects, s.tasks, Complete, t)
  {
  }

  lemma AdvancedOk(before: Task, candidate: Task)
    requires TaskOk(before) && before.revision < MAX_SAFE_INTEGER
    requires candidate.revision == before.revision && Canonical(IdKey, candidate.dependencyIds)
    requires candidate.parentId != Some(candidate.id) && candidate.supersedesTaskId != Some(candidate.id)
    requires candidate.id !in candidate.dependencyIds
    requires candidate.state == before.state && !Terminal(before.state)
    requires candidate.completion == before.completion && candidate.cancellation == before.cancellation
    requires candidate.waiting.Some? <==> before.waiting.Some?
    requires candidate.waiting.Some? ==> WaitingInputOk(candidate.waiting.value.input)
    ensures TaskOk(Advance(candidate))
  {
    assert DistinctKeys(IdKey, candidate.dependencyIds);
  }

  lemma BodyCandidate(s: Snapshot, task: Task, body: string)
    requires Valid(s) && task in s.tasks && !Terminal(task.state)
    ensures Candidate(s, task, task.(body := body))
  {
    assert TaskOk(task) && RefsOk(s.projects, s.tasks, Complete, task);
    if task.revision < MAX_SAFE_INTEGER { AdvancedOk(task, task.(body := body)); }
  }

  lemma UpdateBodyOutcome(s: Snapshot, taskId: Id, body: string)
    requires Valid(s)
    ensures UpdateTaskBody(s, taskId, body) != Err(InvalidSnapshot)
    ensures UpdateTaskBody(s, taskId, body).Ok? <==>
            var t := TaskById(s.tasks, taskId);
            t.Some? && !Terminal(t.value.state) && t.value.body != body && t.value.revision < MAX_SAFE_INTEGER
    ensures UpdateTaskBody(s, taskId, body).Ok? ==>
              var t := TaskById(s.tasks, taskId);
              t.Some? && !Terminal(t.value.state) &&
              OneTaskChanged(s, UpdateTaskBody(s, taskId, body).value, t.value, t.value.(body := body), BodyChanged)
  {
    var task := RequireMutableTask(s, taskId);
    if task.Ok? && task.value.body != body {
      var candidate := task.value.(body := body);
      BodyCandidate(s, task.value, body);
      PlainCommit(s, task.value, candidate, BodyChanged);
      assert UpdateTaskBody(s, taskId, body) == CommitOne(s, task.value, candidate, BodyChanged);
    }
  }

  lemma WaitingCandidate(s: Snapshot, task: Task, waiting: WaitingInput)
    requires Valid(s) && task in s.tasks && task.state == Waiting && WaitingInputOk(waiting)
    ensures Candidate(s, task, task.(waiting := Some(WaitingMetadata(waiting, task.revision))))
  {
    assert TaskOk(task) && RefsOk(s.projects, s.tasks, Complete, task);
    if task.revision < MAX_SAFE_INTEGER {
      AdvancedOk(task, task.(waiting := Some(WaitingMetadata(waiting, task.revision))));
    }
  }

  lemma UpdateWaitingOutcome(s: Snapshot, taskId: Id, waiting: WaitingInput)
    requires Valid(s)
    ensures UpdateTaskWaiting(s, taskId, waiting) != Err(InvalidSnapshot)
    ensures UpdateTaskWaiting(s, taskId, waiting).Ok? <==>
            var t := TaskById(s.tasks, taskId);
            && t.Some? && t.value.state == Waiting && t.value.waiting.Some? && WaitingInputOk(waiting)
            && t.value.waiting.value.input != waiting && t.value.revision < MAX_SAFE_INTEGER
    ensures UpdateTaskWaiting(s, taskId, waiting).Ok? ==>
              var t := TaskById(s.tasks, taskId);
              t.Some? && t.value.state == Waiting &&
              OneTaskChanged(s, UpdateTaskWaiting(s, taskId, waiting).value, t.value,
                             t.value.(waiting := Some(WaitingMetadata(waiting, t.value.revision))), WaitingChanged)
  {
    var task := RequireMutableTask(s, taskId);
    if task.Ok? && task.value.state == Waiting && WaitingInputOk(waiting) && task.value.waiting.Some? &&
       task.value.waiting.value.input != waiting
    {
      var candidate := task.value.(waiting := Some(WaitingMetadata(waiting, task.value.revision)));
      WaitingCandidate(s, task.value, waiting);
      PlainCommit(s, task.value, candidate, WaitingChanged);
      assert UpdateTaskWaiting(s, taskId, waiting) == CommitOne(s, task.value, candidate, WaitingChanged);
    } else {
      assert UpdateTaskWaiting(s, taskId, waiting).Err?;
    }
  }

  lemma SupersessionCandidate(s: Snapshot, task: Task, supersedes: Option<Id>)
    requires Valid(s) && task in s.tasks && !Terminal(task.state)
    requires supersedes != Some(task.id) && (supersedes.Some? ==> TaskById(s.tasks, supersedes.value).Some?)
    ensures Candidate(s, task, task.(supersedesTaskId := supersedes))
  {
    assert TaskOk(task) && RefsOk(s.projects, s.tasks, Complete, task);
    if task.revision < MAX_SAFE_INTEGER { AdvancedOk(task, task.(supersedesTaskId := supersedes)); }
  }

  lemma SetSupersessionOutcome(s: Snapshot, taskId: Id, supersedes: Option<Id>)
    requires Valid(s)
    ensures SetTaskSupersession(s, taskId, supersedes) != Err(InvalidSnapshot)
    ensures SetTaskSupersession(s, taskId, supersedes).Ok? <==>
            var t := TaskById(s.tasks, taskId);
            && t.Some? && !Terminal(t.value.state) && supersedes != Some(taskId) && supersedes != t.value.supersedesTaskId
            && (supersedes.Some? ==> TaskById(s.tasks, supersedes.value).Some?) && t.value.revision < MAX_SAFE_INTEGER
    ensures SetTaskSupersession(s, taskId, supersedes).Ok? ==>
              var t := TaskById(s.tasks, taskId);
              t.Some? && !Terminal(t.value.state) &&
              OneTaskChanged(s, SetTaskSupersession(s, taskId, supersedes).value, t.value,
                             t.value.(supersedesTaskId := supersedes), SupersessionChanged)
  {
    var task := RequireMutableTask(s, taskId);
    if task.Ok? && supersedes != Some(taskId) && supersedes != task.value.supersedesTaskId &&
       (supersedes.Some? ==> TaskById(s.tasks, supersedes.value).Some?)
    {
      var candidate := task.value.(supersedesTaskId := supersedes);
      SupersessionCandidate(s, task.value, supersedes);
      PlainCommit(s, task.value, candidate, SupersessionChanged);
      assert SetTaskSupersession(s, taskId, supersedes) == CommitOne(s, task.value, candidate, SupersessionChanged);
    } else {
      assert SetTaskSupersession(s, taskId, supersedes).Err?;
    }
  }

  // ---------------------------------------------------------------- dependencies

  function WithDependency(task: Task, dependencyId: Id): Task {
    task.(dependencyIds := Sort(IdKey, task.dependencyIds + [dependencyId]))
  }

  /** The earlier guards of addTaskDependency have passed. */
  ghost predicate MayDepend(s: Snapshot, task: Task, dependencyId: Id) {
    && task in s.tasks && GraphMutable(task.state) && dependencyId != task.id
    && TaskById(s.tasks, dependencyId).Some? && dependencyId !in task.dependencyIds
  }

  lemma AppendDistinct(ids: seq<Id>, id: Id)
    requires Canonical(IdKey, ids) && id !in ids
    ensures Canonical(IdKey, Sort(IdKey, ids + [id]))
  {
    var all := ids + [id];
    forall i, j | 0 <= i < j < |all| ensures IdKey(all[i]) != IdKey(all[j]) {
      if j < |ids| { assert IdKey(ids[i]) < IdKey(ids[j]); } else { assert all[i] == ids[i]; }
    }
    SortDistinct(IdKey, all);
  }

  lemma WithDependencyCandidate(s: Snapshot, task: Task, dependencyId: Id)
    requires Valid(s) && MayDepend(s, task, dependencyId)
    ensures Candidate(s, task, WithDependency(task, dependencyId))
    ensures forall d :: d in WithDependency(task, dependencyId).dependencyIds <==>
              d in task.dependencyIds || d == dependencyId
  {
    assert TaskOk(task) && RefsOk(s.projects, s.tasks, Complete, task);
    AppendDistinct(task.dependencyIds, dependencyId);
    if task.revision < MAX_SAFE_INTEGER { AdvancedOk(task, WithDependency(task, dependencyId)); }
    var sorted := Sort(IdKey, task.dependencyIds + [dependencyId]);
    forall d ensures d in sorted <==> d in task.dependencyIds || d == dependencyId {
      assert d in sorted <==> d in task.dependencyIds + [dependencyId];
    }
  }

  lemma WithDependencySafe(s: Snapshot, task: Task, dependencyId: Id)
    requires Valid(s) && MayDepend(s, task, dependencyId)
    ensures ParentSafe(s, WithDependency(task, dependencyId))
    ensures DependenciesSafe(s, WithDependency(task, dependencyId)) <==>
            !Reaches(DependencyGraph(s.tasks), dependencyId, task.id)
  {
    WithDependencyCandidate(s, task, dependencyId);
    KeptEdgesSafe(s, task, task);
    KeptEdgesSafe(s, task, WithDependency(task, dependencyId));
  }

  lemma AddDependencyOutcome(s: Snapshot, taskId: Id, dependencyId: Id)
    requires Valid(s)
    ensures AddTaskDependency(s, taskId, dependencyId) != Err(InvalidSnapshot)
    ensures AddTaskDependency(s, taskId, dependencyId).Ok? ==>
              var t := TaskById(s.tasks, taskId);
              t.Some? && MayDepend(s, t.value, dependencyId) &&
              OneTaskChanged(s, AddTaskDependency(s, taskId, dependencyId).value, t.value,
                             WithDependency(t.value, dependencyId), DependencyAdded)
  {
    var task := RequireGraphMutableTask(s, taskId);
    if task.Ok? {
      ValidTask(s, taskId);
      FindTask(s.tasks, task.value);
      if MayDepend(s, task.value, dependencyId) {
        WithDependencyCandidate(s, task.value, dependencyId);
        WithDependencySafe(s, task.value, dependencyId);
        CommitOneOutcome(s, task.value, WithDependency(task.value, dependencyId), DependencyAdded);
      }
    }
  }

  lemma WithDependencyCommit(s: Snapshot, task: Task, dependencyId: Id)
    requires Valid(s) && MayDepend(s, task, dependencyId) && task.revision < MAX_SAFE_INTEGER
    ensures CommitOne(s, task, WithDependency(task, dependencyId), DependencyAdded) ==
            if Reaches(DependencyGraph(s.tasks), dependencyId, task.id) then Err(InvalidSnapshot)
            else Ok(Committed(s, task, WithDependency(task, dependencyId), DependencyAdded))
  {
    WithDependencyCandidate(s, task, dependencyId);
    WithDependencySafe(s, task, dependencyId);
    CommitOneOutcome(s, task, WithDependency(task, dependencyId), DependencyAdded);
  }

  /**
   The local search is exact: once the earlier guards pass, the command is refused as a cycle exactly when
   committing the new edge would fail the full re-validation.
   */
  lemma AddDependencyGuardExact(s: Snapshot, task: Task, dependencyId: Id)
    requires Valid(s) && MayDepend(s, task, dependencyId) && task.revision < MAX_SAFE_INTEGER
    ensures AddTaskDependency(s, task.id, dependencyId) == Err(DependencyCycle) <==>
            CommitOne(s, task, WithDependency(task, dependencyId), DependencyAdded) == Err(InvalidSnapshot)
    ensures AddTaskDependency(s, task.id, dependencyId) == Err(DependencyCycle) <==>
            Reaches(DependencyGraph(s.tasks), dependencyId, task.id)
  {
    hide CommitOne, Reaches, DependencyGraph, OneTaskChanged, Committed, Sort;
    FindTask(s.tasks, task);
    WithDependencyCommit(s, task, dependencyId);
    assert RequireGraphMutableTask(s, task.id) == Ok(task);
    var committed := CommitOne(s, task, WithDependency(task, dependencyId), DependencyAdded);
    assert AddTaskDependency(s, task.id, dependencyId) ==
           if Reaches(DependencyGraph(s.tasks), dependencyId, task.id) then Err(DependencyCycle) else committed;
  }

  /** Adding a dependency succeeds exactly when its guards pass and the dependency does not lead back to the task. */
  lemma AddDependencySucceeds(s: Snapshot, taskId: Id, dependencyId: Id)
    requires Valid(s)
    ensures AddTaskDependency(s, taskId, dependencyId).Ok? <==>
            var t := TaskById(s.tasks, taskId);
            && t.Some? && MayDepend(s, t.value, dependencyId) && t.value.revision < MAX_SAFE_INTEGER
            && !Reaches(DependencyGraph(s.tasks), dependencyId, taskId)
  {
    hide Valid, TaskById, OneTaskChanged, CommitOne, Reaches, DependencyGraph;
    AddDependencyOutcome(s, taskId, dependencyId);
    var t := TaskById(s.tasks, taskId);
    if t.Some? {
      ValidTask(s, taskId);
      assert t.value.revision <= MAX_SAFE_INTEGER;
      if MayDepend(s, t.value, dependencyId) {
        if t.value.revision < MAX_SAFE_INTEGER {
          WithDependencyCommit(s, t.value, dependencyId);
        } else {
          ExhaustedCommit(s, t.value, WithDependency(t.value, dependencyId), DependencyAdded);
        }
      }
    }
  }

  lemma ExhaustedCommit(s: Snapshot, before: Task, candidate: Task, kind: EventKind)
    requires candidate.revision == MAX_SAFE_INTEGER
    ensures CommitOne(s, before, candidate, kind) == Err(RevisionExhausted)
  {
  }

  function WithoutDependency(task: Task, dependencyId: Id): Task {
    task.(dependencyIds := Without(task.dependencyIds, dependencyId))
  }

  lemma RemoveDependencyOutcome(s: Snapshot, taskId: Id, dependencyId: Id)
    requires Valid(s)
    ensures RemoveTaskDependency(s, taskId, dependencyId) != Err(InvalidSnapshot)
    ensures RemoveTaskDependency(s, taskId, dependencyId).Ok? <==>
            var t := TaskById(s.tasks, taskId);
            && t.Some? && GraphMutable(t.value.state) && dependencyId in t.value.dependencyIds
            && t.value.revision < MAX_SAFE_INTEGER
    ensures RemoveTaskDependency(s, taskId, dependencyId).Ok? ==>
              var t := TaskById(s.tasks, taskId);
              t.Some? && GraphMutable(t.value.state) && dependencyId in t.value.dependencyIds &&
              OneTaskChanged(s, RemoveTaskDependency(s, taskId, dependencyId).value, t.value,
                             WithoutDependency(t.value, dependencyId), DependencyRemoved)
  {
    var task := RequireGraphMutableTask(s, taskId);
    if task.Ok? {
      ValidTask(s, taskId);
      FilterCanonical(IdKey, (d: Id) => d != dependencyId, task.value.dependencyIds);
      var candidate := WithoutDependency(task.value, dependencyId);
      assert Canonical(IdKey, candidate.dependencyIds);
      assert DistinctKeys(IdKey, candidate.dependencyIds);
      if task.value.revision < MAX_SAFE_INTEGER { AdvancedOk(task.value, candidate); }
      PlainCommit(s, task.value, candidate, DependencyRemoved);
    }
  }

  // ---------------------------------------------------------------- parents

  /** The earlier guards of setTaskParent have passed. */
  ghost predicate MayParent(s: Snapshot, task: Task, parentId: Option<Id>) {
    && task in s.tasks && GraphMutable(task.state) && parentId != task.parentId && parentId != Some(task.id)
    && (parentId.Some? ==>
          var p := TaskById(s.tasks, parentId.value);
          p.Some? && p.value.projectId == task.projectId)
  }

  lemma SetParentOutcome(s: Snapshot, taskId: Id, parentId: Option<Id>)
    requires Valid(s)
    ensures SetTaskParent(s, taskId, parentId) != Err(InvalidSnapshot)
    ensures SetTaskParent(s, taskId, parentId).Ok? ==>
              var t := TaskById(s.tasks, taskId);
              t.Some? && MayParent(s, t.value, parentId) &&
              OneTaskChanged(s, SetTaskParent(s, taskId, parentId).value, t.value,
                             t.value.(parentId := parentId), ParentChanged)
  {
    var task := RequireGraphMutableTask(s, taskId);
    if task.Ok? {
      ValidTask(s, taskId);
      FindTask(s.tasks, task.value);
      if MayParent(s, task.value, parentId) {
        var candidate := task.value.(parentId := parentId);
        if task.value.revision < MAX_SAFE_INTEGER { AdvancedOk(task.value, candidate); }
        KeptEdgesSafe(s, task.value, candidate);
        CommitOneOutcome(s, task.value, candidate, ParentChanged);
      }
    }
  }

  /** The walk up the proposed parent's chain is exact in the same sense. */
  lemma SetParentGuardExact(s: Snapshot, task: Task, parentId: Option<Id>)
    requires Valid(s) && MayParent(s, task, parentId) && task.revision < MAX_SAFE_INTEGER
    ensures SetTaskParent(s, task.id, parentId) == Err(ParentCycle) <==>
            CommitOne(s, task, task.(parentId := parentId), ParentChanged) == Err(InvalidSnapshot)
    ensures SetTaskParent(s, task.id, parentId) == Err(ParentCycle) <==>
            parentId.Some? && Reaches(ParentGraph(s.tasks), parentId.value, task.id)
  {
    hide CommitOne, Reaches, OneTaskChanged, ParentGraph, DependencyGraph;
    FindTask(s.tasks, task);
    ValidTask(s, task.id);
    var candidate := task.(parentId := parentId);
    AdvancedOk(task, candidate);
    KeptEdgesSafe(s, task, candidate);
    CommitOneOutcome(s, task, candidate, ParentChanged);
  }
}
