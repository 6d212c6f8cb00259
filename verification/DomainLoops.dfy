/**
 The mutators that search or build step by step, as the source runs them: parsing by loops, the dependency and
 parent searches, and the cancellation that fills its replacements and events one dependent at a time.  Each is
 proved to compute the function of module DomainMutations that the results about it are stated on.
 */
module DomainLoops {
  import opened Options
  import opened Graphs
  import opened Sorting
  import opened DomainModel
  import opened DomainParsing
  import opened DomainGraphs
  import opened DomainMutations
  import opened DomainCommands

  method ReplaceTasksByLoops(s: Snapshot, replacements: map<Id, Task>, additions: seq<Task>)
    returns (r: Result<Snapshot>)
    ensures r == ReplaceTasks(s, replacements, additions)
  {
    hide ParseSnapshot;
    r := ParseByLoops(Snapshot(s.projects, Map(Replaced(replacements), s.tasks) + additions), Complete);
  }

  method CommitOneByLoops(s: Snapshot, before: Task, candidate: Task, kind: EventKind) returns (r: Result<Mutation>)
    ensures r == CommitOne(s, before, candidate, kind)
  {
    hide ReplaceTasks, ParseTask;
    var changed := NextTask(candidate);
    if changed.Err? {
      return Err(changed.code);
    }
    var next := ReplaceTasksByLoops(s, map[changed.value.id := changed.value], []);
    if next.Err? {
      return Err(next.code);
    }
    return Ok(MutationOf(next.value, [changed.value.id],
                         [DomainEvent(kind, changed.value.id, Some(before.revision), changed.value.revision)]));
  }

  /** Adds a dependency to a task of any snapshot, searching for a cycle with an explicit stack. */
  method AddTaskDependencyByLoops(input: Snapshot, taskId: Id, dependencyId: Id) returns (r: Result<Mutation>)
    ensures r == Apply(input, CAddDependency(taskId, dependencyId))
  {
    hide ParseSnapshot, CommitOne, TaskById, DependencyGraph, Reaches;
    var parsed := ParseByLoops(input, Complete);
    if parsed.Err? {
      return Err(parsed.code);
    }
    var s := parsed.value;
    var task := RequireGraphMutableTask(s, taskId);
    if task.Err? {
      return Err(task.code);
    }
    if taskId == dependencyId {
      return Err(DependencySelf);
    }
    if TaskById(s.tasks, dependencyId).None? {
      return Err(DependencyNotFound);
    }
    if dependencyId in task.value.dependencyIds {
      return Err(DependencyDuplicate);
    }
    var reaches := DependencyReaches(s.tasks, dependencyId, task.value.id);
    if reaches {
      return Err(DependencyCycle);
    }
    r := CommitOneByLoops(s, task.value,
      task.value.(dependencyIds := Sort(IdKey, task.value.dependencyIds + [dependencyId])), DependencyAdded);
  }

  /** The guards on a proposed parent, with the walk up its chain. */
  method CheckParentByLoop(s: Snapshot, task: Task, parentId: Option<Id>) returns (r: Result<Option<Id>>)
    requires DistinctKeys(TaskKey, s.tasks) && TaskById(s.tasks, task.id).Some?
    ensures r == CheckParent(s, task, parentId)
  {
    hide ParentGraph, Reaches;
    if parentId.None? {
      return Ok(None);
    }
    var parent := TaskById(s.tasks, parentId.value);
    if parent.None? {
      return Err(ParentNotFound);
    }
    if parent.value.projectId != task.projectId {
      return Err(ParentProjectMismatch);
    }
    var meets := ParentChainMeets(s.tasks, parent.value, task.id);
    if meets {
      return Err(ParentCycle);
    }
    return Ok(parentId);
  }

  lemma ParsedDistinct(input: Snapshot)
    requires ParseSnapshot(input, Complete).Ok?
    ensures DistinctKeys(TaskKey, ParseSnapshot(input, Complete).value.tasks)
  {
    hide ParseSnapshot, Valid;
    ParsedValid(input);
    CanonicalTasks(ParseSnapshot(input, Complete).value);
  }

  method SetTaskParentByLoops(input: Snapshot, taskId: Id, parentId: Option<Id>) returns (r: Result<Mutation>)
    ensures r == Apply(input, CSetParent(taskId, parentId))
  {
    hide ParseSnapshot, CommitOne, CheckParent, DistinctKeys;
    var parsed := ParseByLoops(input, Complete);
    if parsed.Err? {
      return Err(parsed.code);
    }
    var s := parsed.value;
    ParsedDistinct(input);
    var task := RequireGraphMutableTask(s, taskId);
    if task.Err? {
      return Err(task.code);
    }
    if task.value.parentId == parentId {
      return Err(NoOp);
    }
    if parentId == Some(task.value.id) {
      return Err(ParentSelf);
    }
    var checked := CheckParentByLoop(s, task.value, parentId);
    if checked.Err? {
      return Err(checked.code);
    }
    r := CommitOneByLoops(s, task.value, task.value.(parentId := parentId), ParentChanged);
  }

  /** Moves every affected dependent to waiting, one at a time. */
  method CascadeByLoop(affected: seq<Task>, dependents: seq<DependentWaiting>, start: Cascade)
    returns (r: Result<Cascade>)
    requires |affected| == |dependents|
    ensures r == CascadeOver(affected, dependents, start)
  {
    hide ParseTask, ParseWaiting;
    var replacements, changedIds, events := start.replacements, start.changed, start.events;
    assert affected[0..] == affected && dependents[0..] == dependents;
    for i := 0 to |affected|
      invariant CascadeOver(affected, dependents, start) ==
                CascadeOver(affected[i..], dependents[i..], Cascade(replacements, changedIds, events))
    {
      var dependent, input := affected[i], dependents[i];
      assert affected[i..][0] == dependent && affected[i..][1..] == affected[i + 1..];
      assert dependents[i..][0] == input && dependents[i..][1..] == dependents[i + 1..];
      if input.waiting.reason != WaitingReason.DependencyCancelled {
        return Err(InvalidInput);
      }
      var waiting := WaitingFor(dependent, input.waiting);
      if waiting.Err? {
        return Err(waiting.code);
      }
      var changed := NextTask(dependent.(state := Waiting, waiting := Some(waiting.value)));
      if changed.Err? {
        return Err(changed.code);
      }
      replacements := replacements[changed.value.id := changed.value];
      changedIds := changedIds + [changed.value.id];
      events := events +
        [DomainEvent(Transitioned, changed.value.id, Some(dependent.revision), changed.value.revision)];
    }
    return Ok(Cascade(replacements, changedIds, events));
  }

  method CancelByLoops(s: Snapshot, task: Task, fact: CancellationFact, dependents: seq<DependentWaiting>)
    returns (r: Result<Mutation>)
    ensures r == CancelWithDirectDependents(s, task, fact, dependents)
  {
    hide ReplaceTasks, ParseTask, ReadyDependents, CascadeOver, Sort;
    var affected := Sort(TaskKey, ReadyDependents(s.tasks, task.id));
    if !Covers(dependents, affected) {
      return Err(InvalidInput);
    }
    var cancelled := NextTask(CancelledTask(task, fact));
    if cancelled.Err? {
      return Err(cancelled.code);
    }
    var cascade := CascadeByLoop(affected, dependents,
      Cascade(map[cancelled.value.id := cancelled.value], [cancelled.value.id], [TransitionedEvent(task)]));
    if cascade.Err? {
      return Err(cascade.code);
    }
    var next := ReplaceTasksByLoops(s, cascade.value.replacements, []);
    if next.Err? {
      return Err(next.code);
    }
    return Ok(MutationOf(next.value, cascade.value.changed, cascade.value.events));
  }
}
