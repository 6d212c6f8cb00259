/**
 Cancelling through the application, which writes the list of dependents itself, and the projects a mutation
 touches.
 */
module DomainCancellation {
  import opened Options
  import opened Graphs
  import opened Sorting
  import opened DomainModel
  import opened DomainParsing
  import opened DomainGraphs
  import opened DomainMutations
  import opened DomainValidity
  import opened DomainOutcomes
  import opened DomainTransitions
  import opened DomainCommands
  import opened DomainRuns
  import opened DomainLimits

  // ---------------------------------------------------------------- the generated list of dependents

  /** What the application records for every dependent of a task it cancels. */
  const REVIEW_DEPENDENCY: WaitingInput := WaitingInput(
    WaitingReason.DependencyCancelled, "task_management", "review_dependency", "DEPENDENCY_CANCELLED",
    None, false, 0, None, None, None, None)

  function ReviewDependency(t: Task): DependentWaiting {
    DependentWaiting(t.id, REVIEW_DEPENDENCY)
  }

  function GeneratedDependents(s: Snapshot, taskId: Id): seq<DependentWaiting> {
    Map(ReviewDependency, ReadyDependents(s.tasks, taskId))
  }

  function CancelCommand(s: Snapshot, taskId: Id, reason: string): TransitionCommand {
    TransitionCommand(taskId, Cancel, Cancelled, CancelPayload(reason, None, GeneratedDependents(s, taskId)))
  }

  lemma GeneratedParse(affected: seq<Task>)
    requires Canonical(TaskKey, affected)
    ensures ParseDependents(Map(ReviewDependency, affected)) == Ok(Map(ReviewDependency, affected))
  {
    var dependents := Map(ReviewDependency, affected);
    forall i, j | 0 <= i < j < |dependents| ensures DependentKey(dependents[i]) < DependentKey(dependents[j]) {
      assert TaskKey(affected[i]) < TaskKey(affected[j]);
    }
    SortCanonical(DependentKey, dependents);
    var ids := Map(DependentId, dependents);
    forall i, j | 0 <= i < j < |ids| ensures IdKey(ids[i]) != IdKey(ids[j]) {
      assert TaskKey(affected[i]) < TaskKey(affected[j]);
    }
    DistinctCount(ids);
  }

  /** The generated list always passes the exact-cover check, and every other check on it. */
  lemma GeneratedCovers(s: Snapshot, taskId: Id)
    requires Valid(s)
    ensures var dependents := GeneratedDependents(s, taskId);
            var affected := ReadyDependents(s.tasks, taskId);
            && ParseDependents(dependents) == Ok(dependents) && Covers(dependents, affected)
            && (CascadeAllowed(affected, dependents) <==> forall t :: t in affected ==> t.revision < MAX_SAFE_INTEGER)
  {
    hide Valid, ReadyDependents;
    AffectedCanonical(s, taskId);
    var affected := ReadyDependents(s.tasks, taskId);
    GeneratedParse(affected);
    if CascadeAllowed(affected, GeneratedDependents(s, taskId)) {
      forall t | t in affected ensures t.revision < MAX_SAFE_INTEGER {
        var i :| 0 <= i < |affected| && affected[i] == t;
      }
    }
  }

  /** A task the application may cancel without a verified interruption. */
  predicate Cancellable(t: Task) {
    t.state == Idea || t.state == Ready ||
    (t.state == Waiting && t.waiting.Some? && t.waiting.value.input.executionId.None?)
  }

  lemma CancellableGrounds(t: Task, taskId: Id, reason: string, dependents: seq<DependentWaiting>)
    requires t.state == Waiting ==> t.waiting.Some?
    ensures var c := TransitionCommand(taskId, Cancel, Cancelled, CancelPayload(reason, None, dependents));
            (Legal(t.state, Cancel, Cancelled) && CancelGrounds(t, c)) <==> Cancellable(t) && CanonicalReason(reason)
  {
  }

  lemma WaitingHasMetadata(s: Snapshot, id: Id)
    requires Valid(s) && TaskById(s.tasks, id).Some?
    ensures TaskById(s.tasks, id).value.state == Waiting ==> TaskById(s.tasks, id).value.waiting.Some?
  {
    ValidTask(s, id);
  }

  /** Every revision a cancellation would advance is below the largest. */
  predicate RevisionsLeft(s: Snapshot, t: Task) {
    t.revision < MAX_SAFE_INTEGER &&
    forall u :: u in ReadyDependents(s.tasks, t.id) ==> u.revision < MAX_SAFE_INTEGER
  }

  /** The application's cancel command succeeds exactly when the task can be cancelled without a disposition. */
  lemma CancelCommandSucceeds(s: Snapshot, taskId: Id, reason: string)
    requires Valid(s)
    ensures TransitionTask(s, CancelCommand(s, taskId, reason)).Ok? <==>
            var t := TaskById(s.tasks, taskId);
            t.Some? && Cancellable(t.value) && CanonicalReason(reason) && RevisionsLeft(s, t.value)
  {
    hide Valid, ReadyDependents, TransitionTask, CancelEffect, CancelGrounds, CancelFact, Covers, CascadeAllowed,
         GeneratedDependents, ParseDependents, TaskById, Legal, Cancellable, CanonicalReason;
    CancelTransitionOutcome(s, CancelCommand(s, taskId, reason));
    GeneratedCovers(s, taskId);
    var t := TaskById(s.tasks, taskId);
    if t.Some? {
      WaitingHasMetadata(s, taskId);
      CancellableGrounds(t.value, taskId, reason, GeneratedDependents(s, taskId));
    }
  }

  /**
   What a successful cancel leaves: the task cancelled, exactly its ready direct dependents moved to waiting
   because of it, nothing else changed, and no ready task depending on it.
   */
  lemma CancelCommandEffect(s: Snapshot, taskId: Id, reason: string)
    requires Valid(s) && TransitionTask(s, CancelCommand(s, taskId, reason)).Ok?
    ensures var next := TransitionTask(s, CancelCommand(s, taskId, reason)).value.snapshot;
            && next.projects == s.projects
            && CancelledIn(next, taskId)
            && (forall t :: t in next.tasks && t.state == Ready ==> taskId !in t.dependencyIds)
            && forall id :: id != taskId ==>
                 var before, after := TaskById(s.tasks, id), TaskById(next.tasks, id);
                 if before.Some? && ReadyDependent(before.value, taskId) then MovedToWaiting(before.value, after)
                 else after == before
  {
    hide Valid, ReadyDependents, TransitionTask, CancelEffect, CancelGrounds, CancelFact, CancelEnabled, TaskById,
         MovedToWaiting, ReadyDependent;
    var c := CancelCommand(s, taskId, reason);
    CancelTransitionOutcome(s, c);
    var m := TransitionTask(s, c).value;
    var t := TaskById(s.tasks, taskId).value;
    CancelLegal(s, t, c);
    CancelEffectFacts(s, m, t, CancelFact(t, c));
    forall u | u in m.snapshot.tasks && u.state == Ready ensures taskId !in u.dependencyIds {
      InLookup(m.snapshot, u);
      assert CancelEffectOn(s, m, t, CancelFact(t, c), u.id);
      ReadyAfterwards(s, m, t, CancelFact(t, c), u);
    }
    forall id | id != taskId ensures
      var before, after := TaskById(s.tasks, id), TaskById(m.snapshot.tasks, id);
      if before.Some? && ReadyDependent(before.value, taskId) then MovedToWaiting(before.value, after)
      else after == before
    {
      assert CancelEffectOn(s, m, t, CancelFact(t, c), id);
    }
    assert CancelEffectOn(s, m, t, CancelFact(t, c), taskId);
  }

  lemma CancelEffectFacts(s: Snapshot, m: Mutation, t: Task, fact: CancellationFact)
    requires CancelEffect(s, m, t, fact)
    ensures Valid(m.snapshot) && m.snapshot.projects == s.projects
    ensures forall id :: CancelEffectOn(s, m, t, fact, id)
    ensures Advance(CancelledTask(t, fact)).state == Cancelled
  {
    hide Valid;
  }

  lemma ReadyAfterwards(s: Snapshot, m: Mutation, t: Task, fact: CancellationFact, u: Task)
    requires CancelEffectOn(s, m, t, fact, u.id) && TaskById(m.snapshot.tasks, u.id) == Some(u) && u.state == Ready
    ensures t.id !in u.dependencyIds
  {
  }

  // ---------------------------------------------------------------- the projects touched

  predicate BelongsTo(s: Snapshot, id: Id, projectId: Id) {
    TaskById(s.tasks, id).Some? && TaskById(s.tasks, id).value.projectId == projectId
  }

  /** Some task the mutation changed belongs to the project. */
  predicate Touches(m: Mutation, projectId: Id) {
    exists id :: id in m.changedTaskIds && BelongsTo(m.snapshot, id, projectId)
  }

  /** The projects a mutation touched, sorted and without repetition, by the loop over its changed tasks. */
  method AffectedProjectIds(m: Mutation) returns (ids: seq<Id>)
    requires forall id :: id in m.changedTaskIds ==> TaskById(m.snapshot.tasks, id).Some?
    ensures Canonical(IdKey, ids)
    ensures forall p :: p in ids <==> Touches(m, p)
  {
    var projectIds: seq<Id> := [];
    for i := 0 to |m.changedTaskIds|
      invariant DistinctKeys(IdKey, projectIds)
      invariant forall p :: p in projectIds <==>
                  exists k :: 0 <= k < i && BelongsTo(m.snapshot, m.changedTaskIds[k], p)
    {
      assert BelongsTo(m.snapshot, m.changedTaskIds[i], TaskById(m.snapshot.tasks, m.changedTaskIds[i]).value.projectId);
      var task := TaskById(m.snapshot.tasks, m.changedTaskIds[i]);
      if task.value.projectId !in projectIds {
        projectIds := projectIds + [task.value.projectId];
      }
    }
    ids := Sort(IdKey, projectIds);
    SortDistinct(IdKey, projectIds);
  }

  // ---------------------------------------------------------------- adding and removing a dependency

  lemma WithThenWithout(t: Task, d: Id)
    requires Canonical(IdKey, t.dependencyIds) && d !in t.dependencyIds
    ensures WithoutDependency(WithDependency(t, d), d) == t && d in WithDependency(t, d).dependencyIds
  {
    var with := WithDependency(t, d).dependencyIds;
    AppendDistinct(t.dependencyIds, d);
    FilterCanonical(IdKey, (x: Id) => x != d, with);
    var all := t.dependencyIds + [d];
    forall x ensures x in with <==> x in t.dependencyIds || x == d {
      assert x in all <==> x in t.dependencyIds || x == d;
    }
    CanonicalSameMembers(IdKey, Without(with, d), t.dependencyIds);
  }

  lemma WithoutAdvances(t: Task, d: Id)
    ensures WithoutDependency(Advance(WithDependency(t, d)), d) == Advance(WithoutDependency(WithDependency(t, d), d))
  {
  }

  lemma RemoveSucceeds(s: Snapshot, t: Task, d: Id)
    requires Valid(s) && TaskById(s.tasks, t.id) == Some(t) && GraphMutable(t.state)
    requires d in t.dependencyIds && t.revision < MAX_SAFE_INTEGER
    ensures RemoveTaskDependency(s, t.id, d).Ok?
  {
    ValidTask(s, t.id);
    var candidate := WithoutDependency(t, d);
    FilterCanonical(IdKey, (x: Id) => x != d, t.dependencyIds);
    assert Canonical(IdKey, candidate.dependencyIds);
    assert DistinctKeys(IdKey, candidate.dependencyIds);
    AdvancedOk(t, candidate);
    hide Valid, OneTaskChanged, CommitOne, TaskById;
    WithoutCommit(s, t, d);
  }

  lemma WithoutCommit(s: Snapshot, t: Task, d: Id)
    requires Valid(s) && TaskById(s.tasks, t.id) == Some(t) && t in s.tasks && t.revision < MAX_SAFE_INTEGER
    requires TaskOk(Advance(WithoutDependency(t, d)))
    ensures CommitOne(s, t, WithoutDependency(t, d), DependencyRemoved).Ok?
  {
    hide CommitOne;
    assert RefsOk(s.projects, s.tasks, Complete, t);
    PlainCommit(s, t, WithoutDependency(t, d), DependencyRemoved);
  }

  lemma AddedThere(s: Snapshot, id: Id, d: Id)
    requires Valid(s) && AddTaskDependency(s, id, d).Ok?
    ensures var t, next := TaskById(s.tasks, id), AddTaskDependency(s, id, d).value.snapshot;
            && t.Some? && MayDepend(s, t.value, d) && Valid(next) && next.projects == s.projects
            && Canonical(IdKey, t.value.dependencyIds)
            && forall x :: TaskById(next.tasks, x) ==
                           if x == id then Some(Advance(WithDependency(t.value, d))) else TaskById(s.tasks, x)
  {
    hide TaskById, AddTaskDependency;
    AddDependencyOutcome(s, id, d);
    var t := TaskById(s.tasks, id).value;
    ValidTask(s, id);
    OneTaskLookup(s, AddTaskDependency(s, id, d).value, t, WithDependency(t, d), DependencyAdded);
  }

  lemma RemovedThere(s: Snapshot, id: Id, d: Id)
    requires Valid(s) && RemoveTaskDependency(s, id, d).Ok?
    ensures var t, next := TaskById(s.tasks, id), RemoveTaskDependency(s, id, d).value.snapshot;
            && t.Some? && Valid(next) && next.projects == s.projects
            && forall x :: TaskById(next.tasks, x) ==
                           if x == id then Some(Advance(WithoutDependency(t.value, d))) else TaskById(s.tasks, x)
  {
    hide TaskById, RemoveTaskDependency, Valid;
    RemoveDependencyOutcome(s, id, d);
    var t := TaskById(s.tasks, id).value;
    OneTaskLookup(s, RemoveTaskDependency(s, id, d).value, t, WithoutDependency(t, d), DependencyRemoved);
    RemovedValid(s, id, d, t);
  }

  lemma RemovedValid(s: Snapshot, id: Id, d: Id, t: Task)
    requires RemoveTaskDependency(s, id, d).Ok?
    requires OneTaskChanged(s, RemoveTaskDependency(s, id, d).value, t, WithoutDependency(t, d), DependencyRemoved)
    ensures Valid(RemoveTaskDependency(s, id, d).value.snapshot)
  {
    hide Valid, RemoveTaskDependency;
  }

  lemma {:induction false} SameLookups(a: Snapshot, b: Snapshot)
    requires Canonical(TaskKey, a.tasks) && Canonical(TaskKey, b.tasks) && a.projects == b.projects
    requires forall id :: TaskById(a.tasks, id) == TaskById(b.tasks, id)
    ensures a == b
  {
    CanonicalDistinctTasks(a.tasks);
    CanonicalDistinctTasks(b.tasks);
    forall t ensures t in a.tasks <==> t in b.tasks {
      if t in a.tasks { FindTask(a.tasks, t); }
      if t in b.tasks { FindTask(b.tasks, t); }
    }
    CanonicalSameMembers(TaskKey, a.tasks, b.tasks);
  }

  /** The task two revisions on, and the rest of the snapshot as it was. */
  function TwiceAdvanced(s: Snapshot, t: Task): Snapshot {
    Snapshot(s.projects, Put(s.tasks, map[t.id := Advance(Advance(t))]))
  }

  /**
   Removing a dependency that was just added restores the snapshot, up to the two revisions its task has moved on.
   */
  lemma AddThenRemove(s: Snapshot, id: Id, d: Id)
    requires Valid(s) && AddTaskDependency(s, id, d).Ok? && TaskById(s.tasks, id).value.revision + 1 < MAX_SAFE_INTEGER
    ensures var r := RemoveTaskDependency(AddTaskDependency(s, id, d).value.snapshot, id, d);
            r.Ok? && r.value.snapshot == TwiceAdvanced(s, TaskById(s.tasks, id).value)
  {
    hide Valid, AddTaskDependency, RemoveTaskDependency, TaskById, WithDependency, WithoutDependency, MayDepend;
    AddedThere(s, id, d);
    var t := TaskById(s.tasks, id).value;
    var mid := AddTaskDependency(s, id, d).value.snapshot;
    var changed := Advance(WithDependency(t, d));
    AddedMutable(s, t, d);
    WithThenWithout(t, d);
    WithoutAdvances(t, d);
    RemoveSucceeds(mid, changed, d);
    RemovedThere(mid, id, d);
    var last := RemoveTaskDependency(mid, id, d).value.snapshot;
    CanonicalTasks(s);
    CanonicalTasks(last);
    var r := map[t.id := Advance(Advance(t))];
    PutCanonical(s.tasks, r);
    forall x ensures TaskById(last.tasks, x) == TaskById(TwiceAdvanced(s, t).tasks, x) { LookupPut(s.tasks, r, x); }
    SameLookups(last, TwiceAdvanced(s, t));
  }

  lemma AddedMutable(s: Snapshot, t: Task, d: Id)
    requires MayDepend(s, t, d)
    ensures GraphMutable(t.state) && d !in t.dependencyIds
    ensures var u := Advance(WithDependency(t, d));
            u.id == t.id && u.state == t.state && u.revision == t.revision + 1 &&
            u.dependencyIds == WithDependency(t, d).dependencyIds
  {
  }
}
