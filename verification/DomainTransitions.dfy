/**
 The outcome of the state transitions on a valid snapshot, and of the cancellation cascade over the ready
 direct dependents.
 */
module DomainTransitions {
  import opened Options
  import opened Graphs
  import opened Sorting
  import opened DomainModel
  import opened DomainParsing
  import opened DomainMutations
  import opened DomainValidity
  import opened DomainOutcomes

  /** The candidate differs from the task at most in its state and in the facts that go with it. */
  ghost predicate OnlyStateChanges(before: Task, candidate: Task) {
    candidate == before.(state := candidate.state, waiting := candidate.waiting, completion := candidate.completion,
                         cancellation := candidate.cancellation)
  }

  lemma StateAdvanced(before: Task, candidate: Task)
    requires TaskOk(before) && before.revision < MAX_SAFE_INTEGER && OnlyStateChanges(before, candidate)
    requires FactsCoherent(Advance(candidate))
    requires candidate.waiting.Some? ==> candidate.state == Waiting && WaitingInputOk(candidate.waiting.value.input)
    requires candidate.cancellation.Some? ==> CanonicalReason(candidate.cancellation.value.reason)
    ensures TaskOk(Advance(candidate))
  {
  }

  lemma StateCandidate(s: Snapshot, before: Task, candidate: Task)
    requires Valid(s) && before in s.tasks && OnlyStateChanges(before, candidate)
    requires before.revision < MAX_SAFE_INTEGER ==> TaskOk(Advance(candidate))
    ensures Candidate(s, before, candidate)
  {
    assert RefsOk(s.projects, s.tasks, Complete, before);
  }

  lemma StateCommit(s: Snapshot, before: Task, candidate: Task)
    requires Valid(s) && before in s.tasks && OnlyStateChanges(before, candidate)
    requires before.revision < MAX_SAFE_INTEGER ==> TaskOk(Advance(candidate))
    ensures if before.revision == MAX_SAFE_INTEGER then ApplySimple(s, before, candidate) == Err(RevisionExhausted)
            else ApplySimple(s, before, candidate).Ok? &&
                 OneTaskChanged(s, ApplySimple(s, before, candidate).value, before, candidate, Transitioned)
  {
    StateCandidate(s, before, candidate);
    PlainCommit(s, before, candidate, Transitioned);
  }

  // ---------------------------------------------------------------- transitions of one task

  /** The task a single-task transition commits. */
  function Target(task: Task, c: TransitionCommand): Task
    requires c.event.DependencyCancelled? || c.event.ExecutionWait? ==> c.payload.WaitingPayload?
    requires c.event.CompletionAccepted? ==> c.payload.DecisionPayload?
  {
    match c.event
    case MarkReady => task.(state := Ready)
    case ClaimAccepted => task.(state := Running)
    case DependencyCancelled =>
      task.(state := Waiting, waiting := Some(WaitingMetadata(c.payload.waiting, task.revision + 1)))
    case ExecutionWait =>
      task.(state := Waiting, waiting := Some(WaitingMetadata(c.payload.waiting, task.revision + 1)))
    case CompletionAccepted =>
      task.(state := Completed, completion := Some(CompletionFact(c.payload.decision.decisionId, task.revision)))
    case ResumeAccepted => task.(state := Running, waiting := None)
    case RetryAccepted => task.(state := Running, waiting := None)
    case _ => task
  }

  predicate Cascading(event: TransitionEvent) {
    event == Cancel || event == InterruptionVerified
  }

  /** The condition under which a single-task transition passes all its guards, revision exhaustion aside. */
  ghost predicate Enabled(s: Snapshot, task: Task, c: TransitionCommand) {
    Legal(task.state, c.event, c.targetState) &&
    match c.event
    case MarkReady =>
      c.payload.EmptyPayload? && ProjectById(s.projects, task.projectId).Some? && !ProjectDisabledIn(s, task) &&
      !DependencyIsCancelled(s, task)
    case ClaimAccepted =>
      c.payload.AcceptancePayload? && EligibilityReasons(s, task) == {} && CurrentAcceptance(c.payload.acceptance, task)
    case DependencyCancelled =>
      c.payload.WaitingPayload? && DependencyIsCancelled(s, task) && WaitingInputOk(c.payload.waiting) &&
      c.payload.waiting.reason == WaitingReason.DependencyCancelled
    case ExecutionWait => c.payload.WaitingPayload? && WaitingInputOk(c.payload.waiting)
    case CompletionAccepted =>
      c.payload.DecisionPayload? && c.payload.decision.taskId == task.id &&
      c.payload.decision.taskRevision == task.revision && c.payload.decision.accepted
    case ResumeAccepted => ContinuationEnabled(s, task, c, Resume)
    case RetryAccepted => ContinuationEnabled(s, task, c, Retry)
    case _ => false
  }

  ghost predicate ContinuationEnabled(s: Snapshot, task: Task, c: TransitionCommand, kind: ContinuationKind) {
    && c.payload.ContinuationPayload? && ParseContinuation(c.payload.continuation).Ok?
    && c.payload.continuation.taskId == task.id && c.payload.continuation.kind == kind
    && ContinuationReasons(s, task, c.payload.continuation) == {} && CurrentAcceptance(c.payload.acceptance, task)
  }

  lemma WaitingForOk(task: Task, input: WaitingInput)
    requires TaskOk(task)
    ensures WaitingFor(task, input) ==
            if task.revision == MAX_SAFE_INTEGER then Err(RevisionExhausted)
            else if WaitingInputOk(input) then Ok(WaitingMetadata(input, task.revision + 1)) else Err(InvalidInput)
  {
  }

  lemma TargetOk(task: Task, c: TransitionCommand)
    requires TaskOk(task) && task.revision < MAX_SAFE_INTEGER && !Cascading(c.event)
    requires Legal(task.state, c.event, c.targetState)
    requires c.event.DependencyCancelled? || c.event.ExecutionWait? ==>
               c.payload.WaitingPayload? && WaitingInputOk(c.payload.waiting)
    requires c.event.CompletionAccepted? ==> c.payload.DecisionPayload?
    ensures OnlyStateChanges(task, Target(task, c)) && TaskOk(Advance(Target(task, c)))
    ensures Target(task, c).state == c.targetState
  {
    StateAdvanced(task, Target(task, c));
  }

  /** Past its guards a single-task transition is a commit of its target; before them it is refused. */
  lemma FireMeaning(s: Snapshot, task: Task, c: TransitionCommand)
    requires TaskOk(task) && !Cascading(c.event) && Legal(task.state, c.event, c.targetState)
    ensures Enabled(s, task, c) && task.revision < MAX_SAFE_INTEGER ==>
              Fire(s, task, c) == ApplySimple(s, task, Target(task, c))
    ensures !Enabled(s, task, c) || task.revision == MAX_SAFE_INTEGER ==>
              Fire(s, task, c).Err? && Fire(s, task, c) != Err(InvalidSnapshot)
  {
    match c.event {
      case DependencyCancelled => if c.payload.WaitingPayload? { WaitingForOk(task, c.payload.waiting); }
      case ExecutionWait => if c.payload.WaitingPayload? { WaitingForOk(task, c.payload.waiting); }
      case _ =>
    }
  }

  /** A single-task transition succeeds exactly when it is enabled and the revision is not exhausted. */
  lemma TransitionOutcome(s: Snapshot, c: TransitionCommand)
    requires Valid(s) && !Cascading(c.event)
    ensures TransitionTask(s, c) != Err(InvalidSnapshot)
    ensures var t := TaskById(s.tasks, c.taskId);
            TransitionTask(s, c).Ok? <==> t.Some? && t.value.revision < MAX_SAFE_INTEGER && Enabled(s, t.value, c)
    ensures TransitionTask(s, c).Ok? ==>
              var t := TaskById(s.tasks, c.taskId).value;
              && Target(t, c).state == c.targetState
              && OneTaskChanged(s, TransitionTask(s, c).value, t, Target(t, c), Transitioned)
  {
    var t := TaskById(s.tasks, c.taskId);
    if t.Some? && Legal(t.value.state, c.event, c.targetState) {
      ValidTask(s, c.taskId);
      FireOutcome(s, t.value, c);
    }
  }

  /** What committing the target of an enabled transition yields. */
  ghost predicate TargetCommitted(s: Snapshot, task: Task, c: TransitionCommand, r: Result<Mutation>)
    requires c.event.DependencyCancelled? || c.event.ExecutionWait? ==> c.payload.WaitingPayload?
    requires c.event.CompletionAccepted? ==> c.payload.DecisionPayload?
  {
    && r.Ok? && Target(task, c).state == c.targetState
    && OneTaskChanged(s, r.value, task, Target(task, c), Transitioned)
  }

  lemma TargetCommit(s: Snapshot, task: Task, c: TransitionCommand)
    requires Valid(s) && task in s.tasks && task.revision < MAX_SAFE_INTEGER
    requires !Cascading(c.event) && Legal(task.state, c.event, c.targetState)
    requires c.event.DependencyCancelled? || c.event.ExecutionWait? ==>
               c.payload.WaitingPayload? && WaitingInputOk(c.payload.waiting)
    requires c.event.CompletionAccepted? ==> c.payload.DecisionPayload?
    ensures TargetCommitted(s, task, c, ApplySimple(s, task, Target(task, c)))
  {
    assert TaskOk(task);
    TargetOk(task, c);
    StateCommit(s, task, Target(task, c));
  }

  lemma FireOutcome(s: Snapshot, task: Task, c: TransitionCommand)
    requires Valid(s) && task in s.tasks && TaskOk(task)
    requires !Cascading(c.event) && Legal(task.state, c.event, c.targetState)
    ensures Fire(s, task, c) != Err(InvalidSnapshot)
    ensures Fire(s, task, c).Ok? <==> task.revision < MAX_SAFE_INTEGER && Enabled(s, task, c)
    ensures Fire(s, task, c).Ok? ==> TargetCommitted(s, task, c, Fire(s, task, c))
  {
    hide Valid, Fire;
    FireMeaning(s, task, c);
    if Enabled(s, task, c) && task.revision < MAX_SAFE_INTEGER {
      TargetCommit(s, task, c);
    }
  }

  // ---------------------------------------------------------------- the cancellation cascade

  function WaitingOnCancelled(t: Task, w: WaitingInput): Task {
    t.(state := Waiting, waiting := Some(WaitingMetadata(w, t.revision + 1)))
  }

  ghost predicate Cascadable(affected: seq<Task>, dependents: seq<DependentWaiting>, done: Cascade) {
    && |affected| == |dependents|
    && Canonical(TaskKey, affected)
    && (forall t :: t in affected ==> TaskOk(t) && t.state == Ready && t.id !in done.replacements)
  }

  /** The cascade replaced each affected task by its waiting form, in addition to what was done before. */
  ghost predicate Cascaded(affected: seq<Task>, dependents: seq<DependentWaiting>, done: Cascade, r: Cascade)
    requires |affected| == |dependents|
  {
    && (forall id :: id in r.replacements <==> id in done.replacements || id in TaskIds(affected))
    && (forall id :: id in done.replacements && id !in TaskIds(affected) ==>
          r.replacements[id] == done.replacements[id])
    && (forall i :: 0 <= i < |affected| ==>
          && affected[i].id in r.replacements
          && r.replacements[affected[i].id] == Advance(WaitingOnCancelled(affected[i], dependents[i].waiting))
          && dependents[i].waiting.reason == WaitingReason.DependencyCancelled
          && affected[i].revision < MAX_SAFE_INTEGER
          && TaskOk(r.replacements[affected[i].id]))
    && r.changed == done.changed + Map(TaskKey, affected)
    && r.events == done.events + Map(TransitionedEvent, affected)
  }

  lemma CascadeStep(affected: seq<Task>, dependents: seq<DependentWaiting>, done: Cascade)
    requires Cascadable(affected, dependents, done) && |affected| > 0
    requires dependents[0].waiting.reason == WaitingReason.DependencyCancelled
    ensures affected[0].revision == MAX_SAFE_INTEGER || !WaitingInputOk(dependents[0].waiting) ==>
              CascadeOver(affected, dependents, done) in {Err(RevisionExhausted), Err(InvalidInput)}
    ensures affected[0].revision < MAX_SAFE_INTEGER && WaitingInputOk(dependents[0].waiting) ==>
              var changed := Advance(WaitingOnCancelled(affected[0], dependents[0].waiting));
              && TaskOk(changed) && changed.id == affected[0].id
              && CascadeOver(affected, dependents, done) == CascadeOver(affected[1..], dependents[1..],
                   Cascade(done.replacements[changed.id := changed], done.changed + [changed.id],
                           done.events + [TransitionedEvent(affected[0])]))
  {
    var t := affected[0];
    assert t in affected;
    WaitingForOk(t, dependents[0].waiting);
    if t.revision < MAX_SAFE_INTEGER && WaitingInputOk(dependents[0].waiting) {
      var candidate := WaitingOnCancelled(t, dependents[0].waiting);
      StateAdvanced(t, candidate);
      ParseTaskCanonical(Advance(candidate));
    }
  }

  /** Every entry says the dependency was cancelled, is acceptable, and its task can still be advanced. */
  predicate CascadeAllowed(affected: seq<Task>, dependents: seq<DependentWaiting>)
    requires |affected| == |dependents|
  {
    forall i :: 0 <= i < |affected| ==>
      && dependents[i].waiting.reason == WaitingReason.DependencyCancelled && WaitingInputOk(dependents[i].waiting)
      && affected[i].revision < MAX_SAFE_INTEGER
  }

  lemma CascadeAllowedStep(affected: seq<Task>, dependents: seq<DependentWaiting>)
    requires |affected| == |dependents| > 0
    ensures CascadeAllowed(affected, dependents) <==>
            && dependents[0].waiting.reason == WaitingReason.DependencyCancelled && WaitingInputOk(dependents[0].waiting)
            && affected[0].revision < MAX_SAFE_INTEGER
            && CascadeAllowed(affected[1..], dependents[1..])
  {
    forall i | 0 <= i < |affected| ensures
      && affected[i] == (if i == 0 then affected[0] else affected[1..][i - 1])
      && dependents[i] == (if i == 0 then dependents[0] else dependents[1..][i - 1])
    {
    }
  }

  lemma {:induction false} CascadeOutcome(affected: seq<Task>, dependents: seq<DependentWaiting>, done: Cascade)
    requires Cascadable(affected, dependents, done)
    ensures CascadeOver(affected, dependents, done) != Err(InvalidSnapshot)
    ensures CascadeOver(affected, dependents, done).Ok? <==> CascadeAllowed(affected, dependents)
    ensures CascadeOver(affected, dependents, done).Ok? ==>
              Cascaded(affected, dependents, done, CascadeOver(affected, dependents, done).value)
    decreases |affected|
  {
    if |affected| > 0 { CascadeAllowedStep(affected, dependents); }
    if |affected| > 0 && dependents[0].waiting.reason == WaitingReason.DependencyCancelled {
      CascadeStep(affected, dependents, done);
      if affected[0].revision < MAX_SAFE_INTEGER && WaitingInputOk(dependents[0].waiting) {
        var changed := Advance(WaitingOnCancelled(affected[0], dependents[0].waiting));
        var next := Cascade(done.replacements[changed.id := changed], done.changed + [changed.id],
                            done.events + [TransitionedEvent(affected[0])]);
        TailCanonical(TaskKey, affected);
        forall t | t in affected[1..] ensures TaskOk(t) && t.state == Ready && t.id !in next.replacements {
          var i :| 0 <= i < |affected[1..]| && affected[1..][i] == t;
          assert affected[i + 1] in affected && TaskKey(affected[0]) < TaskKey(affected[i + 1]);
        }
        CascadeOutcome(affected[1..], dependents[1..], next);
        if CascadeOver(affected, dependents, done).Ok? {
          CascadeJoin(affected, dependents, done, next, CascadeOver(affected, dependents, done).value);
        }
      }
    }
  }

  /** A cascade over the tail, started after the head was replaced. */
  ghost predicate TailCascaded(
    affected: seq<Task>, dependents: seq<DependentWaiting>, done: Cascade, next: Cascade, r: Cascade)
  {
    && |affected| == |dependents| > 0 && Canonical(TaskKey, affected)
    && affected[0].revision < MAX_SAFE_INTEGER && affected[0].id !in done.replacements
    && dependents[0].waiting.reason == WaitingReason.DependencyCancelled
    && (var changed := Advance(WaitingOnCancelled(affected[0], dependents[0].waiting));
        TaskOk(changed) && changed.id == affected[0].id &&
        next == Cascade(done.replacements[changed.id := changed], done.changed + [changed.id],
                        done.events + [TransitionedEvent(affected[0])]))
    && Cascaded(affected[1..], dependents[1..], next, r)
  }

  lemma HeadNotInTail(affected: seq<Task>)
    requires |affected| > 0 && Canonical(TaskKey, affected)
    ensures affected[0].id !in TaskIds(affected[1..])
    ensures TaskIds(affected) == {affected[0].id} + TaskIds(affected[1..])
  {
    var tail := affected[1..];
    assert affected == [affected[0]] + tail;
    forall t | t in tail ensures t.id != affected[0].id {
      var i :| 0 <= i < |tail| && tail[i] == t;
      assert TaskKey(affected[0]) < TaskKey(affected[i + 1]);
    }
  }

  lemma CascadeJoinLists(
    affected: seq<Task>, dependents: seq<DependentWaiting>, done: Cascade, next: Cascade, r: Cascade)
    requires TailCascaded(affected, dependents, done, next, r)
    ensures r.changed == done.changed + Map(TaskKey, affected)
    ensures r.events == done.events + Map(TransitionedEvent, affected)
  {
    MapAppended(TaskKey, done.changed, affected, r.changed);
    MapAppended(TransitionedEvent, done.events, affected, r.events);
  }

  lemma CascadeJoinTask(
    affected: seq<Task>, dependents: seq<DependentWaiting>, done: Cascade, next: Cascade, r: Cascade, i: nat)
    requires TailCascaded(affected, dependents, done, next, r) && i < |affected|
    ensures affected[i].id in r.replacements
    ensures r.replacements[affected[i].id] == Advance(WaitingOnCancelled(affected[i], dependents[i].waiting))
    ensures dependents[i].waiting.reason == WaitingReason.DependencyCancelled
    ensures affected[i].revision < MAX_SAFE_INTEGER && TaskOk(r.replacements[affected[i].id])
  {
    if i == 0 {
      HeadNotInTail(affected);
    } else {
      assert affected[i] == affected[1..][i - 1] && dependents[i] == dependents[1..][i - 1];
    }
  }

  lemma CascadeJoin(
    affected: seq<Task>, dependents: seq<DependentWaiting>, done: Cascade, next: Cascade, r: Cascade)
    requires TailCascaded(affected, dependents, done, next, r)
    ensures Cascaded(affected, dependents, done, r)
  {
    HeadNotInTail(affected);
    CascadeJoinLists(affected, dependents, done, next, r);
    forall i: nat | i < |affected|
      ensures affected[i].id in r.replacements
      ensures r.replacements[affected[i].id] == Advance(WaitingOnCancelled(affected[i], dependents[i].waiting))
      ensures dependents[i].waiting.reason == WaitingReason.DependencyCancelled
      ensures affected[i].revision < MAX_SAFE_INTEGER && TaskOk(r.replacements[affected[i].id])
    {
      CascadeJoinTask(affected, dependents, done, next, r, i);
    }
  }

  // ---------------------------------------------------------------- cancellation

  /**
   What a cancellation does: the task becomes cancelled, every ready direct dependent moves to waiting because
   of it, and no other task changes.
   */
  ghost predicate CancelEffect(s: Snapshot, m: Mutation, task: Task, fact: CancellationFact) {
    && Valid(m.snapshot) && m.snapshot.projects == s.projects
    && task.revision < MAX_SAFE_INTEGER && TaskOk(Advance(CancelledTask(task, fact)))
    && (forall id :: CancelEffectOn(s, m, task, fact, id))
    && m.changedTaskIds == Sort(IdKey, [task.id] + Map(TaskKey, ReadyDependents(s.tasks, task.id)))
    && m.events == [TransitionedEvent(task)] + Map(TransitionedEvent, ReadyDependents(s.tasks, task.id))
  }

  ghost predicate CancelEffectOn(s: Snapshot, m: Mutation, task: Task, fact: CancellationFact, id: Id) {
    var before := TaskById(s.tasks, id);
    var after := TaskById(m.snapshot.tasks, id);
    if id == task.id then after == Some(Advance(CancelledTask(task, fact)))
    else if before.Some? && ReadyDependent(before.value, task.id) then MovedToWaiting(before.value, after)
    else after == before
  }

  /** Moved on by one revision, to waiting on a cancelled dependency. */
  ghost predicate MovedToWaiting(before: Task, after: Option<Task>) {
    && after.Some? && before.revision < MAX_SAFE_INTEGER
    && after.value.waiting.Some? && after.value.waiting.value.input.reason == WaitingReason.DependencyCancelled
    && after.value == Advance(WaitingOnCancelled(before, after.value.waiting.value.input))
  }

  lemma AffectedCanonical(s: Snapshot, id: Id)
    requires Valid(s)
    ensures Canonical(TaskKey, ReadyDependents(s.tasks, id))
    ensures Sort(TaskKey, ReadyDependents(s.tasks, id)) == ReadyDependents(s.tasks, id)
    ensures forall t :: t in ReadyDependents(s.tasks, id) ==> t in s.tasks && TaskOk(t) && ReadyDependent(t, id)
  {
    FilterCanonical(TaskKey, (t: Task) => ReadyDependent(t, id), s.tasks);
    SortCanonical(TaskKey, ReadyDependents(s.tasks, id));
  }

  /** A replacement that is fit to replace its task and keeps its edges. */
  ghost predicate FitReplacement(s: Snapshot, id: Id, u: Task) {
    var was := TaskById(s.tasks, id);
    && u.id == id && was.Some? && TaskOk(u) && RefsOk(s.projects, s.tasks, Complete, u)
    && u.projectId == was.value.projectId && u.dependencyIds == was.value.dependencyIds
    && u.parentId == was.value.parentId
  }

  lemma StateFits(s: Snapshot, before: Task, u: Task)
    requires Valid(s) && before in s.tasks && TaskById(s.tasks, before.id) == Some(before) && TaskOk(u)
    requires u == before.(revision := u.revision, state := u.state, waiting := u.waiting, completion := u.completion,
                          cancellation := u.cancellation)
    ensures FitReplacement(s, before.id, u)
  {
    hide TaskById, TaskOk, Acyclic;
    assert RefsOk(s.projects, s.tasks, Complete, before);
  }

  /** What the cascade replaces is fit to replace, and keeps every edge. */
  lemma CascadeFits(
    s: Snapshot, task: Task, fact: CancellationFact, dependents: seq<DependentWaiting>, r: Cascade, id: Id)
    requires Valid(s) && task in s.tasks && TaskOk(Advance(CancelledTask(task, fact)))
    requires var affected := ReadyDependents(s.tasks, task.id);
             |affected| == |dependents| &&
             Cascaded(affected, dependents, Cascade(map[task.id := Advance(CancelledTask(task, fact))], [task.id],
                      [TransitionedEvent(task)]), r)
    requires id in r.replacements
    ensures FitReplacement(s, id, r.replacements[id])
  {
    hide TaskById, TaskOk, Valid, ReadyDependents, FitReplacement, WellFormed;
    AffectedCanonical(s, task.id);
    ValidDistinct(s);
    var affected := ReadyDependents(s.tasks, task.id);
    if id in TaskIds(affected) {
      var i :| 0 <= i < |affected| && affected[i].id == id;
      assert affected[i] in affected;
      FindTask(s.tasks, affected[i]);
      StateFits(s, affected[i], r.replacements[id]);
    } else {
      FindTask(s.tasks, task);
      StateFits(s, task, r.replacements[id]);
    }
  }

  lemma ValidDistinct(s: Snapshot)
    requires Valid(s)
    ensures DistinctKeys(TaskKey, s.tasks)
  {
    CanonicalDistinctTasks(s.tasks);
  }

  /** Replacements that keep every edge cannot fail the cycle checks. */
  lemma SameEdgesParse(s: Snapshot, r: map<Id, Task>)
    requires Valid(s) && forall id :: id in r ==> FitReplacement(s, id, r[id])
    ensures var next := Snapshot(s.projects, Put(s.tasks, r)); Valid(next) && ReplaceTasks(s, r, []) == Ok(next)
  {
    hide Valid, TaskById, TaskOk, RefsOk, DependencyGraph, ParentGraph, Acyclic, ReplaceTasks, Put;
    var next := Put(s.tasks, r);
    forall v, w
      ensures Edge(DependencyGraph(next), v, w) <==> Edge(DependencyGraph(s.tasks), v, w)
      ensures Edge(ParentGraph(next), v, w) <==> Edge(ParentGraph(s.tasks), v, w)
    {
      LookupPut(s.tasks, r, v);
      DependencyEdge(next, v, w);
      DependencyEdge(s.tasks, v, w);
      ParentGraphEdge(next, v, w);
      ParentGraphEdge(s.tasks, v, w);
    }
    SameEdges(DependencyGraph(next), DependencyGraph(s.tasks));
    SameEdges(ParentGraph(next), ParentGraph(s.tasks));
    ValidAcyclic(s);
    PutParses(s, r);
  }

  lemma ValidAcyclic(s: Snapshot)
    requires Valid(s)
    ensures Acyclic(DependencyGraph(s.tasks)) && Acyclic(ParentGraph(s.tasks))
  {
  }

  lemma NotItsOwnDependent(s: Snapshot, task: Task)
    requires Valid(s) && task in s.tasks
    ensures task.id !in TaskIds(ReadyDependents(s.tasks, task.id))
  {
    forall t | t in ReadyDependents(s.tasks, task.id) ensures t.id != task.id {
      assert TaskOk(t) && task.id in t.dependencyIds;
    }
  }

  lemma CascadeEffectOn(
    s: Snapshot, task: Task, fact: CancellationFact, dependents: seq<DependentWaiting>, r: Cascade, m: Mutation, id: Id)
    requires DistinctKeys(TaskKey, s.tasks) && task in s.tasks && KeepsIds(r.replacements)
    requires task.id !in TaskIds(ReadyDependents(s.tasks, task.id))
    requires var affected := ReadyDependents(s.tasks, task.id);
             |affected| == |dependents| &&
             Cascaded(affected, dependents, Cascade(map[task.id := Advance(CancelledTask(task, fact))], [task.id],
                      [TransitionedEvent(task)]), r)
    requires m.snapshot.tasks == Put(s.tasks, r.replacements)
    ensures CancelEffectOn(s, m, task, fact, id)
  {
    hide TaskById, TaskOk, Filter, Map, DistinctKeys, KeepsIds;
    var affected := ReadyDependents(s.tasks, task.id);
    FindTask(s.tasks, task);
    LookupPut(s.tasks, r.replacements, id);
    var before := TaskById(s.tasks, id);
    if id != task.id && before.Some? {
      if ReadyDependent(before.value, task.id) {
        assert before.value in affected;
        var i :| 0 <= i < |affected| && affected[i] == before.value;
        assert r.replacements[affected[i].id] == Advance(WaitingOnCancelled(affected[i], dependents[i].waiting));
        assert MovedToWaiting(before.value, TaskById(m.snapshot.tasks, id));
      } else {
        forall t | t in affected ensures t.id != id { FindTask(s.tasks, t); }
        assert id !in r.replacements;
      }
    }
  }

  lemma CascadeLists(s: Snapshot, task: Task, fact: CancellationFact, dependents: seq<DependentWaiting>, r: Cascade)
    requires var affected := ReadyDependents(s.tasks, task.id);
             |affected| == |dependents| &&
             Cascaded(affected, dependents, Cascade(map[task.id := Advance(CancelledTask(task, fact))], [task.id],
                      [TransitionedEvent(task)]), r)
    ensures r.changed == [task.id] + Map(TaskKey, ReadyDependents(s.tasks, task.id))
    ensures r.events == [TransitionedEvent(task)] + Map(TransitionedEvent, ReadyDependents(s.tasks, task.id))
  {
  }

  lemma KeptIds(s: Snapshot, r: map<Id, Task>)
    requires forall id :: id in r ==> FitReplacement(s, id, r[id])
    ensures KeepsIds(r)
  {
  }

  /** A cascade over the right dependents commits. */
  lemma CascadeCommit(s: Snapshot, task: Task, fact: CancellationFact, dependents: seq<DependentWaiting>, r: Cascade)
    requires Valid(s) && task in s.tasks
    requires task.revision < MAX_SAFE_INTEGER && TaskOk(Advance(CancelledTask(task, fact)))
    requires var affected := ReadyDependents(s.tasks, task.id);
             |affected| == |dependents| &&
             Cascaded(affected, dependents, Cascade(map[task.id := Advance(CancelledTask(task, fact))], [task.id],
                      [TransitionedEvent(task)]), r)
    ensures ReplaceTasks(s, r.replacements, []).Ok?
    ensures CancelEffect(s, MutationOf(ReplaceTasks(s, r.replacements, []).value, r.changed, r.events), task, fact)
  {
    hide Valid, TaskOk, ReplaceTasks, ReadyDependents, Cascaded, CancelEffectOn, FitReplacement;
    forall id | id in r.replacements ensures FitReplacement(s, id, r.replacements[id]) {
      CascadeFits(s, task, fact, dependents, r, id);
    }
    SameEdgesParse(s, r.replacements);
    NotItsOwnDependent(s, task);
    ValidDistinct(s);
    CascadeLists(s, task, fact, dependents, r);
    KeptIds(s, r.replacements);
    var m := MutationOf(ReplaceTasks(s, r.replacements, []).value, r.changed, r.events);
    forall id ensures CancelEffectOn(s, m, task, fact, id) {
      CascadeEffectOn(s, task, fact, dependents, r, m, id);
    }
  }

  lemma CancelledOk(task: Task, fact: CancellationFact)
    requires TaskOk(task) && task.revision < MAX_SAFE_INTEGER
    requires CanonicalReason(fact.reason) && fact.acceptedTaskRevision == task.revision
    ensures TaskOk(Advance(CancelledTask(task, fact)))
    ensures NextTask(CancelledTask(task, fact)) == Ok(Advance(CancelledTask(task, fact)))
  {
    StateAdvanced(task, CancelledTask(task, fact));
    ParseTaskCanonical(Advance(CancelledTask(task, fact)));
  }

  lemma CascadeStart(s: Snapshot, task: Task, fact: CancellationFact, dependents: seq<DependentWaiting>)
    requires Valid(s) && task in s.tasks && |ReadyDependents(s.tasks, task.id)| == |dependents|
    ensures Cascadable(ReadyDependents(s.tasks, task.id), dependents,
              Cascade(map[task.id := Advance(CancelledTask(task, fact))], [task.id], [TransitionedEvent(task)]))
  {
    AffectedCanonical(s, task.id);
    NotItsOwnDependent(s, task);
  }

  function CascadeFrom(s: Snapshot, task: Task, fact: CancellationFact, dependents: seq<DependentWaiting>): Result<Cascade>
    requires |ReadyDependents(s.tasks, task.id)| == |dependents|
  {
    CascadeOver(ReadyDependents(s.tasks, task.id), dependents,
      Cascade(map[task.id := Advance(CancelledTask(task, fact))], [task.id], [TransitionedEvent(task)]))
  }

  /** The cancellation, step by step, on a snapshot whose dependents are already listed in order. */
  lemma CancelMeaning(s: Snapshot, task: Task, fact: CancellationFact, dependents: seq<DependentWaiting>)
    requires Sort(TaskKey, ReadyDependents(s.tasks, task.id)) == ReadyDependents(s.tasks, task.id)
    requires task.revision < MAX_SAFE_INTEGER ==>
               NextTask(CancelledTask(task, fact)) == Ok(Advance(CancelledTask(task, fact)))
    ensures !Covers(dependents, ReadyDependents(s.tasks, task.id)) ==>
              CancelWithDirectDependents(s, task, fact, dependents) == Err(InvalidInput)
    ensures Covers(dependents, ReadyDependents(s.tasks, task.id)) && task.revision == MAX_SAFE_INTEGER ==>
              CancelWithDirectDependents(s, task, fact, dependents) == Err(RevisionExhausted)
    ensures Covers(dependents, ReadyDependents(s.tasks, task.id)) && task.revision < MAX_SAFE_INTEGER ==>
              CancelWithDirectDependents(s, task, fact, dependents) ==
              CommitCascade(s, CascadeFrom(s, task, fact, dependents))
  {
  }

  lemma CascadeFromOutcome(s: Snapshot, task: Task, fact: CancellationFact, dependents: seq<DependentWaiting>)
    requires Valid(s) && task in s.tasks && |ReadyDependents(s.tasks, task.id)| == |dependents|
    requires task.revision < MAX_SAFE_INTEGER && TaskOk(Advance(CancelledTask(task, fact)))
    ensures var r := CommitCascade(s, CascadeFrom(s, task, fact, dependents));
            && r != Err(InvalidSnapshot)
            && (r.Ok? <==> CascadeAllowed(ReadyDependents(s.tasks, task.id), dependents))
            && (r.Ok? ==> CancelEffect(s, r.value, task, fact))
  {
    hide Valid, ReadyDependents;
    var start := Cascade(map[task.id := Advance(CancelledTask(task, fact))], [task.id], [TransitionedEvent(task)]);
    CascadeStart(s, task, fact, dependents);
    CascadeOutcome(ReadyDependents(s.tasks, task.id), dependents, start);
    var r := CascadeFrom(s, task, fact, dependents);
    if r.Ok? {
      CascadeCommit(s, task, fact, dependents, r.value);
    }
  }

  /** The dependents named are exactly the ready direct ones, in order, and all of them can be moved. */
  predicate CancelAllowed(s: Snapshot, task: Task, dependents: seq<DependentWaiting>) {
    var affected := ReadyDependents(s.tasks, task.id);
    Covers(dependents, affected) && task.revision < MAX_SAFE_INTEGER && CascadeAllowed(affected, dependents)
  }

  lemma CancelOutcome(s: Snapshot, task: Task, fact: CancellationFact, dependents: seq<DependentWaiting>)
    requires Valid(s) && task in s.tasks && TaskOk(task)
    requires CanonicalReason(fact.reason) && fact.acceptedTaskRevision == task.revision
    ensures var r := CancelWithDirectDependents(s, task, fact, dependents);
            && r != Err(InvalidSnapshot)
            && (r.Ok? <==> CancelAllowed(s, task, dependents))
            && (r.Ok? ==> CancelEffect(s, r.value, task, fact))
  {
    hide Valid, ReadyDependents, CancelWithDirectDependents, CommitCascade, CancelEffect;
    AffectedCanonical(s, task.id);
    if task.revision < MAX_SAFE_INTEGER { CancelledOk(task, fact); }
    CancelMeaning(s, task, fact, dependents);
    if Covers(dependents, ReadyDependents(s.tasks, task.id)) && task.revision < MAX_SAFE_INTEGER {
      CascadeFromOutcome(s, task, fact, dependents);
    }
  }

  // ---------------------------------------------------------------- cancelling transitions

  /** The dependents a cancelling payload names. */
  function PayloadDependents(p: Payload): seq<DependentWaiting>
    requires p.CancelPayload? || p.InterruptionPayload?
  {
    p.dependents
  }

  /** What a cancelling command must bring along, apart from the dependents. */
  predicate CancelGrounds(task: Task, c: TransitionCommand) {
    match c.event
    case Cancel =>
      c.payload.CancelPayload? && CanonicalReason(c.payload.reason) &&
      CancelDisposition(task, c.payload.disposition).Ok?
    case InterruptionVerified =>
      c.payload.InterruptionPayload? && CanonicalReason(c.payload.reason) &&
      CurrentDisposition(c.payload.verification, task) && c.payload.verification.status == Stopped &&
      c.payload.verification.executionId.Some?
    case _ => false
  }

  function CancelFact(task: Task, c: TransitionCommand): CancellationFact
    requires CancelGrounds(task, c)
  {
    if c.event == Cancel
    then CancellationFact(ByCancel, c.payload.reason, CancelDisposition(task, c.payload.disposition).value, task.revision)
    else CancellationFact(ByInterruption, c.payload.reason, Some(c.payload.verification.receiptId), task.revision)
  }

  /** Exactly when a cancelling transition passes all its guards. */
  predicate CancelEnabled(s: Snapshot, task: Task, c: TransitionCommand) {
    && Legal(task.state, c.event, c.targetState) && CancelGrounds(task, c)
    && ParseDependents(PayloadDependents(c.payload)).Ok?
    && CancelAllowed(s, task, ParseDependents(PayloadDependents(c.payload)).value)
  }

  /** Past its grounds a cancelling transition is a cancellation over the parsed dependents. */
  lemma FireCancelMeaning(s: Snapshot, task: Task, c: TransitionCommand)
    requires Cascading(c.event)
    ensures !CancelGrounds(task, c) ==> Fire(s, task, c).Err? && Fire(s, task, c) != Err(InvalidSnapshot)
    ensures CancelGrounds(task, c) ==>
              Fire(s, task, c) == match ParseDependents(PayloadDependents(c.payload))
                case Err(code) => Err(code)
                case Ok(dependents) => CancelWithDirectDependents(s, task, CancelFact(task, c), dependents)
  {
    hide CancelWithDirectDependents;
  }

  lemma FireCancelOutcome(s: Snapshot, task: Task, c: TransitionCommand)
    requires Valid(s) && task in s.tasks && TaskOk(task)
    requires Cascading(c.event) && Legal(task.state, c.event, c.targetState)
    ensures Fire(s, task, c) != Err(InvalidSnapshot)
    ensures Fire(s, task, c).Ok? <==> CancelEnabled(s, task, c)
    ensures Fire(s, task, c).Ok? ==> CancelEffect(s, Fire(s, task, c).value, task, CancelFact(task, c))
  {
    hide Valid, TaskOk, Fire, CancelWithDirectDependents, CancelEffect, CancelAllowed;
    FireCancelMeaning(s, task, c);
    if CancelGrounds(task, c) {
      var dependents := ParseDependents(PayloadDependents(c.payload));
      if dependents.Ok? {
        CancelOutcome(s, task, CancelFact(task, c), dependents.value);
      }
    }
  }

  /** A cancelling transition succeeds exactly when it is enabled, and then has exactly the effect of cancelling. */
  lemma CancelTransitionOutcome(s: Snapshot, c: TransitionCommand)
    requires Valid(s) && Cascading(c.event)
    ensures TransitionTask(s, c) != Err(InvalidSnapshot)
    ensures var t := TaskById(s.tasks, c.taskId);
            TransitionTask(s, c).Ok? <==> t.Some? && CancelEnabled(s, t.value, c)
    ensures TransitionTask(s, c).Ok? ==>
              var t := TaskById(s.tasks, c.taskId).value;
              CancelEffect(s, TransitionTask(s, c).value, t, CancelFact(t, c))
  {
    hide Fire, CancelEffect, CancelAllowed;
    var t := TaskById(s.tasks, c.taskId);
    if t.Some? && Legal(t.value.state, c.event, c.targetState) {
      ValidTask(s, c.taskId);
      FireCancelOutcome(s, t.value, c);
    }
  }
}
