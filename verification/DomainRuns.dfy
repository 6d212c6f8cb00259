/**
 What every step of the task domain keeps, and hence what holds after every run of commands: terminal tasks never
 change, every state change follows the transition relation, and work only ever starts on completed ground.
 */
module DomainRuns {
  import opened Options
  import opened Graphs
  import opened Sorting
  import opened DomainModel
  import opened DomainParsing
  import opened DomainMutations
  import opened DomainValidity
  import opened DomainOutcomes
  import opened DomainTransitions
  import opened DomainRegistration
  import opened DomainCommands

  /** Work on the task has begun. */
  predicate Started(t: Task) {
    t.state == Running || t.state == Completed
  }

  predicate DependencyDone(s: Snapshot, d: Id) {
    var t := TaskById(s.tasks, d);
    t.Some? && t.value.state == Completed
  }

  predicate DependenciesDone(s: Snapshot, t: Task) {
    forall d :: d in t.dependencyIds ==> DependencyDone(s, d)
  }

  /** Every running or completed task has all its direct dependencies completed. */
  ghost predicate StartedOnCompleted(s: Snapshot) {
    forall t :: t in s.tasks && Started(t) ==> DependenciesDone(s, t)
  }

  // ---------------------------------------------------------------- the decisions' reasons

  /** A task has no reason against it exactly when it is ready, in an enabled project, on completed ground. */
  lemma NoEligibilityReasons(s: Snapshot, t: Task)
    ensures EligibilityReasons(s, t) == {} <==>
            && t.state == Ready && ProjectById(s.projects, t.projectId) == Some(Project(t.projectId, true))
            && DependenciesDone(s, t)
  {
    hide TaskById, ProjectById;
    assert StateNotReady in EligibilityReasons(s, t) <==> t.state != Ready;
    assert EligibilityReason.ProjectNotRegistered in EligibilityReasons(s, t) <==>
           ProjectById(s.projects, t.projectId).None?;
    assert EligibilityReason.ProjectNotEnabled in EligibilityReasons(s, t) <==> ProjectDisabledIn(s, t);
    assert EligibilityReason.DependencyNotRegistered in EligibilityReasons(s, t) <==> DependencyMissing(s, t);
    assert EligibilityReason.DependencyNotCompleted in EligibilityReasons(s, t) <==> DependencyUnfinished(s, t);
  }

  lemma NoContinuationReasons(s: Snapshot, t: Task, c: Continuation)
    requires ContinuationReasons(s, t, c) == {}
    ensures t.state == Waiting && t.waiting.Some? && DependenciesDone(s, t)
    ensures ProjectById(s.projects, t.projectId) == Some(Project(t.projectId, true))
  {
    hide TaskById, ProjectById;
    assert t.state == Waiting && t.waiting.Some?;
    assert !DependencyMissing(s, t) by {
      assert DependencyMissing(s, t) ==> ContinuationReason.DependencyNotRegistered in ContinuationReasons(s, t, c);
    }
    assert !DependencyUnfinished(s, t) by {
      assert DependencyUnfinished(s, t) ==> ContinuationReason.DependencyNotCompleted in ContinuationReasons(s, t, c);
    }
    assert ProjectById(s.projects, t.projectId).Some? by {
      assert ProjectById(s.projects, t.projectId).None? ==>
               ContinuationReason.ProjectNotRegistered in ContinuationReasons(s, t, c);
    }
    assert !ProjectDisabledIn(s, t) by {
      assert ProjectDisabledIn(s, t) ==> ContinuationReason.ProjectNotEnabled in ContinuationReasons(s, t, c);
    }
  }

  // ---------------------------------------------------------------- one step

  /** What any command may do to a registered task. */
  ghost predicate TaskStep(s: Snapshot, before: Task, after: Task) {
    && after.id == before.id && after.projectId == before.projectId
    && (after == before || after.revision == before.revision + 1)
    && (Terminal(before.state) ==> after == before)
    && (after.state != before.state ==> SomeTransition(before.state, after.state))
    && (Started(after) ==>
          after.dependencyIds == before.dependencyIds && (Started(before) || DependenciesDone(s, before)))
    && (after.state == Ready && before.state != Ready ==>
          after.dependencyIds == before.dependencyIds && !DependencyIsCancelled(s, before))
  }

  /** What any command may do under an id: change a registered task, or add an idea that depends on nothing. */
  ghost predicate IdStep(s: Snapshot, before: Option<Task>, after: Option<Task>) {
    match before
    case Some(b) => after.Some? && TaskStep(s, b, after.value)
    case None => after.None? || (after.value.state == Idea && after.value.dependencyIds == [] && after.value.revision == 1)
  }

  lemma TransitionStep(s: Snapshot, t: Task, c: TransitionCommand)
    requires !Cascading(c.event) && PayloadFits(c) && Enabled(s, t, c) && Target(t, c).state == c.targetState
    ensures TaskStep(s, t, Advance(Target(t, c)))
  {
    if c.event.ClaimAccepted? { NoEligibilityReasons(s, t); }
    if c.event.ResumeAccepted? || c.event.RetryAccepted? { NoContinuationReasons(s, t, c.payload.continuation); }
    assert SomeTransition(t.state, c.targetState);
    hide EligibilityReasons, ContinuationReasons, TaskById, ProjectById;
  }

  lemma OneTaskStep(s: Snapshot, c: Command, t: Task)
    requires ChangesOne(c) && Guarded(s, c, t)
    ensures TaskStep(s, t, Advance(Intended(c, t)))
  {
    hide Enabled, TaskById, DependenciesDone, DependencyIsCancelled;
    if c.CTransition? { TransitionStep(s, t, c.command); }
  }

  lemma CancelStep(s: Snapshot, m: Mutation, t: Task, fact: CancellationFact, event: TransitionEvent, id: Id)
    requires TaskById(s.tasks, t.id) == Some(t) && Legal(t.state, event, Cancelled)
    requires CancelEffectOn(s, m, t, fact, id)
    ensures IdStep(s, TaskById(s.tasks, id), TaskById(m.snapshot.tasks, id))
  {
    hide DependenciesDone, DependencyIsCancelled;
    assert SomeTransition(t.state, Cancelled);
    assert Legal(Ready, TransitionEvent.DependencyCancelled, Waiting);
    assert SomeTransition(Ready, Waiting);
    var before := TaskById(s.tasks, id);
    if id != t.id && !(before.Some? && ReadyDependent(before.value, t.id)) {
      if before.None? { assert TaskById(m.snapshot.tasks, id).None?; }
    }
  }

  lemma CancelLegal(s: Snapshot, t: Task, c: TransitionCommand)
    requires CancelEnabled(s, t, c)
    ensures Legal(t.state, c.event, Cancelled) && CancelGrounds(t, c)
  {
  }

  /** Every successful command is a step: nothing disappears, and each task changes only as a task may. */
  lemma EffectSteps(s: Snapshot, c: Command, m: Mutation)
    requires Valid(s) && Effect(s, c, m)
    ensures forall id :: IdStep(s, TaskById(s.tasks, id), TaskById(m.snapshot.tasks, id))
  {
    hide Valid, OneTaskChanged, CancelEffect, CancelFact, CancelEnabled, Guarded, CancelEffectOn, TaskStep, TaskById;
    forall id ensures IdStep(s, TaskById(s.tasks, id), TaskById(m.snapshot.tasks, id)) {
      var before := TaskById(s.tasks, id);
      if before.Some? { Unchanged(s, before.value); }
      if ChangesOne(c) {
        var t := TaskById(s.tasks, Subject(c)).value;
        OneTaskLookup(s, m, t, Intended(c, t), KindOf(c));
        OneTaskStep(s, c, t);
      } else if Cancels(c) {
        var t := TaskById(s.tasks, Subject(c)).value;
        CancelLegal(s, t, c.command);
        CancelParts(s, m, t, CancelFact(t, c.command));
        CancelStep(s, m, t, CancelFact(t, c.command), c.command.event, id);
      }
    }
  }

  lemma Unchanged(s: Snapshot, t: Task)
    ensures t.state != Ready && !Started(t) ==> TaskStep(s, t, t)
    ensures TaskStep(s, t, t)
  {
  }

  /** The step relation lifted to whole snapshots. */
  ghost predicate Step(s: Snapshot, next: Snapshot) {
    forall id :: IdStep(s, TaskById(s.tasks, id), TaskById(next.tasks, id))
  }

  lemma InLookup(s: Snapshot, t: Task)
    requires Valid(s) && t in s.tasks
    ensures TaskById(s.tasks, t.id) == Some(t)
  {
    CanonicalTasks(s);
    hide Valid;
    FindTask(s.tasks, t);
  }

  lemma DoneStays(s: Snapshot, next: Snapshot, d: Id)
    requires Step(s, next) && DependencyDone(s, d)
    ensures DependencyDone(next, d)
  {
    assert IdStep(s, TaskById(s.tasks, d), TaskById(next.tasks, d));
  }

  lemma StepKeepsStarted(s: Snapshot, next: Snapshot)
    requires Valid(s) && Valid(next) && Step(s, next) && StartedOnCompleted(s)
    ensures StartedOnCompleted(next)
  {
    hide Valid, DependencyDone, TaskById;
    forall t | t in next.tasks && Started(t) ensures DependenciesDone(next, t) {
      InLookup(next, t);
      var before := TaskById(s.tasks, t.id);
      assert IdStep(s, before, TaskById(next.tasks, t.id));
      forall d | d in t.dependencyIds ensures DependencyDone(next, d) {
        assert DependenciesDone(s, before.value);
        DoneStays(s, next, d);
      }
    }
  }

  // ---------------------------------------------------------------- runs

  /** The snapshot after one command: unchanged when the command is refused. */
  ghost function After(s: Snapshot, c: Command): Snapshot {
    match Apply(s, c) case Ok(m) => m.snapshot case Err(_) => s
  }

  ghost function AfterAll(s: Snapshot, commands: seq<Command>): Snapshot
    decreases |commands|
  {
    if commands == [] then s else AfterAll(After(s, commands[0]), commands[1..])
  }

  lemma OneCommand(s: Snapshot, c: Command)
    requires Valid(s)
    ensures Valid(After(s, c)) && Step(s, After(s, c))
    ensures StartedOnCompleted(s) ==> StartedOnCompleted(After(s, c))
  {
    hide Valid, ParseSnapshot, Execute, Effect, StartedOnCompleted, TaskStep, TaskById;
    ParsesUnchanged(s);
    ExecuteOutcome(s, c);
    if Execute(s, c).Ok? {
      EffectValid(s, c, Execute(s, c).value);
      EffectSteps(s, c, Execute(s, c).value);
    } else {
      forall id ensures IdStep(s, TaskById(s.tasks, id), TaskById(s.tasks, id)) {
        var t := TaskById(s.tasks, id);
        if t.Some? { Unchanged(s, t.value); }
      }
    }
    if StartedOnCompleted(s) { StepKeepsStarted(s, After(s, c)); }
  }

  lemma ParsesUnchanged(s: Snapshot)
    requires Valid(s)
    ensures ParseSnapshot(s, Complete) == Ok(s)
  {
    hide ParseSnapshot, WellFormed;
    ParseWellFormed(s, Complete);
  }

  /** A registered task stays registered under its project; once terminal it stays exactly as it is. */
  ghost predicate Persists(before: Task, after: Option<Task>) {
    && after.Some? && after.value.projectId == before.projectId && after.value.revision >= before.revision
    && (Terminal(before.state) ==> after.value == before)
  }

  lemma PersistsOn(s: Snapshot, next: Snapshot, t: Task, u: Task)
    requires Step(s, next) && TaskById(s.tasks, u.id) == Some(u) && Persists(t, Some(u)) && t.id == u.id
    ensures Persists(t, TaskById(next.tasks, t.id))
  {
    assert IdStep(s, TaskById(s.tasks, t.id), TaskById(next.tasks, t.id));
  }

  lemma {:induction false} RunPersists(s: Snapshot, commands: seq<Command>, t: Task, u: Task)
    requires Valid(s) && TaskById(s.tasks, t.id) == Some(u) && Persists(t, Some(u))
    ensures Persists(t, TaskById(AfterAll(s, commands).tasks, t.id))
    decreases |commands|
  {
    hide Valid, After, Step, Persists, StartedOnCompleted, TaskById;
    if commands != [] {
      var next := After(s, commands[0]);
      OneCommand(s, commands[0]);
      PersistsOn(s, next, t, u);
      var v := TaskById(next.tasks, t.id);
      assert v.Some? by { PersistsSome(t, v); }
      RunPersists(next, commands[1..], t, v.value);
    }
  }

  lemma PersistsSome(t: Task, u: Option<Task>)
    requires Persists(t, u)
    ensures u.Some? && Some(u.value) == u
  {
  }

  /** After any run of commands the snapshot is valid, and running and completed tasks stand on completed ones. */
  lemma {:induction false} RunInvariant(s: Snapshot, commands: seq<Command>)
    requires Valid(s) && StartedOnCompleted(s)
    ensures Valid(AfterAll(s, commands)) && StartedOnCompleted(AfterAll(s, commands))
    decreases |commands|
  {
    hide Valid, After, StartedOnCompleted, Step;
    if commands != [] {
      OneCommand(s, commands[0]);
      RunInvariant(After(s, commands[0]), commands[1..]);
    }
  }

  /** Terminal tasks are never changed again, and no task is ever lost. */
  lemma RunKeepsTasks(s: Snapshot, commands: seq<Command>, t: Task)
    requires Valid(s) && t in s.tasks
    ensures Persists(t, TaskById(AfterAll(s, commands).tasks, t.id))
  {
    hide Valid, AfterAll;
    InLookup(s, t);
    RunPersists(s, commands, t, t);
  }

  const EMPTY: Snapshot := Snapshot([], [])

  lemma EmptyValid()
    ensures Valid(EMPTY) && StartedOnCompleted(EMPTY)
  {
    assert DependencyGraph([]) == map[] && ParentGraph([]) == map[];
    forall v ensures !OnCycle(map[], v) {
      assert Succ(map[], v) == [];
    }
  }

  lemma {:induction false} CompletedAlong(s: Snapshot, t: Task, p: seq<Id>)
    requires StartedOnCompleted(s) && TaskById(s.tasks, t.id) == Some(t) && Started(t)
    requires Path(DependencyGraph(s.tasks), p) && p[0] == t.id && |p| > 1
    ensures DependencyDone(s, p[|p| - 1])
    decreases |p|
  {
    assert Edge(DependencyGraph(s.tasks), p[0], p[1]);
    DependencyEdge(s.tasks, p[0], p[1]);
    assert DependenciesDone(s, t);
    assert DependencyDone(s, p[1]);
    if |p| > 2 {
      var q := p[1..];
      forall i | 0 <= i < |q| - 1 ensures Edge(DependencyGraph(s.tasks), q[i], q[i + 1]) {
        assert Edge(DependencyGraph(s.tasks), p[i + 1], p[i + 2]);
      }
      CompletedAlong(s, TaskById(s.tasks, p[1]).value, q);
    }
  }

  /**
   In every snapshot reached from the empty one, everything a running or completed task depends on, however
   indirectly, is completed; in particular none of it is cancelled.
   */
  lemma StartedClosure(commands: seq<Command>, t: Task, d: Id)
    requires var s := AfterAll(EMPTY, commands);
             t in s.tasks && Started(t) && d != t.id && Reaches(DependencyGraph(s.tasks), t.id, d)
    ensures DependencyDone(AfterAll(EMPTY, commands), d)
  {
    hide Valid, AfterAll, StartedOnCompleted, DependencyDone, TaskById, DependencyGraph;
    var s := AfterAll(EMPTY, commands);
    EmptyValid();
    RunInvariant(EMPTY, commands);
    InLookup(s, t);
    var p :| PathBetween(DependencyGraph(s.tasks), p, t.id, d);
    CompletedAlong(s, t, p);
  }
}
