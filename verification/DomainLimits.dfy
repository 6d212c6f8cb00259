/**
 Two claims one would like to make of every run, and exactly when they fail: that no ready task depends on a
 cancelled one, and that superseding never goes in a circle.  Each fails through one command only, under a
 condition its caller can check beforehand.
 */
module DomainLimits {
  import opened Options
  import opened Graphs
  import opened Sorting
  import opened DomainModel
  import opened DomainParsing
  import opened DomainMutations
  import opened DomainValidity
  import opened DomainOutcomes
  import opened DomainTransitions
  import opened DomainRegistration
  import opened DomainCommands
  import opened DomainRuns

  predicate CancelledIn(s: Snapshot, d: Id) {
    var t := TaskById(s.tasks, d);
    t.Some? && t.value.state == Cancelled
  }

  /** The task registered under the id is ready although a dependency is cancelled. */
  predicate Stranded(s: Snapshot, id: Id) {
    var t := TaskById(s.tasks, id);
    t.Some? && t.value.state == Ready && exists d :: d in t.value.dependencyIds && CancelledIn(s, d)
  }

  ghost predicate NoneStranded(s: Snapshot) {
    forall id :: !Stranded(s, id)
  }

  /** The one command that strands a task: giving a ready task a dependency that is already cancelled. */
  predicate Strands(s: Snapshot, c: Command) {
    && c.CAddDependency? && CancelledIn(s, c.dependencyId)
    && TaskById(s.tasks, c.taskId).Some? && TaskById(s.tasks, c.taskId).value.state == Ready
  }

  predicate StrandsTask(s: Snapshot, c: Command, id: Id) {
    Strands(s, c) && c.CAddDependency? && id == c.taskId
  }

  lemma IntendedNotCancelled(s: Snapshot, c: Command, t: Task)
    requires ChangesOne(c) && Guarded(s, c, t)
    ensures (Intended(c, t).state == Cancelled <==> t.state == Cancelled) && Intended(c, t).id == t.id
    ensures Intended(c, t).state == Ready && t.state != Ready ==>
              c.CTransition? && !DependencyIsCancelled(s, t) && Intended(c, t).dependencyIds == t.dependencyIds
    ensures Intended(c, t).state == Ready && t.state == Ready && !c.CAddDependency? ==>
              forall d :: d in Intended(c, t).dependencyIds ==> d in t.dependencyIds
    ensures c.CAddDependency? ==>
              Intended(c, t).state == t.state &&
              forall d :: d in Intended(c, t).dependencyIds <==> d in t.dependencyIds || d == c.dependencyId
  {
    hide TaskById, DependencyIsCancelled, EligibilityReasons, ContinuationReasons;
    if c.CAddDependency? {
      var all := t.dependencyIds + [c.dependencyId];
      forall d ensures d in Sort(IdKey, all) <==> d in t.dependencyIds || d == c.dependencyId {
        assert d in all <==> d in t.dependencyIds || d == c.dependencyId;
      }
    }
  }

  /** The lookups after a command on one task. */
  ghost predicate Replaces(s: Snapshot, next: Snapshot, t: Task, u: Task) {
    && u.id == t.id && TaskById(s.tasks, t.id) == Some(t)
    && forall id :: TaskById(next.tasks, id) == if id == t.id then Some(u) else TaskById(s.tasks, id)
  }

  lemma ReplacedStranded(s: Snapshot, next: Snapshot, t: Task, u: Task, id: Id)
    requires Replaces(s, next, t, u) && (u.state == Cancelled <==> t.state == Cancelled)
    ensures id != t.id ==> (Stranded(next, id) <==> Stranded(s, id))
    ensures Stranded(next, t.id) <==> u.state == Ready && exists d :: d in u.dependencyIds && CancelledIn(s, d)
  {
    hide TaskById;
    forall d ensures CancelledIn(next, d) <==> CancelledIn(s, d) {}
  }

  lemma CancelledAmong(s: Snapshot, t: Task)
    ensures DependencyIsCancelled(s, t) <==> exists d :: d in t.dependencyIds && CancelledIn(s, d)
  {
    hide TaskById;
    if d :| d in t.dependencyIds && CancelledIn(s, d) {}
  }

  lemma OneTaskStranded(s: Snapshot, next: Snapshot, c: Command, t: Task)
    requires ChangesOne(c) && Guarded(s, c, t)
    requires t.id == Subject(c) && Replaces(s, next, t, Advance(Intended(c, t)))
    ensures forall id :: !Stranded(s, id) ==> (Stranded(next, id) <==> StrandsTask(s, c, id))
  {
    hide TaskById, Guarded, Intended, Strands;
    var u := Advance(Intended(c, t));
    IntendedNotCancelled(s, c, t);
    forall id | !Stranded(s, id) ensures Stranded(next, id) <==> StrandsTask(s, c, id) {
      ReplacedStranded(s, next, t, u, id);
      if id == t.id { StrandedSubject(s, next, c, t); }
      StrandsSubject(s, c);
    }
  }

  lemma StrandsSubject(s: Snapshot, c: Command)
    ensures Strands(s, c) ==> c.CAddDependency? && Subject(c) == c.taskId
  {
  }

  lemma StrandedSubject(s: Snapshot, next: Snapshot, c: Command, t: Task)
    requires ChangesOne(c) && Guarded(s, c, t) && t.id == Subject(c)
    requires TaskById(s.tasks, t.id) == Some(t) && !Stranded(s, t.id)
    ensures (Intended(c, t).state == Ready && exists d :: d in Intended(c, t).dependencyIds && CancelledIn(s, d)) <==>
            Strands(s, c)
  {
    hide TaskById, Guarded, Intended;
    IntendedNotCancelled(s, c, t);
    CancelledAmong(s, t);
    assert t.state == Ready ==> !exists d :: d in t.dependencyIds && CancelledIn(s, d);
    if Intended(c, t).state == Ready {
      if d :| d in Intended(c, t).dependencyIds && CancelledIn(s, d) {
        assert c.CAddDependency? && d == c.dependencyId;
      }
    }
    if Strands(s, c) { assert c.dependencyId in Intended(c, t).dependencyIds; }
  }

  lemma CancelStrandsNone(s: Snapshot, m: Mutation, t: Task, fact: CancellationFact, id: Id)
    requires TaskById(s.tasks, t.id) == Some(t) && !Stranded(s, id)
    requires forall x :: CancelEffectOn(s, m, t, fact, x)
    ensures !Stranded(m.snapshot, id)
  {
    hide TaskById;
    assert CancelEffectOn(s, m, t, fact, id);
    var after := TaskById(m.snapshot.tasks, id);
    if after.Some? && after.value.state == Ready {
      assert after == TaskById(s.tasks, id);
      forall d | d in after.value.dependencyIds ensures !CancelledIn(m.snapshot, d) {
        assert CancelEffectOn(s, m, t, fact, d);
      }
    }
  }

  lemma AddedStrandsNone(s: Snapshot, m: Mutation, t: Task)
    requires TaskAdded(s, m, t) && t.state == Idea
    requires forall u, d :: u in s.tasks && d in u.dependencyIds ==> d != t.id
    ensures forall id :: !Stranded(s, id) ==> !Stranded(m.snapshot, id)
  {
    hide Valid;
    forall id | !Stranded(s, id) ensures !Stranded(m.snapshot, id) {
      var u := TaskById(s.tasks, id);
      if id != t.id && u.Some? {
        forall d | d in u.value.dependencyIds ensures CancelledIn(m.snapshot, d) <==> CancelledIn(s, d) {}
      }
    }
  }

  lemma UnregisteredUnused(s: Snapshot, id: Id)
    requires Valid(s) && TaskById(s.tasks, id).None?
    ensures forall u, d :: u in s.tasks && d in u.dependencyIds ==> d != id
    ensures forall u :: u in s.tasks ==> u.supersedesTaskId != Some(id)
  {
    forall u | u in s.tasks ensures id !in u.dependencyIds && u.supersedesTaskId != Some(id) {
      assert RefsOk(s.projects, s.tasks, Complete, u);
    }
  }

  lemma SameTasksStranded(s: Snapshot, next: Snapshot)
    requires next.tasks == s.tasks
    ensures forall id :: !Stranded(s, id) ==> !Stranded(next, id)
  {
    forall id | !Stranded(s, id) ensures !Stranded(next, id) {
      forall d ensures CancelledIn(next, d) <==> CancelledIn(s, d) {}
    }
  }

  lemma NewTaskIdle(id: Id, projectId: Id, body: string, supersedes: Option<Id>)
    ensures NewTask(id, projectId, body, supersedes).state == Idea
    ensures NewTask(id, projectId, body, supersedes).id == id
  {
  }

  /** A task that was not stranded is stranded by a command exactly when that gives it a cancelled dependency while ready. */
  lemma StrandedExactly(s: Snapshot, c: Command)
    requires Valid(s) && Execute(s, c).Ok?
    ensures forall id :: !Stranded(s, id) ==> (Stranded(Execute(s, c).value.snapshot, id) <==> StrandsTask(s, c, id))
    ensures NoneStranded(s) ==> (NoneStranded(Execute(s, c).value.snapshot) <==> !Strands(s, c))
  {
    hide Valid, Execute, Effect, Stranded, Strands;
    ExecuteOutcome(s, c);
    EffectStranded(s, c, Execute(s, c).value);
    StrandsSubject(s, c);
    if NoneStranded(s) && Strands(s, c) { assert StrandsTask(s, c, Subject(c)); }
  }

  lemma EffectStranded(s: Snapshot, c: Command, m: Mutation)
    requires Valid(s) && Effect(s, c, m)
    ensures forall id :: !Stranded(s, id) ==> (Stranded(m.snapshot, id) <==> StrandsTask(s, c, id))
  {
    hide Valid, Stranded, Guarded, OneTaskChanged, CancelEffect, CancelFact, CancelEnabled, TaskById, TaskAdded, NewTask;
    if ChangesOne(c) {
      var t := TaskById(s.tasks, Subject(c)).value;
      OneTaskLookup(s, m, t, Intended(c, t), KindOf(c));
      OneTaskStranded(s, m.snapshot, c, t);
    } else if Cancels(c) {
      var t := TaskById(s.tasks, Subject(c)).value;
      CancelLegal(s, t, c.command);
      CancelParts(s, m, t, CancelFact(t, c.command));
      forall id | !Stranded(s, id) ensures !Stranded(m.snapshot, id) {
        CancelStrandsNone(s, m, t, CancelFact(t, c.command), id);
      }
    } else if c.CCreateTask? {
      var t := NewTask(c.taskId, c.projectId, c.body, c.supersedes);
      NewTaskIdle(c.taskId, c.projectId, c.body, c.supersedes);
      AddedIsNew(s, m, t);
      UnregisteredUnused(s, t.id);
      AddedStrandsNone(s, m, t);
    } else {
      SameTasksStranded(s, m.snapshot);
    }
  }

  lemma AddedIsNew(s: Snapshot, m: Mutation, t: Task)
    requires TaskAdded(s, m, t)
    ensures TaskById(s.tasks, t.id).None?
  {
  }

  // ---------------------------------------------------------------- the smallest failing case

  const CANCELLED: CancellationFact := CancellationFact(ByCancel, "no longer wanted", None, 1)

  function Minimal(id: Id, state: TaskState, cancellation: Option<CancellationFact>): Task {
    Task(id, 1, state, 2, "", None, [], None, None, cancellation, None)
  }

  /** A ready task 1 and a cancelled task 2 in one project. */
  const TWO_TASKS: Snapshot :=
    Snapshot([Project(1, true)], [Minimal(1, Ready, None), Minimal(2, Cancelled, Some(CANCELLED))])

  lemma NoEdgesValid(s: Snapshot)
    requires Canonical(ProjectKey, s.projects) && Canonical(TaskKey, s.tasks)
    requires forall t :: t in s.tasks ==> TaskOk(t) && RefsOk(s.projects, s.tasks, Complete, t)
    requires forall t :: t in s.tasks ==> t.dependencyIds == [] && t.parentId.None?
    ensures Valid(s) && forall a, b :: Reaches(DependencyGraph(s.tasks), a, b) ==> a == b
  {
    forall v, w
      ensures !Edge(DependencyGraph(s.tasks), v, w) && !Edge(ParentGraph(s.tasks), v, w)
    {
      DependencyEdge(s.tasks, v, w);
      ParentGraphEdge(s.tasks, v, w);
    }
    forall a, b | Reaches(DependencyGraph(s.tasks), a, b) ensures a == b {
      if a != b { var x := ReachesFirst(DependencyGraph(s.tasks), a, b); }
    }
  }

  lemma TwoTasksValid()
    ensures Valid(TWO_TASKS) && NoneStranded(TWO_TASKS)
    ensures TaskById(TWO_TASKS.tasks, 1) == Some(Minimal(1, Ready, None))
    ensures TaskById(TWO_TASKS.tasks, 2) == Some(Minimal(2, Cancelled, Some(CANCELLED)))
    ensures !Reaches(DependencyGraph(TWO_TASKS.tasks), 2, 1)
  {
    var s := TWO_TASKS;
    assert s.tasks[1..] == [Minimal(2, Cancelled, Some(CANCELLED))];
    assert TaskById(s.tasks[1..], 2) == Some(Minimal(2, Cancelled, Some(CANCELLED)));
    assert s.tasks[0] == Minimal(1, Ready, None);
    assert TaskById(s.tasks, 1) == Some(Minimal(1, Ready, None));
    assert ProjectById(s.projects, 1) == Some(Project(1, true));
    NoEdgesValid(s);
    forall id ensures !Stranded(s, id) {}
  }

  /** The claim does fail: the ready task may be given the cancelled one as a dependency. */
  lemma ReadyTaskGainsCancelledDependency()
    ensures Valid(TWO_TASKS) && NoneStranded(TWO_TASKS)
    ensures Execute(TWO_TASKS, CAddDependency(1, 2)).Ok?
    ensures !NoneStranded(Execute(TWO_TASKS, CAddDependency(1, 2)).value.snapshot)
  {
    hide Valid, NoneStranded, TaskById, OneTaskChanged, CommitOne;
    TwoTasksValid();
    AddDependencySucceeds(TWO_TASKS, 1, 2);
    assert Strands(TWO_TASKS, CAddDependency(1, 2));
    StrandedExactly(TWO_TASKS, CAddDependency(1, 2));
  }

  // ---------------------------------------------------------------- supersession

  /** The one command that closes a circle of superseding tasks. */
  ghost predicate ClosesCircle(s: Snapshot, c: Command) {
    c.CSetSupersession? && c.supersedes.Some? && Reaches(SupersessionGraph(s.tasks), c.supersedes.value, c.taskId)
  }

  lemma ReplacedSupersession(s: Snapshot, next: Snapshot, t: Task, u: Task)
    requires Replaces(s, next, t, u) && Acyclic(SupersessionGraph(s.tasks))
    ensures Acyclic(SupersessionGraph(next.tasks)) <==>
            (u.supersedesTaskId.Some? ==> !Reaches(SupersessionGraph(s.tasks), u.supersedesTaskId.value, t.id))
    ensures u.supersedesTaskId == t.supersedesTaskId ==> Acyclic(SupersessionGraph(next.tasks))
  {
    hide TaskById, SupersessionGraph, Acyclic, Reaches;
    var g, h := SupersessionGraph(s.tasks), SupersessionGraph(next.tasks);
    forall v, w
      ensures Edge(h, v, w) <==> if v == t.id then u.supersedesTaskId == Some(w) else Edge(g, v, w)
    {
      SupersessionEdge(s.tasks, v, w);
      SupersessionEdge(next.tasks, v, w);
    }
    ReplaceNode(g, h, t.id);
    if u.supersedesTaskId.Some? && u.supersedesTaskId == t.supersedesTaskId {
      SupersessionEdge(s.tasks, t.id, u.supersedesTaskId.value);
      AcyclicEdge(g, t.id, u.supersedesTaskId.value);
    }
  }

  lemma AcyclicEdge(g: Graph, v: Id, w: Id)
    requires Acyclic(g) && Edge(g, v, w)
    ensures !Reaches(g, w, v)
  {
    assert !OnCycle(g, v);
  }

  lemma AddedSupersession(s: Snapshot, m: Mutation, t: Task)
    requires Valid(s) && TaskAdded(s, m, t) && Acyclic(SupersessionGraph(s.tasks))
    requires t.supersedesTaskId != Some(t.id)
    ensures Acyclic(SupersessionGraph(m.snapshot.tasks))
  {
    hide Valid, TaskById, SupersessionGraph, Acyclic, Reaches;
    var g, h := SupersessionGraph(s.tasks), SupersessionGraph(m.snapshot.tasks);
    UnregisteredUnused(s, t.id);
    forall v, w
      ensures Edge(h, v, w) <==> if v == t.id then t.supersedesTaskId == Some(w) else Edge(g, v, w)
      ensures Edge(g, v, w) ==> w != t.id
    {
      SupersessionEdge(s.tasks, v, w);
      SupersessionEdge(m.snapshot.tasks, v, w);
      if Edge(g, v, w) { LookupMember(s, v); }
    }
    ReplaceNode(g, h, t.id);
    forall d | d != t.id ensures !Reaches(g, d, t.id) { NothingLeadsTo(g, d, t.id); }
  }

  lemma LookupMember(s: Snapshot, id: Id)
    ensures TaskById(s.tasks, id).Some? ==> TaskById(s.tasks, id).value in s.tasks
  {
  }

  lemma NothingLeadsTo(g: Graph, d: Id, v: Id)
    requires d != v && forall x :: !Edge(g, x, v)
    ensures !Reaches(g, d, v)
  {
    forall p ensures !PathBetween(g, p, d, v) {
      if |p| > 1 { assert !Edge(g, p[|p| - 2], v); }
    }
  }

  lemma SupersessionKept(s: Snapshot, m: Mutation, t: Task, fact: CancellationFact)
    requires TaskById(s.tasks, t.id) == Some(t)
    requires forall x :: CancelEffectOn(s, m, t, fact, x)
    ensures Acyclic(SupersessionGraph(m.snapshot.tasks)) <==> Acyclic(SupersessionGraph(s.tasks))
  {
    hide TaskById, SupersessionGraph, Acyclic, Reaches;
    forall v, w ensures Edge(SupersessionGraph(m.snapshot.tasks), v, w) <==> Edge(SupersessionGraph(s.tasks), v, w) {
      SupersessionEdge(s.tasks, v, w);
      SupersessionEdge(m.snapshot.tasks, v, w);
      assert CancelEffectOn(s, m, t, fact, v);
    }
    SameEdges(SupersessionGraph(m.snapshot.tasks), SupersessionGraph(s.tasks));
  }

  lemma IntendedSupersession(c: Command, t: Task)
    requires ChangesOne(c)
    ensures Intended(c, t).supersedesTaskId == if c.CSetSupersession? then c.supersedes else t.supersedesTaskId
  {
  }

  lemma EffectSupersession(s: Snapshot, c: Command, m: Mutation)
    requires Valid(s) && Acyclic(SupersessionGraph(s.tasks)) && Effect(s, c, m)
    ensures Acyclic(SupersessionGraph(m.snapshot.tasks)) <==> !ClosesCircle(s, c)
  {
    hide Valid, Guarded, OneTaskChanged, CancelEffect, CancelFact, CancelEnabled, TaskById, TaskAdded, NewTask,
         SupersessionGraph, Acyclic, Reaches, Intended;
    if ChangesOne(c) {
      var t := TaskById(s.tasks, Subject(c)).value;
      OneTaskLookup(s, m, t, Intended(c, t), KindOf(c));
      IntendedSupersession(c, t);
      ReplacedSupersession(s, m.snapshot, t, Advance(Intended(c, t)));
    } else if Cancels(c) {
      var t := TaskById(s.tasks, Subject(c)).value;
      CancelLegal(s, t, c.command);
      CancelParts(s, m, t, CancelFact(t, c.command));
      SupersessionKept(s, m, t, CancelFact(t, c.command));
    } else if c.CCreateTask? {
      CreatedSupersession(s, c, m);
    }
  }

  lemma CreatedSupersession(s: Snapshot, c: Command, m: Mutation)
    requires Valid(s) && Acyclic(SupersessionGraph(s.tasks)) && c.CCreateTask?
    requires TaskAdded(s, m, NewTask(c.taskId, c.projectId, c.body, c.supersedes))
    ensures Acyclic(SupersessionGraph(m.snapshot.tasks))
  {
    hide TaskById, SupersessionGraph, Acyclic, Reaches;
    var t := NewTask(c.taskId, c.projectId, c.body, c.supersedes);
    AddedOk(m, t);
    AddedSupersession(s, m, t);
  }

  lemma AddedOk(m: Mutation, t: Task)
    requires Valid(m.snapshot) && TaskById(m.snapshot.tasks, t.id) == Some(t)
    ensures t.supersedesTaskId != Some(t.id)
  {
    assert TaskOk(t);
  }

  /** Superseding stays free of circles exactly when no task is made to supersede one that leads back to it. */
  lemma SupersessionExactly(s: Snapshot, c: Command)
    requires Valid(s) && Acyclic(SupersessionGraph(s.tasks)) && Execute(s, c).Ok?
    ensures Acyclic(SupersessionGraph(Execute(s, c).value.snapshot.tasks)) <==> !ClosesCircle(s, c)
  {
    hide Valid, Execute, Effect, Acyclic, SupersessionGraph, ClosesCircle;
    ExecuteOutcome(s, c);
    EffectSupersession(s, c, Execute(s, c).value);
  }

  /** Two tasks, the second superseding the first. */
  const SUPERSEDED: Snapshot :=
    Snapshot([Project(1, true)], [Minimal(1, Idea, None), Minimal(2, Idea, None).(supersedesTaskId := Some(1))])

  lemma SupersededValid()
    ensures Valid(SUPERSEDED) && Acyclic(SupersessionGraph(SUPERSEDED.tasks))
    ensures TaskById(SUPERSEDED.tasks, 1) == Some(Minimal(1, Idea, None))
    ensures TaskById(SUPERSEDED.tasks, 2) == Some(Minimal(2, Idea, None).(supersedesTaskId := Some(1)))
    ensures Reaches(SupersessionGraph(SUPERSEDED.tasks), 2, 1)
  {
    var s := SUPERSEDED;
    assert s.tasks[1..] == [Minimal(2, Idea, None).(supersedesTaskId := Some(1))];
    assert TaskById(s.tasks[1..], 2) == Some(Minimal(2, Idea, None).(supersedesTaskId := Some(1)));
    assert s.tasks[0] == Minimal(1, Idea, None);
    assert TaskById(s.tasks, 1) == Some(Minimal(1, Idea, None));
    assert ProjectById(s.projects, 1) == Some(Project(1, true));
    NoEdgesValid(s);
    var g := SupersessionGraph(s.tasks);
    forall v, w ensures Edge(g, v, w) <==> v == 2 && w == 1 { SupersessionEdge(s.tasks, v, w); }
    ReachesRefl(g, 1);
    ReachesEdge(g, 2, 1, 1);
    forall v ensures !OnCycle(g, v) {
      if OnCycle(g, v) {
        var x := ReachesFirst(g, 1, 2);
      }
    }
  }

  /** The claim does fail: the first task may be made to supersede the second in turn. */
  lemma SupersessionCircle()
    ensures Valid(SUPERSEDED) && Acyclic(SupersessionGraph(SUPERSEDED.tasks))
    ensures Execute(SUPERSEDED, CSetSupersession(1, Some(2))).Ok?
    ensures !Acyclic(SupersessionGraph(Execute(SUPERSEDED, CSetSupersession(1, Some(2))).value.snapshot.tasks))
  {
    hide Valid, TaskById, OneTaskChanged, CommitOne, Acyclic, Reaches, SupersessionGraph;
    var s, t := SUPERSEDED, Minimal(1, Idea, None);
    SupersededValid();
    LookupMember(s, 1);
    SupersessionCandidate(s, t, Some(2));
    PlainCommit(s, t, t.(supersedesTaskId := Some(2)), SupersessionChanged);
    assert RequireMutableTask(s, 1) == Ok(t);
    assert Execute(s, CSetSupersession(1, Some(2))) ==
           CommitOne(s, t, t.(supersedesTaskId := Some(2)), SupersessionChanged);
    SupersessionExactly(s, CSetSupersession(1, Some(2)));
  }
}
