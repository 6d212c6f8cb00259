/**
 Registering projects and tasks: the outcome of the commands that add an entry to a valid snapshot or switch a
 project on or off.
 */
module DomainRegistration {
  import opened Options
  import opened Graphs
  import opened Sorting
  import opened DomainModel
  import opened DomainParsing
  import opened DomainMutations
  import opened DomainValidity

  // ---------------------------------------------------------------- projects

  /** Every registered project is still registered. */
  ghost predicate KeepsProjects(before: seq<Project>, after: seq<Project>) {
    forall id :: ProjectById(before, id).Some? ==> ProjectById(after, id).Some?
  }

  lemma SortedLookup(projects: seq<Project>, id: Id)
    requires DistinctKeys(ProjectKey, projects)
    ensures ProjectById(Sort(ProjectKey, projects), id) == ProjectById(projects, id)
  {
    SortDistinct(ProjectKey, projects);
    var sorted := Sort(ProjectKey, projects);
    assert DistinctKeys(ProjectKey, sorted);
    var found := ProjectById(projects, id);
    if found.Some? { FindProject(sorted, found.value); }
  }

  /** With the tasks unchanged and no project lost, the re-validation passes. */
  lemma ProjectsParse(s: Snapshot, projects: seq<Project>)
    requires Valid(s) && DistinctKeys(ProjectKey, projects) && KeepsProjects(s.projects, projects)
    ensures var next := Snapshot(Sort(ProjectKey, projects), s.tasks);
            Valid(next) && ParseSnapshot(Snapshot(projects, s.tasks), Complete) == Ok(next)
  {
    var next := Snapshot(Sort(ProjectKey, projects), s.tasks);
    SortDistinct(ProjectKey, projects);
    NormalizeCanonical(s.tasks);
    SortCanonical(TaskKey, s.tasks);
    forall t | t in s.tasks ensures RefsOk(next.projects, next.tasks, Complete, t) {
      assert RefsOk(s.projects, s.tasks, Complete, t);
      SortedLookup(projects, t.projectId);
    }
    ParseAccepts(Snapshot(projects, s.tasks), Complete);
  }

  /** The projects differ at most under one id, and the tasks not at all. */
  ghost predicate OneProjectChanged(s: Snapshot, next: Snapshot, project: Project) {
    && Valid(next) && next.tasks == s.tasks
    && forall id :: ProjectById(next.projects, id) == if id == project.id then Some(project) else ProjectById(s.projects, id)
  }

  lemma {:induction false} AppendedLookup(projects: seq<Project>, p: Project, id: Id)
    requires ProjectById(projects, p.id).None?
    ensures ProjectById(projects + [p], id) == if id == p.id then Some(p) else ProjectById(projects, id)
  {
    var all := projects + [p];
    if |projects| > 0 {
      assert all[0] == projects[0] && all[1..] == projects[1..] + [p];
      assert projects[0] in projects;
      AppendedLookup(projects[1..], p, id);
    } else {
      assert all[0] == p && all[1..] == [];
    }
  }

  lemma RegisterProjectOutcome(s: Snapshot, projectId: Id)
    requires Valid(s)
    ensures RegisterProject(s, projectId) ==
            if ProjectById(s.projects, projectId).Some? then Err(ProjectAlreadyExists)
            else Ok(ProjectMutation(Snapshot(Sort(ProjectKey, s.projects + [Project(projectId, true)]), s.tasks), [projectId]))
    ensures RegisterProject(s, projectId).Ok? ==>
              OneProjectChanged(s, RegisterProject(s, projectId).value.snapshot, Project(projectId, true))
  {
    var p := Project(projectId, true);
    if ProjectById(s.projects, projectId).None? {
      var all := s.projects + [p];
      forall id ensures ProjectById(all, id) == if id == projectId then Some(p) else ProjectById(s.projects, id) {
        AppendedLookup(s.projects, p, id);
      }
      forall i, j | 0 <= i < j < |all| ensures ProjectKey(all[i]) != ProjectKey(all[j]) {
        assert all[i] in s.projects;
        if j < |s.projects| { assert ProjectKey(s.projects[i]) < ProjectKey(s.projects[j]); }
      }
      ProjectsParse(s, all);
      forall id ensures ProjectById(Sort(ProjectKey, all), id) == ProjectById(all, id) { SortedLookup(all, id); }
    }
  }

  lemma {:induction false} EnabledLookup(projects: seq<Project>, projectId: Id, enabled: bool, id: Id)
    ensures ProjectById(Map(Enabling(projectId, enabled), projects), id) ==
            if id == projectId && ProjectById(projects, id).Some? then Some(Project(projectId, enabled))
            else ProjectById(projects, id)
  {
    if |projects| > 0 {
      MapCons(Enabling(projectId, enabled), projects);
      EnabledLookup(projects[1..], projectId, enabled, id);
    }
  }

  lemma SetProjectEnabledOutcome(s: Snapshot, projectId: Id, enabled: bool)
    requires Valid(s)
    ensures var project := ProjectById(s.projects, projectId);
            SetProjectEnabled(s, projectId, enabled) ==
            if project.None? then Err(ProjectNotFound)
            else if project.value.enabled == enabled then Err(NoOp)
            else Ok(ProjectMutation(Snapshot(Map(Enabling(projectId, enabled), s.projects), s.tasks), [projectId]))
    ensures SetProjectEnabled(s, projectId, enabled).Ok? ==>
              OneProjectChanged(s, SetProjectEnabled(s, projectId, enabled).value.snapshot, Project(projectId, enabled))
  {
    if ProjectById(s.projects, projectId).Some? {
      var all := Map(Enabling(projectId, enabled), s.projects);
      forall i, j | 0 <= i < j < |all| ensures ProjectKey(all[i]) < ProjectKey(all[j]) {
        assert ProjectKey(s.projects[i]) < ProjectKey(s.projects[j]);
      }
      forall id ensures ProjectById(all, id) ==
        if id == projectId then Some(Project(projectId, enabled)) else ProjectById(s.projects, id)
      {
        EnabledLookup(s.projects, projectId, enabled, id);
      }
      ProjectsParse(s, all);
      SortCanonical(ProjectKey, all);
    }
  }

  // ---------------------------------------------------------------- new tasks

  /** One task was added at revision 1, and nothing else changed. */
  ghost predicate TaskAdded(s: Snapshot, m: Mutation, t: Task) {
    && Valid(m.snapshot) && m.snapshot.projects == s.projects && TaskById(s.tasks, t.id).None?
    && (forall id :: TaskById(m.snapshot.tasks, id) == if id == t.id then Some(t) else TaskById(s.tasks, id))
    && m.changedTaskIds == [t.id] && m.events == [DomainEvent(Created, t.id, None, 1)]
  }

  lemma AppendedDistinct(s: Snapshot, t: Task)
    requires Valid(s) && TaskById(s.tasks, t.id).None? && TaskOk(t)
    ensures DistinctKeys(TaskKey, s.tasks + [t]) && Map(Normalize, s.tasks + [t]) == s.tasks + [t]
    ensures forall u :: u in s.tasks + [t] ==> TaskOk(u)
  {
    var all := s.tasks + [t];
    forall i, j | 0 <= i < j < |all| ensures TaskKey(all[i]) != TaskKey(all[j]) {
      assert all[i] in s.tasks;
      if j < |s.tasks| { assert TaskKey(s.tasks[i]) < TaskKey(s.tasks[j]); }
    }
    NormalizeCanonical(all);
  }

  lemma AppendedLookups(s: Snapshot, t: Task, next: seq<Task>)
    requires TaskById(s.tasks, t.id).None? && DistinctKeys(TaskKey, next)
    requires forall u :: u in next <==> u in s.tasks || u == t
    ensures forall id :: TaskById(next, id) == if id == t.id then Some(t) else TaskById(s.tasks, id)
  {
    forall id ensures TaskById(next, id) == if id == t.id then Some(t) else TaskById(s.tasks, id) {
      var found := TaskById(s.tasks, id);
      if id == t.id { FindTask(next, t); } else if found.Some? { FindTask(next, found.value); }
    }
  }

  lemma AppendedTasks(s: Snapshot, t: Task)
    requires Valid(s) && TaskById(s.tasks, t.id).None? && TaskOk(t)
    ensures var next := Sort(TaskKey, s.tasks + [t]);
            && Canonical(TaskKey, next) && Map(Normalize, s.tasks + [t]) == s.tasks + [t]
            && (forall u :: u in next ==> TaskOk(u) && (u in s.tasks || u == t))
            && forall id :: TaskById(next, id) == if id == t.id then Some(t) else TaskById(s.tasks, id)
  {
    hide Valid, TaskOk, TaskById, Normalize;
    var all, next := s.tasks + [t], Sort(TaskKey, s.tasks + [t]);
    AppendedDistinct(s, t);
    SortDistinct(TaskKey, all);
    CanonicalDistinctTasks(next);
    assert forall u :: u in all <==> u in s.tasks || u == t;
    AppendedLookups(s, t, next);
  }

  /** Every reference of the old tasks is still good once a task was added. */
  lemma RefsAfterAdding(s: Snapshot, next: seq<Task>, t: Task, u: Task)
    requires RefsOk(s.projects, s.tasks, Complete, u) && TaskById(s.tasks, t.id).None?
    requires forall id :: TaskById(next, id) == if id == t.id then Some(t) else TaskById(s.tasks, id)
    ensures RefsOk(s.projects, next, Complete, u)
  {
  }

  /** A task that depends on nothing and has no parent adds no edge. */
  lemma AddedEdges(s: Snapshot, next: seq<Task>, t: Task)
    requires TaskById(s.tasks, t.id).None? && t.dependencyIds == [] && t.parentId.None?
    requires forall id :: TaskById(next, id) == if id == t.id then Some(t) else TaskById(s.tasks, id)
    ensures Acyclic(DependencyGraph(next)) <==> Acyclic(DependencyGraph(s.tasks))
    ensures Acyclic(ParentGraph(next)) <==> Acyclic(ParentGraph(s.tasks))
  {
    forall v, w
      ensures Edge(DependencyGraph(next), v, w) <==> Edge(DependencyGraph(s.tasks), v, w)
      ensures Edge(ParentGraph(next), v, w) <==> Edge(ParentGraph(s.tasks), v, w)
    {
      DependencyEdge(next, v, w);
      DependencyEdge(s.tasks, v, w);
      ParentGraphEdge(next, v, w);
      ParentGraphEdge(s.tasks, v, w);
    }
    SameEdges(DependencyGraph(next), DependencyGraph(s.tasks));
    SameEdges(ParentGraph(next), ParentGraph(s.tasks));
  }

  lemma AddTaskParses(s: Snapshot, t: Task)
    requires Valid(s) && TaskById(s.tasks, t.id).None? && TaskOk(t)
    requires t.dependencyIds == [] && t.parentId.None?
    requires ProjectById(s.projects, t.projectId).Some?
    requires t.supersedesTaskId.Some? ==> TaskById(s.tasks, t.supersedesTaskId.value).Some?
    ensures var next := Snapshot(s.projects, Sort(TaskKey, s.tasks + [t]));
            Valid(next) && ReplaceTasks(s, map[], [t]) == Ok(next)
  {
    AppendedTasks(s, t);
    var next := Snapshot(s.projects, Sort(TaskKey, s.tasks + [t]));
    forall u | u in next.tasks ensures RefsOk(next.projects, next.tasks, Complete, u) {
      RefsAfterAdding(s, next.tasks, t, if u in s.tasks then u else t);
    }
    AddedEdges(s, next.tasks, t);
    SortCanonical(ProjectKey, s.projects);
    assert Map(Replaced(map[]), s.tasks) == s.tasks;
    ParseAccepts(Snapshot(s.projects, s.tasks + [t]), Complete);
  }

  /** The guards of createTask. */
  predicate MayCreate(s: Snapshot, t: Task) {
    && TaskById(s.tasks, t.id).None? && ProjectById(s.projects, t.projectId).Some?
    && t.supersedesTaskId != Some(t.id)
    && (t.supersedesTaskId.Some? ==> TaskById(s.tasks, t.supersedesTaskId.value).Some?)
  }

  lemma NewTaskParses(id: Id, projectId: Id, body: string, supersedes: Option<Id>)
    ensures var t := NewTask(id, projectId, body, supersedes);
            supersedes != Some(id) ==> ParseTask(t) == Ok(t) && TaskOk(t)
    ensures Sort(IdKey, [id]) == [id]
  {
    if supersedes != Some(id) { ParseTaskCanonical(NewTask(id, projectId, body, supersedes)); }
    SortCanonical(IdKey, [id]);
  }

  lemma CreateTaskOutcome(s: Snapshot, id: Id, projectId: Id, body: string, supersedes: Option<Id>)
    requires Valid(s)
    ensures CreateTask(s, id, projectId, body, supersedes) != Err(InvalidSnapshot)
    ensures CreateTask(s, id, projectId, body, supersedes).Ok? <==> MayCreate(s, NewTask(id, projectId, body, supersedes))
    ensures CreateTask(s, id, projectId, body, supersedes).Ok? ==>
              TaskAdded(s, CreateTask(s, id, projectId, body, supersedes).value, NewTask(id, projectId, body, supersedes))
  {
    hide Valid, ReplaceTasks, TaskById, ProjectById, ParseTask, TaskOk, Sort;
    var t := NewTask(id, projectId, body, supersedes);
    if MayCreate(s, t) {
      NewTaskParses(id, projectId, body, supersedes);
      AddTaskParses(s, t);
      AppendedTasks(s, t);
    }
  }
}
