/**
 The snapshot parser computes a canonical form: what it accepts and yields, that it is idempotent, and that
 the order in which projects, tasks and dependency identifiers are listed does not matter.
 */
module DomainParsing {
  import opened Options
  import opened Graphs
  import opened Sorting
  import opened DomainModel

  lemma DistinctIds(tasks: seq<Task>)
    ensures |Elements(Map(TaskKey, tasks))| == |tasks| <==> DistinctKeys(TaskKey, tasks)
  {
    var ids := Map(TaskKey, tasks);
    DistinctCount(ids);
    if DistinctKeys(IdKey, ids) {
      forall i, j | 0 <= i < j < |tasks| ensures TaskKey(tasks[i]) != TaskKey(tasks[j]) {
        assert IdKey(ids[i]) != IdKey(ids[j]);
      }
    }
  }

  lemma DistinctProjectIds(projects: seq<Project>)
    ensures |Elements(Map(ProjectKey, projects))| == |projects| <==> DistinctKeys(ProjectKey, projects)
  {
    var ids := Map(ProjectKey, projects);
    DistinctCount(ids);
    if DistinctKeys(IdKey, ids) {
      forall i, j | 0 <= i < j < |projects| ensures ProjectKey(projects[i]) != ProjectKey(projects[j]) {
        assert IdKey(ids[i]) != IdKey(ids[j]);
      }
    }
  }

  /** With distinct ids a lookup finds the one task registered under the id. */
  lemma FindTask(tasks: seq<Task>, t: Task)
    requires DistinctKeys(TaskKey, tasks) && t in tasks
    ensures TaskById(tasks, t.id) == Some(t)
  {
    var r := TaskById(tasks, t.id);
    KeyDetermines(TaskKey, tasks, r.value, t);
  }

  lemma FindProject(projects: seq<Project>, p: Project)
    requires DistinctKeys(ProjectKey, projects) && p in projects
    ensures ProjectById(projects, p.id) == Some(p)
  {
    var r := ProjectById(projects, p.id);
    KeyDetermines(ProjectKey, projects, r.value, p);
  }

  lemma CanonicalDistinctTasks(tasks: seq<Task>)
    requires Canonical(TaskKey, tasks)
    ensures DistinctKeys(TaskKey, tasks)
  {
  }

  lemma {:induction false} ParseTasksAccepts(tasks: seq<Task>)
    ensures ParseTasks(tasks).Ok? <==> forall t :: t in tasks ==> TaskShape(t)
    ensures ParseTasks(tasks).Ok? ==> ParseTasks(tasks).value == Map(Normalize, tasks)
  {
    if |tasks| > 0 {
      assert tasks == [tasks[0]] + tasks[1..];
      ParseTaskAccepts(tasks[0]);
      ParseTasksAccepts(tasks[1..]);
      assert Map(Normalize, tasks) == [Normalize(tasks[0])] + Map(Normalize, tasks[1..]);
      if forall t :: t in tasks ==> TaskShape(t) {
        forall t | t in tasks[1..] ensures TaskShape(t) { assert t in tasks; }
      }
    }
  }

  /** The sorted form of everything in a snapshot. */
  function CanonicalForm(s: Snapshot): Snapshot {
    Snapshot(Sort(ProjectKey, s.projects), Sort(TaskKey, Map(Normalize, s.tasks)))
  }

  lemma SortedIds(tasks: seq<Task>)
    requires Sorted(TaskKey, tasks)
    ensures |Elements(Map(TaskKey, tasks))| == |tasks| <==> Canonical(TaskKey, tasks)
  {
    DistinctIds(tasks);
    if Canonical(TaskKey, tasks) { assert DistinctKeys(TaskKey, tasks); }
  }

  lemma SortedProjectIds(projects: seq<Project>)
    requires Sorted(ProjectKey, projects)
    ensures |Elements(Map(ProjectKey, projects))| == |projects| <==> Canonical(ProjectKey, projects)
  {
    DistinctProjectIds(projects);
    if Canonical(ProjectKey, projects) { assert DistinctKeys(ProjectKey, projects); }
  }

  lemma ShapesNormalize(tasks: seq<Task>)
    requires forall t :: t in tasks ==> TaskShape(t)
    ensures forall t :: t in Sort(TaskKey, Map(Normalize, tasks)) ==> TaskOk(t)
  {
    forall t | t in Sort(TaskKey, Map(Normalize, tasks)) ensures TaskOk(t) {
      assert t in Map(Normalize, tasks);
      var i :| 0 <= i < |tasks| && Map(Normalize, tasks)[i] == t;
      assert tasks[i] in tasks;
      ParseTaskAccepts(tasks[i]);
    }
  }

  /**
   The parser accepts exactly the snapshots whose tasks have the right shape and whose canonical form is
   well formed, and yields that canonical form.
   */
  lemma ParseAccepts(s: Snapshot, mode: Mode)
    ensures ParseSnapshot(s, mode).Ok? <==>
            (forall t :: t in s.tasks ==> TaskShape(t)) && WellFormed(CanonicalForm(s), mode)
    ensures ParseSnapshot(s, mode).Ok? ==>
              ParseSnapshot(s, mode).value == CanonicalForm(s) && WellFormed(CanonicalForm(s), mode)
  {
    ParseTasksAccepts(s.tasks);
    if ParseTasks(s.tasks).Ok? {
      ShapesNormalize(s.tasks);
      SortedProjectIds(CanonicalForm(s).projects);
      SortedIds(CanonicalForm(s).tasks);
    }
    SortedProjectIds(Sort(ProjectKey, s.projects));
  }

  lemma NormalizeCanonical(tasks: seq<Task>)
    requires forall t :: t in tasks ==> TaskOk(t)
    ensures Map(Normalize, tasks) == tasks
  {
    forall i | 0 <= i < |tasks| ensures Normalize(tasks[i]) == tasks[i] {
      assert TaskOk(tasks[i]);
      SortCanonical(IdKey, tasks[i].dependencyIds);
    }
  }

  /** On a snapshot listed in canonical order only the references and the cycles are left to decide. */
  lemma ParseCanonical(s: Snapshot, mode: Mode)
    requires Canonical(ProjectKey, s.projects) && Canonical(TaskKey, s.tasks)
    requires forall t :: t in s.tasks ==> TaskOk(t)
    ensures ParseSnapshot(s, mode) == if WellFormed(s, mode) then Ok(s) else Err(InvalidSnapshot)
  {
    ParseTasksAccepts(s.tasks);
    NormalizeCanonical(s.tasks);
    SortCanonical(TaskKey, s.tasks);
    SortCanonical(ProjectKey, s.projects);
    SortedProjectIds(s.projects);
    SortedIds(s.tasks);
  }

  /** A well-formed snapshot is accepted unchanged. */
  lemma ParseWellFormed(s: Snapshot, mode: Mode)
    requires WellFormed(s, mode)
    ensures ParseSnapshot(s, mode) == Ok(s)
  {
    ParseCanonical(s, mode);
  }

  /** Parsing is idempotent: its result is accepted unchanged. */
  lemma ParseIdempotent(s: Snapshot, mode: Mode)
    requires ParseSnapshot(s, mode).Ok?
    ensures WellFormed(ParseSnapshot(s, mode).value, mode)
    ensures ParseSnapshot(ParseSnapshot(s, mode).value, mode) == ParseSnapshot(s, mode)
  {
    ParseAccepts(s, mode);
    ParseWellFormed(ParseSnapshot(s, mode).value, mode);
  }

  // ------------------------------------------------------------- order does not matter

  /** A task together with its dependencies, their order forgotten. */
  ghost function Unordered(t: Task): (Task, multiset<Id>) {
    (t.(dependencyIds := []), multiset(t.dependencyIds))
  }

  /** The same projects and tasks, listed in any order, each task with its dependencies in any order. */
  ghost predicate Rearranged(a: Snapshot, b: Snapshot) {
    && multiset(a.projects) == multiset(b.projects)
    && multiset(Map(Unordered, a.tasks)) == multiset(Map(Unordered, b.tasks))
  }

  lemma ShapeUnordered(t: Task, u: Task)
    requires Unordered(t) == Unordered(u)
    ensures TaskShape(t) <==> TaskShape(u)
  {
    assert u == t.(dependencyIds := u.dependencyIds);
    InSameElements(t.dependencyIds, u.dependencyIds);
    if DistinctKeys(IdKey, t.dependencyIds) { DistinctByElements(IdKey, t.dependencyIds, u.dependencyIds); }
    if DistinctKeys(IdKey, u.dependencyIds) { DistinctByElements(IdKey, u.dependencyIds, t.dependencyIds); }
  }

  ghost predicate Lists(s: seq<Id>, m: multiset<Id>) {
    Canonical(IdKey, s) && multiset(s) == m
  }

  ghost function Restore(u: (Task, multiset<Id>)): Task {
    if s :| Lists(s, u.1) then u.0.(dependencyIds := s) else u.0
  }

  lemma NormalizeRestores(t: Task)
    requires TaskShape(t)
    ensures Normalize(t) == Restore(Unordered(t))
  {
    ParseTaskAccepts(t);
    var sorted := Sort(IdKey, t.dependencyIds);
    assert Lists(sorted, multiset(t.dependencyIds));
    forall s | Lists(s, multiset(t.dependencyIds)) ensures s == sorted {
      CanonicalUnique(IdKey, s, sorted);
    }
  }

  lemma NormalizeAllRestores(tasks: seq<Task>)
    requires forall t :: t in tasks ==> TaskShape(t)
    ensures Map(Normalize, tasks) == Map(Restore, Map(Unordered, tasks))
  {
    forall i | 0 <= i < |tasks| ensures Normalize(tasks[i]) == Restore(Unordered(tasks[i])) {
      assert tasks[i] in tasks;
      NormalizeRestores(tasks[i]);
    }
  }

  lemma ShapesRearranged(a: Snapshot, b: Snapshot)
    requires Rearranged(a, b) && forall t :: t in a.tasks ==> TaskShape(t)
    ensures forall t :: t in b.tasks ==> TaskShape(t)
  {
    forall u | u in b.tasks ensures TaskShape(u) {
      var j :| 0 <= j < |b.tasks| && b.tasks[j] == u;
      assert Map(Unordered, b.tasks)[j] == Unordered(u);
      InSameElements(Map(Unordered, a.tasks), Map(Unordered, b.tasks));
      assert Unordered(u) in Map(Unordered, a.tasks);
      var i :| 0 <= i < |a.tasks| && Map(Unordered, a.tasks)[i] == Unordered(u);
      assert a.tasks[i] in a.tasks;
      ShapeUnordered(a.tasks[i], u);
    }
  }

  lemma AcceptsRearranged(a: Snapshot, b: Snapshot, mode: Mode)
    requires Rearranged(a, b) && ParseSnapshot(a, mode).Ok?
    ensures ParseSnapshot(b, mode) == ParseSnapshot(a, mode)
  {
    ParseAccepts(a, mode);
    ParseAccepts(b, mode);
    ShapesRearranged(a, b);
    NormalizeAllRestores(a.tasks);
    NormalizeAllRestores(b.tasks);
    MapRearranged(Restore, Map(Unordered, a.tasks), Map(Unordered, b.tasks));
    var c := CanonicalForm(a);
    assert DistinctKeys(ProjectKey, c.projects) && DistinctKeys(TaskKey, c.tasks);
    SortDistinct(ProjectKey, a.projects);
    SortDistinct(TaskKey, Map(Normalize, a.tasks));
    SortOrderIrrelevant(ProjectKey, a.projects, b.projects);
    SortOrderIrrelevant(TaskKey, Map(Normalize, a.tasks), Map(Normalize, b.tasks));
  }

  /** Rearranging a snapshot changes neither whether the parser accepts it nor what it yields. */
  lemma ParseOrderIrrelevant(a: Snapshot, b: Snapshot, mode: Mode)
    requires Rearranged(a, b)
    ensures ParseSnapshot(a, mode).Ok? <==> ParseSnapshot(b, mode).Ok?
    ensures ParseSnapshot(a, mode).Ok? ==> ParseSnapshot(a, mode) == ParseSnapshot(b, mode)
  {
    if ParseSnapshot(a, mode).Ok? { AcceptsRearranged(a, b, mode); }
    if ParseSnapshot(b, mode).Ok? { AcceptsRearranged(b, a, mode); }
  }
}
