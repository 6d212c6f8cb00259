/**
 Committing changes to a valid snapshot: when the local guards have passed, the full re-validation of the
 result passes too, and the result differs from the snapshot exactly in the changed tasks.
 */
module DomainValidity {
  import opened Options
  import opened Graphs
  import opened Sorting
  import opened DomainModel
  import opened DomainParsing
  import opened DomainMutations

  // ---------------------------------------------------------------- replacing tasks in place

  ghost predicate KeepsIds(replacements: map<Id, Task>) {
    forall id :: id in replacements ==> replacements[id].id == id
  }

  /** The tasks with the replacements put in their places. */
  function Put(tasks: seq<Task>, replacements: map<Id, Task>): seq<Task> {
    Map(Replaced(replacements), tasks)
  }

  lemma {:induction false} LookupPut(tasks: seq<Task>, r: map<Id, Task>, id: Id)
    requires KeepsIds(r)
    ensures TaskById(Put(tasks, r), id) ==
            match TaskById(tasks, id) case None => None case Some(t) => Some(if id in r then r[id] else t)
  {
    if |tasks| > 0 {
      MapCons(Replaced(r), tasks);
      LookupPut(tasks[1..], r, id);
    }
  }

  lemma PutCanonical(tasks: seq<Task>, r: map<Id, Task>)
    requires KeepsIds(r) && Canonical(TaskKey, tasks)
    ensures Canonical(TaskKey, Put(tasks, r)) && TaskIds(Put(tasks, r)) == TaskIds(tasks)
  {
    var put := Put(tasks, r);
    forall i | 0 <= i < |tasks| ensures TaskKey(put[i]) == TaskKey(tasks[i]) {
    }
    forall id ensures id in TaskIds(put) <==> id in TaskIds(tasks) {
      if id in TaskIds(tasks) {
        var i :| 0 <= i < |tasks| && tasks[i].id == id;
        assert put[i] in put;
      }
      if id in TaskIds(put) {
        var i :| 0 <= i < |put| && put[i].id == id;
        assert tasks[i] in tasks;
      }
    }
  }

  lemma InPut(tasks: seq<Task>, r: map<Id, Task>, u: Task)
    requires u in Put(tasks, r)
    ensures exists t :: t in tasks && u == if t.id in r then r[t.id] else t
  {
    var i :| 0 <= i < |tasks| && Put(tasks, r)[i] == u;
    assert tasks[i] in tasks;
  }

  lemma DependencyEdge(tasks: seq<Task>, v: Id, w: Id)
    ensures Edge(DependencyGraph(tasks), v, w) <==>
            TaskById(tasks, v).Some? && w in TaskById(tasks, v).value.dependencyIds
  {
    var t := TaskById(tasks, v);
    if t.Some? { assert v in TaskIds(tasks); }
  }

  lemma ParentGraphEdge(tasks: seq<Task>, v: Id, w: Id)
    ensures Edge(ParentGraph(tasks), v, w) <==>
            TaskById(tasks, v).Some? && TaskById(tasks, v).value.parentId == Some(w)
  {
    var t := TaskById(tasks, v);
    if t.Some? { assert v in TaskIds(tasks); }
  }

  lemma SupersessionEdge(tasks: seq<Task>, v: Id, w: Id)
    ensures Edge(SupersessionGraph(tasks), v, w) <==>
            TaskById(tasks, v).Some? && TaskById(tasks, v).value.supersedesTaskId == Some(w)
  {
    var t := TaskById(tasks, v);
    if t.Some? { assert v in TaskIds(tasks); }
  }

  /** Replacements of registered tasks by tasks of the same project that are acceptable on their own. */
  ghost predicate Replaceable(s: Snapshot, r: map<Id, Task>) {
    && KeepsIds(r)
    && forall id :: id in r ==>
         && TaskById(s.tasks, id).Some? && TaskById(s.tasks, id).value.projectId == r[id].projectId
         && TaskOk(r[id]) && RefsOk(s.projects, s.tasks, Complete, r[id])
  }

  lemma RefsAfterPut(s: Snapshot, r: map<Id, Task>, t: Task)
    requires Replaceable(s, r) && RefsOk(s.projects, s.tasks, Complete, t)
    ensures RefsOk(s.projects, Put(s.tasks, r), Complete, t)
  {
    forall id ensures TaskById(Put(s.tasks, r), id) ==
      match TaskById(s.tasks, id) case None => None case Some(t) => Some(if id in r then r[id] else t)
    {
      LookupPut(s.tasks, r, id);
    }
  }

  /** Only the cycle checks are left to decide whether replaced tasks pass the re-validation. */
  lemma PutParses(s: Snapshot, r: map<Id, Task>)
    requires Valid(s) && Replaceable(s, r)
    ensures var next := Snapshot(s.projects, Put(s.tasks, r));
            if Acyclic(ParentGraph(next.tasks)) && Acyclic(DependencyGraph(next.tasks))
            then Valid(next) && ReplaceTasks(s, r, []) == Ok(next)
            else ReplaceTasks(s, r, []) == Err(InvalidSnapshot)
  {
    var next := Snapshot(s.projects, Put(s.tasks, r));
    assert Put(s.tasks, r) + [] == next.tasks;
    PutCanonical(s.tasks, r);
    forall u | u in next.tasks ensures TaskOk(u) && RefsOk(next.projects, next.tasks, Complete, u) {
      InPut(s.tasks, r, u);
      RefsAfterPut(s, r, u);
    }
    ParseCanonical(next, Complete);
  }

  // ---------------------------------------------------------------- one changed task

  /** What a single-task commit yields when it succeeds. */
  function Committed(s: Snapshot, before: Task, candidate: Task, kind: EventKind): Mutation {
    var changed := Advance(candidate);
    Mutation(Snapshot(s.projects, Put(s.tasks, map[changed.id := changed])), [changed.id],
             [DomainEvent(kind, changed.id, Some(before.revision), changed.revision)])
  }

  /** A candidate for a registered task: same identity, project and revision, and acceptable once advanced. */
  ghost predicate Candidate(s: Snapshot, before: Task, candidate: Task) {
    && before in s.tasks
    && candidate.id == before.id && candidate.projectId == before.projectId && candidate.revision == before.revision
    && (candidate.revision < MAX_SAFE_INTEGER ==> TaskOk(Advance(candidate)))
    && RefsOk(s.projects, s.tasks, Complete, candidate)
  }

  /** The edges the candidate would have lead into no cycle. */
  ghost predicate DependenciesSafe(s: Snapshot, candidate: Task) {
    forall d :: d in candidate.dependencyIds ==> !Reaches(DependencyGraph(s.tasks), d, candidate.id)
  }

  ghost predicate ParentSafe(s: Snapshot, candidate: Task) {
    candidate.parentId.Some? ==> !Reaches(ParentGraph(s.tasks), candidate.parentId.value, candidate.id)
  }

  lemma PutOneGraphs(s: Snapshot, before: Task, candidate: Task)
    requires Valid(s) && before in s.tasks && candidate.id == before.id
    ensures var next := Put(s.tasks, map[candidate.id := Advance(candidate)]);
            && (Acyclic(DependencyGraph(next)) <==> DependenciesSafe(s, candidate))
            && (Acyclic(ParentGraph(next)) <==> ParentSafe(s, candidate))
  {
    var r := map[candidate.id := Advance(candidate)];
    var next := Put(s.tasks, r);
    FindTask(s.tasks, before);
    forall v, w
      ensures Edge(DependencyGraph(next), v, w) <==>
              if v == candidate.id then w in candidate.dependencyIds else Edge(DependencyGraph(s.tasks), v, w)
      ensures Edge(ParentGraph(next), v, w) <==>
              if v == candidate.id then candidate.parentId == Some(w) else Edge(ParentGraph(s.tasks), v, w)
    {
      LookupPut(s.tasks, r, v);
      DependencyEdge(next, v, w);
      DependencyEdge(s.tasks, v, w);
      ParentGraphEdge(next, v, w);
      ParentGraphEdge(s.tasks, v, w);
    }
    ReplaceNode(DependencyGraph(s.tasks), DependencyGraph(next), candidate.id);
    ReplaceNode(ParentGraph(s.tasks), ParentGraph(next), candidate.id);
  }

  /**
   A single-task commit fails the re-validation exactly when the candidate's own edges close a cycle, and
   otherwise yields the snapshot with that one task replaced.
   */
  lemma CommitOneOutcome(s: Snapshot, before: Task, candidate: Task, kind: EventKind)
    requires Valid(s) && Candidate(s, before, candidate)
    ensures CommitOne(s, before, candidate, kind) ==
            if before.revision == MAX_SAFE_INTEGER then Err(RevisionExhausted)
            else if DependenciesSafe(s, candidate) && ParentSafe(s, candidate)
            then Ok(Committed(s, before, candidate, kind))
            else Err(InvalidSnapshot)
    ensures CommitOne(s, before, candidate, kind).Ok? ==> Valid(Committed(s, before, candidate, kind).snapshot)
  {
    hide DependenciesSafe, ParentSafe, Acyclic, ParseTask, ParseSnapshot, Sort;
    assert TaskOk(before);
    if before.revision < MAX_SAFE_INTEGER {
      var changed := Advance(candidate);
      var r := map[changed.id := changed];
      ParseTaskCanonical(changed);
      FindTask(s.tasks, before);
      PutParses(s, r);
      PutOneGraphs(s, before, candidate);
      SortCanonical(IdKey, [changed.id]);
    }
  }

  /** A candidate that keeps its edges keeps them safe. */
  lemma KeptEdgesSafe(s: Snapshot, before: Task, candidate: Task)
    requires Valid(s) && before in s.tasks && candidate.id == before.id
    ensures (forall d :: d in candidate.dependencyIds ==> d in before.dependencyIds) ==> DependenciesSafe(s, candidate)
    ensures candidate.parentId == before.parentId ==> ParentSafe(s, candidate)
  {
    FindTask(s.tasks, before);
    forall d | d in before.dependencyIds ensures !Reaches(DependencyGraph(s.tasks), d, before.id) {
      DependencyEdge(s.tasks, before.id, d);
      assert !OnCycle(DependencyGraph(s.tasks), before.id);
    }
    if before.parentId.Some? {
      ParentGraphEdge(s.tasks, before.id, before.parentId.value);
      assert !OnCycle(ParentGraph(s.tasks), before.id);
    }
  }
}
