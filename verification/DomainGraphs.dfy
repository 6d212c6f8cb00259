/**
 The graph searches of the task domain and the parser's loops, proved against the graphs of module Graphs and
 the specification functions of module DomainModel.
 */
module DomainGraphs {
  import opened Options
  import opened Graphs
  import opened Sorting
  import opened DomainModel
  import opened DomainParsing

  /** Every node a graph mentions, as a source or as a target of an edge. */
  ghost function Nodes(g: Graph): set<Id> {
    g.Keys + set v, w | v in g.Keys && w in g[v] :: w
  }

  lemma EdgeInNodes(g: Graph, v: Id, w: Id)
    requires Edge(g, v, w)
    ensures v in Nodes(g) && w in Nodes(g)
  {
  }

  /** A node met again on the search stack closes a cycle. */
  lemma StackCycle(g: Graph, stack: seq<Id>, id: Id)
    requires Path(g, stack + [id]) && id in stack
    ensures OnCycle(g, id)
  {
    var i :| 0 <= i < |stack| && stack[i] == id;
    var p := stack + [id];
    assert Edge(g, p[i], p[i + 1]);
    var q := p[i + 1..];
    forall k | 0 <= k < |q| - 1 ensures Edge(g, q[k], q[k + 1]) {
      assert Edge(g, p[i + 1 + k], p[i + 2 + k]);
    }
    assert PathBetween(g, q, p[i + 1], id);
  }

  lemma PathExtend(g: Graph, p: seq<Id>, w: Id)
    requires Path(g, p) && Edge(g, p[|p| - 1], w)
    ensures Path(g, p + [w])
  {
    var q := p + [w];
    forall i | 0 <= i < |q| - 1 ensures Edge(g, q[i], q[i + 1]) {
      if i < |p| - 1 { assert Edge(g, p[i], p[i + 1]); }
    }
  }

  /** All successors explored and none of them leading back: the node is on no cycle. */
  lemma ExploredNode(g: Graph, explored: set<Id>, id: Id)
    requires forall v, w :: v in explored && Edge(g, v, w) ==> w in explored
    requires id !in explored && forall w :: Edge(g, id, w) ==> w in explored
    ensures !OnCycle(g, id)
  {
    forall w | Edge(g, id, w) ensures !Reaches(g, w, id) {
      if Reaches(g, w, id) { ClosedReaches(g, explored, w, id); }
    }
  }

  /** The depth-first search of the dependency graph: nodes on the current path, and nodes done with. */
  class CycleSearch {
    const graph: Graph
    var visiting: set<Id>
    var visited: set<Id>

    ghost predicate Valid() reads this {
      && visiting !! visited
      && visiting <= Nodes(graph)
      && (forall v, w :: v in visited && Edge(graph, v, w) ==> w in visited)
      && (forall v :: v in visited ==> !OnCycle(graph, v))
    }

    constructor (graph: Graph)
      ensures Valid() && this.graph == graph && visiting == {} && visited == {}
    {
      this.graph := graph;
      visiting, visited := {}, {};
    }

    method Visit(id: Id, ghost stack: seq<Id>) returns (cycle: Option<Id>)
      requires Valid() && id in Nodes(graph)
      requires Path(graph, stack + [id]) && visiting == Elements(stack)
      modifies this
      ensures cycle.Some? ==> OnCycle(graph, cycle.value)
      ensures cycle.None? ==> Valid() && visiting == old(visiting) && old(visited) + {id} <= visited
      decreases Nodes(graph) - visiting
    {
      if id in visiting {
        StackCycle(graph, stack, id);
        return Some(id);
      }
      if id in visited {
        return None;
      }
      visiting := visiting + {id};
      ghost var path := stack + [id];
      var dependencies := Succ(graph, id);
      for i := 0 to |dependencies|
        invariant Valid()
        invariant visiting == old(visiting) + {id} == Elements(path)
        invariant old(visited) <= visited
        invariant forall k :: 0 <= k < i ==> dependencies[k] in visited
      {
        assert Edge(graph, id, dependencies[i]);
        EdgeInNodes(graph, id, dependencies[i]);
        PathExtend(graph, path, dependencies[i]);
        cycle := Visit(dependencies[i], path);
        if cycle.Some? {
          return;
        }
      }
      ExploredNode(graph, visited, id);
      visiting := visiting - {id};
      visited := visited + {id};
      return None;
    }
  }

  lemma UnregisteredNotOnCycle(g: Graph, v: Id)
    requires v !in g
    ensures !OnCycle(g, v)
  {
    assert Succ(g, v) == [];
  }

  /** Decides whether the dependencies contain a cycle; a reported task lies on one. */
  method DependencyCycle(tasks: seq<Task>) returns (cycle: Option<Id>)
    ensures cycle.None? <==> Acyclic(DependencyGraph(tasks))
    ensures cycle.Some? ==> OnCycle(DependencyGraph(tasks), cycle.value)
  {
    var byId := DependencyGraph(tasks);
    var search := new CycleSearch(byId);
    for i := 0 to |tasks|
      invariant search.Valid() && search.graph == byId && search.visiting == {}
      invariant forall k :: 0 <= k < i ==> tasks[k].id in search.visited
    {
      assert tasks[i] in tasks;
      assert [] + [tasks[i].id] == [tasks[i].id];
      cycle := search.Visit(tasks[i].id, []);
      if cycle.Some? {
        return;
      }
    }
    forall v ensures !OnCycle(byId, v) {
      if v !in byId { UnregisteredNotOnCycle(byId, v); }
    }
    return None;
  }

  /** The task one step up the parent chain. */
  function ParentOf(tasks: seq<Task>, id: Id): Option<Id> {
    match TaskById(tasks, id) case Some(t) => t.parentId case None => None
  }

  lemma ParentEdge(tasks: seq<Task>, v: Id, w: Id)
    ensures Edge(ParentGraph(tasks), v, w) <==> ParentOf(tasks, v) == Some(w)
  {
    var t := TaskById(tasks, v);
    if t.Some? { assert v in TaskIds(tasks); }
  }

  /** Where there is a single way on, a cycle carries on to the next node. */
  lemma CycleCarriesOn(g: Graph, v: Id, w: Id)
    requires OnCycle(g, v) && forall x :: Edge(g, v, x) ==> x == w
    ensures Edge(g, v, w) && OnCycle(g, w)
  {
    var x :| Edge(g, v, x) && Reaches(g, x, v);
    if w == v {
      ReachesRefl(g, w);
    } else {
      var y := ReachesFirst(g, w, v);
      ReachesRefl(g, w);
      ReachesEdge(g, v, w, w);
      ReachesTrans(g, y, v, w);
    }
  }

  /** A parent chain that comes to an end leads into no cycle. */
  lemma {:induction false} ChainEnds(tasks: seq<Task>, chain: seq<Id>)
    requires Path(ParentGraph(tasks), chain) && ParentOf(tasks, chain[|chain| - 1]) == None
    ensures !OnCycle(ParentGraph(tasks), chain[0])
    decreases |chain|
  {
    var g := ParentGraph(tasks);
    forall x ensures Edge(g, chain[0], x) <==> ParentOf(tasks, chain[0]) == Some(x) { ParentEdge(tasks, chain[0], x); }
    if |chain| > 1 {
      assert Edge(g, chain[0], chain[1]);
      var rest := chain[1..];
      forall i | 0 <= i < |rest| - 1 ensures Edge(g, rest[i], rest[i + 1]) {
        assert Edge(g, chain[i + 1], chain[i + 2]);
      }
      ChainEnds(tasks, rest);
      if OnCycle(g, chain[0]) { CycleCarriesOn(g, chain[0], chain[1]); }
    }
  }

  /** The parent chain of v runs into a cycle. */
  ghost predicate ChainLoops(g: Graph, v: Id) {
    exists c :: Reaches(g, v, c) && OnCycle(g, c)
  }

  lemma ElementsAppend<T>(s: seq<T>, x: T)
    ensures Elements(s + [x]) == Elements(s) + {x}
  {
  }

  /** One step up the chain: the extended chain is a path. */
  lemma ChainStep(tasks: seq<Task>, chain: seq<Id>, parent: Id)
    requires Path(ParentGraph(tasks), chain) && ParentOf(tasks, chain[|chain| - 1]) == Some(parent)
    ensures Path(ParentGraph(tasks), chain + [parent]) && parent in Nodes(ParentGraph(tasks))
    ensures parent in chain ==> ChainLoops(ParentGraph(tasks), chain[0])
    ensures Elements(chain + [parent]) == Elements(chain) + {parent}
  {
    var g := ParentGraph(tasks);
    ParentEdge(tasks, chain[|chain| - 1], parent);
    PathExtend(g, chain, parent);
    EdgeInNodes(g, chain[|chain| - 1], parent);
    ElementsAppend(chain, parent);
    if parent in chain {
      StackCycle(g, chain, parent);
      assert PathBetween(g, chain + [parent], chain[0], parent);
    }
  }

  /** Follows the parent chain of one task until it ends or a task is met again. */
  method ParentChainLoops(tasks: seq<Task>, id: Id) returns (loops: bool)
    ensures loops ==> ChainLoops(ParentGraph(tasks), id)
    ensures !loops ==> !OnCycle(ParentGraph(tasks), id)
  {
    var seen := {id};
    var parentId := ParentOf(tasks, id);
    ghost var chain := [id];
    while parentId.Some?
      invariant Path(ParentGraph(tasks), chain) && chain[0] == id && seen == Elements(chain)
      invariant parentId == ParentOf(tasks, chain[|chain| - 1])
      decreases Nodes(ParentGraph(tasks)) - seen
    {
      ChainStep(tasks, chain, parentId.value);
      if parentId.value in seen {
        return true;
      }
      chain := chain + [parentId.value];
      seen := seen + {parentId.value};
      parentId := ParentOf(tasks, parentId.value);
    }
    ChainEnds(tasks, chain);
    return false;
  }

  /** Decides whether some parent chain loops; a reported task's own chain does. */
  method ParentCycle(tasks: seq<Task>) returns (cycle: Option<Id>)
    ensures cycle.None? <==> Acyclic(ParentGraph(tasks))
    ensures cycle.Some? ==> ChainLoops(ParentGraph(tasks), cycle.value)
  {
    for i := 0 to |tasks|
      invariant forall k :: 0 <= k < i ==> !OnCycle(ParentGraph(tasks), tasks[k].id)
    {
      var loops := ParentChainLoops(tasks, tasks[i].id);
      if loops {
        return Some(tasks[i].id);
      }
    }
    forall v ensures !OnCycle(ParentGraph(tasks), v) {
      if v !in ParentGraph(tasks) { UnregisteredNotOnCycle(ParentGraph(tasks), v); }
    }
    return None;
  }

  /** The search has reached every node it knows of, and every successor of a seen node is known. */
  ghost predicate Searching(g: Graph, from: Id, seen: set<Id>, pending: seq<Id>) {
    && (forall v :: v in pending ==> Reaches(g, from, v) && v in Nodes(g) + {from})
    && (forall v, w :: v in seen && Edge(g, v, w) ==> w in seen || w in pending)
    && (from in seen || from in pending)
  }

  lemma SearchStep(g: Graph, from: Id, seen: set<Id>, pending: seq<Id>, current: Id)
    requires Searching(g, from, seen, pending + [current])
    ensures current in seen ==> Searching(g, from, seen, pending)
    ensures Searching(g, from, seen + {current}, pending + Succ(g, current))
  {
    var before := pending + [current];
    assert current == before[|pending|];
    assert current in before;
    forall v | v in pending ensures v in before {
      var i :| 0 <= i < |pending| && pending[i] == v;
      assert before[i] == v;
    }
    assert forall v :: v in before ==> v in pending || v == current;
    forall w | w in Succ(g, current) ensures Reaches(g, from, w) && w in Nodes(g) {
      assert Edge(g, current, w);
      EdgeInNodes(g, current, w);
      ReachesRefl(g, w);
      ReachesEdge(g, current, w, w);
      ReachesTrans(g, from, current, w);
    }
  }

  /** Reachability along dependencies by an explicit stack. */
  method DependencyReaches(tasks: seq<Task>, from: Id, target: Id) returns (reaches: bool)
    ensures reaches <==> Reaches(DependencyGraph(tasks), from, target)
  {
    var byId := DependencyGraph(tasks);
    var pending := [from];
    var seen: set<Id> := {};
    ReachesRefl(byId, from);
    while |pending| > 0
      invariant Searching(byId, from, seen, pending) && target !in seen
      decreases Nodes(byId) + {from} - seen, |pending|
    {
      var current := pending[|pending| - 1];
      assert pending == pending[..|pending| - 1] + [current];
      pending := pending[..|pending| - 1];
      SearchStep(byId, from, seen, pending, current);
      if current == target {
        return true;
      }
      if current !in seen {
        seen := seen + {current};
        pending := pending + Succ(byId, current);
      }
    }
    if Reaches(byId, from, target) {
      ClosedReaches(byId, seen, from, target);
    }
    return false;
  }

  /** Walks up from a proposed parent; true exactly when the walk meets the task to be moved. */
  method ParentChainMeets(tasks: seq<Task>, parent: Task, taskId: Id) returns (meets: bool)
    requires DistinctKeys(TaskKey, tasks) && parent in tasks && TaskById(tasks, taskId).Some?
    ensures meets <==> Reaches(ParentGraph(tasks), parent.id, taskId)
  {
    ghost var g := ParentGraph(tasks);
    var cursor := Some(parent);
    var seen: set<Id> := {};
    FindTask(tasks, parent);
    ReachesRefl(g, parent.id);
    while cursor.Some?
      invariant taskId !in seen
      invariant cursor.Some? ==> TaskById(tasks, cursor.value.id) == cursor && Reaches(g, parent.id, cursor.value.id)
      invariant forall v :: v in seen ==> Reaches(g, parent.id, v)
      invariant parent.id in seen || (cursor.Some? && cursor.value.id == parent.id)
      invariant forall v, w :: v in seen && Edge(g, v, w) ==>
                  w in seen || w !in g || (cursor.Some? && w == cursor.value.id)
      decreases TaskIds(tasks) - seen, cursor.Some?
    {
      var at := cursor.value;
      if at.id == taskId {
        return true;
      }
      forall w ensures Edge(g, at.id, w) <==> at.parentId == Some(w) { ParentEdge(tasks, at.id, w); }
      if at.parentId.None? || at.id in seen {
        NoWayOn(g, seen + {at.id}, parent.id, taskId);
        return false;
      }
      seen := seen + {at.id};
      ReachesRefl(g, at.parentId.value);
      ReachesEdge(g, at.id, at.parentId.value, at.parentId.value);
      ReachesTrans(g, parent.id, at.id, at.parentId.value);
      cursor := TaskById(tasks, at.parentId.value);
    }
    NoWayOn(g, seen, parent.id, taskId);
    return false;
  }

  /** A set left only towards unregistered nodes does not lead to a registered node outside it. */
  lemma NoWayOn(g: Graph, s: set<Id>, from: Id, target: Id)
    requires from in s && target !in s && target in g
    requires forall v, w :: v in s && Edge(g, v, w) ==> w in s || w !in g
    ensures !Reaches(g, from, target)
  {
    if Reaches(g, from, target) {
      var closed := s + (Nodes(g) - g.Keys);
      forall v, w | v in closed && Edge(g, v, w) ensures w in closed {
        EdgeInNodes(g, v, w);
      }
      ClosedReaches(g, closed, from, target);
    }
  }

  ghost function Prepend(parsed: seq<Task>, rest: Result<seq<Task>>): Result<seq<Task>> {
    match rest case Ok(tasks) => Ok(parsed + tasks) case Err(code) => Err(code)
  }

  method ParseTasksByLoop(tasks: seq<Task>) returns (r: Result<seq<Task>>)
    ensures r == ParseTasks(tasks)
  {
    var parsed: seq<Task> := [];
    assert tasks[0..] == tasks;
    assert ParseTasks(tasks).Ok? ==> parsed + ParseTasks(tasks).value == ParseTasks(tasks).value;
    for i := 0 to |tasks|
      invariant ParseTasks(tasks) == Prepend(parsed, ParseTasks(tasks[i..]))
    {
      assert tasks[i..][0] == tasks[i] && tasks[i..][1..] == tasks[i + 1..];
      var result := ParseTask(tasks[i]);
      if result.Err? {
        return Err(result.code);
      }
      assert forall rest :: parsed + ([result.value] + rest) == (parsed + [result.value]) + rest;
      parsed := parsed + [result.value];
    }
    assert tasks[|tasks|..] == [] && parsed + [] == parsed;
    return Ok(parsed);
  }

  method RefsByLoop(projects: seq<Project>, tasks: seq<Task>, mode: Mode) returns (ok: bool)
    ensures ok <==> forall t :: t in tasks ==> RefsOk(projects, tasks, mode, t)
  {
    for i := 0 to |tasks|
      invariant forall k :: 0 <= k < i ==> RefsOk(projects, tasks, mode, tasks[k])
    {
      if !RefsOk(projects, tasks, mode, tasks[i]) {
        assert tasks[i] in tasks;
        return false;
      }
    }
    return true;
  }

  /** The parser as the loops of the source run it. */
  method ParseByLoops(s: Snapshot, mode: Mode) returns (r: Result<Snapshot>)
    ensures r == ParseSnapshot(s, mode)
  {
    var projects := Sort(ProjectKey, s.projects);
    if |Elements(Map(ProjectKey, projects))| != |projects| {
      return Err(InvalidSnapshot);
    }
    var parsed := ParseTasksByLoop(s.tasks);
    if parsed.Err? {
      return Err(parsed.code);
    }
    var tasks := Sort(TaskKey, parsed.value);
    if |Elements(Map(TaskKey, tasks))| != |tasks| {
      return Err(InvalidSnapshot);
    }
    var refs := RefsByLoop(projects, tasks, mode);
    if !refs {
      return Err(InvalidSnapshot);
    }
    var parentCycle := ParentCycle(tasks);
    if parentCycle.Some? {
      return Err(InvalidSnapshot);
    }
    var dependencyCycle := DependencyCycle(tasks);
    if dependencyCycle.Some? {
      return Err(InvalidSnapshot);
    }
    return Ok(Snapshot(projects, tasks));
  }
}
