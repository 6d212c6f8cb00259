/**
 Finite directed graphs over identifiers: paths, reachability and cycles.  The dependency relation, the
 parent forest and the supersession links of a snapshot are all read as such a graph.
 */
module Graphs {
  /** Identifiers: the source compares them only with a total order, for which the integers stand. */
  type Id = int

  type Graph = map<Id, seq<Id>>

  /** Successors of a node; a node that is not registered has none. */
  function Succ(g: Graph, v: Id): seq<Id> {
    if v in g then g[v] else []
  }

  ghost predicate Edge(g: Graph, v: Id, w: Id) {
    w in Succ(g, v)
  }

  ghost predicate Path(g: Graph, p: seq<Id>) {
    && |p| >= 1
    && forall i :: 0 <= i < |p| - 1 ==> Edge(g, p[i], p[i + 1])
  }

  ghost predicate PathBetween(g: Graph, p: seq<Id>, a: Id, b: Id) {
    Path(g, p) && p[0] == a && p[|p| - 1] == b
  }

  /** b can be reached from a by zero or more edges. */
  ghost predicate Reaches(g: Graph, a: Id, b: Id) {
    exists p :: PathBetween(g, p, a, b)
  }

  /** v lies on a cycle: a path of at least one edge leads from v back to v. */
  ghost predicate OnCycle(g: Graph, v: Id) {
    exists w :: Edge(g, v, w) && Reaches(g, w, v)
  }

  ghost predicate Acyclic(g: Graph) {
    forall v :: !OnCycle(g, v)
  }

  lemma CycleIntro(g: Graph, v: Id, w: Id)
    requires Edge(g, v, w) && Reaches(g, w, v)
    ensures OnCycle(g, v)
  {
  }

  lemma ReachesRefl(g: Graph, a: Id)
    ensures Reaches(g, a, a)
  {
    assert PathBetween(g, [a], a, a);
  }

  lemma ReachesEdge(g: Graph, a: Id, b: Id, c: Id)
    requires Edge(g, a, b) && Reaches(g, b, c)
    ensures Reaches(g, a, c)
  {
    var p :| PathBetween(g, p, b, c);
    var q := [a] + p;
    forall i | 0 <= i < |q| - 1 ensures Edge(g, q[i], q[i + 1]) {
      if i > 0 { assert Edge(g, p[i - 1], p[i]); }
    }
    assert PathBetween(g, q, a, c);
  }

  /** Reachability unfolds at its first edge. */
  lemma ReachesFirst(g: Graph, a: Id, c: Id) returns (b: Id)
    requires Reaches(g, a, c) && a != c
    ensures Edge(g, a, b) && Reaches(g, b, c)
  {
    var p :| PathBetween(g, p, a, c);
    b := p[1];
    assert Edge(g, p[0], p[1]);
    var q := p[1..];
    forall i | 0 <= i < |q| - 1 ensures Edge(g, q[i], q[i + 1]) {
      assert Edge(g, p[i + 1], p[i + 2]);
    }
    assert PathBetween(g, q, b, c);
  }

  lemma {:induction false} PathTrans(g: Graph, p: seq<Id>, a: Id, b: Id, c: Id)
    requires PathBetween(g, p, a, b) && Reaches(g, b, c)
    ensures Reaches(g, a, c)
    decreases |p|
  {
    if |p| > 1 {
      assert Edge(g, p[0], p[1]);
      var q := p[1..];
      forall i | 0 <= i < |q| - 1 ensures Edge(g, q[i], q[i + 1]) {
        assert Edge(g, p[i + 1], p[i + 2]);
      }
      PathTrans(g, q, p[1], b, c);
      ReachesEdge(g, a, p[1], c);
    }
  }

  lemma ReachesTrans(g: Graph, a: Id, b: Id, c: Id)
    requires Reaches(g, a, b) && Reaches(g, b, c)
    ensures Reaches(g, a, c)
  {
    var p :| PathBetween(g, p, a, b);
    PathTrans(g, p, a, b, c);
  }

  /** A set closed under successors keeps every path that starts inside it. */
  lemma {:induction false} ClosedPath(g: Graph, s: set<Id>, p: seq<Id>)
    requires forall v, w :: v in s && Edge(g, v, w) ==> w in s
    requires Path(g, p) && p[0] in s
    ensures p[|p| - 1] in s
    decreases |p|
  {
    if |p| > 1 {
      assert Edge(g, p[0], p[1]);
      var q := p[1..];
      forall i | 0 <= i < |q| - 1 ensures Edge(g, q[i], q[i + 1]) {
        assert Edge(g, p[i + 1], p[i + 2]);
      }
      ClosedPath(g, s, q);
    }
  }

  lemma ClosedReaches(g: Graph, s: set<Id>, a: Id, b: Id)
    requires forall v, w :: v in s && Edge(g, v, w) ==> w in s
    requires a in s && Reaches(g, a, b)
    ensures b in s
  {
    var p :| PathBetween(g, p, a, b);
    ClosedPath(g, s, p);
  }

  /** The two graphs have the same edges except those leaving t. */
  ghost predicate SameExceptAt(g: Graph, h: Graph, t: Id) {
    forall v, w :: v != t ==> (Edge(g, v, w) <==> Edge(h, v, w))
  }

  /** A path that ends in t can be cut at its first t, before any edge leaving t is used. */
  lemma {:induction false} PathToFirst(g: Graph, h: Graph, t: Id, p: seq<Id>)
    requires SameExceptAt(g, h, t) && Path(h, p) && p[|p| - 1] == t
    ensures Reaches(g, p[0], t)
    decreases |p|
  {
    if p[0] == t {
      ReachesRefl(g, t);
    } else {
      assert Edge(h, p[0], p[1]);
      var q := p[1..];
      forall i | 0 <= i < |q| - 1 ensures Edge(h, q[i], q[i + 1]) {
        assert Edge(h, p[i + 1], p[i + 2]);
      }
      PathToFirst(g, h, t, q);
      ReachesEdge(g, p[0], p[1], t);
    }
  }

  lemma ReachesTarget(g: Graph, h: Graph, t: Id, a: Id)
    requires SameExceptAt(g, h, t)
    ensures Reaches(g, a, t) <==> Reaches(h, a, t)
  {
    if Reaches(h, a, t) {
      var p :| PathBetween(h, p, a, t);
      PathToFirst(g, h, t, p);
    }
    if Reaches(g, a, t) {
      var p :| PathBetween(g, p, a, t);
      PathToFirst(h, g, t, p);
    }
  }

  /** A path avoiding t uses only edges common to both graphs. */
  lemma {:induction false} PathAvoiding(g: Graph, h: Graph, t: Id, p: seq<Id>)
    requires SameExceptAt(g, h, t) && Path(h, p)
    ensures Reaches(g, p[0], p[|p| - 1]) || (Reaches(h, t, p[|p| - 1]) && Reaches(h, p[0], t))
    decreases |p|
  {
    if |p| == 1 {
      ReachesRefl(g, p[0]);
    } else {
      assert Edge(h, p[0], p[1]);
      var q := p[1..];
      forall i | 0 <= i < |q| - 1 ensures Edge(h, q[i], q[i + 1]) {
        assert Edge(h, p[i + 1], p[i + 2]);
      }
      assert q[|q| - 1] == p[|p| - 1];
      if p[0] == t {
        assert PathBetween(h, p, t, p[|p| - 1]);
        ReachesRefl(h, t);
      } else {
        PathAvoiding(g, h, t, q);
        if Reaches(g, q[0], q[|q| - 1]) {
          ReachesEdge(g, p[0], p[1], p[|p| - 1]);
        } else {
          ReachesEdge(h, p[0], p[1], t);
        }
      }
    }
  }

  /**
   Replacing the edges that leave one node keeps an acyclic graph acyclic exactly when none of the new
   successors already reaches that node: the local guard decides the global check.
   */
  lemma ReplaceNode(g: Graph, h: Graph, t: Id)
    requires Acyclic(g) && SameExceptAt(g, h, t)
    ensures Acyclic(h) <==> forall d :: Edge(h, t, d) ==> !Reaches(g, d, t)
  {
    if d :| Edge(h, t, d) && Reaches(g, d, t) {
      ReachesTarget(g, h, t, d);
      assert OnCycle(h, t);
    }
    if v :| OnCycle(h, v) {
      var w :| Edge(h, v, w) && Reaches(h, w, v);
      ReachesEdge(h, v, w, v);
      var p :| PathBetween(h, p, w, v);
      if v == t {
        ReachesTarget(g, h, t, w);
      } else {
        PathAvoiding(g, h, t, p);
        if Reaches(g, w, v) {
          CycleIntro(g, v, w);
        } else {
          assert Reaches(h, t, v) && Reaches(h, w, t);
          ReachesEdge(h, v, w, t);
          var d := ReachesFirst(h, t, v);
          ReachesTrans(h, d, v, t);
          ReachesTarget(g, h, t, d);
        }
      }
    }
  }

  /** Two graphs with the same edges have the same cycles. */
  lemma SameEdges(g: Graph, h: Graph)
    requires forall v, w :: Edge(g, v, w) <==> Edge(h, v, w)
    ensures forall a, b :: Reaches(g, a, b) <==> Reaches(h, a, b)
    ensures Acyclic(g) <==> Acyclic(h)
  {
    forall p | Path(g, p) ensures Path(h, p) {
      forall i | 0 <= i < |p| - 1 ensures Edge(h, p[i], p[i + 1]) { assert Edge(g, p[i], p[i + 1]); }
    }
    forall p | Path(h, p) ensures Path(g, p) {
      forall i | 0 <= i < |p| - 1 ensures Edge(g, p[i], p[i + 1]) { assert Edge(h, p[i], p[i + 1]); }
    }
    forall a, b ensures Reaches(g, a, b) <==> Reaches(h, a, b) {
      if Reaches(g, a, b) { var p :| PathBetween(g, p, a, b); assert PathBetween(h, p, a, b); }
      if Reaches(h, a, b) { var p :| PathBetween(h, p, a, b); assert PathBetween(g, p, a, b); }
    }
    forall v ensures OnCycle(g, v) <==> OnCycle(h, v) {
      if OnCycle(g, v) { var w :| Edge(g, v, w) && Reaches(g, w, v); assert Edge(h, v, w); }
      if OnCycle(h, v) { var w :| Edge(h, v, w) && Reaches(h, w, v); assert Edge(g, v, w); }
    }
  }
}
