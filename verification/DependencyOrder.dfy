/** The depth-first dependency sort of the plugin host, and what its two answers mean (plugin_runtime.go). */
module DependencyOrder {
  import opened Common

  /** The registered plugins and the dependencies each one declares. */
  type Graph = map<string, seq<string>>

  datatype Failure = Cycle(id: string) | Missing(id: string)

  ghost predicate Edge(g: Graph, p: seq<string>, i: nat)
    requires i + 1 < |p|
  {
    p[i] in g && p[i + 1] in g[p[i]]
  }

  ghost predicate Path(g: Graph, p: seq<string>) {
    |p| >= 2 && forall i :: 0 <= i < |p| - 1 ==> Edge(g, p, i)
  }

  ghost predicate Reaches(g: Graph, x: string, y: string) {
    exists p :: Path(g, p) && p[0] == x && p[|p| - 1] == y
  }

  /** Some plugin reaches itself, or names an unregistered dependency. */
  ghost predicate Defective(g: Graph) {
    || (exists x :: Reaches(g, x, x))
    || (exists x, d :: x in g && d in g[x] && d !in g)
  }

  ghost predicate Witness(g: Graph, f: Failure) {
    match f
    case Cycle(id) => Reaches(g, id, id)
    case Missing(id) => id !in g && exists x :: x in g && id in g[x]
  }

  /** No id twice, and every dependency before its dependents. */
  ghost predicate Sorted(g: Graph, order: seq<string>) {
    && (forall i, j :: 0 <= i < j < |order| ==> order[i] != order[j])
    && (forall i :: 0 <= i < |order| ==> order[i] in g && forall d :: d in g[order[i]] ==> d in order[..i])
  }

  ghost predicate TopologicalOrder(g: Graph, order: seq<string>) {
    Sorted(g, order) && forall x :: x in g ==> x in order
  }

  lemma EdgeReaches(g: Graph, x: string, y: string)
    requires x in g && y in g[x]
    ensures Reaches(g, x, y)
  {
    assert Path(g, [x, y]);
  }

  lemma ReachesFurther(g: Graph, x: string, y: string, z: string)
    requires Reaches(g, x, y) && y in g && z in g[y]
    ensures Reaches(g, x, z)
  {
    var p :| Path(g, p) && p[0] == x && p[|p| - 1] == y;
    var q := p + [z];
    forall i | 0 <= i < |q| - 1 ensures Edge(g, q, i) {
      if i < |p| - 1 { assert Edge(g, p, i); }
    }
    assert Path(g, q) && q[|q| - 1] == z;
  }

  /** Along a path the positions in a topological order go down. */
  lemma {:induction false} PathDescends(g: Graph, order: seq<string>, p: seq<string>, i: nat)
    requires TopologicalOrder(g, order) && Path(g, p) && i < |order| && order[i] == p[0]
    ensures p[|p| - 1] in order[..i]
    decreases |p|
  {
    assert Edge(g, p, 0);
    assert p[1] in order[..i];
    var k :| 0 <= k < i && order[k] == p[1];
    if |p| > 2 {
      forall j | 0 <= j < |p[1..]| - 1 ensures Edge(g, p[1..], j) { assert Edge(g, p, j + 1); }
      PathDescends(g, order, p[1..], k);
      assert order[..k] <= order[..i];
      var e :| 0 <= e < k && order[..k][e] == p[|p| - 1];
      assert order[..i][e] == p[|p| - 1];
    }
  }

  lemma NotBefore(order: seq<string>, i: nat)
    requires forall j, k :: 0 <= j < k < |order| ==> order[j] != order[k]
    requires i < |order|
    ensures order[i] !in order[..i]
  {
  }

  /** A graph that has a topological order has no cycle and no missing dependency. */
  lemma OrderedMeansSound(g: Graph, order: seq<string>)
    requires TopologicalOrder(g, order)
    ensures !Defective(g)
  {
    forall x ensures !Reaches(g, x, x) {
      if Reaches(g, x, x) {
        var p :| Path(g, p) && p[0] == x && p[|p| - 1] == x;
        assert Edge(g, p, 0);
        var i :| 0 <= i < |order| && order[i] == x;
        NotBefore(order, i);
        PathDescends(g, order, p, i);
      }
    }
    forall x, d | x in g && d in g[x] ensures d in g {
      var i :| 0 <= i < |order| && order[i] == x;
      assert d in order[..i];
      var j :| 0 <= j < i && order[..i][j] == d;
      assert order[j] in g;
    }
  }

  lemma WitnessMeansDefective(g: Graph, f: Failure)
    requires Witness(g, f)
    ensures Defective(g)
  {
  }

  const OPEN: nat := 1
  const DONE: nat := 2

  class Sorter {
    const graph: Graph
    var marks: map<string, nat>
    var order: seq<string>

    constructor (graph: Graph)
      ensures this.graph == graph && Valid() && marks == map[]
    {
      this.graph := graph;
      marks := map[];
      order := [];
    }

    ghost predicate Valid() reads this {
      && Sorted(graph, order)
      && (forall x :: x in order <==> x in marks && marks[x] == DONE)
      && (forall x :: x in marks ==> x in graph && (marks[x] == OPEN || marks[x] == DONE))
    }

    /** Every plugin on the current path reaches `id`. */
    ghost predicate PathReaches(id: string) reads this {
      forall x :: x in marks && marks[x] == OPEN ==> Reaches(graph, x, id)
    }

    /** What a successful visit keeps: older marks stay, newer ones are done. */
    ghost predicate Extends(before: map<string, nat>) reads this {
      && (forall x :: x in before ==> x in marks && marks[x] == before[x])
      && (forall x :: x in marks && x !in before ==> marks[x] == DONE)
    }

    method Visit(id: string) returns (failure: Option<Failure>)
      requires Valid() && PathReaches(id)
      requires id in graph || exists x :: x in graph && id in graph[x]
      modifies this`marks, this`order
      ensures Valid()
      ensures failure.Some? ==> Witness(graph, failure.value)
      ensures failure.None? ==> id in marks && marks[id] == DONE && Extends(old(marks))
      decreases |graph.Keys - marks.Keys|, 0
    {
      if id in marks {
        if marks[id] == OPEN { return Some(Cycle(id)); }
        return None;
      }
      if id !in graph { return Some(Missing(id)); }
      assert id in graph.Keys - marks.Keys;
      SmallerSet(graph.Keys - (marks.Keys + {id}), graph.Keys - marks.Keys);
      marks := marks[id := OPEN];
      assert graph.Keys - marks.Keys == graph.Keys - (old(marks).Keys + {id});
      failure := VisitDependencies(id);
      if failure.None? { Append(id); }
    }

    /** What reaches `id` reaches its dependencies. */
    lemma PathGoesOn(id: string, d: string)
      requires id in graph && d in graph[id] && forall x :: x in marks && marks[x] == OPEN && x != id ==> Reaches(graph, x, id)
      ensures PathReaches(d)
    {
      forall x | x in marks && marks[x] == OPEN ensures Reaches(graph, x, d) {
        if x == id { EdgeReaches(graph, id, d); } else { ReachesFurther(graph, x, id, d); }
      }
    }

    method VisitDependencies(id: string) returns (failure: Option<Failure>)
      requires Valid() && id in marks && marks[id] == OPEN
      requires forall x :: x in marks && marks[x] == OPEN && x != id ==> Reaches(graph, x, id)
      modifies this`marks, this`order
      ensures Valid()
      ensures failure.Some? ==> Witness(graph, failure.value)
      ensures failure.None? ==> Extends(old(marks)) && forall d :: d in graph[id] ==> d in order
      decreases |graph.Keys - marks.Keys|, 1
    {
      ghost var before := marks;
      var i := 0;
      while i < |graph[id]|
        invariant 0 <= i <= |graph[id]|
        invariant Valid() && Extends(before)
        invariant forall j :: 0 <= j < i ==> graph[id][j] in order
      {
        var d := graph[id][i];
        PathGoesOn(id, d);
        SmallerSet(graph.Keys - marks.Keys, graph.Keys - before.Keys);
        failure := Visit(d);
        if failure.Some? { return; }
        i := i + 1;
      }
      failure := None;
    }

    method Append(id: string)
      requires Valid() && id in graph && id !in order && id in marks && forall d :: d in graph[id] ==> d in order
      modifies this`marks, this`order
      ensures Valid() && marks == old(marks)[id := DONE]
    {
      marks := marks[id := DONE];
      order := order + [id];
      assert forall i :: 0 <= i < |order| - 1 ==> order[..i] == old(order)[..i];
      assert order[..|order| - 1] == old(order);
    }
  }

  lemma SmallerSet(a: set<string>, b: set<string>)
    requires a <= b
    ensures |a| <= |b| && (a < b ==> |a| < |b|)
  {
    assert b == a + (b - a);
    if a < b {
      var x :| x in b - a;
      assert |b - a| >= 1;
    }
  }

  /** Visits the registered ids in the given listing (the code sorts their names). */
  method DependencyOrder(graph: Graph, ids: seq<string>) returns (order: seq<string>, failure: Option<Failure>)
    requires forall x :: x in ids <==> x in graph
    ensures failure.None? ==> TopologicalOrder(graph, order)
    ensures failure.Some? ==> order == [] && Witness(graph, failure.value)
    ensures failure.Some? <==> Defective(graph)
  {
    var sorter := new Sorter(graph);
    var i := 0;
    while i < |ids|
      invariant 0 <= i <= |ids| && sorter.graph == graph && sorter.Valid() && fresh(sorter)
      invariant forall x :: x in sorter.marks ==> sorter.marks[x] == DONE
      invariant forall j :: 0 <= j < i ==> ids[j] in sorter.order
    {
      failure := sorter.Visit(ids[i]);
      if failure.Some? {
        WitnessMeansDefective(graph, failure.value);
        return [], failure;
      }
      i := i + 1;
    }
    OrderedMeansSound(graph, sorter.order);
    order, failure := sorter.order, None;
  }
}
