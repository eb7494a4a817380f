/** Cycles of the dependency graph (internal/scd/config/rules.go, findCycles and dependencies). */
module Cycles {
  import opened Sets

  /** The targets of the edges of a node, in order. */
  type Edges<T(==)> = map<T, seq<T>>

  function Succ<T(==)>(edges: Edges<T>, n: T): seq<T> {
    if n in edges then edges[n] else []
  }

  /** Node i of p has an edge to the next. */
  predicate Step<T(==)>(edges: Edges<T>, p: seq<T>, i: int)
    requires 0 <= i < |p| - 1
  {
    p[i + 1] in Succ(edges, p[i])
  }

  /** Each node of p has an edge to the next. */
  predicate IsPath<T(==)>(edges: Edges<T>, p: seq<T>) {
    forall i :: 0 <= i < |p| - 1 ==> Step(edges, p, i)
  }

  /** A cycle: a path of distinct nodes whose last has an edge to its first. */
  predicate IsCycle<T(==)>(edges: Edges<T>, c: seq<T>) {
    c != [] && IsPath(edges, c) && c[0] in Succ(edges, c[|c| - 1]) && NoRepeats(c)
  }

  ghost predicate Acyclic<T(!new)>(edges: Edges<T>) {
    forall c: seq<T> :: !IsCycle(edges, c)
  }

  function Rotate<T>(c: seq<T>, k: nat): seq<T>
    requires k <= |c|
  {
    c[k..] + c[..k]
  }

  lemma RotatedIsCycle<T>(edges: Edges<T>, c: seq<T>, k: nat)
    requires IsCycle(edges, c) && k < |c|
    ensures IsCycle(edges, Rotate(c, k))
  {
    var r := Rotate(c, k);
    forall i | 0 <= i < |r| - 1
      ensures Step(edges, r, i)
    {
      if i + k + 1 < |c| {
        assert Step(edges, c, i + k);
      } else if i + k + 1 > |c| {
        assert Step(edges, c, i + k - |c|);
      }
    }
    if k > 0 {
      assert Step(edges, c, k - 1);
    }
  }

  /** The position of a node in the order, 0 when it is not there. */
  function Index<T(==)>(order: seq<T>, n: T): (i: nat)
    ensures n in order ==> i < |order| && order[i] == n && forall j :: 0 <= j < i ==> order[j] != n
  {
    if n !in order then 0
    else if order[0] == n then 0
    else
      assert order == [order[0]] + order[1..];
      1 + Index(order[1..], n)
  }

  /** No node of c comes before its first in the order. */
  predicate StartsFirst<T(==)>(order: seq<T>, c: seq<T>) {
    c != [] ==> forall i :: 0 <= i < |c| ==> Index(order, c[0]) <= Index(order, c[i])
  }

  /** Rotated to start with their first node in the order, two rotations of one cycle are the
      same: a cycle that is reported once per rotated form is reported once. */
  lemma RotatedFormIsUnique<T>(edges: Edges<T>, order: seq<T>, c: seq<T>, k: nat)
    requires IsCycle(edges, c) && k < |c| && forall n :: n in c ==> n in order
    requires StartsFirst(order, c) && StartsFirst(order, Rotate(c, k))
    ensures Rotate(c, k) == c
  {
    var r := Rotate(c, k);
    if k > 0 {
      assert r[|c| - k] == c[0] && r[0] == c[k];
      assert Index(order, c[0]) == Index(order, c[k]);
      assert false;
    }
  }

  // ---- no cycle in a graph whose nodes were finished after their successors

  /** Every node comes after all its successors. */
  ghost predicate Finished<T>(edges: Edges<T>, finished: seq<T>) {
    finished != [] ==>
      var n := |finished| - 1;
      Finished(edges, finished[..n]) && forall s :: s in Succ(edges, finished[n]) ==> s in finished[..n]
  }

  lemma FinishedMore<T>(edges: Edges<T>, finished: seq<T>, n: T)
    requires Finished(edges, finished) && forall s :: s in Succ(edges, n) ==> s in finished
    ensures Finished(edges, finished + [n])
  {
    assert (finished + [n])[..|finished|] == finished;
  }

  lemma {:induction false} NoCycleAmongFinished<T>(edges: Edges<T>, finished: seq<T>, c: seq<T>, i: nat)
    requires Finished(edges, finished) && IsCycle(edges, c) && i < |c| && c[i] in finished
    ensures false
    decreases |finished|
  {
    var n := |finished| - 1;
    assert finished == finished[..n] + [finished[n]];
    if c[i] == finished[n] {
      var next := if i + 1 < |c| then i + 1 else 0;
      assert i + 1 < |c| ==> Step(edges, c, i);
      NoCycleAmongFinished(edges, finished[..n], c, next);
    } else {
      NoCycleAmongFinished(edges, finished[..n], c, i);
    }
  }

  /** The first n nodes of s. */
  function FirstNodes<T(==)>(s: seq<T>, n: nat): set<T>
    requires n <= |s|
  {
    if n == 0 then {} else FirstNodes(s, n - 1) + {s[n - 1]}
  }

  lemma FirstOfAll<T>(s: seq<T>)
    ensures FirstNodes(s, |s|) == set x | x in s
  {
    FirstOfIs(s, |s|);
  }

  lemma {:induction false} FirstOfIs<T>(s: seq<T>, n: nat)
    requires n <= |s|
    ensures FirstNodes(s, n) == set x | x in s[..n]
  {
    if n > 0 {
      FirstOfIs(s, n - 1);
      assert s[..n] == s[..n - 1] + [s[n - 1]];
    }
  }

  /** All edges of x lead into nodes. */
  predicate LeadsInto<T(==)>(edges: Edges<T>, x: T, nodes: set<T>) {
    forall y :: y in Succ(edges, x) ==> y in nodes
  }

  /** A set of nodes that no edge leaves. */
  ghost predicate Closed<T(!new)>(edges: Edges<T>, nodes: set<T>) {
    forall x {:trigger LeadsInto(edges, x, nodes)} :: x in nodes ==> LeadsInto(edges, x, nodes)
  }

  /** All nodes there are. */
  function Universe<T(==)>(order: seq<T>, edges: Edges<T>): set<T> {
    (set n | n in order) + set n, t | n in edges && t in edges[n] :: t
  }

  lemma UniverseIsClosed<T(!new)>(order: seq<T>, edges: Edges<T>)
    ensures Closed(edges, Universe(order, edges)) && forall n :: n in order ==> n in Universe(order, edges)
  {
    forall x | x in Universe(order, edges)
      ensures LeadsInto(edges, x, Universe(order, edges))
    {
    }
  }

  datatype Mark = Active | Done

  /** The depth-first search of findCycles: its variables, and the nodes in the order they were
      done. */
  class Search<T(==, !new)> {
    const order: seq<T>
    const edges: Edges<T>
    var mark: map<T, Mark>
    var path: seq<T>
    var cycles: seq<seq<T>>
    var reported: set<seq<T>>
    ghost var finished: seq<T>

    ghost predicate Valid()
      reads this
    {
      && NoRepeats(path) && IsPath(edges, path)
      && (forall n :: n in path <==> n in mark && mark[n] == Active)
      && (forall n :: n in finished <==> n in mark && mark[n] == Done)
      && (cycles == [] ==> Finished(edges, finished))
      && (forall c :: c in cycles <==> c in reported)
      && (forall c :: c in cycles ==> IsCycle(edges, c) && StartsFirst(order, c))
      && NoRepeats(cycles)
    }

    constructor (order: seq<T>, edges: Edges<T>)
      ensures Valid() && this.order == order && this.edges == edges && path == [] && finished == []
    {
      this.order, this.edges := order, edges;
      mark, path, cycles, reported, finished := map[], [], [], {}, [];
    }

    /** The cycle, rotated to its first node in the order. */
    method RotateToFirst(cycle: seq<T>) returns (c: seq<T>)
      requires IsCycle(edges, cycle)
      ensures IsCycle(edges, c) && StartsFirst(order, c)
      ensures exists k :: 0 <= k < |cycle| && c == Rotate(cycle, k)
    {
      var first := 0;
      for i := 0 to |cycle|
        invariant first < |cycle|
        invariant forall j :: 0 <= j < i ==> Index(order, cycle[first]) <= Index(order, cycle[j])
      {
        if Index(order, cycle[i]) < Index(order, cycle[first]) {
          first := i;
        }
      }
      RotatedIsCycle(edges, cycle, first);
      c := Rotate(cycle, first);
    }

    /** The cycle closed by an edge from the end of the path back to next is reported. */
    method Report(next: T)
      requires Valid() && path != [] && next in path && next in Succ(edges, path[|path| - 1])
      modifies this`cycles, this`reported
      ensures Valid() && cycles != [] && old(cycles) <= cycles
    {
      var at :| 0 <= at < |path| && path[at] == next;
      ClosesCycle(edges, path, at);
      var c := RotateToFirst(path[at..]);
      if c !in reported {
        reported := reported + {c};
        cycles := cycles + [c];
      }
    }

    function Unseen(universe: set<T>): set<T>
      reads this
    {
      universe - mark.Keys
    }

    function DoneNodes(): set<T>
      reads this
    {
      set n | n in mark && mark[n] == Done
    }

    /** The search went on: what was done is done, what was reported is reported. */
    twostate predicate WentOn(universe: set<T>)
      reads this
    {
      && path == old(path) && old(cycles) <= cycles && (cycles == [] ==> old(cycles) == [])
      && old(DoneNodes()) <= DoneNodes()
      && |Unseen(universe)| <= old(|Unseen(universe)|)
    }

    /** visit: a node that was not seen, and everything it leads to, is done. */
    method Visit(n: T, ghost universe: set<T>)
      requires Valid() && n !in mark && n in universe && Closed(edges, universe)
      requires path != [] ==> n in Succ(edges, path[|path| - 1])
      modifies this
      ensures Valid() && WentOn(universe) && n in DoneNodes()
      decreases |Unseen(universe)|, 1
    {
      Enter(n);
      FewerUnseen(universe, old(mark), mark, n);
      VisitEdges(n, universe);
      Finish(n);
    }

    /** The edges of the node at the end of the path, in order. */
    method VisitEdges(n: T, ghost universe: set<T>)
      requires Valid() && path != [] && path[|path| - 1] == n && n in universe && Closed(edges, universe)
      modifies this
      ensures Valid() && WentOn(universe)
      ensures cycles == [] ==> forall s :: s in Succ(edges, n) ==> s in DoneNodes()
      decreases |Unseen(universe)|, 3
    {
      var succ := Succ(edges, n);
      var i := 0;
      while i < |succ|
        invariant i <= |succ| && Valid() && WentOn(universe)
        invariant cycles == [] ==> FirstNodes(succ, i) <= DoneNodes()
      {
        Follow(succ[i], universe);
        i := i + 1;
      }
      FirstOfAll(succ);
    }

    /** The loop of findCycles: every node of the order is done. */
    method VisitAll()
      requires Valid() && path == [] && finished == []
      modifies this
      ensures Valid() && (set n | n in order) <= DoneNodes()
    {
      ghost var universe := Universe(order, edges);
      UniverseIsClosed(order, edges);
      var i := 0;
      while i < |order|
        invariant i <= |order| && Valid() && path == []
        invariant FirstNodes(order, i) <= DoneNodes()
      {
        Start(order[i], universe);
        i := i + 1;
      }
      FirstOfAll(order);
    }

    /** A node of the order is visited unless it is done. */
    method Start(n: T, ghost universe: set<T>)
      requires Valid() && path == [] && n in universe && Closed(edges, universe)
      modifies this
      ensures Valid() && path == [] && n in DoneNodes() && old(DoneNodes()) <= DoneNodes()
    {
      if n !in mark {
        Visit(n, universe);
      }
    }

    /** The node joins the path. */
    method Enter(n: T)
      requires Valid() && n !in mark
      requires path != [] ==> n in Succ(edges, path[|path| - 1])
      modifies this`mark, this`path
      ensures Valid() && path == old(path) + [n] && mark == old(mark)[n := Active]
      ensures DoneNodes() == old(DoneNodes())
    {
      mark := mark[n := Active];
      if path != [] {
        PathMore(edges, path, n);
      }
      path := path + [n];
    }

    /** One edge of the node at the end of the path. */
    method Follow(next: T, ghost universe: set<T>)
      requires Valid() && path != [] && next in Succ(edges, path[|path| - 1]) && path[|path| - 1] in universe && Closed(edges, universe)
      modifies this
      ensures Valid() && WentOn(universe) && (cycles == [] ==> next in DoneNodes())
      decreases |Unseen(universe)|, 2
    {
      assert LeadsInto(edges, path[|path| - 1], universe);
      if next !in mark {
        Visit(next, universe);
      } else if mark[next] == Active {
        Report(next);
      }
    }

    /** The last node of the path is done. */
    method Finish(n: T)
      requires Valid() && path != [] && path[|path| - 1] == n
      requires cycles == [] ==> forall s :: s in Succ(edges, n) ==> s in DoneNodes()
      modifies this`mark, this`path, this`finished
      ensures Valid() && path == old(path)[..|old(path)| - 1]
      ensures n in mark && mark[n] == Done && mark.Keys == old(mark).Keys && cycles == old(cycles)
      ensures old(DoneNodes()) <= DoneNodes()
    {
      PathLess(edges, path);
      path := path[..|path| - 1];
      mark := mark[n := Done];
      if cycles == [] {
        FinishedMore(edges, finished, n);
      }
      finished := finished + [n];
    }
  }

  lemma FewerUnseen<T>(universe: set<T>, a: map<T, Mark>, b: map<T, Mark>, n: T)
    requires n in universe && n !in a && b.Keys == a.Keys + {n}
    ensures |universe - b.Keys| < |universe - a.Keys|
  {
    assert universe - b.Keys == universe - a.Keys - {n};
  }

  lemma PathLess<T>(edges: Edges<T>, p: seq<T>)
    requires IsPath(edges, p) && p != []
    ensures IsPath(edges, p[..|p| - 1])
  {
    var q := p[..|p| - 1];
    forall i | 0 <= i < |q| - 1
      ensures Step(edges, q, i)
    {
      assert Step(edges, p, i);
    }
  }

  lemma ClosesCycle<T>(edges: Edges<T>, path: seq<T>, at: nat)
    requires at < |path| && NoRepeats(path) && IsPath(edges, path) && path[at] in Succ(edges, path[|path| - 1])
    ensures IsCycle(edges, path[at..])
  {
    var cycle := path[at..];
    forall i | 0 <= i < |cycle| - 1
      ensures Step(edges, cycle, i)
    {
      assert Step(edges, path, at + i);
    }
  }

  /** findCycles: what it returns are cycles, each once and rotated to its first node in the order;
      it returns none exactly when there is none. Every node with edges is in the order. */
  method FindCycles<T(==, !new)>(order: seq<T>, edges: Edges<T>) returns (cycles: seq<seq<T>>)
    requires forall n :: n in edges ==> n in order
    ensures forall c :: c in cycles ==> IsCycle(edges, c) && StartsFirst(order, c)
    ensures NoRepeats(cycles)
    ensures cycles == [] <==> Acyclic(edges)
  {
    var search := new Search(order, edges);
    search.VisitAll();
    cycles := search.cycles;
    if cycles == [] {
      forall n | n in order
        ensures n in search.finished
      {
        assert n in search.DoneNodes();
      }
      FinishedIsAcyclic(order, edges, search.finished);
    } else {
      assert IsCycle(edges, cycles[0]);
    }
  }

  lemma FinishedIsAcyclic<T(!new)>(order: seq<T>, edges: Edges<T>, finished: seq<T>)
    requires Finished(edges, finished) && forall n :: n in edges ==> n in order
    requires forall n :: n in order ==> n in finished
    ensures Acyclic(edges)
  {
    forall c: seq<T> | IsCycle(edges, c)
      ensures false
    {
      assert |c| == 1 || Step(edges, c, 0);
      NoCycleAmongFinished(edges, finished, c, 0);
    }
  }

  // ---- dependencies

  /** p leads from a to b over at least one edge. */
  predicate Leads<T(==)>(edges: Edges<T>, p: seq<T>, a: T, b: T) {
    |p| >= 2 && IsPath(edges, p) && p[0] == a && p[|p| - 1] == b
  }

  ghost predicate DependsOn<T(!new)>(edges: Edges<T>, a: T, b: T) {
    exists p: seq<T> :: Leads(edges, p, a, b)
  }

  lemma DependsOneMore<T(!new)>(edges: Edges<T>, a: T, b: T, n: T)
    requires a == b || DependsOn(edges, a, b)
    requires n in Succ(edges, b)
    ensures DependsOn(edges, a, n)
  {
    if a == b {
      assert Leads(edges, [a, n], a, n);
    } else {
      var p: seq<T> :| Leads(edges, p, a, b);
      PathMore(edges, p, n);
      assert Leads(edges, p + [n], a, n);
    }
  }

  lemma PathMore<T>(edges: Edges<T>, p: seq<T>, n: T)
    requires IsPath(edges, p) && p != [] && n in Succ(edges, p[|p| - 1])
    ensures IsPath(edges, p + [n])
  {
    forall i | 0 <= i < |p|
      ensures Step(edges, p + [n], i)
    {
      assert i < |p| - 1 ==> Step(edges, p, i);
    }
  }

  /** A set that holds the successors of its members holds what they depend on. */
  lemma {:induction false} ClosedHolds<T(!new)>(edges: Edges<T>, nodes: set<T>, p: seq<T>, i: nat)
    requires Closed(edges, nodes)
    requires IsPath(edges, p) && i < |p| && p[0] in nodes
    ensures p[i] in nodes
  {
    if i > 0 {
      ClosedHolds(edges, nodes, p, i - 1);
      assert Step(edges, p, i - 1) && LeadsInto(edges, p[i - 1], nodes);
    }
  }

  /** The walk of dependencies. open holds the nodes whose edges are not all walked yet. */
  class Walk<T(==, !new)> {
    const root: T
    const edges: Edges<T>
    var seen: set<T>
    var out: seq<T>
    ghost var open: set<T>

    ghost predicate Valid()
      reads this
    {
      && root in seen && NoRepeats(out) && root !in out
      && (forall n :: n in seen <==> n == root || n in out)
      && (forall n :: n in out ==> DependsOn(edges, root, n))
      && open <= seen
      && (forall x {:trigger LeadsInto(edges, x, seen)} :: x in seen && x !in open ==> LeadsInto(edges, x, seen))
    }

    constructor (root: T, edges: Edges<T>)
      ensures Valid() && this.root == root && this.edges == edges && seen == open == {root} && out == []
    {
      this.root, this.edges := root, edges;
      seen, out, open := {root}, [], {root};
    }

    /** A dependency of node n that was not seen. */
    method Add(n: T, d: T)
      requires Valid() && n in open && d in Succ(edges, n) && d !in seen
      modifies this
      ensures Valid() && seen == old(seen) + {d} && out == old(out) + [d] && open == old(open) + {d}
    {
      DependsOneMore(edges, root, n, d);
      forall x | x in seen && x !in open
        ensures LeadsInto(edges, x, seen + {d})
      {
        assert LeadsInto(edges, x, seen);
      }
      seen, out, open := seen + {d}, out + [d], open + {d};
    }

    /** walk. */
    method From(n: T, ghost universe: set<T>)
      requires Valid() && n in open
      requires n in universe && Closed(edges, universe)
      modifies this
      ensures Valid() && old(seen) <= seen && open == old(open) && old(out) <= out
      ensures LeadsInto(edges, n, seen)
      decreases |universe - seen|, 1
    {
      var succ := Succ(edges, n);
      var i := 0;
      while i < |succ|
        invariant i <= |succ| && Valid() && old(seen) <= seen && open == old(open) && old(out) <= out
        invariant FirstNodes(succ, i) <= seen
      {
        if succ[i] !in seen {
          Sets.SubsetSize(universe - seen, universe - old(seen));
          Descend(n, succ[i], universe);
        }
        i := i + 1;
      }
      FirstOfAll(succ);
    }

    /** A dependency that was not seen, and what it depends on. */
    method Descend(n: T, d: T, ghost universe: set<T>)
      requires Valid() && n in open && d in Succ(edges, n) && d !in seen
      requires n in universe && Closed(edges, universe)
      modifies this
      ensures Valid() && old(seen) + {d} <= seen && open == old(open) && old(out) <= out
      decreases |universe - seen|, 0
    {
      assert universe - (seen + {d}) == universe - seen - {d};
      assert LeadsInto(edges, n, universe);
      Add(n, d);
      From(d, universe);
      open := open - {d};
    }
  }

  /** dependencies: exactly what id depends on, itself aside, each once. */
  method Dependencies<T(==, !new)>(id: T, edges: Edges<T>) returns (out: seq<T>)
    ensures NoRepeats(out)
    ensures forall n :: n in out <==> n != id && DependsOn(edges, id, n)
  {
    var walk := new Walk(id, edges);
    ghost var universe := Universe([id], edges);
    UniverseIsClosed([id], edges);
    assert id in [id];
    walk.From(id, universe);
    out := walk.out;
    forall x | x in walk.seen
      ensures LeadsInto(edges, x, walk.seen)
    {
    }
    forall n | n != id && DependsOn(edges, id, n)
      ensures n in out
    {
      var p: seq<T> :| Leads(edges, p, id, n);
      ClosedHolds(edges, walk.seen, p, |p| - 1);
    }
  }

  /** In a graph without cycles nothing depends on itself: dependencies is the whole closure. */
  lemma {:induction false} NothingDependsOnItself<T(!new)>(edges: Edges<T>, p: seq<T>, a: T)
    requires Acyclic(edges)
    ensures !Leads(edges, p, a, a)
    decreases |p|
  {
    if Leads(edges, p, a, a) {
      var c := p[..|p| - 1];
      if i, j :| 0 <= i < j < |c| && c[i] == c[j] {
        var q := p[i..j + 1];
        forall k | 0 <= k < |q| - 1
          ensures Step(edges, q, k)
        {
          assert Step(edges, p, i + k);
        }
        NothingDependsOnItself(edges, q, c[i]);
      } else {
        assert Step(edges, p, |p| - 2);
        assert forall k :: 0 <= k < |c| - 1 ==> Step(edges, p, k) ==> Step(edges, c, k);
        assert IsCycle(edges, c);
      }
    }
  }
}
