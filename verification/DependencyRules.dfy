/** The dependencies between sources, within a subscription and across subscriptions, and why an
    accepted configuration has no cycle of them
    (internal/scd/config/rules.go, checkDependencies and checkCrossDependencies). */
module DependencyRules {
  import opened Sets
  import opened Cycles

  /** A dependency on a source of the same subscription, on a balancer of the same target, or on a
      balancer of another subscription. */
  datatype Dependency = Dependency(source: string, subscription: string, balancer: string)

  datatype Node = Node(id: string, balancer: string, dependsOn: seq<Dependency>)

  datatype Group = Group(id: string, sources: seq<Node>)

  /** What the parser has settled: a source excludes a balancer and a subscription. */
  predicate Parsed(g: Group) {
    forall j, k :: 0 <= j < |g.sources| && 0 <= k < |g.sources[j].dependsOn| ==>
      var d := g.sources[j].dependsOn[k];
      d.source != "" ==> d.balancer == "" && d.subscription == ""
  }

  predicate UniqueIds(g: Group) {
    forall i, j :: 0 <= i < j < |g.sources| ==> g.sources[i].id != g.sources[j].id
  }

  function Ids(g: Group): (r: seq<string>)
    ensures |r| == |g.sources| && forall j :: 0 <= j < |r| ==> r[j] == g.sources[j].id
  {
    seq(|g.sources|, j requires 0 <= j < |g.sources| => g.sources[j].id)
  }

  // ---- within a subscription

  /** d is a dependency of a source with the given id on another known source. */
  predicate OnSource(g: Group, id: string, d: Dependency) {
    d.subscription == "" && d.balancer == "" && d.source != "" && d.source in Ids(g) && d.source != id
  }

  ghost predicate LocalEdge(g: Group, id: string, t: string) {
    exists j, k :: 0 <= j < |g.sources| && 0 <= k < |g.sources[j].dependsOn| && LocalAt(g, j, k, id, t)
  }

  ghost predicate LocalAt(g: Group, j: int, k: int, id: string, t: string)
    requires 0 <= j < |g.sources| && 0 <= k < |g.sources[j].dependsOn|
  {
    g.sources[j].id == id && OnSource(g, id, g.sources[j].dependsOn[k]) && g.sources[j].dependsOn[k].source == t
  }

  ghost predicate LocalEdges(g: Group, edges: Edges<string>) {
    && (forall id :: id in edges ==> id in Ids(g))
    && forall id, t :: t in Succ(edges, id) <==> LocalEdge(g, id, t)
  }

  /** The edges from source j, as far as its first n dependencies. */
  ghost predicate LocalUpTo(g: Group, j: nat, n: nat, edges: Edges<string>)
    requires j <= |g.sources| && (n > 0 ==> j < |g.sources| && n <= |g.sources[j].dependsOn|)
  {
    && (forall id :: id in edges ==> id in Ids(g))
    && (forall id, t :: t in Succ(edges, id) ==> LocalEdge(g, id, t))
    && (forall i, k, id, t :: 0 <= i < j && 0 <= k < |g.sources[i].dependsOn| && LocalAt(g, i, k, id, t) ==> t in Succ(edges, id))
    && (forall k, id, t :: 0 <= k < n && LocalAt(g, j, k, id, t) ==> t in Succ(edges, id))
  }

  /** The edges of checkDependencies; a repeated dependency adds none. */
  method BuildLocal(g: Group) returns (edges: Edges<string>)
    ensures LocalEdges(g, edges)
  {
    edges := map[];
    for j := 0 to |g.sources|
      invariant LocalUpTo(g, j, 0, edges)
    {
      edges := BuildFrom(g, j, edges);
    }
  }

  method BuildFrom(g: Group, j: nat, before: Edges<string>) returns (edges: Edges<string>)
    requires j < |g.sources| && LocalUpTo(g, j, 0, before)
    ensures LocalUpTo(g, j + 1, 0, edges)
  {
    edges := before;
    var src := g.sources[j];
    var seen: set<string> := {};
    for k := 0 to |src.dependsOn|
      invariant LocalUpTo(g, j, k, edges)
      invariant forall t :: t in seen ==> t in Succ(edges, src.id)
    {
      var d := src.dependsOn[k];
      if OnSource(g, src.id, d) && d.source !in seen {
        AddLocal(g, j, k, edges);
        edges := edges[src.id := Succ(edges, src.id) + [d.source]];
        seen := seen + {d.source};
      }
    }
  }

  lemma AddLocal(g: Group, j: nat, k: nat, edges: Edges<string>)
    requires j < |g.sources| && k < |g.sources[j].dependsOn| && LocalUpTo(g, j, k, edges)
    requires OnSource(g, g.sources[j].id, g.sources[j].dependsOn[k])
    ensures LocalUpTo(g, j, k + 1, edges[g.sources[j].id := Succ(edges, g.sources[j].id) + [g.sources[j].dependsOn[k].source]])
  {
    var id, t := g.sources[j].id, g.sources[j].dependsOn[k].source;
    var after := edges[id := Succ(edges, id) + [t]];
    assert LocalAt(g, j, k, id, t);
    assert g.sources[j].id == Ids(g)[j];
    forall x, y | y in Succ(after, x)
      ensures LocalEdge(g, x, y)
    {
      assert x != id ==> y in Succ(edges, x);
    }
    forall x, y | y in Succ(edges, x)
      ensures y in Succ(after, x)
    {
    }
  }

  // ---- across subscriptions

  /** A source by its subscription and its place there: ids may repeat. */
  datatype Place = Place(i: nat, j: nat)

  function Count(subs: seq<Group>, id: string): nat {
    if subs == [] then 0 else Count(subs[..|subs| - 1], id) + if subs[|subs| - 1].id == id then 1 else 0
  }

  predicate IsPlace(subs: seq<Group>, p: Place) {
    p.i < |subs| && p.j < |subs[p.i].sources|
  }

  /** The dependency d of source p is an edge to q: to the source it names, or to every source
      with the balancer it names in another subscription of a unique id. */
  predicate Points(subs: seq<Group>, p: Place, d: Dependency, q: Place)
    requires IsPlace(subs, p)
  {
    IsPlace(subs, q) &&
    if d.subscription == "" then
      && d.source != "" && d.source != subs[p.i].sources[p.j].id && d.source in Ids(subs[p.i])
      && q == Place(p.i, Index(Ids(subs[p.i]), d.source))
    else
      && d.balancer != "" && d.subscription != subs[p.i].id && Count(subs, d.subscription) == 1
      && subs[q.i].id == d.subscription && subs[q.i].sources[q.j].balancer == d.balancer
  }

  ghost predicate CrossEdge(subs: seq<Group>, p: Place, q: Place) {
    IsPlace(subs, p) && exists d :: d in subs[p.i].sources[p.j].dependsOn && Points(subs, p, d, q)
  }

  ghost predicate CrossEdges(subs: seq<Group>, edges: Edges<Place>) {
    && (forall p :: p in edges ==> IsPlace(subs, p))
    && forall p, q :: q in Succ(edges, p) <==> CrossEdge(subs, p, q)
  }

  /** The subscription with a unique id. */
  method FindGroup(subs: seq<Group>, id: string) returns (i: nat)
    requires Count(subs, id) == 1
    ensures i < |subs| && subs[i].id == id
    ensures forall k :: 0 <= k < |subs| && subs[k].id == id ==> k == i
  {
    ghost var only := OnlyOne(subs, id);
    i :| i < |subs| && subs[i].id == id;
  }

  lemma {:induction false} None(subs: seq<Group>, id: string)
    requires Count(subs, id) == 0
    ensures forall k :: 0 <= k < |subs| ==> subs[k].id != id
  {
    if subs != [] {
      var n := |subs| - 1;
      None(subs[..n], id);
      assert forall k :: 0 <= k < n ==> subs[..n][k] == subs[k];
    }
  }

  lemma {:induction false} OnlyOne(subs: seq<Group>, id: string) returns (i: nat)
    requires Count(subs, id) == 1
    ensures i < |subs| && subs[i].id == id && forall k :: 0 <= k < |subs| && subs[k].id == id ==> k == i
  {
    var n := |subs| - 1;
    assert forall k :: 0 <= k < n ==> subs[..n][k] == subs[k];
    if subs[n].id == id {
      None(subs[..n], id);
      i := n;
    } else {
      i := OnlyOne(subs[..n], id);
    }
  }

  /** Where one dependency of a source points. */
  method Targets(subs: seq<Group>, p: Place, d: Dependency) returns (r: seq<Place>)
    requires IsPlace(subs, p)
    ensures forall q :: q in r <==> Points(subs, p, d, q)
  {
    r := [];
    var g := subs[p.i];
    if d.subscription == "" {
      if d.source != "" && d.source != g.sources[p.j].id && d.source in Ids(g) {
        r := [Place(p.i, Index(Ids(g), d.source))];
      }
    } else if d.balancer != "" && d.subscription != g.id && Count(subs, d.subscription) == 1 {
      var oi := FindGroup(subs, d.subscription);
      var other := subs[oi];
      for t := 0 to |other.sources|
        invariant forall q :: q in r <==> q.i == oi && q.j < t && other.sources[q.j].balancer == d.balancer
      {
        if other.sources[t].balancer == d.balancer {
          r := r + [Place(oi, t)];
        }
      }
    }
  }

  /** The edges of one source. */
  method TargetsOf(subs: seq<Group>, p: Place) returns (r: seq<Place>)
    requires IsPlace(subs, p)
    ensures forall q :: q in r <==> CrossEdge(subs, p, q)
  {
    r := [];
    var deps := subs[p.i].sources[p.j].dependsOn;
    for k := 0 to |deps|
      invariant forall q :: q in r ==> CrossEdge(subs, p, q)
      invariant forall m, q :: 0 <= m < k && Points(subs, p, deps[m], q) ==> q in r
    {
      var more := Targets(subs, p, deps[k]);
      r := r + more;
    }
  }

  /** The nodes in order, and their edges, as checkCrossDependencies builds them. */
  method BuildCross(subs: seq<Group>) returns (order: seq<Place>, edges: Edges<Place>)
    ensures CrossEdges(subs, edges)
    ensures forall p :: p in order <==> IsPlace(subs, p)
  {
    order, edges := [], map[];
    for i := 0 to |subs|
      invariant forall p :: p in order <==> p in edges
      invariant forall p :: p in edges <==> p.i < i && IsPlace(subs, p)
      invariant forall p :: p in edges ==> forall q :: q in edges[p] <==> CrossEdge(subs, p, q)
    {
      for j := 0 to |subs[i].sources|
        invariant forall p :: p in order <==> p in edges
        invariant forall p :: p in edges <==> IsPlace(subs, p) && (p.i < i || (p.i == i && p.j < j))
        invariant forall p :: p in edges ==> forall q :: q in edges[p] <==> CrossEdge(subs, p, q)
      {
        var targets := TargetsOf(subs, Place(i, j));
        order := order + [Place(i, j)];
        edges := edges[Place(i, j) := targets];
      }
    }
  }

  // ---- both checks together

  /** The cycle spans more than one subscription. */
  predicate Spans(c: seq<Place>) {
    c != [] && exists k :: 0 <= k < |c| && c[k].i != c[0].i
  }

  /** A cycle within subscription i of the graph of all is a cycle of that subscription. */
  lemma {:induction false} LocalCycle(subs: seq<Group>, i: nat, edges: Edges<Place>, local: Edges<string>, c: seq<Place>) returns (r: seq<string>)
    requires i < |subs| && UniqueIds(subs[i]) && Parsed(subs[i])
    requires CrossEdges(subs, edges) && LocalEdges(subs[i], local)
    requires IsCycle(edges, c) && forall k :: 0 <= k < |c| ==> c[k].i == i
    ensures IsCycle(local, r)
  {
    forall k | 0 <= k < |c|
      ensures IsPlace(subs, c[k])
    {
      var next := if k + 1 < |c| then k + 1 else 0;
      assert k + 1 < |c| ==> Step(edges, c, k);
      assert c[next] in Succ(edges, c[k]);
    }
    r := seq(|c|, k requires 0 <= k < |c| => subs[i].sources[c[k].j].id);
    forall k | 0 <= k < |c|
      ensures r[if k + 1 < |c| then k + 1 else 0] in Succ(local, r[k]) && (k + 1 < |c| ==> Step(local, r, k))
    {
      var next := if k + 1 < |c| then k + 1 else 0;
      assert k + 1 < |c| ==> Step(edges, c, k);
      assert c[next] in Succ(edges, c[k]);
      LocalStep(subs, c[k], c[next]);
    }
    forall a, b | 0 <= a < b < |r|
      ensures r[a] != r[b]
    {
      assert c[a].j != c[b].j;
    }
  }

  /** An edge within one subscription comes from a dependency on a source. */
  lemma LocalStep(subs: seq<Group>, p: Place, q: Place)
    requires CrossEdge(subs, p, q) && p.i == q.i && Parsed(subs[p.i])
    ensures LocalEdge(subs[p.i], subs[p.i].sources[p.j].id, subs[p.i].sources[q.j].id)
  {
    var g := subs[p.i];
    var d :| d in g.sources[p.j].dependsOn && Points(subs, p, d, q);
    var k :| 0 <= k < |g.sources[p.j].dependsOn| && g.sources[p.j].dependsOn[k] == d;
    assert d.subscription == "";
    assert Ids(g)[q.j] == d.source;
    assert LocalAt(g, p.j, k, g.sources[p.j].id, g.sources[q.j].id);
  }

  predicate UsesOthers(subs: seq<Group>) {
    exists i, j, d :: 0 <= i < |subs| && 0 <= j < |subs[i].sources| && d in subs[i].sources[j].dependsOn && d.subscription != ""
  }

  /** Without dependencies on other subscriptions no path leaves one. */
  lemma {:induction false} StaysInside(subs: seq<Group>, edges: Edges<Place>, c: seq<Place>, k: nat)
    requires CrossEdges(subs, edges) && !UsesOthers(subs) && IsPath(edges, c) && k < |c|
    ensures c[k].i == c[0].i
  {
    if k > 0 {
      StaysInside(subs, edges, c, k - 1);
      assert Step(edges, c, k - 1);
      var p, q := c[k - 1], c[k];
      var d :| d in subs[p.i].sources[p.j].dependsOn && Points(subs, p, d, q);
      assert d.subscription == "";
    }
  }

  /** The place after k on a cycle of n nodes. */
  function Next(k: nat, n: nat): nat {
    if k + 1 < n then k + 1 else 0
  }

  /** A cycle of a subscription is one of the graph of all. */
  lemma {:induction false} CycleOfAll(subs: seq<Group>, i: nat, edges: Edges<Place>, local: Edges<string>, c: seq<string>) returns (r: seq<Place>)
    requires i < |subs| && UniqueIds(subs[i])
    requires CrossEdges(subs, edges) && LocalEdges(subs[i], local) && IsCycle(local, c)
    ensures IsCycle(edges, r)
  {
    forall k | 0 <= k < |c|
      ensures LocalEdge(subs[i], c[k], c[Next(k, |c|)])
    {
      assert k + 1 < |c| ==> Step(local, c, k);
      assert c[Next(k, |c|)] in Succ(local, c[k]);
    }
    r := RingOfAll(subs, i, edges, c);
  }

  /** So is a ring of dependencies within a subscription. */
  lemma {:induction false} RingOfAll(subs: seq<Group>, i: nat, edges: Edges<Place>, c: seq<string>) returns (r: seq<Place>)
    requires i < |subs| && UniqueIds(subs[i]) && CrossEdges(subs, edges) && c != [] && NoRepeats(c)
    requires forall k :: 0 <= k < |c| ==> LocalEdge(subs[i], c[k], c[Next(k, |c|)])
    ensures IsCycle(edges, r)
  {
    var ids := Ids(subs[i]);
    r := seq(|c|, k requires 0 <= k < |c| => Place(i, Index(ids, c[k])));
    forall k | 0 <= k < |c|
      ensures c[k] in ids && r[Next(k, |c|)] in Succ(edges, r[k]) && (k + 1 < |c| ==> Step(edges, r, k))
    {
      StepOfAll(subs, i, c[k], c[Next(k, |c|)]);
    }
    forall a, b | 0 <= a < b < |r|
      ensures r[a] != r[b]
    {
      assert ids[Index(ids, c[a])] == c[a] && ids[Index(ids, c[b])] == c[b];
    }
  }

  lemma StepOfAll(subs: seq<Group>, i: nat, id: string, t: string)
    requires i < |subs| && UniqueIds(subs[i]) && LocalEdge(subs[i], id, t)
    ensures id in Ids(subs[i]) && t in Ids(subs[i])
    ensures CrossEdge(subs, Place(i, Index(Ids(subs[i]), id)), Place(i, Index(Ids(subs[i]), t)))
  {
    var g := subs[i];
    var j, k :| 0 <= j < |g.sources| && 0 <= k < |g.sources[j].dependsOn| && LocalAt(g, j, k, id, t);
    assert Ids(g)[j] == id;
    assert g.sources[Index(Ids(g), id)].id == id;
    assert Index(Ids(g), id) == j;
    var p, q, d := Place(i, j), Place(i, Index(Ids(g), t)), g.sources[j].dependsOn[k];
    assert Points(subs, p, d, q);
    assert d in g.sources[j].dependsOn;
  }

  /** No cycle stays in one subscription. */
  ghost predicate NoneInside(subs: seq<Group>, edges: Edges<Place>) {
    forall c: seq<Place> :: IsCycle(edges, c) ==> Spans(c)
  }

  /** checkCycles of every subscription. */
  method CheckInside(subs: seq<Group>, ghost edges: Edges<Place>) returns (accepted: bool)
    requires forall i :: 0 <= i < |subs| ==> UniqueIds(subs[i]) && Parsed(subs[i])
    requires CrossEdges(subs, edges)
    ensures if accepted then NoneInside(subs, edges) else !Acyclic(edges)
  {
    accepted := true;
    ghost var locals: seq<Edges<string>> := [];
    for i := 0 to |subs|
      invariant |locals| == i && forall m :: 0 <= m < i ==> LocalEdges(subs[m], locals[m])
      invariant if accepted then forall m :: 0 <= m < i ==> Acyclic(locals[m]) else !Acyclic(edges)
    {
      var local := BuildLocal(subs[i]);
      var cycles := FindCycles(Ids(subs[i]), local);
      locals := locals + [local];
      if cycles != [] {
        assert IsCycle(local, cycles[0]);
        ghost var c := CycleOfAll(subs, i, edges, local, cycles[0]);
        accepted := false;
      }
    }
    if accepted {
      AllInsideIsNone(subs, edges, locals);
    }
  }

  lemma AllInsideIsNone(subs: seq<Group>, edges: Edges<Place>, locals: seq<Edges<string>>)
    requires forall i :: 0 <= i < |subs| ==> UniqueIds(subs[i]) && Parsed(subs[i])
    requires CrossEdges(subs, edges) && |locals| == |subs|
    requires forall m :: 0 <= m < |subs| ==> LocalEdges(subs[m], locals[m]) && Acyclic(locals[m])
    ensures NoneInside(subs, edges)
  {
    forall c: seq<Place> | IsCycle(edges, c) && !Spans(c)
      ensures false
    {
      var i := c[0].i;
      assert |c| > 1 ==> Step(edges, c, 0);
      assert c[if |c| > 1 then 1 else 0] in Succ(edges, c[0]);
      var r := LocalCycle(subs, i, edges, locals[i], c);
    }
  }

  /** The cycle check across subscriptions, made only when some source depends on another one. */
  method CheckAcross(subs: seq<Group>, order: seq<Place>, edges: Edges<Place>) returns (accepted: bool)
    requires CrossEdges(subs, edges) && NoneInside(subs, edges) && forall p :: p in order <==> IsPlace(subs, p)
    ensures accepted <==> Acyclic(edges)
  {
    if !UsesOthers(subs) {
      forall c: seq<Place> | IsCycle(edges, c)
        ensures false
      {
        forall k | 0 <= k < |c|
          ensures c[k].i == c[0].i
        {
          StaysInside(subs, edges, c, k);
        }
      }
      return true;
    }
    var cycles := FindCycles(order, edges);
    accepted := forall c :: c in cycles ==> !Spans(c);
    if cycles != [] {
      assert cycles[0] in cycles && IsCycle(edges, cycles[0]);
    }
  }

  /** The graph of all sources of all subscriptions together has no cycle. */
  ghost predicate AllAcyclic(subs: seq<Group>) {
    forall edges: Edges<Place> :: CrossEdges(subs, edges) ==> Acyclic(edges)
  }

  /** Cycles do not depend on the order of the edges of a node. */
  lemma SameCycles(subs: seq<Group>, edges: Edges<Place>, others: Edges<Place>)
    requires CrossEdges(subs, edges) && CrossEdges(subs, others) && Acyclic(edges)
    ensures Acyclic(others)
  {
    forall c: seq<Place> | IsCycle(others, c)
      ensures false
    {
      forall k | 0 <= k < |c| - 1
        ensures Step(edges, c, k)
      {
        assert Step(others, c, k);
      }
      assert c[0] in Succ(edges, c[|c| - 1]);
      assert IsCycle(edges, c);
    }
  }

  /** Both checks. They report no cycle exactly when the graph of all sources of all subscriptions
      together has none. */
  method CheckAllCycles(subs: seq<Group>) returns (accepted: bool)
    requires forall i :: 0 <= i < |subs| ==> UniqueIds(subs[i]) && Parsed(subs[i])
    ensures accepted <==> AllAcyclic(subs)
  {
    var order, cross := BuildCross(subs);
    accepted := CheckInside(subs, cross);
    if accepted {
      accepted := CheckAcross(subs, order, cross);
    }
    if accepted {
      forall edges: Edges<Place> | CrossEdges(subs, edges)
        ensures Acyclic(edges)
      {
        SameCycles(subs, cross, edges);
      }
    }
  }
}
