/** The order in which the sources of a subscription are applied
    (internal/scd/syncer/check.go, dependencyOrder). */
module DependencyOrder {
  import opened Sorting
  import opened Cycles
  import opened DependencyRules
  import opened Sets

  /** A loaded source with the sources it depends on; "" stands for a balancer. */
  datatype Loaded = Loaded(id: string, dependsOn: seq<string>)

  /** Sources have ids, each its own. */
  predicate ValidIds(ls: seq<Loaded>) {
    && (forall l :: l in ls ==> l.id != "")
    && forall i, j :: 0 <= i < j < |ls| ==> ls[i].id != ls[j].id
  }

  function IdsOf(ls: seq<Loaded>): set<string> {
    set l | l in ls :: l.id
  }

  /** The dependencies between loaded sources. */
  function EdgesOf(ls: seq<Loaded>): Edges<string> {
    if ls == [] then map[]
    else
      var n := |ls| - 1;
      EdgesOf(ls[..n])[ls[n].id := ls[n].dependsOn]
  }

  lemma {:induction false} EdgesAre(ls: seq<Loaded>, l: Loaded)
    requires ValidIds(ls) && l in ls
    ensures Succ(EdgesOf(ls), l.id) == l.dependsOn
  {
    var n := |ls| - 1;
    assert ls == ls[..n] + [ls[n]];
    if l != ls[n] {
      var k :| 0 <= k < n && ls[k] == l;
      EdgesAre(ls[..n], l);
    }
  }

  /** l may be next when done is done: none of its dependencies is pending. */
  predicate Ready(l: Loaded, pending: set<string>) {
    l.id in pending && forall d :: d in l.dependsOn ==> d !in pending
  }

  /** out was chosen step by step: each the first by id among those ready. */
  ghost predicate Chosen(ls: seq<Loaded>, out: seq<Loaded>) {
    out != [] ==>
      var n := |out| - 1;
      var pending := IdsOf(ls) - IdsOf(out[..n]);
      && Chosen(ls, out[..n])
      && out[n] in ls && Ready(out[n], pending)
      && FirstById(ls, pending, out[n])
  }

  /** x comes first by id of the ready sources. */
  ghost predicate FirstById(ls: seq<Loaded>, pending: set<string>, x: Loaded) {
    forall l {:trigger Ready(l, pending)} :: l in ls && Ready(l, pending) ==> StringsCompare(x.id, l.id) <= 0
  }

  /** Every source comes after every loaded source it depends on. */
  ghost predicate InDependencyOrder(out: seq<Loaded>) {
    forall i, j :: 0 <= i < j < |out| ==> out[j].id !in out[i].dependsOn
  }

  lemma {:induction false} ChosenIsInOrder(ls: seq<Loaded>, out: seq<Loaded>, i: nat, j: nat)
    requires ValidIds(ls) && Chosen(ls, out) && i < j < |out|
    ensures out[i].id != out[j].id && out[j].id !in out[i].dependsOn
  {
    var n := |out| - 1;
    if j < n {
      ChosenIsInOrder(ls, out[..n], i, j);
    } else {
      assert out[..n][i] in out[..n];
      ChosenAt(ls, out, i);
      ChosenAt(ls, out, j);
      assert out[j].id in IdsOf(ls) - IdsOf(out[..i]) by {
        forall l | l in out[..i] ensures l.id != out[j].id {
          var k :| 0 <= k < i && out[..i][k] == l;
          assert out[..j][k] in out[..j];
        }
      }
    }
  }

  lemma {:induction false} ChosenAt(ls: seq<Loaded>, out: seq<Loaded>, k: nat)
    requires Chosen(ls, out) && k < |out|
    ensures out[k] in ls && Ready(out[k], IdsOf(ls) - IdsOf(out[..k]))
    ensures FirstById(ls, IdsOf(ls) - IdsOf(out[..k]), out[k])
  {
    var n := |out| - 1;
    if k < n {
      ChosenAt(ls, out[..n], k);
      assert out[..n][..k] == out[..k];
    }
  }

  // ---- something is always ready

  /** A pending source that is not ready depends on a pending one. */
  lemma PendingDependency(ls: seq<Loaded>, pending: set<string>, id: string) returns (d: string)
    requires ValidIds(ls) && id in pending && pending <= IdsOf(ls)
    requires NoneReady(ls, pending)
    ensures d in pending && d in Succ(EdgesOf(ls), id)
  {
    assert id in IdsOf(ls);
    var l :| l in ls && l.id == id;
    assert !Ready(l, pending);
    d :| d in l.dependsOn && d in pending;
    EdgesAre(ls, l);
  }

  /** Every node leads on to another one of nodes. */
  ghost predicate LeadsOn(edges: Edges<string>, nodes: set<string>) {
    forall x {:trigger LeadsFrom(edges, nodes, x)} :: x in nodes ==> LeadsFrom(edges, nodes, x)
  }

  predicate LeadsFrom(edges: Edges<string>, nodes: set<string>, x: string) {
    exists y :: y in nodes && y in Succ(edges, x)
  }

  /** No source is ready. */
  ghost predicate NoneReady(ls: seq<Loaded>, pending: set<string>) {
    forall l {:trigger Ready(l, pending)} :: l in ls ==> !Ready(l, pending)
  }

  /** A path of n edges within such nodes. */
  lemma {:induction false} LongPath(edges: Edges<string>, nodes: set<string>, a: string, n: nat) returns (p: seq<string>)
    requires LeadsOn(edges, nodes) && a in nodes
    ensures |p| == n + 1 && IsPath(edges, p) && forall k :: 0 <= k < |p| ==> p[k] in nodes
  {
    if n == 0 {
      p := [a];
    } else {
      var q := LongPath(edges, nodes, a, n - 1);
      assert LeadsFrom(edges, nodes, q[n - 1]);
      var d :| d in nodes && d in Succ(edges, q[n - 1]);
      PathMore(edges, q, d);
      p := q + [d];
    }
  }

  /** A path that meets itself leads from a node back to it. */
  lemma MeetsItself(edges: Edges<string>, p: seq<string>, i: nat, j: nat)
    requires IsPath(edges, p) && i < j < |p| && p[i] == p[j]
    ensures Leads(edges, p[i..j + 1], p[i], p[i])
  {
    var q := p[i..j + 1];
    forall k | 0 <= k < |q| - 1
      ensures Step(edges, q, k)
    {
      assert Step(edges, p, i + k);
    }
  }

  lemma {:induction false} DistinctAreFew(p: seq<string>, nodes: set<string>)
    requires NoRepeats(p) && forall k :: 0 <= k < |p| ==> p[k] in nodes
    ensures |p| <= |nodes|
  {
    if p != [] {
      var n := |p| - 1;
      DistinctAreFew(p[..n], nodes - {p[n]});
    }
  }

  /** Finitely many nodes that all lead on have a cycle among them. */
  lemma {:induction false} LeadingOnIsCyclic(edges: Edges<string>, nodes: set<string>, a: string)
    requires LeadsOn(edges, nodes) && a in nodes
    ensures !Acyclic(edges)
  {
    var p := LongPath(edges, nodes, a, |nodes|);
    if NoRepeats(p) {
      DistinctAreFew(p, nodes);
    } else if Acyclic(edges) {
      var i, j :| 0 <= i < j < |p| && p[i] == p[j];
      MeetsItself(edges, p, i, j);
      NothingDependsOnItself(edges, p[i..j + 1], p[i]);
    }
  }

  /** Without a cycle some pending source is always ready: the fallback is never reached. */
  lemma SomeIsReady(ls: seq<Loaded>, pending: set<string>, a: string)
    requires ValidIds(ls) && Acyclic(EdgesOf(ls)) && a in pending && pending <= IdsOf(ls)
    ensures exists l :: l in ls && Ready(l, pending)
  {
    if NoneReady(ls, pending) {
      forall x | x in pending
        ensures LeadsFrom(EdgesOf(ls), pending, x)
      {
        var y := PendingDependency(ls, pending, x);
      }
      LeadingOnIsCyclic(EdgesOf(ls), pending, a);
    }
  }

  // ---- the order

  function IdCompare(ls: seq<Loaded>): Compare {
    (i: nat, j: nat) => if i < |ls| && j < |ls| then StringsCompare(ls[i].id, ls[j].id) else 0
  }

  /** The sources by id. */
  method SortById(ls: seq<Loaded>) returns (r: seq<Loaded>)
    requires ValidIds(ls)
    ensures multiset(r) == multiset(ls) && ValidIds(r)
    ensures forall i, j :: 0 <= i < j < |r| ==> StringsCompare(r[i].id, r[j].id) <= 0
  {
    var cmp := IdCompare(ls);
    IdCompareIsOrder(ls);
    StableOrderPermutes(|ls|, cmp);
    StableOrderSorts(|ls|, |ls|, cmp);
    var order := StableOrder(|ls|, cmp);
    ArrangeKeeps(ls, order);
    r := Arrange(ls, order);
    forall i, j | 0 <= i < j < |r|
      ensures StringsCompare(r[i].id, r[j].id) <= 0 && r[i].id != r[j].id
    {
      assert Before(cmp, order[i], order[j]) && order[i] != order[j];
    }
    forall l | l in r
      ensures l.id != ""
    {
      assert l in multiset(r);
    }
  }

  lemma IdCompareIsOrder(ls: seq<Loaded>)
    ensures IsOrder(IdCompare(ls), |ls|)
  {
    var cmp := IdCompare(ls);
    forall a: nat, b: nat | a < |ls| && b < |ls|
      ensures cmp(a, b) < 0 <==> cmp(b, a) > 0
    {
      StringsCompareFlips(ls[a].id, ls[b].id);
    }
    forall a: nat, b: nat, c: nat | a < |ls| && b < |ls| && c < |ls| && cmp(a, b) <= 0 && cmp(b, c) <= 0
      ensures cmp(a, c) <= 0
    {
      StringsCompareTransitive(ls[a].id, ls[b].id, ls[c].id);
    }
  }

  /** The scan for the next source: the first that is ready. */
  method FirstReady(sorted: seq<Loaded>, pending: set<string>) returns (next: int)
    ensures -1 <= next < |sorted|
    ensures next >= 0 ==> Ready(sorted[next], pending) && forall i :: 0 <= i < next ==> !Ready(sorted[i], pending)
    ensures next < 0 ==> NoneReady(sorted, pending)
  {
    for i := 0 to |sorted|
      invariant forall k :: 0 <= k < i ==> !Ready(sorted[k], pending)
    {
      var l := sorted[i];
      if l.id in pending && forall d :: d in l.dependsOn ==> d !in pending {
        return i;
      }
    }
    return -1;
  }

  /** What is left of ls after out. */
  ghost predicate Partway(ls: seq<Loaded>, out: seq<Loaded>, pending: set<string>) {
    && Chosen(ls, out) && pending == IdsOf(ls) - IdsOf(out)
    && (forall l :: l in out ==> l in ls)
    && (forall i, j :: 0 <= i < j < |out| ==> out[i].id != out[j].id)
  }

  lemma OneMoreChosen(ls: seq<Loaded>, sorted: seq<Loaded>, out: seq<Loaded>, pending: set<string>, next: nat)
    requires ValidIds(ls) && multiset(sorted) == multiset(ls) && Partway(ls, out, pending)
    requires forall i, j :: 0 <= i < j < |sorted| ==> StringsCompare(sorted[i].id, sorted[j].id) <= 0
    requires next < |sorted| && Ready(sorted[next], pending) && forall i :: 0 <= i < next ==> !Ready(sorted[i], pending)
    ensures Partway(ls, out + [sorted[next]], pending - {sorted[next].id})
  {
    var l := sorted[next];
    var longer := out + [l];
    assert longer[..|out|] == out;
    assert l in multiset(sorted);
    assert IdsOf(longer) == IdsOf(out) + {l.id};
    forall x | x in ls && Ready(x, pending)
      ensures StringsCompare(l.id, x.id) <= 0
    {
      assert x in multiset(sorted);
      var k :| 0 <= k < |sorted| && sorted[k] == x;
      StringsCompareFlips(l.id, x.id);
    }
    forall i | 0 <= i < |out|
      ensures out[i].id != l.id
    {
      assert out[i] in out;
    }
  }

  lemma {:induction false} FewerChosen(ls: seq<Loaded>, out: seq<Loaded>)
    requires ValidIds(ls) && (forall l :: l in out ==> l in ls) && forall i, j :: 0 <= i < j < |out| ==> out[i].id != out[j].id
    ensures |IdsOf(out)| == |out| && |IdsOf(ls)| == |ls| && IdsOf(out) <= IdsOf(ls)
  {
    DistinctIds(out);
    DistinctIds(ls);
  }

  lemma {:induction false} DistinctIds(ls: seq<Loaded>)
    requires forall i, j :: 0 <= i < j < |ls| ==> ls[i].id != ls[j].id
    ensures |IdsOf(ls)| == |ls|
  {
    if ls != [] {
      var n := |ls| - 1;
      DistinctIds(ls[..n]);
      assert ls == ls[..n] + [ls[n]];
      assert IdsOf(ls) == IdsOf(ls[..n]) + {ls[n].id};
      forall l | l in ls[..n]
        ensures l.id != ls[n].id
      {
        var k :| 0 <= k < n && ls[..n][k] == l;
      }
    }
  }

  /** dependencyOrder: the loaded sources, each once. On a configuration without cycles every one
      comes after all loaded ones it depends on, the smallest ready id first at each step, so that
      the fallback for cycles is not reached. */
  method DependencyOrder(loaded: seq<Loaded>) returns (out: seq<Loaded>)
    requires ValidIds(loaded)
    ensures |out| == |loaded| && forall l :: l in out <==> l in loaded
    ensures Acyclic(EdgesOf(loaded)) ==> Chosen(loaded, out) && InDependencyOrder(out)
  {
    var sorted := SortById(loaded);
    assert |sorted| == |multiset(sorted)| == |loaded|;
    var pending := set l | l in sorted :: l.id;
    out := [];
    SameIds(loaded, sorted);
    while |out| < |sorted|
      invariant Partway(loaded, out, pending)
      invariant |out| <= |sorted|
    {
      var next := FirstReady(sorted, pending);
      if next < 0 {
        StuckIsCyclic(loaded, sorted, out, pending);
        out := AppendRest(loaded, sorted, out, pending);
        return;
      }
      OneMoreChosen(loaded, sorted, out, pending, next);
      pending := pending - {sorted[next].id};
      out := out + [sorted[next]];
    }
    AllChosen(loaded, out);
    InOrder(loaded, out);
  }

  /** The pending ones of ls. */
  function RestOf(ls: seq<Loaded>, pending: set<string>): seq<Loaded> {
    if ls == [] then []
    else
      var n := |ls| - 1;
      RestOf(ls[..n], pending) + if ls[n].id in pending then [ls[n]] else []
  }

  lemma {:induction false} RestIs(ls: seq<Loaded>, pending: set<string>)
    requires forall i, j :: 0 <= i < j < |ls| ==> ls[i].id != ls[j].id
    ensures forall l :: l in RestOf(ls, pending) <==> l in ls && l.id in pending
    ensures forall i, j :: 0 <= i < j < |RestOf(ls, pending)| ==> RestOf(ls, pending)[i].id != RestOf(ls, pending)[j].id
  {
    if ls != [] {
      var n := |ls| - 1;
      var rest := RestOf(ls[..n], pending);
      RestIs(ls[..n], pending);
      assert ls == ls[..n] + [ls[n]];
      forall i | 0 <= i < |rest|
        ensures rest[i].id != ls[n].id
      {
        assert rest[i] in rest;
        var k :| 0 <= k < n && ls[..n][k] == rest[i];
      }
    }
  }

  /** The fallback for a cycle: the rest by id. */
  method AppendRest(ghost loaded: seq<Loaded>, sorted: seq<Loaded>, before: seq<Loaded>, pending: set<string>) returns (out: seq<Loaded>)
    requires ValidIds(loaded) && ValidIds(sorted) && |sorted| == |loaded| && forall l :: l in sorted <==> l in loaded
    requires Partway(loaded, before, pending)
    ensures |out| == |loaded| && forall l :: l in out <==> l in loaded
  {
    out := before;
    for i := 0 to |sorted|
      invariant out == before + RestOf(sorted[..i], pending)
    {
      assert sorted[..i + 1][..i] == sorted[..i];
      if sorted[i].id in pending {
        out := out + [sorted[i]];
      }
    }
    assert sorted[..|sorted|] == sorted;
    RestCompletes(loaded, sorted, before, pending);
  }

  lemma RestIds(sorted: seq<Loaded>, pending: set<string>)
    requires ValidIds(sorted) && pending <= IdsOf(sorted)
    ensures IdsOf(RestOf(sorted, pending)) == pending && |RestOf(sorted, pending)| == |pending|
  {
    RestIs(sorted, pending);
    DistinctIds(RestOf(sorted, pending));
    forall id | id in pending
      ensures id in IdsOf(RestOf(sorted, pending))
    {
      assert id in IdsOf(sorted);
      var l :| l in sorted && l.id == id;
      assert l in RestOf(sorted, pending);
    }
  }

  lemma SplitSize(all: set<string>, some: set<string>)
    requires some <= all
    ensures |some| + |all - some| == |all|
  {
    assert all == some + (all - some);
  }

  lemma RestCompletes(ls: seq<Loaded>, sorted: seq<Loaded>, before: seq<Loaded>, pending: set<string>)
    requires ValidIds(ls) && ValidIds(sorted) && |sorted| == |ls| && forall l :: l in sorted <==> l in ls
    requires Partway(ls, before, pending)
    ensures |before + RestOf(sorted, pending)| == |ls| && forall l :: l in before + RestOf(sorted, pending) <==> l in ls
  {
    var rest := RestOf(sorted, pending);
    RestIs(sorted, pending);
    assert IdsOf(sorted) == IdsOf(ls);
    RestIds(sorted, pending);
    FewerChosen(ls, before);
    SplitSize(IdsOf(ls), IdsOf(before));
    forall l | l in ls && l !in rest
      ensures l in before
    {
      BeforeHolds(ls, before, pending, l);
    }
  }

  lemma BeforeHolds(ls: seq<Loaded>, before: seq<Loaded>, pending: set<string>, l: Loaded)
    requires ValidIds(ls) && Partway(ls, before, pending) && l in ls && l.id !in pending
    ensures l in before
  {
    assert l.id in IdsOf(ls) && l.id in IdsOf(before);
    var x :| x in before && x.id == l.id;
    SameSource(ls, x, l);
  }

  lemma SameSource(ls: seq<Loaded>, a: Loaded, b: Loaded)
    requires ValidIds(ls) && a in ls && b in ls && a.id == b.id
    ensures a == b
  {
    var i :| 0 <= i < |ls| && ls[i] == a;
    var j :| 0 <= j < |ls| && ls[j] == b;
  }

  lemma InOrder(ls: seq<Loaded>, out: seq<Loaded>)
    requires ValidIds(ls) && Chosen(ls, out)
    ensures InDependencyOrder(out)
  {
    forall i, j | 0 <= i < j < |out|
      ensures out[j].id !in out[i].dependsOn
    {
      ChosenIsInOrder(ls, out, i, j);
    }
  }

  lemma SameIds(ls: seq<Loaded>, sorted: seq<Loaded>)
    requires multiset(sorted) == multiset(ls)
    ensures forall l :: l in sorted <==> l in ls
    ensures IdsOf(sorted) == IdsOf(ls)
  {
    forall l
      ensures l in sorted <==> l in ls
    {
      assert l in multiset(sorted) <==> l in multiset(ls);
    }
  }

  /** When nothing is ready there is a cycle. */
  lemma StuckIsCyclic(ls: seq<Loaded>, sorted: seq<Loaded>, out: seq<Loaded>, pending: set<string>)
    requires ValidIds(ls) && IdsOf(sorted) == IdsOf(ls) && (forall l :: l in sorted <==> l in ls)
    requires Partway(ls, out, pending) && |out| < |ls|
    requires NoneReady(sorted, pending)
    ensures !Acyclic(EdgesOf(ls))
  {
    FewerChosen(ls, out);
    var a := Missing(IdsOf(ls), IdsOf(out));
    if Acyclic(EdgesOf(ls)) {
      SomeIsReady(ls, pending, a);
    }
  }

  lemma Missing<T>(all: set<T>, some: set<T>) returns (a: T)
    requires |some| < |all|
    ensures a in all - some
  {
    if all <= some {
      Sets.SubsetSize(all, some);
    }
    a :| a in all && a !in some;
  }

  lemma AllChosen(ls: seq<Loaded>, out: seq<Loaded>)
    requires ValidIds(ls) && Chosen(ls, out) && |out| == |ls| && (forall l :: l in out ==> l in ls)
    requires forall i, j :: 0 <= i < j < |out| ==> out[i].id != out[j].id
    ensures forall l :: l in ls ==> l in out
  {
    FewerChosen(ls, out);
    SameSize(IdsOf(out), IdsOf(ls));
    forall l | l in ls
      ensures l in out
    {
      assert l.id in IdsOf(out);
      var x :| x in out && x.id == l.id;
      SameSource(ls, x, l);
    }
  }

  lemma SameSize<T>(a: set<T>, b: set<T>)
    requires a <= b && |a| == |b|
    ensures a == b
  {
    if a != b {
      var x :| x in b && x !in a;
      Sets.SubsetSize(a, b - {x});
    }
  }

  // ---- an accepted configuration

  /** The sources named by dependencies. */
  function SourcesOf(ds: seq<Dependency>): (r: seq<string>)
    ensures |r| == |ds| && forall k :: 0 <= k < |r| ==> r[k] == ds[k].source
  {
    seq(|ds|, k requires 0 <= k < |ds| => ds[k].source)
  }

  /** The loaded sources are some of the subscription's. */
  predicate LoadedFrom(ls: seq<Loaded>, g: Group) {
    forall l :: l in ls ==> exists j :: 0 <= j < |g.sources| && l == Loaded(g.sources[j].id, SourcesOf(g.sources[j].dependsOn))
  }

  /** No source depends on itself. */
  predicate NoneOnItself(g: Group) {
    forall j, d :: 0 <= j < |g.sources| && d in g.sources[j].dependsOn ==> d.source != g.sources[j].id
  }

  /** A dependency between loaded sources is one the configuration check knows. */
  lemma LoadedStep(g: Group, ls: seq<Loaded>, x: string, y: string)
    requires ValidIds(ls) && LoadedFrom(ls, g) && DependencyRules.Parsed(g) && NoneOnItself(g)
    requires x in IdsOf(ls) && y in IdsOf(ls) && y in Succ(EdgesOf(ls), x)
    ensures LocalEdge(g, x, y)
  {
    var l, t :| l in ls && l.id == x && t in ls && t.id == y;
    EdgesAre(ls, l);
    var j :| 0 <= j < |g.sources| && l == Loaded(g.sources[j].id, SourcesOf(g.sources[j].dependsOn));
    var k :| 0 <= k < |l.dependsOn| && l.dependsOn[k] == y;
    assert g.sources[j].dependsOn[k] in g.sources[j].dependsOn;
    var m :| 0 <= m < |g.sources| && t == Loaded(g.sources[m].id, SourcesOf(g.sources[m].dependsOn));
    assert Ids(g)[m] == y;
    assert LocalAt(g, j, k, x, y);
  }

  lemma {:induction false} EdgesFromIds(ls: seq<Loaded>, x: string)
    ensures Succ(EdgesOf(ls), x) != [] ==> x in IdsOf(ls)
  {
    if ls != [] {
      var n := |ls| - 1;
      EdgesFromIds(ls[..n], x);
      assert ls == ls[..n] + [ls[n]];
    }
  }

  /** In a configuration the cycle checks accept (DependencyRules.CheckAllCycles), with edges the
      graph of all its sources, the loaded sources of a subscription have no cycle: the order puts
      each after its dependencies and never falls back. */
  lemma AcceptedIsAcyclic(subs: seq<Group>, edges: Edges<Place>, i: nat, ls: seq<Loaded>)
    requires AllAcyclic(subs) && CrossEdges(subs, edges) && i < |subs|
    requires UniqueIds(subs[i]) && DependencyRules.Parsed(subs[i]) && NoneOnItself(subs[i])
    requires ValidIds(ls) && LoadedFrom(ls, subs[i])
    ensures Acyclic(EdgesOf(ls))
  {
    var graph := EdgesOf(ls);
    forall c: seq<string> | IsCycle(graph, c)
      ensures false
    {
      forall k | 0 <= k < |c|
        ensures c[Next(k, |c|)] in Succ(graph, c[k]) && c[k] in IdsOf(ls)
      {
        assert k + 1 < |c| ==> Step(graph, c, k);
        EdgesFromIds(ls, c[k]);
      }
      forall k | 0 <= k < |c|
        ensures LocalEdge(subs[i], c[k], c[Next(k, |c|)])
      {
        LoadedStep(subs[i], ls, c[k], c[Next(k, |c|)]);
      }
      var r := RingOfAll(subs, i, edges, c);
    }
  }
}
