/** Ranking the candidates of a source and picking its active set
    (internal/scd/selection/selection.go). */
module Selection {
  import opened Namespaces
  import opened SourceRules
  import opened Sorting

  /** Identifies a candidate's key; two active candidates never share it. */
  type Key = string

  datatype Candidate = Candidate(
    tag: Tag,
    title: string,       // the label shown
    load: Option<int>,
    score: Option<real>,
    key: Key,
    endpoint: string,
    transport: string,   // "" for wireguard, "h2" or "h3" for masque
    priority: int)

  datatype Strategy = ByScore | ByLoad | ByLabel

  // ---- comparing candidates

  function CompareReal(a: real, b: real): int {
    if a < b then -1 else if a > b then 1 else 0
  }

  /** orNil: a present value sorts before a missing one. */
  function OrNil(a: Option<real>, b: Option<real>): int {
    match (a, b)
    case (None, None) => 0
    case (None, Some(_)) => 1
    case (Some(_), None) => -1
    case (Some(x), Some(y)) => CompareReal(x, y)
  }

  /** emptyLast: an empty label sorts after the others. */
  function EmptyLast(a: string, b: string): int {
    if (a == "") != (b == "") then (if a == "" then 1 else -1) else StringsCompare(a, b)
  }

  function LoadOf(c: Candidate): Option<real> {
    match c.load case Some(n) => Some(n as real) case None => None
  }

  /** The comparison Rank sorts by. */
  function CompareBy(strategy: Strategy, a: Candidate, b: Candidate): int {
    var names := Or(EmptyLast(a.title, b.title), StringsCompare(a.tag, b.tag));
    match strategy
    case ByScore => Or(OrNil(a.score, b.score), Or(OrNil(LoadOf(a), LoadOf(b)), names))
    case ByLoad => Or(OrNil(LoadOf(a), LoadOf(b)), Or(OrNil(a.score, b.score), names))
    case ByLabel => names
  }

  lemma EmptyLastFlips(a: string, b: string)
    ensures EmptyLast(a, b) == -EmptyLast(b, a)
    ensures EmptyLast(a, b) == 0 <==> a == b
  {
    StringsCompareFlips(a, b);
  }

  lemma EmptyLastTransitive(a: string, b: string, c: string)
    requires EmptyLast(a, b) <= 0 && EmptyLast(b, c) <= 0
    ensures EmptyLast(a, c) <= 0
  {
    if StringsCompare(a, b) <= 0 && StringsCompare(b, c) <= 0 {
      StringsCompareTransitive(a, b, c);
    }
  }

  lemma NamesAreOrdered(a: Candidate, b: Candidate, c: Candidate)
    ensures CompareBy(ByLabel, a, b) == -CompareBy(ByLabel, b, a)
    ensures CompareBy(ByLabel, a, b) <= 0 && CompareBy(ByLabel, b, c) <= 0 ==> CompareBy(ByLabel, a, c) <= 0
  {
    EmptyLastFlips(a.title, b.title);
    StringsCompareFlips(a.tag, b.tag);
    if CompareBy(ByLabel, a, b) <= 0 && CompareBy(ByLabel, b, c) <= 0 {
      EmptyLastFlips(b.title, c.title);
      EmptyLastFlips(a.title, c.title);
      EmptyLastTransitive(a.title, b.title, c.title);
      if a.title == b.title && b.title == c.title {
        StringsCompareTransitive(a.tag, b.tag, c.tag);
      }
    }
  }

  /** A comparison by one optional number and then by what decides the rest. */
  lemma ThenByIsOrder(x: Option<real>, y: Option<real>, z: Option<real>, xy: int, yx: int, yz: int, xz: int)
    requires xy < 0 <==> yx > 0
    requires xy <= 0 && yz <= 0 ==> xz <= 0
    ensures Or(OrNil(x, y), xy) < 0 <==> Or(OrNil(y, x), yx) > 0
    ensures Or(OrNil(x, y), xy) <= 0 && Or(OrNil(y, z), yz) <= 0 ==> Or(OrNil(x, z), xz) <= 0
  {
  }

  lemma CompareByIsOrder(strategy: Strategy, a: Candidate, b: Candidate, c: Candidate)
    ensures CompareBy(strategy, a, b) < 0 <==> CompareBy(strategy, b, a) > 0
    ensures CompareBy(strategy, a, b) <= 0 && CompareBy(strategy, b, c) <= 0 ==> CompareBy(strategy, a, c) <= 0
  {
    NamesAreOrdered(a, b, c);
    var ab, ba, bc, ac := CompareBy(ByLabel, a, b), CompareBy(ByLabel, b, a), CompareBy(ByLabel, b, c), CompareBy(ByLabel, a, c);
    match strategy
    case ByLabel =>
    case ByScore =>
      ThenByIsOrder(LoadOf(a), LoadOf(b), LoadOf(c), ab, ba, bc, ac);
      ThenByIsOrder(a.score, b.score, c.score,
        Or(OrNil(LoadOf(a), LoadOf(b)), ab), Or(OrNil(LoadOf(b), LoadOf(a)), ba),
        Or(OrNil(LoadOf(b), LoadOf(c)), bc), Or(OrNil(LoadOf(a), LoadOf(c)), ac));
    case ByLoad =>
      ThenByIsOrder(a.score, b.score, c.score, ab, ba, bc, ac);
      ThenByIsOrder(LoadOf(a), LoadOf(b), LoadOf(c),
        Or(OrNil(a.score, b.score), ab), Or(OrNil(b.score, a.score), ba),
        Or(OrNil(b.score, c.score), bc), Or(OrNil(a.score, c.score), ac));
  }

  // ---- Rank

  /** Candidates of one key with a transport (masque) form a group. */
  predicate SameGroup(a: Candidate, b: Candidate) {
    a.transport != "" && b.transport != "" && a.key == b.key
  }

  /** pos of Rank: the place of the first member of the group of out[i], else i itself. */
  function First(out: seq<Candidate>, i: nat): (f: nat)
    requires i < |out|
    ensures f <= i && (f == i || SameGroup(out[f], out[i]))
    ensures forall j :: 0 <= j < f ==> !SameGroup(out[j], out[i])
  {
    FirstFrom(out, i, 0)
  }

  function FirstFrom(out: seq<Candidate>, i: nat, j: nat): (f: nat)
    requires j <= i < |out|
    ensures j <= f <= i && (f == i || SameGroup(out[f], out[i]))
    ensures forall k :: j <= k < f ==> !SameGroup(out[k], out[i])
    decreases i - j
  {
    if j == i || SameGroup(out[j], out[i]) then j else FirstFrom(out, i, j + 1)
  }

  function CompareInt(a: int, b: int): int {
    if a < b then -1 else if a > b then 1 else 0
  }

  function ItemCompare(items: seq<Candidate>, strategy: Strategy): Compare {
    (i: nat, j: nat) => if i < |items| && j < |items| then CompareBy(strategy, items[i], items[j]) else 0
  }

  function GroupCompare(out: seq<Candidate>, pos: seq<nat>): Compare {
    (i: nat, j: nat) =>
      if i < |out| && j < |out| && |pos| == |out| then
        Or(CompareInt(pos[i], pos[j]), CompareInt(out[i].priority, out[j].priority))
      else 0
  }

  /** Of the strategy order out, position i is ranked before position j: its group's best member
      comes first, or within one group its priority is lower, or that is equal and it came first. */
  predicate Gathered(out: seq<Candidate>, i: nat, j: nat)
    requires i < |out| && j < |out|
  {
    var a, b := First(out, i), First(out, j);
    a < b || (a == b && (out[i].priority < out[j].priority || (out[i].priority == out[j].priority && i < j)))
  }

  /** out is items in the stable order of the strategy. */
  ghost predicate StrategyOrder(items: seq<Candidate>, strategy: Strategy, order: seq<nat>, out: seq<Candidate>) {
    && Permutes(order, |items|)
    && InOrder(order, ItemCompare(items, strategy))
    && out == Arrange(items, order)
  }

  /** r is out with every group gathered at the place of its best member, by priority. */
  ghost predicate GroupOrder(out: seq<Candidate>, regroup: seq<nat>, r: seq<Candidate>) {
    && Permutes(regroup, |out|)
    && (forall p, q :: 0 <= p < q < |out| ==> Gathered(out, regroup[p], regroup[q]))
    && r == Arrange(out, regroup)
  }

  /** r is items after both sorts. */
  ghost predicate Ranked(items: seq<Candidate>, strategy: Strategy, r: seq<Candidate>) {
    exists order: seq<nat>, out: seq<Candidate>, regroup: seq<nat> ::
      StrategyOrder(items, strategy, order, out) && GroupOrder(out, regroup, r)
  }

  /** Rank: the candidates by strategy, those of one key with a transport gathered. */
  method Rank(items: seq<Candidate>, strategy: Strategy) returns (r: seq<Candidate>)
    ensures Ranked(items, strategy, r)
  {
    var cmp := ItemCompare(items, strategy);
    ItemCompareIsOrder(items, strategy);
    var idx := StableOrder(|items|, cmp);
    StableOrderPermutes(|items|, cmp);
    StableOrderSorts(|items|, |items|, cmp);
    var sorted := Arrange(items, idx);
    assert StrategyOrder(items, strategy, idx, sorted);
    var pos := Positions(sorted);
    GroupCompareIsOrder(sorted, pos);
    idx := StableOrder(|sorted|, GroupCompare(sorted, pos));
    StableOrderPermutes(|sorted|, GroupCompare(sorted, pos));
    StableOrderSorts(|sorted|, |sorted|, GroupCompare(sorted, pos));
    r := Arrange(sorted, idx);
    forall p, q | 0 <= p < q < |sorted|
      ensures Gathered(sorted, idx[p], idx[q])
    {
      assert Before(GroupCompare(sorted, pos), idx[p], idx[q]);
    }
    assert GroupOrder(sorted, idx, r);
  }

  /** The loop over the map first. */
  method Positions(out: seq<Candidate>) returns (pos: seq<nat>)
    ensures |pos| == |out| && forall i :: 0 <= i < |out| ==> pos[i] == First(out, i)
  {
    pos := [];
    var first: map<Key, nat> := map[];
    for i := 0 to |out|
      invariant |pos| == i && forall j :: 0 <= j < i ==> pos[j] == First(out, j)
      invariant forall k :: k in first ==> first[k] < i && out[first[k]].transport != "" && out[first[k]].key == k &&
                                           forall j :: 0 <= j < first[k] ==> !(out[j].transport != "" && out[j].key == k)
      invariant forall j :: 0 <= j < i && out[j].transport != "" ==> out[j].key in first
    {
      var c := out[i];
      if c.transport == "" {
        pos := pos + [i];
      } else if c.key in first {
        pos := pos + [first[c.key]];
      } else {
        first := first[c.key := i];
        pos := pos + [i];
      }
    }
  }

  lemma ItemCompareIsOrder(items: seq<Candidate>, strategy: Strategy)
    ensures IsOrder(ItemCompare(items, strategy), |items|)
  {
    var cmp := ItemCompare(items, strategy);
    forall a: nat, b: nat | a < |items| && b < |items|
      ensures cmp(a, b) < 0 <==> cmp(b, a) > 0
    {
      CompareByIsOrder(strategy, items[a], items[b], items[b]);
    }
    forall a: nat, b: nat, c: nat | a < |items| && b < |items| && c < |items| && cmp(a, b) <= 0 && cmp(b, c) <= 0
      ensures cmp(a, c) <= 0
    {
      CompareByIsOrder(strategy, items[a], items[b], items[c]);
    }
  }

  lemma GroupCompareIsOrder(out: seq<Candidate>, pos: seq<nat>)
    requires |pos| == |out|
    ensures IsOrder(GroupCompare(out, pos), |out|)
  {
  }

  // ---- what a ranking guarantees

  /** It loses and invents no candidate. */
  lemma RankKeepsAll(items: seq<Candidate>, strategy: Strategy, r: seq<Candidate>)
    requires Ranked(items, strategy, r)
    ensures multiset(r) == multiset(items)
  {
    var order: seq<nat>, out, regroup: seq<nat> :| StrategyOrder(items, strategy, order, out) && GroupOrder(out, regroup, r);
    ArrangeKeeps(items, order);
    ArrangeKeeps(out, regroup);
  }

  /** The candidates of one key with a transport follow each other, by priority. */
  lemma GroupsAreConsecutive(items: seq<Candidate>, strategy: Strategy, r: seq<Candidate>, i: nat, k: nat)
    requires Ranked(items, strategy, r) && i < k < |r| && SameGroup(r[i], r[k])
    ensures r[i].priority <= r[k].priority
    ensures forall j :: i < j < k ==> SameGroup(r[i], r[j]) && r[i].priority <= r[j].priority <= r[k].priority
  {
    var order: seq<nat>, out, regroup: seq<nat> :| StrategyOrder(items, strategy, order, out) && GroupOrder(out, regroup, r);
    FirstOfGroup(out, regroup[i], regroup[k]);
    assert Gathered(out, regroup[i], regroup[k]);
    forall j | i < j < k
      ensures SameGroup(r[i], r[j]) && r[i].priority <= r[j].priority <= r[k].priority
    {
      assert Gathered(out, regroup[i], regroup[j]) && Gathered(out, regroup[j], regroup[k]);
      var f := First(out, regroup[i]);
      assert First(out, regroup[j]) == f == First(out, regroup[k]);
    }
  }

  lemma FirstOfGroup(out: seq<Candidate>, i: nat, k: nat)
    requires i < |out| && k < |out| && SameGroup(out[i], out[k])
    ensures First(out, i) == First(out, k) && SameGroup(out[First(out, i)], out[k])
  {
  }

  lemma PlacesTellGroupsApart(out: seq<Candidate>, i: nat, k: nat)
    requires i < |out| && k < |out| && i != k && !SameGroup(out[i], out[k])
    ensures First(out, i) != First(out, k)
  {
  }

  /** Candidates of different groups keep the strategy order of the best of each: the group that
      comes first has a member the strategy ranks no worse than every member of the other. */
  lemma GroupsKeepStrategyOrder(items: seq<Candidate>, strategy: Strategy, r: seq<Candidate>, i: nat, k: nat) returns (best: nat)
    requires Ranked(items, strategy, r)
    requires i < k < |r| && !SameGroup(r[i], r[k])
    ensures best < |r| && (best == i || SameGroup(r[best], r[i]))
    ensures CompareBy(strategy, r[best], r[k]) <= 0
    ensures r[i].transport == "" ==> best == i
  {
    var order: seq<nat>, out, regroup: seq<nat> :| StrategyOrder(items, strategy, order, out) && GroupOrder(out, regroup, r);
    var f := First(out, regroup[i]);
    assert Gathered(out, regroup[i], regroup[k]);
    assert f in regroup;
    best :| best < |r| && regroup[best] == f;
    if f != regroup[i] {
      assert SameGroup(out[f], out[regroup[i]]);
    } else {
      assert best == i;
    }
    assert First(out, regroup[k]) <= regroup[k];
    PlacesTellGroupsApart(out, regroup[i], regroup[k]);
    assert Before(ItemCompare(items, strategy), order[f], order[regroup[k]]);
  }

  // ---- Pick

  /** The first candidate of every key, in order. */
  function FirstOfKeys(ranked: seq<Candidate>): seq<Candidate> {
    if ranked == [] then []
    else
      var n := |ranked| - 1;
      FirstOfKeys(ranked[..n]) + if ranked[n].key in Keys(ranked[..n]) then [] else [ranked[n]]
  }

  function Keys(cs: seq<Candidate>): set<Key> {
    set c | c in cs :: c.key
  }

  predicate DistinctKeys(cs: seq<Candidate>) {
    forall i, j :: 0 <= i < j < |cs| ==> cs[i].key != cs[j].key
  }

  lemma {:induction false} FirstOfKeysCovers(ranked: seq<Candidate>)
    ensures DistinctKeys(FirstOfKeys(ranked)) && Keys(FirstOfKeys(ranked)) == Keys(ranked)
    ensures forall c :: c in FirstOfKeys(ranked) ==> c in ranked
  {
    if ranked != [] {
      var n := |ranked| - 1;
      FirstOfKeysCovers(ranked[..n]);
      assert ranked == ranked[..n] + [ranked[n]];
      var f := FirstOfKeys(ranked[..n]);
      forall i | 0 <= i < |f|
        ensures f[i].key in Keys(ranked[..n])
      {
        assert f[i] in f;
      }
      assert Keys(ranked) == Keys(ranked[..n]) + {ranked[n].key};
      assert Keys(f + [ranked[n]]) == Keys(f) + {ranked[n].key};
    }
  }

  /** Pick: the first maxActive of the candidates that come first of their key. */
  method Pick(ranked: seq<Candidate>, maxActive: nat) returns (out: seq<Candidate>)
    ensures out == FirstOfKeys(ranked)[..if |FirstOfKeys(ranked)| < maxActive then |FirstOfKeys(ranked)| else maxActive]
  {
    out := [];
    var keys: set<Key> := {};
    var i := 0;
    while i < |ranked|
      invariant i <= |ranked| && |out| <= maxActive
      invariant out == FirstOfKeys(ranked[..i]) && keys == Keys(ranked[..i])
    {
      if |out| == maxActive {
        FirstOfKeysGrows(ranked, i);
        return;
      }
      var c := ranked[i];
      assert ranked[..i + 1][..i] == ranked[..i];
      assert ranked[..i + 1] == ranked[..i] + [c];
      assert Keys(ranked[..i + 1]) == Keys(ranked[..i]) + {c.key};
      if c.key !in keys {
        keys := keys + {c.key};
        out := out + [c];
      }
      i := i + 1;
    }
    assert ranked[..i] == ranked;
  }

  lemma {:induction false} FirstOfKeysGrows(ranked: seq<Candidate>, i: nat)
    requires i <= |ranked|
    ensures FirstOfKeys(ranked[..i]) <= FirstOfKeys(ranked)
    decreases |ranked| - i
  {
    if i == |ranked| {
      assert ranked[..i] == ranked;
    } else {
      FirstOfKeysGrows(ranked, i + 1);
      assert ranked[..i + 1][..i] == ranked[..i];
    }
  }

  /** What Pick chose has pairwise distinct keys, is at most maxActive, and leaves a key out only
      when it is full. */
  lemma PickIsMaximal(ranked: seq<Candidate>, maxActive: nat, out: seq<Candidate>)
    requires out == FirstOfKeys(ranked)[..if |FirstOfKeys(ranked)| < maxActive then |FirstOfKeys(ranked)| else maxActive]
    ensures DistinctKeys(out) && |out| <= maxActive
    ensures forall c :: c in out ==> c in ranked
    ensures |out| < maxActive ==> Keys(out) == Keys(ranked)
  {
    FirstOfKeysCovers(ranked);
  }
}
