/** While the candidate file stays the same, switching for something better comes to an end. */
module Switches {
  import opened Namespaces
  import opened Sets
  import opened SourceRules
  import opened Selection
  import opened Decide

  /** The metric of the strategy. */
  function Metric(strategy: Strategy, c: Candidate): Option<real> {
    if strategy == ByLoad then LoadOf(c) else c.score
  }

  /** How many candidates of the file have a lower metric. */
  function Level(ranked: seq<Candidate>, strategy: Strategy, m: real): nat {
    |Lower(ranked, strategy, m)|
  }

  function Lower(ranked: seq<Candidate>, strategy: Strategy, m: real): set<nat> {
    set k: nat | k < |ranked| && Metric(strategy, ranked[k]).Some? && Metric(strategy, ranked[k]).value < m
  }

  lemma LevelBounded(ranked: seq<Candidate>, strategy: Strategy, m: real)
    ensures Level(ranked, strategy, m) <= |ranked|
  {
    SubsetSize(Lower(ranked, strategy, m), Below(|ranked|));
  }

  /** A candidate with a lower metric is on a lower level. */
  lemma LevelDrops(ranked: seq<Candidate>, strategy: Strategy, c: Candidate, m: real)
    requires c in ranked && Metric(strategy, c).Some? && Metric(strategy, c).value < m
    ensures Level(ranked, strategy, Metric(strategy, c).value) < Level(ranked, strategy, m)
  {
    var k: nat :| k < |ranked| && ranked[k] == c;
    var low, high := Lower(ranked, strategy, Metric(strategy, c).value), Lower(ranked, strategy, m);
    assert k in high && k !in low;
    SubsetSize(low, high - {k});
  }

  /** One decision after another on the same file and settings. */
  ghost predicate OneFile(xs: seq<Input>, rs: seq<Run>) {
    && |xs| == |rs|
    && (forall n :: 0 <= n < |xs| ==> xs[n].Valid() && Decides(xs[n], rs[n]))
    && (forall n :: 0 <= n < |xs| ==> xs[n].ranked == xs[0].ranked && xs[n].cfg == xs[0].cfg)
    && (forall n :: 0 <= n < |xs| - 1 ==> Follows(xs[n], rs[n], xs[n + 1]))
  }

  /** The slots of the next decision hold what this one gave them. */
  ghost predicate Follows(x: Input, r: Run, x': Input) {
    && |x'.active| == |x.active| == |r.actions|
    && forall i :: 0 <= i < |x.active| ==>
         var f := Final(x.active, x.ranked, r.actions)[i];
         f.Some? && x'.active[i].candidate.tag == f.value.tag
  }

  /** The file has every active candidate, and every candidate has the metric. */
  predicate AllMeasured(x: Input) {
    && (forall i :: 0 <= i < |x.active| ==> ByTag(x.ranked, x.active[i].candidate.tag).Some?)
    && (forall c :: c in x.ranked ==> Metric(x.cfg.strategy, c).Some?)
  }

  function SlotLevel(x: Input, i: nat): nat
    requires AllMeasured(x) && i < |x.active|
  {
    Level(x.ranked, x.cfg.strategy, Metric(x.cfg.strategy, ByTag(x.ranked, x.active[i].candidate.tag).value).value)
  }

  /** The levels of the first n slots, summed. */
  function Levels(x: Input, n: nat): nat
    requires AllMeasured(x) && n <= |x.active|
  {
    if n == 0 then 0 else Levels(x, n - 1) + SlotLevel(x, n - 1)
  }

  /** The replacements among the first n actions. */
  function Replacements(actions: seq<Action>, n: nat): nat
    requires n <= |actions|
  {
    if n == 0 then 0 else Replacements(actions, n - 1) + if actions[n - 1].Replace? then 1 else 0
  }

  function AllReplacements(rs: seq<Run>): nat {
    if rs == [] then 0 else AllReplacements(rs[..|rs| - 1]) + Replacements(rs[|rs| - 1].actions, |rs[|rs| - 1].actions|)
  }

  lemma {:induction false} ByTagFinds(ranked: seq<Candidate>, c: Candidate)
    requires c in ranked && DistinctTags(ranked)
    ensures ByTag(ranked, c.tag) == Some(c)
  {
    var n := |ranked| - 1;
    if ranked[n].tag != c.tag {
      assert c in ranked[..n];
      ByTagFinds(ranked[..n], c);
    } else {
      var k :| 0 <= k < |ranked| && ranked[k] == c;
    }
  }

  lemma StaysMeasured(x: Input, r: Run, x': Input)
    requires x.Valid() && Decides(x, r) && AllMeasured(x) && Follows(x, r, x') && x'.ranked == x.ranked && x'.cfg == x.cfg
    ensures AllMeasured(x')
    ensures forall i :: 0 <= i < |x.active| ==>
              ByTag(x.ranked, x'.active[i].candidate.tag) ==
              Some(if r.actions[i].Replace? then r.actions[i].to else ByTag(x.ranked, x.active[i].candidate.tag).value)
  {
    DecisionIsSound(x, r);
    forall i | 0 <= i < |x.active|
      ensures ByTag(x.ranked, x'.active[i].candidate.tag) ==
              Some(if r.actions[i].Replace? then r.actions[i].to else ByTag(x.ranked, x.active[i].candidate.tag).value)
    {
      assert SoundAction(x, i, r.actions[i]);
      var f := Final(x.active, x.ranked, r.actions)[i];
      ByTagFinds(x.ranked, f.value);
    }
  }

  lemma ReplacementCosts(x: Input, r: Run, x': Input, i: nat)
    requires x.Valid() && Decides(x, r) && AllMeasured(x) && Follows(x, r, x') && x'.ranked == x.ranked && x'.cfg == x.cfg
    requires AllMeasured(x') && i < |x.active|
    ensures SlotPays(x, r.actions[i], x', i)
  {
    StaysMeasured(x, r, x');
    DecisionIsSound(x, r);
    assert SoundAction(x, i, r.actions[i]);
    if r.actions[i].Replace? {
      var cur := ByTag(x.ranked, x.active[i].candidate.tag).value;
      LevelDrops(x.ranked, x.cfg.strategy, r.actions[i].to, Metric(x.cfg.strategy, cur).value);
    }
  }

  /** A replacement in slot i costs a level. */
  predicate SlotPays(x: Input, action: Action, x': Input, i: nat)
    requires AllMeasured(x) && AllMeasured(x') && i < |x.active| == |x'.active|
  {
    SlotLevel(x', i) + (if action.Replace? then 1 else 0) <= SlotLevel(x, i)
  }

  /** So all replacements together cost as many levels. */
  lemma {:induction false} ReplacementsCost(x: Input, actions: seq<Action>, x': Input, n: nat)
    requires AllMeasured(x) && AllMeasured(x') && n <= |x.active| == |x'.active| == |actions|
    requires forall i :: 0 <= i < |x.active| ==> SlotPays(x, actions[i], x', i)
    ensures Levels(x', n) + Replacements(actions, n) <= Levels(x, n)
  {
    if n > 0 {
      ReplacementsCost(x, actions, x', n - 1);
      assert SlotPays(x, actions[n - 1], x', n - 1);
    }
  }

  lemma {:induction false} LevelsBounded(x: Input, n: nat)
    requires AllMeasured(x) && n <= |x.active|
    ensures Levels(x, n) <= n * |x.ranked|
  {
    if n > 0 {
      LevelsBounded(x, n - 1);
      LevelBounded(x.ranked, x.cfg.strategy, Metric(x.cfg.strategy, ByTag(x.ranked, x.active[n - 1].candidate.tag).value).value);
      assert n * |x.ranked| == (n - 1) * |x.ranked| + |x.ranked|;
    }
  }

  lemma {:induction false} RunCosts(xs: seq<Input>, rs: seq<Run>, n: nat)
    requires OneFile(xs, rs) && 0 < n < |xs| && AllMeasured(xs[0])
    ensures AllMeasured(xs[n]) && |xs[n].active| == |xs[0].active|
    ensures Levels(xs[n], |xs[0].active|) + AllReplacements(rs[..n]) <= Levels(xs[0], |xs[0].active|)
  {
    var p := n - 1;
    assert rs[..n][..p] == rs[..p];
    assert Follows(xs[p], rs[p], xs[p + 1]);
    if p > 0 {
      RunCosts(xs, rs, p);
    } else {
      assert rs[..0] == [];
    }
    StaysMeasured(xs[p], rs[p], xs[n]);
    forall i | 0 <= i < |xs[0].active|
      ensures SlotPays(xs[p], rs[p].actions[i], xs[n], i)
    {
      ReplacementCosts(xs[p], rs[p], xs[n], i);
    }
    ReplacementsCost(xs[p], rs[p].actions, xs[n], |xs[0].active|);
  }

  /** However long the run and however the tunnels' health and the quarantine vary: on one file
      that has the active candidates and whose candidates all carry the strategy's metric, all
      decisions but the last together replace at most slots times candidates. */
  lemma SwitchingEnds(xs: seq<Input>, rs: seq<Run>)
    requires OneFile(xs, rs) && |xs| > 1 && AllMeasured(xs[0])
    ensures AllReplacements(rs[..|rs| - 1]) <= |xs[0].active| * |xs[0].ranked|
  {
    RunCosts(xs, rs, |xs| - 1);
    LevelsBounded(xs[0], |xs[0].active|);
  }
}
