/** The daemon on one target: every operation that changes Xray or what the daemon remembers of
    it, in any order, for all candidate sources of a subscription
    (internal/scd/syncer, internal/scd/monitor, internal/scd/state). */
module Daemon {
  import opened Namespaces
  import opened Sets
  import opened SourceRules
  import opened Selection
  import opened Decide
  import opened XrayApi
  import opened Topology
  import opened TunnelCalls
  import opened RepairCalls
  import opened ApplyTunnels
  import opened TargetState
  import opened Slots
  import opened Repairs
  import opened Plans
  import opened FullApply
  import opened SlotSync
  import opened SourceSync
  import opened FailedReplacement
  import opened FailureCounts
  import opened Waits
  import opened Checks
  import Orphans

  /** AtRest about the parts of memory it reads. */
  ghost predicate Resting(f: Feed, x: Server, full: nat, wins: seq<set<Win>>, sources: map<string, SourceState>, tuns: seq<Tun>) {
    f.ns.sourceId in sources ==>
      var st := sources[f.ns.sourceId];
      && Sound(f, x, full, st, tuns)
      && Streaks(st.selection, wins)
      && (st.hashes != map[] ==> Keyed(f, tuns, st.candidates))
  }

  lemma AtRestIsResting(tg: TargetState.Target, f: Feed, x: Server, full: nat, wins: seq<set<Win>>)
    ensures AtRest(tg, f, x, full, wins) <==> tg.Valid() && Resting(f, x, full, wins, tg.sources, Block(tg.tunnels, f.ns.sourceId))
  {
  }

  // ---- one source's work leaves the others alone

  /** Work in the scope does not touch the resources of g. */
  ghost predicate Foreign(scope: Scope, g: Feed) {
    forall kind, tag :: g.ns.Owns(kind, tag) ==> !scope.Covers(kind, tag)
  }

  /** Between states a and x only what lies in the scope changed. */
  ghost predicate Inside(scope: Scope, boot: Server, a: Server, x: Server) {
    a.restarts <= x.restarts && Rest(scope, x) == Rest(scope, Base(boot, a, x))
  }

  lemma OthersOutbounds(scope: Scope, g: Feed, boot: Server, a: Server, x: Server)
    requires Foreign(scope, g) && Inside(scope, boot, a, x)
    ensures Owned(g.t, g.ns, x) == Owned(g.t, g.ns, Base(boot, a, x))
    ensures forall tag :: g.ns.Owns(KindOutbound, tag) ==> (tag in x.outbounds <==> tag in Base(boot, a, x).outbounds)
  {
    var b := Base(boot, a, x);
    forall tag | g.ns.Owns(KindOutbound, tag)
      ensures tag in x.outbounds <==> tag in b.outbounds
    {
      assert !scope.Covers(KindOutbound, tag);
      assert tag in x.outbounds <==> tag in Rest(scope, x).outbounds;
      assert tag in b.outbounds <==> tag in Rest(scope, b).outbounds;
    }
  }

  lemma OthersInbounds(scope: Scope, g: Feed, boot: Server, a: Server, x: Server)
    requires Foreign(scope, g) && Inside(scope, boot, a, x)
    ensures forall tag :: g.ns.Owns(KindInbound, tag) ==> (tag in x.inbounds <==> tag in Base(boot, a, x).inbounds)
  {
    var b := Base(boot, a, x);
    forall tag | g.ns.Owns(KindInbound, tag)
      ensures tag in x.inbounds <==> tag in b.inbounds
    {
      assert !scope.Covers(KindInbound, tag);
      assert tag in x.inbounds <==> tag in Rest(scope, x).inbounds;
      assert tag in b.inbounds <==> tag in Rest(scope, b).inbounds;
    }
  }

  lemma OtherMirrored(scope: Scope, g: Feed, boot: Server, a: Server, x: Server, full: nat, tuns: seq<Tun>)
    requires Foreign(scope, g) && Inside(scope, boot, a, x) && g.Valid() && Clear(g.Scope(), boot)
    requires Ported(g, tuns) && Mirrored(g, tuns, a, full)
    ensures Mirrored(g, tuns, x, full)
  {
    OthersOutbounds(scope, g, boot, a, x);
    OthersInbounds(scope, g, boot, a, x);
    BootIsClear(g, boot, tuns);
    if x.restarts != a.restarts {
      assert Owned(g.t, g.ns, Base(boot, a, x)) == Owned(g.t, g.ns, boot);
      forall tag | tag in MineIn(g.Scope(), x)
        ensures tag in MineIn(g.Scope(), boot)
      {
      }
    } else {
      forall tag | tag in MineIn(g.Scope(), x)
        ensures tag in MineIn(g.Scope(), a)
      {
      }
      if x.restarts == full {
        forall tn | tn in tuns
          ensures tn.mapping.inboundTag in x.inbounds
        {
          PairTagsOwned(g, tn.mapping);
        }
      }
    }
  }

  lemma OtherSingle(scope: Scope, g: Feed, boot: Server, a: Server, x: Server, tuns: seq<Tun>)
    requires Foreign(scope, g) && Inside(scope, boot, a, x) && g.Valid() && Clear(g.Scope(), boot)
    requires Ported(g, tuns) && Apart(TwinsOf(tuns), a)
    ensures Apart(TwinsOf(tuns), x)
  {
    OthersOutbounds(scope, g, boot, a, x);
    BootIsClear(g, boot, tuns);
    forall p | p in TwinsOf(tuns)
      ensures !(p.0 in x.outbounds && p.1 in x.outbounds)
    {
      var tn :| tn in tuns && p in Twins(tn.mapping);
      PairTagsOwned(g, tn.mapping);
    }
  }

  /** A source at rest stays so while another one is worked on. */
  lemma OtherResting(scope: Scope, g: Feed, boot: Server, a: Server, x: Server, full: nat, wins: seq<set<Win>>,
                     sources: map<string, SourceState>, tuns: seq<Tun>)
    requires Foreign(scope, g) && Inside(scope, boot, a, x) && g.Valid() && Clear(g.Scope(), boot)
    requires Resting(g, a, full, wins, sources, tuns)
    ensures Resting(g, x, full, wins, sources, tuns)
  {
    if g.ns.sourceId in sources {
      OtherSingle(scope, g, boot, a, x, tuns);
      if sources[g.ns.sourceId].hashes != map[] {
        OtherMirrored(scope, g, boot, a, x, full, tuns);
      }
    }
  }

  // ---- the daemon

  /** apply.Capped: a cap for every source with maxActive. */
  function CapsOf(sub: Subscription): seq<Cap> {
    CapsFrom(sub, |sub.sources|)
  }

  function CapsFrom(sub: Subscription, n: nat): (r: seq<Cap>)
    requires n <= |sub.sources|
    ensures forall j :: 0 <= j < n && sub.sources[j].maxActive > 0 ==> Cap(sub.Ns(j), sub.sources[j].maxActive) in r
  {
    if n == 0 then []
    else
      CapsFrom(sub, n - 1) +
      if sub.sources[n - 1].maxActive > 0 then [Cap(sub.Ns(n - 1), sub.sources[n - 1].maxActive)] else []
  }

  lemma {:induction false} CapsAreClear(sub: Subscription, boot: Server, n: nat)
    requires n <= |sub.sources|
    requires forall j :: 0 <= j < |sub.sources| ==> Clear(SourceScope(sub.target, sub.Ns(j)), boot)
    ensures forall cap :: cap in CapsFrom(sub, n) ==> cap.limit > 0 && Owned(sub.target, cap.ns, boot) == {}
  {
    if n > 0 {
      CapsAreClear(sub, boot, n - 1);
      assert Clear(SourceScope(sub.target, sub.Ns(n - 1)), boot);
      assert Owned(sub.target, sub.Ns(n - 1), boot) == {};
    }
  }

  /** How many outbounds of the namespace count against a cap in each state. */
  function OwnedCounts(t: SourceRules.Target, ns: Namespace, trace: seq<Server>): (r: seq<nat>)
    ensures |r| == |trace| && forall n :: 0 <= n < |r| ==> r[n] == |Owned(t, ns, trace[n])|
  {
    seq(|trace|, n requires 0 <= n < |trace| => |Owned(t, ns, trace[n])|)
  }

  predicate NoGrowth(counts: seq<nat>, cap: nat, n: nat)
    requires 0 < n < |counts|
  {
    counts[n] <= Max(cap, counts[n - 1])
  }

  /** Counts that never grow past the cap from one to the next never do. */
  lemma {:induction false} NeverGrow(counts: seq<nat>, cap: nat, i: nat, k: nat)
    requires i <= k < |counts| && forall n :: 0 < n < |counts| ==> NoGrowth(counts, cap, n)
    ensures counts[k] <= Max(cap, counts[i])
    decreases k - i
  {
    if i < k {
      NeverGrow(counts, cap, i, k - 1);
      assert NoGrowth(counts, cap, k);
    }
  }

  /** How the sync of a source of another type ends. */
  datatype PlansResult = Unchanged | PlansNotDialed | PlansApplied(failed: bool)

  /** The saved hashes are those of the topology. */
  predicate AsApplied(hashes: map<Kind, Hash>, topo: seq<Tunnel>) {
    forall kind :: kind in hashes && hashes[kind] == Hash(kind, topo)
  }

  /** Reading Xray first does not matter to what an apply did. */
  lemma AppliedSince(scope: Scope, boot: Server, a: Server, b: Server, x: Server, topo: seq<Tunnel>)
    requires a.restarts <= b.restarts && b == Base(boot, a, b) && Applied(scope, b, x, topo)
    ensures Applied(scope, a, x, topo)
  {
  }

  class Daemon {
    const sub: Subscription
    const res: Resources
    const listen: string
    const configs: seq<Config>        // the selection of each source
    const keyOf: Tag -> Key           // the key a tag was built from
    const c: Client
    const tg: TargetState.Target
    const waits: seq<DependencyWait>  // the dependency wait of each source
    var xrayDown: bool                // Xray's API does not answer
    var checkFailed: set<nat>         // sources whose last check before an apply failed
    var pending: seq<map<Tag, nat>>   // failed checks of a tick whose replacement is to be tried, with FailuresInRow
    ghost var full: seq<nat>          // Xray's restart count at each source's last full apply
    ghost var wins: seq<seq<set<Win>>> // what each source's decisions found
    ghost var logs: seq<seq<Event>>   // checks, replacements and ends of waits of each source

    /** Source j is an enabled candidate source. */
    predicate IsFeed(j: nat) {
      j < |sub.sources| && sub.sources[j].enabled && sub.sources[j].candidateType
    }

    function FeedOf(j: nat): Feed
      requires j < |sub.sources|
    {
      Feed(sub.target, sub.Ns(j), if sub.sources[j].maxActive > 0 then sub.sources[j].maxActive else 0,
           if sub.sources[j].portRange.Some? then sub.sources[j].portRange.value.start else 0, listen, keyOf)
    }

    /** What is fixed for the life of the daemon: an accepted configuration, a client that caps
        every candidate source, and an Xray that boots without resources of its sources. */
    ghost predicate Configured() {
      && Accepted(sub, res) && res.inbounds && res.routing
      && c.t == sub.target && |configs| == |sub.sources|
      && (forall j :: 0 <= j < |sub.sources| && sub.sources[j].enabled ==> Clear(FeedOf(j).Scope(), c.boot))
      && (forall j: nat :: IsFeed(j) ==>
            && configs[j].switchConfirmChecks >= 1 && configs[j].deadPairCooldownMinutes >= 0
            && Cap(sub.Ns(j), sub.sources[j].maxActive) in c.caps)
    }

    /** replaceAfterFailures of source j. */
    function Limit(j: nat): nat
      requires j < |configs|
    {
      if configs[j].replaceAfterFailures > 0 then configs[j].replaceAfterFailures else 0
    }

    /** The daemon starts knowing nothing; it finds Xray in state found. */
    constructor (sub: Subscription, res: Resources, listen: string, configs: seq<Config>, depsOf: seq<seq<Dep>>, keyOf: Tag -> Key,
                 boot: Server, found: Server)
      requires Accepted(sub, res) && res.inbounds && res.routing && |configs| == |depsOf| == |sub.sources|
      requires forall j :: 0 <= j < |configs| ==> configs[j].switchConfirmChecks >= 1 && configs[j].deadPairCooldownMinutes >= 0
      requires forall j :: 0 <= j < |depsOf| ==> Distinct(depsOf[j])
      requires forall j :: 0 <= j < |sub.sources| ==> Clear(SourceScope(sub.target, sub.Ns(j)), boot)
      ensures Valid() && fresh(c) && fresh(tg) && (forall k :: 0 <= k < |waits| ==> fresh(waits[k])) && this.sub == sub
      ensures c.x == found && c.trace == [found] && c.boot == boot && tg.sources == map[]
      ensures forall k :: 0 <= k < |waits| ==> waits[k].deps == depsOf[k] && !SourceWaiting(k)
    {
      var ws := NewWaits(depsOf);
      this.sub, this.res, this.listen, this.configs, this.keyOf, this.waits := sub, res, listen, configs, keyOf, ws;
      CapsAreClear(sub, boot, |sub.sources|);
      c := new Client(sub.target, CapsOf(sub), boot, found);
      tg := new TargetState.Target();
      xrayDown, checkFailed, pending := false, {}, seq(|sub.sources|, _ => map[]);
      full, wins, logs := seq(|sub.sources|, _ => 0), seq(|sub.sources|, _ => []), seq(|sub.sources|, _ => []);
      new;
      NothingCounted();
    }

    /** Without tunnels and checks nothing is counted. */
    lemma NothingCounted()
      requires |configs| == |logs| == |pending| == |sub.sources| && tg.Valid() && tg.sources == map[]
      requires forall k :: 0 <= k < |logs| ==> logs[k] == [] && pending[k] == map[]
      ensures Counted(logs, pending, tg.tunnels)
    {
      forall k: nat | IsFeed(k)
        ensures CountsOk(logs[k], Limit(k), Block(tg.tunnels, sub.sources[k].id), pending[k])
      {
        BlockOfUnknown(tg, sub.sources[k].id);
      }
    }

    /** What holds whenever the target lock is free: every source is at rest, every wait is what
        its rounds say, and the counters are what the checks say. */
    ghost predicate Valid()
      reads this, c, tg, waits
    {
      Rested() && WaitsValid() && Counted(logs, pending, tg.tunnels)
    }

    ghost predicate Rested()
      reads this`full, this`wins, c, tg
    {
      && Configured() && c.Valid() && tg.Valid()
      && WasResting(full, wins, c.x, tg.sources, tg.tunnels)
    }

    ghost predicate WaitsValid()
      reads waits
    {
      && |waits| == |sub.sources|
      && (forall k :: 0 <= k < |waits| ==> waits[k].Valid())
      && forall i, k :: 0 <= i < k < |waits| ==> waits[i] != waits[k]
    }

    ghost predicate Counted(logs: seq<seq<Event>>, pending: seq<map<Tag, nat>>, tuns: seq<Tun>)
      requires |configs| == |sub.sources|
    {
      && |logs| == |pending| == |sub.sources|
      && forall k: nat :: IsFeed(k) ==> CountsOk(logs[k], Limit(k), Block(tuns, sub.sources[k].id), pending[k])
    }

    /** SourceWaiting: the source waits for a dependency, its dependencies' health is unknown since
        Xray is down, or its last check before an apply failed. */
    predicate SourceWaiting(j: nat)
      reads this, waits
      requires j < |waits|
    {
      j in checkFailed || waits[j].Waiting(xrayDown)
    }

    lemma FeedIsValid(j: nat)
      requires Configured() && j < |sub.sources| && sub.sources[j].enabled
      ensures FeedOf(j).Valid() && FeedOf(j).ns.sourceId == sub.sources[j].id
    {
      var f := FeedOf(j);
      forall kind, tag | tag in f.t.Fixed(kind)
        ensures !f.ns.Owns(kind, tag)
      {
        FixedNotOwned(sub, res, j, kind, tag);
      }
      forall bare, other | f.ns.obsPrefix != "" && HasPrefix(bare, f.ns.Stem())
        ensures bare != f.ns.obsPrefix + other
      {
        PrefixedIsNotBare(sub, res, j, bare, other);
      }
    }

    lemma FeedsAreForeign(j: nat, k: nat)
      requires Configured() && j < |sub.sources| && k < |sub.sources| && j != k
      ensures Foreign(FeedOf(j).Scope(), FeedOf(k)) && sub.sources[j].id != sub.sources[k].id
    {
      forall kind, tag | FeedOf(k).ns.Owns(kind, tag)
        ensures !FeedOf(j).Scope().Covers(kind, tag)
      {
        NamespacesDisjoint(sub, res, j, k, kind, tag);
      }
      assert if j < k then PairOk(sub.sources[k], sub.sources[j]) else PairOk(sub.sources[j], sub.sources[k]);
    }

    /** The other sources are at rest while source j is worked on. */
    lemma OthersRest(j: nat, boot: Server, a: Server, x: Server, full: seq<nat>, wins: seq<seq<set<Win>>>, sources: map<string, SourceState>, tuns: seq<Tun>,
                     sources': map<string, SourceState>, tuns': seq<Tun>)
      requires Configured() && j < |sub.sources| && boot == c.boot && WasResting(full, wins, a, sources, tuns)
      requires Inside(FeedOf(j).Scope(), boot, a, x)
      requires sources' - {sub.sources[j].id} == sources - {sub.sources[j].id}
      requires Others(tuns', sub.sources[j].id) == Others(tuns, sub.sources[j].id)
      ensures forall k: nat :: IsFeed(k) && k != j ==> Resting(FeedOf(k), x, full[k], wins[k], sources', Block(tuns', sub.sources[k].id))
    {
      forall k: nat | IsFeed(k) && k != j
        ensures Resting(FeedOf(k), x, full[k], wins[k], sources', Block(tuns', sub.sources[k].id))
      {
        var id, other := sub.sources[j].id, sub.sources[k].id;
        FeedsAreForeign(j, k);
        FeedIsValid(k);
        OtherResting(FeedOf(j).Scope(), FeedOf(k), boot, a, x, full[k], wins[k], sources, Block(tuns, other));
        BlockAmongOthers(tuns, id, other);
        BlockAmongOthers(tuns', id, other);
        assert other in sources' <==> other in sources' - {id};
        assert other in sources <==> other in sources - {id};
        assert other in sources ==> sources'[other] == (sources' - {id})[other] == sources[other];
      }
    }

    /** The daemon's parts, at rest before an operation. */
    ghost predicate WasResting(full: seq<nat>, wins: seq<seq<set<Win>>>, x: Server, sources: map<string, SourceState>, tuns: seq<Tun>) {
      && |full| == |wins| == |sub.sources|
      && forall k: nat :: IsFeed(k) ==> Resting(FeedOf(k), x, full[k], wins[k], sources, Block(tuns, sub.sources[k].id))
    }

    /** Source j is at rest again after work from state a: so are all. */
    lemma StillRested(j: nat, a: Server, full0: seq<nat>, wins0: seq<seq<set<Win>>>, sources: map<string, SourceState>, tuns: seq<Tun>)
      requires Configured() && IsFeed(j) && c.Valid() && WasResting(full0, wins0, a, sources, tuns)
      requires |full| == |full0| && full == full0[j := full[j]] && |wins| == |wins0| && wins == wins0[j := wins[j]]
      requires Within(FeedOf(j), c.boot, a, c.x) && AtRest(tg, FeedOf(j), c.x, full[j], wins[j])
      requires tg.sources - {sub.sources[j].id} == sources - {sub.sources[j].id}
      requires Others(tg.tunnels, sub.sources[j].id) == Others(tuns, sub.sources[j].id)
      ensures Rested()
    {
      OthersRest(j, c.boot, a, c.x, full0, wins0, sources, tuns, tg.sources, tg.tunnels);
      AtRestIsResting(tg, FeedOf(j), c.x, full[j], wins[j]);
    }

    /** The counters of source j are what its log says: so are all. */
    lemma StillCounted(j: nat, logs0: seq<seq<Event>>, pending0: seq<map<Tag, nat>>, tuns0: seq<Tun>)
      requires Configured() && j < |sub.sources| && Counted(logs0, pending0, tuns0)
      requires |logs| == |pending| == |sub.sources| && logs == logs0[j := logs[j]] && pending == pending0[j := pending[j]]
      requires Others(tg.tunnels, sub.sources[j].id) == Others(tuns0, sub.sources[j].id)
      requires IsFeed(j) ==> CountsOk(logs[j], Limit(j), Block(tg.tunnels, sub.sources[j].id), pending[j])
      ensures Counted(logs, pending, tg.tunnels)
    {
      forall k: nat | IsFeed(k) && k != j
        ensures CountsOk(logs[k], Limit(k), Block(tg.tunnels, sub.sources[k].id), pending[k])
      {
        FeedsAreForeign(j, k);
        BlockAmongOthers(tuns0, sub.sources[j].id, sub.sources[k].id);
        BlockAmongOthers(tg.tunnels, sub.sources[j].id, sub.sources[k].id);
      }
    }

    /** The same after work on source j that counted no more failures. */
    lemma CountedAsBefore(j: nat, tuns0: seq<Tun>)
      requires Configured() && IsFeed(j) && Counted(logs, pending, tuns0)
      requires Others(tg.tunnels, sub.sources[j].id) == Others(tuns0, sub.sources[j].id)
      requires NoMoreFailures(Block(tuns0, sub.sources[j].id), Block(tg.tunnels, sub.sources[j].id))
      ensures Counted(logs, pending, tg.tunnels)
    {
      var id := sub.sources[j].id;
      FewerCounts(logs[j], Limit(j), Block(tuns0, id), Block(tg.tunnels, id), pending[j], pending[j]);
      StillCounted(j, logs, pending, tuns0);
    }

    /** A sync of source j with a file. */
    method Sync(j: nat, file: seq<Entry>, configHash: string, dialed: bool, now: Time)
      returns (r: SyncResult, ghost rolled: nat, ghost met: bool, ghost mid: nat)
      requires Valid() && IsFeed(j) && FileOk(FeedOf(j), file)
      modifies this`full, this`wins, c, tg
      ensures Valid() && old(c.trace) <= c.trace
      ensures tg.OthersKept(sub.sources[j].id)
      ensures dialed && sub.sources[j].id in tg.sources ==>
                (tg.sources[sub.sources[j].id].hashes != map[] <==> r == FullApply(false) || r == SlotChanges(true))
      ensures r.FullApply? ==>
                AppliedInFull(c, tg, FeedOf(j), file, configs[j].strategy, now, old(SelectionOf(tg, sub.sources[j].id)),
                              old(Block(tg.tunnels, sub.sources[j].id)), old(c.x), |old(c.trace)|, old(c.lost), r.failed, rolled, met, mid)
    {
      ghost var tuns := tg.tunnels;
      r, rolled, met, mid := SyncRested(j, file, configHash, dialed, now);
      CountedAsBefore(j, tuns);
    }

    method SyncRested(j: nat, file: seq<Entry>, configHash: string, dialed: bool, now: Time)
      returns (r: SyncResult, ghost rolled: nat, ghost met: bool, ghost mid: nat)
      requires Rested() && IsFeed(j) && FileOk(FeedOf(j), file)
      modifies this`full, this`wins, c, tg
      ensures Rested() && old(c.trace) <= c.trace
      ensures tg.OthersKept(sub.sources[j].id)
      ensures NoMoreFailures(old(Block(tg.tunnels, sub.sources[j].id)), Block(tg.tunnels, sub.sources[j].id))
      ensures dialed && sub.sources[j].id in tg.sources ==>
                (tg.sources[sub.sources[j].id].hashes != map[] <==> r == FullApply(false) || r == SlotChanges(true))
      ensures r.FullApply? ==>
                AppliedInFull(c, tg, FeedOf(j), file, configs[j].strategy, now, old(SelectionOf(tg, sub.sources[j].id)),
                              old(Block(tg.tunnels, sub.sources[j].id)), old(c.x), |old(c.trace)|, old(c.lost), r.failed, rolled, met, mid)
    {
      FeedIsValid(j);
      ghost var a, full0, wins0, sources, tuns := c.x, full, wins, tg.sources, tg.tunnels;
      ghost var full', wins';
      r, full', wins', rolled, met, mid := SyncSource(c, tg, FeedOf(j), full[j], file, configs[j], configHash, dialed, now, wins[j]);
      full, wins := full[j := full'], wins[j := wins'];
      StillRested(j, a, full0, wins0, sources, tuns);
    }

    // ---- a tick of the monitor

    /** A tick begins for source j: the workers of the last one are done, and the health of its
        dependencies is checked. A wait that starts ends the quarantines that may come from it; the
        end of one resets the counters. */
    method BeginTick(j: nat, round: Round) returns (started: bool, over: bool)
      requires Valid() && IsFeed(j)
      modifies this`pending, this`logs, tg, waits[j]
      ensures Valid() && tg.OthersKept(sub.sources[j].id)
      ensures pending == old(pending)[j := map[]]
      ensures logs == if over then old(logs)[j := old(logs[j]) + [WaitEnded]] else old(logs)
      ensures over ==> waits[j].since == None && EndedRightly(waits[j].rounds, old(waits[j].from), |waits[j].rounds|, waits[j].deps)
      ensures over ==> forall tag :: CountOf(Block(tg.tunnels, sub.sources[j].id), tag) == 0
      ensures started ==> SourceWaiting(j) && Freed(j, old(tg.sources), tg.sources, round.at)
      ensures !started ==> tg.sources == old(tg.sources)
    {
      started, over := false, false;
      if waits[j].deps != [] {
        started, over := waits[j].ApplyWaits(round, xrayDown);
      }
      ghost var tuns := tg.tunnels;
      if started {
        Release(j, round.at);
      }
      StartOver(j, over, tuns);
    }

    /** The workers of the last tick are done; at the end of a wait the counters start over. */
    method StartOver(j: nat, over: bool, ghost tuns: seq<Tun>)
      requires Rested() && IsFeed(j) && Counted(logs, pending, tuns) && tuns == tg.tunnels
      modifies this`pending, this`logs, tg
      ensures Rested() && Counted(logs, pending, tg.tunnels) && tg.OthersKept(sub.sources[j].id) && tg.sources == old(tg.sources)
      ensures pending == old(pending)[j := map[]]
      ensures logs == if over then old(logs)[j := old(logs[j]) + [WaitEnded]] else old(logs)
      ensures over ==> forall tag :: CountOf(Block(tg.tunnels, sub.sources[j].id), tag) == 0
    {
      ghost var logs0, pending0 := logs, pending;
      assert logs0[j := logs0[j]] == logs0;
      pending := pending[j := map[]];
      if over {
        EndWait(j);
      }
      StillCounted(j, logs0, pending0, tuns);
    }

    /** The quarantines of source j that may come from the wait that just started have ended. */
    ghost predicate Freed(j: nat, sources: map<string, SourceState>, sources': map<string, SourceState>, now: Time)
      requires j < |waits| && j < |sub.sources| && j < |configs|
    {
      var id := sub.sources[j].id;
      && (id in sources' <==> id in sources)
      && (id in sources && configs[j].deadPairCooldownMinutes >= 0 ==>
            sources'[id] == sources[id].(selection := sources[id].selection.(quarantine :=
              Released(sources[id].selection.quarantine, waits[j].deps, now, configs[j].deadPairCooldownMinutes))))
    }

    /** releaseQuarantine. */
    method Release(j: nat, now: Time)
      requires Rested() && WaitsValid() && IsFeed(j)
      modifies tg`sources
      ensures Rested() && tg.OthersKept(sub.sources[j].id) && tg.tunnels == old(tg.tunnels)
      ensures Freed(j, old(tg.sources), tg.sources, now)
    {
      FeedIsValid(j);
      ghost var sources, tuns := tg.sources, tg.tunnels;
      ReleaseFor(tg, FeedOf(j), c.x, full[j], sub.sources[j].id, waits[j].deps, now, configs[j].deadPairCooldownMinutes, wins[j]);
      assert Within(FeedOf(j), c.boot, c.x, c.x);
      StillRested(j, c.x, full, wins, sources, tuns);
    }

    /** A wait of source j is over. */
    method EndWait(j: nat)
      requires Rested() && IsFeed(j) && |logs| == |sub.sources| && NoneTooEarly(logs[j], Limit(j))
      modifies tg, this`logs
      ensures Rested() && tg.OthersKept(sub.sources[j].id) && tg.sources == old(tg.sources)
      ensures logs == old(logs)[j := old(logs[j]) + [WaitEnded]]
      ensures CountsOk(logs[j], Limit(j), Block(tg.tunnels, sub.sources[j].id), map[])
      ensures forall tag :: CountOf(Block(tg.tunnels, sub.sources[j].id), tag) == 0
    {
      FeedIsValid(j);
      ghost var sources, tuns := tg.sources, tg.tunnels;
      ResetCounts(tg, FeedOf(j), c.x, full[j], sub.sources[j].id, wins[j]);
      assert Within(FeedOf(j), c.boot, c.x, c.x);
      StillRested(j, c.x, full, wins, sources, tuns);
      WaitEndLogged(logs[j], Limit(j), Block(tuns, sub.sources[j].id), Block(tg.tunnels, sub.sources[j].id));
      logs := logs[j := logs[j] + [WaitEnded]];
    }

    /** The worker of one tunnel of source j makes its check: the result is remembered, Xray is not
        asked. A failed one is to be followed by a replacement if the source does not wait and
        enough checks failed in a row. */
    method Check(j: nat, tag: Tag, passed: bool, now: Time)
      requires Valid() && IsFeed(j) && tag !in pending[j]
      modifies this`pending, this`logs, tg
      ensures Valid() && tg.OthersKept(sub.sources[j].id)
      ensures logs == old(logs)[j := old(logs[j]) + [if passed then CheckPassed(tag) else CheckFailed(tag)]]
      ensures pending == old(pending)[j := pending[j]]
      ensures pending[j] == old(pending[j]) || (!passed && !SourceWaiting(j) && pending[j].Keys == old(pending[j]).Keys + {tag})
    {
      ghost var tuns := tg.tunnels;
      var inRow := TakeCheck(j, tag, passed, now);
      LogCheck(j, tag, passed, inRow, SourceWaiting(j), tuns);
    }

    method TakeCheck(j: nat, tag: Tag, passed: bool, now: Time) returns (inRow: nat)
      requires Rested() && IsFeed(j)
      modifies tg
      ensures Rested() && tg.OthersKept(sub.sources[j].id)
      ensures CheckCounted(old(Block(tg.tunnels, sub.sources[j].id)), tag, passed, inRow, Block(tg.tunnels, sub.sources[j].id))
    {
      FeedIsValid(j);
      ghost var sources, tuns := tg.sources, tg.tunnels;
      inRow := NoteCheck(tg, FeedOf(j), c.x, full[j], sub.sources[j].id, tag, passed, now, wins[j]);
      assert Within(FeedOf(j), c.boot, c.x, c.x);
      StillRested(j, c.x, full, wins, sources, tuns);
    }

    /** A check joins the log of source j; a failed one may be pending. */
    method LogCheck(j: nat, tag: Tag, passed: bool, inRow: nat, waiting: bool, ghost tuns: seq<Tun>)
      requires Configured() && IsFeed(j) && Counted(logs, pending, tuns) && tag !in pending[j]
      requires Others(tg.tunnels, sub.sources[j].id) == Others(tuns, sub.sources[j].id)
      requires CheckCounted(Block(tuns, sub.sources[j].id), tag, passed, inRow, Block(tg.tunnels, sub.sources[j].id))
      modifies this`pending, this`logs
      ensures Counted(logs, pending, tg.tunnels)
      ensures logs == old(logs)[j := old(logs[j]) + [if passed then CheckPassed(tag) else CheckFailed(tag)]]
      ensures pending == old(pending)[j := pending[j]]
      ensures pending[j] == old(pending[j]) || (!passed && !waiting && pending[j].Keys == old(pending[j]).Keys + {tag})
    {
      ghost var id, logs0, pending0 := sub.sources[j].id, logs, pending;
      assert pending0[j := pending0[j]] == pending0;
      if !passed && !waiting && inRow >= Limit(j) {
        var todo: map<Tag, nat> := pending[j][tag := inRow];
        pending := pending[j := todo];
      }
      CheckLogged(logs[j], Limit(j), Block(tuns, id), pending0[j], tag, passed, inRow, Block(tg.tunnels, id), pending[j]);
      logs := logs[j := logs[j] + [if passed then CheckPassed(tag) else CheckFailed(tag)]];
      StillCounted(j, logs0, pending0, tuns);
    }

    /** The worker of a tunnel of source j whose checks failed too often tries to replace it. round
        is the health of the dependencies asked again, down what Xray counts as after that. */
    method ReplaceFailedTunnel(j: nat, tag: Tag, dialed: bool, round: Round, down: bool, now: Time) returns (r: Ending)
      requires Valid() && IsFeed(j) && tag in pending[j]
      modifies this`pending, this`logs, this`xrayDown, c, tg, waits[j]
      ensures Valid() && old(c.trace) <= c.trace
      ensures tg.OthersKept(sub.sources[j].id) && Within(FeedOf(j), c.boot, old(c.x), c.x)
      ensures pending == old(pending)[j := old(pending[j]) - {tag}]
      ensures logs == if r.Swap? then old(logs)[j := old(logs[j]) + [Swapped(tag)]] else old(logs)
      ensures Tried(j, old(tg.sources), old(Block(tg.tunnels, sub.sources[j].id)), tg.sources, Block(tg.tunnels, sub.sources[j].id),
                    tag, round, now, r)
      ensures r.Swap? || r == SwapFailed || r == NoCandidate ==>
                !old(SourceWaiting(j)) && "in-" + tag in old(c.x.inbounds) && (waits[j].deps != [] ==> round.AllHealthy(waits[j].deps))
      ensures r == DependencyWaits ==> SourceWaiting(j)
    {
      ghost var tuns := tg.tunnels;
      r := Attempt(j, tag, dialed, round, down, now);
      LogTry(j, tag, r.Swap?, tuns);
    }

    method Attempt(j: nat, tag: Tag, dialed: bool, round: Round, down: bool, now: Time) returns (r: Ending)
      requires Rested() && WaitsValid() && IsFeed(j)
      modifies this`xrayDown, c, tg, waits[j]
      ensures Rested() && WaitsValid() && old(c.trace) <= c.trace
      ensures tg.OthersKept(sub.sources[j].id) && Within(FeedOf(j), c.boot, old(c.x), c.x)
      ensures NoMoreFailures(old(Block(tg.tunnels, sub.sources[j].id)), Block(tg.tunnels, sub.sources[j].id))
      ensures Tried(j, old(tg.sources), old(Block(tg.tunnels, sub.sources[j].id)), tg.sources, Block(tg.tunnels, sub.sources[j].id),
                    tag, round, now, r)
      ensures r.Swap? || r == SwapFailed || r == NoCandidate ==>
                !old(SourceWaiting(j)) && "in-" + tag in old(c.x.inbounds) && (waits[j].deps != [] ==> round.AllHealthy(waits[j].deps))
      ensures r == DependencyWaits ==> SourceWaiting(j)
    {
      var askedAgain := waits[j].deps != [] && !round.AllHealthy(waits[j].deps);
      r := TryReplace(j, tag, SourceWaiting(j), dialed, askedAgain, now);
      if r == DependencyWaits {
        StartWaiting(j, round, down);
      }
    }

    /** What a worker did to what is remembered of source j and to its tunnels: the outcome of a
        replacement or, where the source is to wait, at most the end of quarantines. */
    ghost predicate Tried(j: nat, sources: map<string, SourceState>, tuns: seq<Tun>, sources': map<string, SourceState>, tuns': seq<Tun>,
                          tag: Tag, round: Round, now: Time, r: Ending)
      requires j < |sub.sources| && j < |waits| && j < |configs| && configs[j].deadPairCooldownMinutes >= 0
    {
      var id := sub.sources[j].id;
      id in sources ==>
        && id in sources'
        && if r == DependencyWaits then tuns' == tuns && (sources'[id] == sources[id] || Freed(j, sources, sources', round.at))
           else Outcome(FeedOf(j), sources[id], tuns, sources'[id], tuns', tag, configs[j], now, r)
    }

    /** The worker is done with the pending tunnel; a replacement joins the log of source j. */
    method LogTry(j: nat, tag: Tag, swapped: bool, ghost tuns: seq<Tun>)
      requires Configured() && IsFeed(j) && Counted(logs, pending, tuns) && tag in pending[j]
      requires Others(tg.tunnels, sub.sources[j].id) == Others(tuns, sub.sources[j].id)
      requires NoMoreFailures(Block(tuns, sub.sources[j].id), Block(tg.tunnels, sub.sources[j].id))
      modifies this`pending, this`logs
      ensures Counted(logs, pending, tg.tunnels)
      ensures pending == old(pending)[j := old(pending[j]) - {tag}]
      ensures logs == if swapped then old(logs)[j := old(logs[j]) + [Swapped(tag)]] else old(logs)
    {
      ghost var id, logs0, pending0 := sub.sources[j].id, logs, pending;
      assert logs0[j := logs0[j]] == logs0;
      pending := pending[j := pending[j] - {tag}];
      if swapped {
        SwapLogged(logs[j], Limit(j), Block(tuns, id), Block(tg.tunnels, id), pending0[j], tag);
        logs := logs[j := logs[j] + [Swapped(tag)]];
      } else {
        FewerCounts(logs[j], Limit(j), Block(tuns, id), Block(tg.tunnels, id), pending0[j], pending[j]);
      }
      StillCounted(j, logs0, pending0, tuns);
    }

    method TryReplace(j: nat, tag: Tag, waiting: bool, dialed: bool, askedAgain: bool, now: Time) returns (r: Ending)
      requires Rested() && IsFeed(j)
      modifies c, tg
      ensures Rested() && old(c.trace) <= c.trace
      ensures tg.OthersKept(sub.sources[j].id) && Within(FeedOf(j), c.boot, old(c.x), c.x)
      ensures NoMoreFailures(old(Block(tg.tunnels, sub.sources[j].id)), Block(tg.tunnels, sub.sources[j].id))
      ensures sub.sources[j].id in old(tg.sources) ==>
                && sub.sources[j].id in tg.sources
                && Outcome(FeedOf(j), old(tg.sources)[sub.sources[j].id], old(Block(tg.tunnels, sub.sources[j].id)),
                           tg.sources[sub.sources[j].id], Block(tg.tunnels, sub.sources[j].id), tag, configs[j], now, r)
      ensures r.Swap? || r == SwapFailed || r == NoCandidate ==> !waiting && !askedAgain && "in-" + tag in old(c.x.inbounds)
      ensures r == DependencyWaits ==> askedAgain && sub.sources[j].id in old(tg.sources)
    {
      FeedIsValid(j);
      ghost var a, sources, tuns := c.x, tg.sources, tg.tunnels;
      r := ReplaceFailed(c, tg, FeedOf(j), full[j], tag, configs[j], waiting, dialed, askedAgain, now, wins[j]);
      StillRested(j, a, full, wins, sources, tuns);
    }

    /** freshWait found a dependency that is not healthy. */
    method StartWaiting(j: nat, round: Round, down: bool)
      requires Rested() && WaitsValid() && IsFeed(j) && waits[j].deps != [] && !round.AllHealthy(waits[j].deps)
      modifies this`xrayDown, tg`sources, waits[j]
      ensures Rested() && WaitsValid() && tg.OthersKept(sub.sources[j].id) && tg.tunnels == old(tg.tunnels)
      ensures SourceWaiting(j) && (tg.sources == old(tg.sources) || Freed(j, old(tg.sources), tg.sources, round.at))
    {
      xrayDown := down;
      var waiting, started := waits[j].FreshWait(round, down);
      if started {
        Release(j, round.at);
      }
    }

    /** The repair, or the rejoin, of a tunnel of source j. */
    method Move(j: nat, tag: Tag, back: bool, dialed: bool) returns (r: Repairs.Move)
      requires Valid() && IsFeed(j)
      modifies c, tg
      ensures Valid() && old(c.trace) <= c.trace
      ensures NeverBoth(c.trace, |old(c.trace)|, |c.trace|, TwinsOf(old(Block(tg.tunnels, sub.sources[j].id))))
      ensures TwinsOf(Block(tg.tunnels, sub.sources[j].id)) == TwinsOf(old(Block(tg.tunnels, sub.sources[j].id)))
      ensures tg.OthersKept(sub.sources[j].id) && Within(FeedOf(j), c.boot, old(c.x), c.x)
    {
      FeedIsValid(j);
      if sub.sources[j].id !in tg.sources {
        return Skipped;
      }
      ghost var a, sources, tuns := c.x, tg.sources, tg.tunnels;
      r := MoveTunnel(c, tg, FeedOf(j), full[j], tag, back, dialed, wins[j]);
      StillRested(j, a, full, wins, sources, tuns);
      CountedAsBefore(j, tuns);
    }

    // ---- the target as a whole

    /** All sources are at rest after work in a scope that is foreign to them. */
    lemma AllRest(scope: Scope, boot: Server, a: Server, x: Server, full: seq<nat>, wins: seq<seq<set<Win>>>,
                  sources: map<string, SourceState>, tuns: seq<Tun>)
      requires Configured() && WasResting(full, wins, a, sources, tuns) && boot == c.boot && Inside(scope, boot, a, x)
      requires forall k: nat :: IsFeed(k) ==> Foreign(scope, FeedOf(k))
      ensures WasResting(full, wins, x, sources, tuns)
    {
      forall k: nat | IsFeed(k)
        ensures Resting(FeedOf(k), x, full[k], wins[k], sources, Block(tuns, sub.sources[k].id))
      {
        FeedIsValid(k);
        OtherResting(scope, FeedOf(k), boot, a, x, full[k], wins[k], sources, Block(tuns, sub.sources[k].id));
      }
    }

    /** The namespaces of the enabled sources. */
    function Namespaces(n: nat): (r: seq<Namespace>)
      requires n <= |sub.sources|
      ensures forall j: nat :: j < n && sub.sources[j].enabled ==> sub.Ns(j) in r
    {
      if n == 0 then []
      else Namespaces(n - 1) + if sub.sources[n - 1].enabled then [sub.Ns(n - 1)] else []
    }

    lemma OrphansAreForeign(k: nat)
      requires IsFeed(k)
      ensures Foreign(OrphanScope(sub.target, Namespaces(|sub.sources|)), FeedOf(k))
    {
    }

    /** Xray restarts between two operations. */
    method Restart()
      requires Valid()
      modifies c
      ensures Valid() && old(c.trace) <= c.trace
    {
      ghost var a := c.x;
      c.Arrive();
      ghost var scope := OrphanScope(sub.target, Namespaces(|sub.sources|));
      forall k: nat | IsFeed(k) ensures Foreign(scope, FeedOf(k)) {
        OrphansAreForeign(k);
      }
      AllRest(scope, c.boot, a, c.x, full, wins, tg.sources, tg.tunnels);
    }

    /** removeOrphans: what no enabled source owns goes, then the state of sources that are not
        enabled. */
    method RemoveOrphans(dialed: bool) returns (err: Error)
      requires Valid()
      modifies c, tg
      ensures Valid() && old(c.trace) <= c.trace
      ensures dialed && err == Nil ==> forall id :: id in tg.sources <==> id in old(tg.sources) && Enabled(id)
    {
      if !dialed {
        return RpcError;
      }
      err := SweepTarget();
      if err == Nil {
        DropStale();
      }
    }

    predicate Enabled(id: string) {
      exists j :: 0 <= j < |sub.sources| && sub.sources[j].enabled && sub.sources[j].id == id
    }

    method SweepTarget() returns (err: Error)
      requires Valid()
      modifies c
      ensures Valid() && old(c.trace) <= c.trace
    {
      var namespaces := Namespaces(|sub.sources|);
      ghost var a, scope := c.x, OrphanScope(sub.target, namespaces);
      c.Begin(scope, {});
      var removed, outbounds;
      var kinds := {KindInbound, KindRouting} + if res.outbounds then {KindOutbound} else {};
      removed, outbounds, err := Orphans.RemoveOrphans(c, kinds, namespaces);
      forall k: nat | IsFeed(k) ensures Foreign(scope, FeedOf(k)) {
        OrphansAreForeign(k);
      }
      AllRest(scope, c.boot, a, c.x, full, wins, tg.sources, tg.tunnels);
    }

    method DropStale()
      requires Valid()
      modifies tg
      ensures Valid() && forall id :: id in tg.sources <==> id in old(tg.sources) && Enabled(id)
    {
      var stale := set id | id in tg.sources && !Enabled(id);
      while stale != {}
        invariant Valid()
        invariant forall id :: id in stale ==> id in tg.sources && !Enabled(id)
        invariant forall id :: id in tg.sources ==> id in old(tg.sources)
        invariant forall id :: id in old(tg.sources) && id !in stale && Enabled(id) ==> id in tg.sources
        invariant forall id :: id in tg.sources && !Enabled(id) ==> id in stale
        decreases stale
      {
        var id :| id in stale;
        DropOne(id);
        stale := stale - {id};
      }
    }

    method DropOne(id: string)
      requires Valid() && !Enabled(id)
      modifies tg
      ensures Valid() && tg.sources == old(tg.sources) - {id}
    {
      ghost var sources, tuns := tg.sources, tg.tunnels;
      tg.DropSource(id);
      forall k: nat | IsFeed(k)
        ensures Block(tg.tunnels, sub.sources[k].id) == Block(tuns, sub.sources[k].id)
        ensures Resting(FeedOf(k), c.x, full[k], wins[k], tg.sources, Block(tg.tunnels, sub.sources[k].id))
      {
        BlockAmongOthers(tuns, id, sub.sources[k].id);
        BlockAmongOthers(tg.tunnels, id, sub.sources[k].id);
      }
    }

    /** A sync of source j that is no candidate source: unless its plans are what was applied and
        Xray has not lost any of it, all its plans are applied and, if that worked, its topology
        saved. */
    method SyncPlans(j: nat, topo: seq<Tunnel>, dialed: bool) returns (r: PlansResult)
      requires Valid() && j < |sub.sources| && sub.sources[j].enabled && !sub.sources[j].candidateType
      requires AllWellFormed(topo, sub.Ns(j)) && NoRepeats(TunnelIds(topo))
      modifies c, tg
      ensures Valid() && old(c.trace) <= c.trace && tg.OthersKept(sub.sources[j].id)
      ensures r == Unchanged ==>
                && sub.sources[j].id in old(tg.sources) && AsApplied(old(tg.sources)[sub.sources[j].id].hashes, topo)
                && tg.sources == old(tg.sources) && tg.tunnels == old(tg.tunnels)
                && (dialed && c.failed == old(c.failed) && c.x.restarts == old(c.x.restarts) ==> !Drifted(c.x, topo, sub.target.obsPrefix))
      ensures r != PlansApplied(false) ==> tg.sources == old(tg.sources) && tg.tunnels == old(tg.tunnels)
      ensures r == PlansApplied(false) ==>
                && Applied(FeedOf(j).Scope(), old(c.x), c.x, topo)
                && sub.sources[j].id in tg.sources && tg.sources[sub.sources[j].id].hashes == HashesOf(topo)
    {
      ghost var a, tuns := c.x, tg.tunnels;
      var changed := PlansChanged(j, topo, dialed);
      if !changed {
        return Unchanged;
      }
      if !dialed {
        return PlansNotDialed;
      }
      ghost var b := c.x;
      var failed := ApplyChanged(j, topo);
      r := PlansApplied(failed);
      if !failed {
        AppliedSince(FeedOf(j).Scope(), c.boot, a, b, c.x, topo);
      }
      assert logs == logs[j := logs[j]] && pending == pending[j := pending[j]];
      StillCounted(j, logs, pending, tuns);
    }

    /** Whether a source's plans differ from what was applied, or Xray lost some of it. */
    method PlansChanged(j: nat, topo: seq<Tunnel>, dialed: bool) returns (changed: bool)
      requires Rested() && j < |sub.sources| && sub.sources[j].enabled && !sub.sources[j].candidateType
      modifies c, tg`stateLost
      ensures Rested() && old(c.trace) <= c.trace && old(c.x.restarts) <= c.x.restarts && c.x == Base(c.boot, old(c.x), c.x)
      ensures tg.sources == old(tg.sources) && tg.tunnels == old(tg.tunnels)
      ensures !changed ==> sub.sources[j].id in tg.sources && AsApplied(tg.sources[sub.sources[j].id].hashes, topo)
      ensures !changed && dialed && c.failed == old(c.failed) && c.x.restarts == old(c.x.restarts) ==>
                !Drifted(c.x, topo, sub.target.obsPrefix)
    {
      var id := sub.sources[j].id;
      changed := id !in tg.sources || !AsApplied(tg.sources[id].hashes, topo);
      if !changed && dialed {
        changed := LookForPlans(j, topo);
        if changed {
          tg.SetStateLost(id);
        }
      }
    }

    method LookForPlans(j: nat, topo: seq<Tunnel>) returns (missing: bool)
      requires Rested() && j < |sub.sources| && sub.sources[j].enabled && !sub.sources[j].candidateType
      modifies c
      ensures Rested() && old(c.trace) <= c.trace && old(c.x.restarts) <= c.x.restarts && c.x == Base(c.boot, old(c.x), c.x)
      ensures c.failed == old(c.failed) && c.x.restarts == old(c.x.restarts) ==> (missing <==> Drifted(c.x, topo, sub.target.obsPrefix))
    {
      FeedIsValid(j);
      ghost var a := c.x;
      assert Apart({}, c.x) && Apart({}, c.boot);
      c.Begin(FeedOf(j).Scope(), {});
      missing := MissingIn(c, topo, sub.target.obsPrefix);
      OthersRest(j, c.boot, a, c.x, full, wins, tg.sources, tg.tunnels, tg.sources, tg.tunnels);
    }

    method ApplyChanged(j: nat, topo: seq<Tunnel>) returns (failed: bool)
      requires Rested() && j < |sub.sources| && sub.sources[j].enabled && !sub.sources[j].candidateType
      requires AllWellFormed(topo, sub.Ns(j)) && NoRepeats(TunnelIds(topo))
      modifies c, tg
      ensures Rested() && old(c.trace) <= c.trace && tg.OthersKept(sub.sources[j].id)
      ensures failed ==> tg.sources == old(tg.sources) && tg.tunnels == old(tg.tunnels)
      ensures !failed ==>
                && Applied(FeedOf(j).Scope(), old(c.x), c.x, topo)
                && sub.sources[j].id in tg.sources && tg.sources[sub.sources[j].id].hashes == HashesOf(topo)
    {
      FeedIsValid(j);
      ghost var a, sources, tuns := c.x, tg.sources, tg.tunnels;
      ghost var rolled, met, mid;
      assert TwinsOf([]) == {};
      failed, rolled, met, mid := XApply(c, FeedOf(j), sub.Ns(j), topo, 0, []);
      if !failed {
        tg.ReplaceSourceTopology(sub.sources[j].id, topo, HashesOf(topo));
      }
      OthersRest(j, c.boot, a, c.x, full, wins, sources, tuns, tg.sources, tg.tunnels);
    }

    // ---- runs

    /** Any number of operations, in any order and with any input and outcome. */
    method Run(steps: nat)
      requires Valid()
      modifies this, c, tg, waits
      ensures Valid() && old(c.trace) <= c.trace
    {
      for i := 0 to steps
        invariant Valid() && old(c.trace) <= c.trace
      {
        Step();
      }
    }

    /** One operation; Xray's API may go or come back, and a check before an apply fail or pass, at
        any time. */
    method Step()
      requires Valid()
      modifies this, c, tg, waits
      ensures Valid() && old(c.trace) <= c.trace
    {
      var kind: nat, j: nat, dialed: bool := *, *, *;
      if kind == 0 {
        Restart();
      } else if kind == 1 {
        var err := RemoveOrphans(dialed);
      } else if kind == 2 {
        xrayDown, checkFailed := *, *;
      } else if IsFeed(j) {
        StepOf(j, kind, dialed);
      } else if j < |sub.sources| && sub.sources[j].enabled && !sub.sources[j].candidateType {
        var topo: seq<Tunnel> := *;
        if AllWellFormed(topo, sub.Ns(j)) && NoRepeats(TunnelIds(topo)) {
          var r := SyncPlans(j, topo, dialed);
        }
      }
    }

    method StepOf(j: nat, kind: nat, dialed: bool)
      requires Valid() && IsFeed(j)
      modifies this, c, tg, waits
      ensures Valid() && old(c.trace) <= c.trace
    {
      var tag: Tag, flag: bool, round: Round, now: Time := *, *, *, *;
      if kind == 3 {
        var file: seq<Entry>, configHash: string := *, *;
        if FileOk(FeedOf(j), file) {
          ghost var rolled, met, mid;
          var r;
          r, rolled, met, mid := Sync(j, file, configHash, dialed, now);
        }
      } else if kind == 4 {
        var started, over := BeginTick(j, round);
      } else if kind == 5 {
        var r := Move(j, tag, flag, dialed);
      } else if tag in pending[j] {
        var r := ReplaceFailedTunnel(j, tag, dialed, round, flag, now);
      } else {
        Check(j, tag, flag, now);
      }
    }

    // ---- what holds in every run

    /** How many outbounds of source j count against its cap in the k-th state of Xray. */
    ghost function Count(j: nat, k: nat): nat
      reads c
      requires j < |sub.sources| && k < |c.trace|
    {
      |Owned(sub.target, sub.Ns(j), c.trace[k])|
    }

    /** From one state of Xray to the next the outbounds of a candidate source grow only within
        maxActive: where the daemon found more, there are never more again than there just were. */
    lemma NeverGrowsPastCap(j: nat, k: nat)
      requires Valid() && IsFeed(j) && 0 < k < |c.trace|
      ensures Count(j, k) <= Max(sub.sources[j].maxActive, Count(j, k - 1))
    {
      c.Ctx().SafeAt(c.trace, k);
      var cap := Cap(sub.Ns(j), sub.sources[j].maxActive);
      var i :| 0 <= i < |c.caps| && c.caps[i] == cap;
      assert WithinCaps(sub.target, c.caps, c.trace[k - 1], c.trace[k]);
    }

    /** Once within maxActive, always within maxActive; before that never more than at any earlier
        time. */
    lemma NeverOverCap(j: nat, i: nat, k: nat)
      requires Valid() && IsFeed(j) && i <= k < |c.trace|
      ensures Count(j, k) <= Max(sub.sources[j].maxActive, Count(j, i))
    {
      var counts := OwnedCounts(sub.target, sub.Ns(j), c.trace);
      forall n | 0 < n < |counts|
        ensures NoGrowth(counts, sub.sources[j].maxActive, n)
      {
        NeverGrowsPastCap(j, n);
      }
      NeverGrow(counts, sub.sources[j].maxActive, i, k);
    }

    /** While a candidate source has hashes, its outbounds and inbounds in Xray are of its tunnels
        in memory; its inbounds are all there unless Xray restarted since its last full apply. */
    lemma MemoryMirrorsXray(j: nat)
      requires Valid() && IsFeed(j) && sub.sources[j].id in tg.sources && tg.sources[sub.sources[j].id].hashes != map[]
      ensures forall tag :: tag in Owned(sub.target, sub.Ns(j), c.x) ==>
                exists tn :: tn in Block(tg.tunnels, sub.sources[j].id) && tag in Pair(tn.mapping)
      ensures MineIn(FeedOf(j).Scope(), c.x) <= set tn | tn in Block(tg.tunnels, sub.sources[j].id) :: tn.mapping.inboundTag
      ensures c.x.restarts == full[j] ==>
                MineIn(FeedOf(j).Scope(), c.x) == set tn | tn in Block(tg.tunnels, sub.sources[j].id) :: tn.mapping.inboundTag
    {
      var f, tuns := FeedOf(j), Block(tg.tunnels, sub.sources[j].id);
      FeedIsValid(j);
      assert Resting(f, c.x, full[j], wins[j], tg.sources, tuns);
      forall tag | tag in Owned(sub.target, sub.Ns(j), c.x)
        ensures exists tn :: tn in tuns && tag in Pair(tn.mapping)
      {
        assert Runs(tuns, tag);
      }
      forall tag | tag in MineIn(f.Scope(), c.x)
        ensures exists tn :: tn in tuns && tag == tn.mapping.inboundTag
      {
        assert Listens(tuns, tag);
      }
      forall tn | tn in tuns && c.x.restarts == full[j]
        ensures tn.mapping.inboundTag in MineIn(f.Scope(), c.x)
      {
        PairTagsOwned(f, tn.mapping);
      }
    }

    /** No tunnel in memory runs on both of its outbounds, no two of one source have the same key
        while it has hashes, and its slots are never more than maxActive. */
    lemma TunnelsAreSingle(j: nat, tn: Tun)
      requires Valid() && IsFeed(j) && sub.sources[j].id in tg.sources && tn in Block(tg.tunnels, sub.sources[j].id)
      ensures tn.mapping.outboundTagInitial != tn.mapping.baseTunnelId ==>
                !(tn.mapping.outboundTagInitial in c.x.outbounds && tn.mapping.baseTunnelId in c.x.outbounds)
      ensures tg.sources[sub.sources[j].id].hashes != map[] ==>
                forall other :: other in Block(tg.tunnels, sub.sources[j].id) && other != tn ==>
                  keyOf(other.mapping.baseTunnelId) != keyOf(tn.mapping.baseTunnelId)
    {
      var tuns := Block(tg.tunnels, sub.sources[j].id);
      assert Resting(FeedOf(j), c.x, full[j], wins[j], tg.sources, tuns);
      if tn.mapping.outboundTagInitial != tn.mapping.baseTunnelId {
        assert (tn.mapping.outboundTagInitial, tn.mapping.baseTunnelId) in Twins(tn.mapping);
        assert (tn.mapping.outboundTagInitial, tn.mapping.baseTunnelId) in TwinsOf(tuns);
      }
      forall other | other in tuns && other != tn
        ensures other.mapping.baseTunnelId != tn.mapping.baseTunnelId
      {
        if other.mapping.baseTunnelId == tn.mapping.baseTunnelId {
          SameTun(tg, sub.sources[j].id, other, tn);
        }
      }
    }

    /** Tunnels and removed ones without a replacement are never more than maxActive. */
    lemma SlotsAreConserved(j: nat)
      requires Valid() && IsFeed(j) && sub.sources[j].id in tg.sources
      ensures |Block(tg.tunnels, sub.sources[j].id)| +
              |tg.sources[sub.sources[j].id].noReplacement - Bases(Block(tg.tunnels, sub.sources[j].id))| <= sub.sources[j].maxActive
    {
      assert Resting(FeedOf(j), c.x, full[j], wins[j], tg.sources, Block(tg.tunnels, sub.sources[j].id));
    }

    /** A tunnel of source j was only ever replaced after at least replaceAfterFailures failed checks
        in a row, all after its last success and after the end of the source's last wait. */
    lemma NoPrematureReplacement(j: nat, k: nat) returns (from: nat)
      requires Valid() && IsFeed(j) && k < |logs[j]| && logs[j][k].Swapped?
      ensures from <= k && |FailedFrom(logs[j][..k], logs[j][k].tag, from)| >= Limit(j)
      ensures forall i :: from <= i < k ==> logs[j][i] != CheckPassed(logs[j][k].tag) && logs[j][i] != WaitEnded
    {
      from := FailedInARow(logs[j], Limit(j), k);
    }

    /** FailuresInRow of a tunnel in memory is never more than its failed checks in a row. */
    lemma CountersAreFailures(j: nat, tn: Tun)
      requires Valid() && IsFeed(j) && tn in Block(tg.tunnels, sub.sources[j].id)
      ensures tn.monitor.failuresInRow <= Failures(logs[j], tn.mapping.baseTunnelId)
    {
      CountCovers(Block(tg.tunnels, sub.sources[j].id), tn);
    }

    /** Every wait of a source that ended did so with all its dependencies healthy for their grace. */
    lemma WaitsEndRightly(j: nat, i: nat)
      requires Valid() && j < |waits| && i < |waits[j].ended|
      ensures EndedRightly(waits[j].rounds, waits[j].ended[i].from, waits[j].ended[i].n, waits[j].deps)
    {
      waits[j].WaitsEndRightly(i);
    }

    /** The tunnels of candidate sources have distinct ports, each in its source's range. */
    lemma PortsAreDistinct(i: nat, j: nat, a: Tun, b: Tun)
      requires Valid() && IsFeed(i) && IsFeed(j)
      requires a in Block(tg.tunnels, sub.sources[i].id) && b in Block(tg.tunnels, sub.sources[j].id)
      ensures InRange(sub.sources[i], a.mapping.port) && InRange(sub.sources[j], b.mapping.port)
      ensures a.mapping.port == b.mapping.port ==> i == j && a == b
    {
      InItsRange(i, a);
      InItsRange(j, b);
      if a.mapping.port == b.mapping.port {
        if i != j {
          PortsDisjoint(sub, res, i, j, a.mapping.port);
        } else {
          assert Resting(FeedOf(i), c.x, full[i], wins[i], tg.sources, Block(tg.tunnels, sub.sources[i].id));
          SameTun(tg, sub.sources[i].id, a, b);
        }
      }
    }

    lemma InItsRange(j: nat, tn: Tun)
      requires Valid() && IsFeed(j) && tn in Block(tg.tunnels, sub.sources[j].id)
      ensures sub.sources[j].id in tg.sources && InRange(sub.sources[j], tn.mapping.port)
    {
      Members(tg.tunnels, sub.sources[j].id);
      assert Resting(FeedOf(j), c.x, full[j], wins[j], tg.sources, Block(tg.tunnels, sub.sources[j].id));
      assert SourceOk(sub.sources[j], sub.target, res);
    }

    /** Every state of a past session differed from its start only in the session's scope, and
        kept apart what it had to. */
    lemma SessionsKeptTheirFrames(n: nat, k: nat)
      requires Valid() && n < |c.past| && c.past[n].session.from <= k < c.past[n].to
      ensures k < |c.trace| && Framed(c.boot, c.past[n].session, c.trace[k])
    {
      HistoryAt(c.boot, c.past, c.trace, n, k);
    }
  }

  method MoveTunnel(c: Client, tg: TargetState.Target, f: Feed, ghost full: nat, tag: Tag, back: bool, dialed: bool,
                    ghost wins: seq<set<Win>>)
    returns (r: Move)
    requires Open(c, f) && AtRest(tg, f, c.x, full, wins) && f.ns.sourceId in tg.sources
    modifies c, tg
    ensures Worked(c, tg, f) && AtRest(tg, f, c.x, full, wins)
    ensures NeverBoth(c.trace, |old(c.trace)|, |c.trace|, TwinsOf(old(Block(tg.tunnels, f.ns.sourceId))))
    ensures TwinsOf(Block(tg.tunnels, f.ns.sourceId)) == TwinsOf(old(Block(tg.tunnels, f.ns.sourceId)))
  {
    ghost var a, st, tuns := c.x, tg.sources[f.ns.sourceId], Block(tg.tunnels, f.ns.sourceId);
    if back {
      var stuck;
      r, stuck := RejoinTunnel(c, tg, f, full, f.ns.sourceId, tag, dialed);
    } else {
      var added;
      r, added := RepairTunnel(c, tg, f, full, f.ns.sourceId, tag, dialed);
    }
    if r != Skipped && r != DialFailed {
      SessionStays(c, f, a);
      SessionNeverBoth(c, TwinsOf(tuns));
    }
    if tg.sources[f.ns.sourceId].hashes != map[] {
      KeyedByTags(f, tuns, Block(tg.tunnels, f.ns.sourceId), st.candidates);
    }
  }
}
