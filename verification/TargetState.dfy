/** The in-memory state of one target (internal/scd/state/state.go). */
module TargetState {
  import opened Sets
  import opened Namespaces
  import opened SourceRules
  import opened Sorting
  import opened Selection
  import opened Decide
  import opened Topology

  /** The manifest hash of a plan: equal exactly for equal plans. */
  datatype Hash = Hash(kind: Kind, tunnels: seq<Tunnel>)

  datatype TunnelHealth = Idle | Healthy | Degraded | Repairing

  datatype Monitor = Monitor(health: TunnelHealth, failuresInRow: nat, failingSince: Option<Time>)

  const IDLE := Monitor(Idle, 0, None)

  datatype Tun = Tun(mapping: Tunnel, monitor: Monitor)

  /** A candidate of the file with its outbound. */
  datatype Entry = Entry(candidate: Candidate, json: string)

  datatype SelectionState = SelectionState(quarantine: map<PairKey, Time>, better: map<(Tag, Tag), nat>)

  /** Source: hashes of the last successful full apply, its topology, and for a candidate source
      its selection. */
  datatype SourceState = SourceState(
    hashes: map<Kind, Hash>,
    topology: seq<Tunnel>,
    configHash: string,
    candidates: seq<Entry>,
    selection: SelectionState,
    noReplacement: set<Tag>)

  // ---- the tunnels of one source among all

  function Block(tuns: seq<Tun>, id: string): seq<Tun> {
    if tuns == [] then []
    else
      var n := |tuns| - 1;
      Block(tuns[..n], id) + if tuns[n].mapping.sourceId == id then [tuns[n]] else []
  }

  function Others(tuns: seq<Tun>, id: string): seq<Tun> {
    if tuns == [] then []
    else
      var n := |tuns| - 1;
      Others(tuns[..n], id) + if tuns[n].mapping.sourceId == id then [] else [tuns[n]]
  }

  lemma {:induction false} BlockOfConcat(a: seq<Tun>, b: seq<Tun>, id: string)
    ensures Block(a + b, id) == Block(a, id) + Block(b, id)
    ensures Others(a + b, id) == Others(a, id) + Others(b, id)
  {
    if b == [] {
      assert a + b == a;
    } else {
      var n := |b| - 1;
      assert (a + b)[..|a| + n] == a + b[..n];
      BlockOfConcat(a, b[..n], id);
    }
  }

  lemma {:induction false} BlockOfOwn(own: seq<Tun>, id: string)
    requires forall tn :: tn in own ==> tn.mapping.sourceId == id
    ensures Block(own, id) == own && Others(own, id) == []
  {
    if own != [] {
      var n := |own| - 1;
      BlockOfOwn(own[..n], id);
      assert own[n] in own;
      assert own == own[..n] + [own[n]];
    }
  }

  /** The other sources' tunnels do not see a source's block change. */
  lemma {:induction false} BlockAmongOthers(tuns: seq<Tun>, id: string, other: string)
    requires id != other
    ensures Block(Others(tuns, id), other) == Block(tuns, other)
  {
    if tuns != [] {
      var n := |tuns| - 1;
      BlockAmongOthers(tuns[..n], id, other);
      var rest := Others(tuns[..n], id);
      assert [tuns[n]][..0] == [];
      if tuns[n].mapping.sourceId == id {
        assert Others(tuns, id) == rest;
      } else {
        BlockOfConcat(rest, [tuns[n]], other);
      }
    }
  }

  lemma {:induction false} Members(tuns: seq<Tun>, id: string)
    ensures forall tn :: tn in Block(tuns, id) <==> tn in tuns && tn.mapping.sourceId == id
    ensures forall tn :: tn in Others(tuns, id) <==> tn in tuns && tn.mapping.sourceId != id
  {
    if tuns != [] {
      var n := |tuns| - 1;
      Members(tuns[..n], id);
      assert tuns == tuns[..n] + [tuns[n]];
    }
  }

  /** The order of the source ids. */
  predicate Le(a: string, b: string) {
    StringsCompare(a, b) <= 0
  }

  predicate SortedById(tuns: seq<Tun>) {
    forall i, j :: 0 <= i < j < |tuns| ==> Le(tuns[i].mapping.sourceId, tuns[j].mapping.sourceId)
  }

  function Ids(tuns: seq<Tun>): seq<Tag> {
    seq(|tuns|, i requires 0 <= i < |tuns| => tuns[i].mapping.baseTunnelId)
  }

  function TunnelIds(tunnels: seq<Tunnel>): seq<Tag> {
    seq(|tunnels|, i requires 0 <= i < |tunnels| => tunnels[i].baseTunnelId)
  }

  // ---- ports

  function PortCompare(tunnels: seq<Tunnel>): Compare {
    (i: nat, j: nat) => if i < |tunnels| && j < |tunnels| then tunnels[i].port - tunnels[j].port else 0
  }

  /** slices.SortStableFunc by port. */
  function ByPort(tunnels: seq<Tunnel>): (r: seq<Tunnel>)
    ensures |r| == |tunnels| && multiset(r) == multiset(tunnels)
    ensures forall i, j :: 0 <= i < j < |r| ==> r[i].port <= r[j].port
  {
    var cmp := PortCompare(tunnels);
    assert IsOrder(cmp, |tunnels|);
    StableOrderPermutes(|tunnels|, cmp);
    StableOrderSorts(|tunnels|, |tunnels|, cmp);
    var order := StableOrder(|tunnels|, cmp);
    ArrangeKeeps(tunnels, order);
    var r := Arrange(tunnels, order);
    assert forall i, j :: 0 <= i < j < |r| ==> Before(cmp, order[i], order[j]);
    r
  }

  // ---- the target

  predicate AllOf(tuns: seq<Tun>, id: string) {
    forall tn :: tn in tuns ==> tn.mapping.sourceId == id
  }

  class Target {
    var sources: map<string, SourceState>
    var tunnels: seq<Tun>
    var stateLost: set<string>
    var syncSeen: bool
    var generation: nat

    /** Tunnels are sorted by source; the tunnels of every source are those of its topology, in
        its order, and there are no others. */
    ghost predicate Valid()
      reads this
    {
      && SortedById(tunnels)
      && (forall tn :: tn in tunnels ==> tn.mapping.sourceId in sources)
      && (forall id :: id in sources ==> Mirrors(Block(tunnels, id), sources[id].topology, id))
    }

    /** newTarget. */
    constructor ()
      ensures Valid() && sources == map[] && tunnels == [] && stateLost == {} && !syncSeen
    {
      sources, tunnels, stateLost, syncSeen, generation := map[], [], {}, false, 0;
    }

    /** MarkSynced. */
    method MarkSynced()
      requires Valid()
      modifies this`syncSeen
      ensures Valid() && syncSeen
    {
      syncSeen := true;
    }

    /** replaceTunnels: own takes the place of the tunnels of a source, the others keep theirs. */
    method ReplaceTunnels(id: string, own: seq<Tun>)
      requires SortedById(tunnels) && AllOf(own, id)
      modifies this`tunnels, this`generation
      ensures generation == old(generation) + 1
      ensures SortedById(tunnels)
      ensures Block(tunnels, id) == own && Others(tunnels, id) == Others(old(tunnels), id)
    {
      var out := Splice(tunnels, id, own);
      Spliced(tunnels, id, own);
      tunnels, generation := out, generation + 1;
    }

    /** Other sources see neither their state nor their tunnels change. */
    twostate predicate OthersKept(id: string)
      reads this
    {
      sources - {id} == old(sources) - {id} && Others(tunnels, id) == Others(old(tunnels), id)
    }

    twostate lemma StillValid(id: string)
      requires old(Valid()) && OthersKept(id) && SortedById(tunnels)
      requires id in sources ==> Mirrors(Block(tunnels, id), sources[id].topology, id)
      requires id !in sources ==> Block(tunnels, id) == []
      ensures Valid()
    {
      forall other | other in sources && other != id
        ensures Mirrors(Block(tunnels, other), sources[other].topology, other)
      {
        assert other in sources - {id};
        BlockAmongOthers(tunnels, id, other);
        BlockAmongOthers(old(tunnels), id, other);
      }
      Members(tunnels, id);
      Members(old(tunnels), id);
      forall tn | tn in tunnels
        ensures tn.mapping.sourceId in sources
      {
        if tn.mapping.sourceId == id {
          assert tn in Block(tunnels, id);
        } else {
          assert tn in Others(old(tunnels), id);
          assert tn.mapping.sourceId in old(sources) - {id};
        }
      }
    }

    /** ReplaceSourceTunnel: next takes the place of tunnel oldId of a source, or the slot is
        emptied (None), or next is added (oldId ""). The hashes are recomputed for the kinds
        that have one: a source whose hashes are reset keeps none. */
    method ReplaceSourceTunnel(id: string, oldId: Tag, next: Option<Tunnel>)
      requires Valid()
      requires id in sources ==> Fits(sources[id].topology, oldId, next)
      modifies this`sources, this`tunnels, this`generation
      ensures Valid() && OthersKept(id)
      ensures id !in old(sources) ==> sources == old(sources) && tunnels == old(tunnels)
      ensures id in old(sources) ==>
                && sources == old(sources)[id := Reslot(old(sources)[id], id, oldId, next)]
                && Swapped(Block(old(tunnels), id), id, oldId, next, Block(tunnels, id))
    {
      if id !in sources {
        return;
      }
      var src := sources[id];
      var slot := if next.Some? then [next.value.(sourceId := id)] else [];
      var topology := ByPort(Except(src.topology, oldId) + slot);
      var own := Reseat(Block(tunnels, id), id, oldId, next, src.topology, topology);
      Install(id, src.(
        topology := topology,
        hashes := map k | k in src.hashes :: Hash(k, topology),
        noReplacement := src.noReplacement - {oldId}), own);
    }

    /** st and its tunnels own take the place of a source. */
    method Install(id: string, st: SourceState, own: seq<Tun>)
      requires Valid() && AllOf(own, id) && Mirrors(own, st.topology, id)
      modifies this`sources, this`tunnels, this`generation
      ensures Valid() && OthersKept(id) && sources == old(sources)[id := st] && Block(tunnels, id) == own
    {
      sources := sources[id := st];
      ReplaceTunnels(id, own);
      StillValid(id);
    }

    /** DropSourceTunnels: after a failed full apply nothing may act on the old tunnels. */
    method DropSourceTunnels(id: string)
      requires Valid()
      modifies this`sources, this`tunnels, this`generation
      ensures Valid() && OthersKept(id)
      ensures id in old(sources) ==>
                sources == old(sources)[id := old(sources)[id].(topology := [], hashes := map[])] && Block(tunnels, id) == []
      ensures id !in old(sources) ==> sources == old(sources) && tunnels == old(tunnels)
    {
      if id in sources {
        Install(id, sources[id].(topology := [], hashes := map[]), []);
      }
    }

    /** ResetSourceHashes: the next sync applies the source in full. */
    method ResetSourceHashes(id: string)
      requires Valid()
      modifies this`sources
      ensures Valid() && OthersKept(id)
      ensures sources == if id in old(sources) then old(sources)[id := old(sources)[id].(hashes := map[])] else old(sources)
    {
      if id in sources {
        sources := sources[id := sources[id].(hashes := map[])];
      }
    }

    /** SetStateLost: Xray lost the resources of the source. */
    method SetStateLost(id: string)
      requires Valid()
      modifies this`stateLost
      ensures Valid() && stateLost == old(stateLost) + {id}
    {
      stateLost := stateLost + {id};
    }

    /** An Update of a source that leaves its tunnels alone. */
    method UpdateSource(id: string, st: SourceState)
      requires Valid() && id in sources && st.topology == sources[id].topology
      modifies this`sources
      ensures Valid() && OthersKept(id) && sources == old(sources)[id := st]
    {
      sources := sources[id := st];
    }

    /** An Update of the tunnel with the given id: its current outbound and its monitor. */
    method UpdateTunnel(id: string, tag: Tag, current: Tag, monitor: Monitor)
      requires Valid()
      modifies this`tunnels
      ensures Valid() && OthersKept(id)
      ensures Block(tunnels, id) == Updated(Block(old(tunnels), id), id, tag, current, monitor)
    {
      UpdatedBlock(tunnels, id, tag, current, monitor);
      if id !in sources {
        NoneOf(tunnels, id);
      }
      tunnels := Updated(tunnels, id, tag, current, monitor);
      assert SortedById(tunnels);
      StillValid(id);
    }

    /** DropSource: nothing of the source is left. */
    method DropSource(id: string)
      requires Valid()
      modifies this`sources, this`tunnels, this`generation, this`stateLost
      ensures Valid() && OthersKept(id)
      ensures sources == old(sources) - {id} && Block(tunnels, id) == [] && stateLost == old(stateLost) - {id}
    {
      if id in sources {
        sources, stateLost := sources - {id}, stateLost - {id};
        ReplaceTunnels(id, []);
        StillValid(id);
      } else {
        Members(tunnels, id);
        NoneOf(tunnels, id);
        stateLost := stateLost - {id};
        assert sources == sources - {id};
      }
    }

    /** The tunnels whose failures a full apply remembers. */
    function Remembered(id: string): map<Tag, Tun>
      reads this
    {
      if id in stateLost then map[] else ById(Block(tunnels, id))
    }

    /** ReplaceSourceTopology: after a successful full apply, the tunnels of topo with idle
        monitors; a tunnel that was there before keeps its FailingSince, unless Xray had lost
        the source. Quarantine and no_replacement survive, the rest of the selection does not. */
    method ReplaceSourceTopology(id: string, topo: seq<Tunnel>, hashes: map<Kind, Hash>)
      requires Valid() && NoRepeats(TunnelIds(topo))
      modifies this`sources, this`tunnels, this`generation, this`syncSeen
      ensures Valid() && OthersKept(id) && syncSeen
      ensures id in sources
      ensures sources[id].hashes == hashes && sources[id].topology == OwnTunnels(topo, id)
      ensures sources[id].selection.better == map[]
      ensures if id in old(sources)
              then sources[id].noReplacement == old(sources)[id].noReplacement
                   && sources[id].selection.quarantine == old(sources)[id].selection.quarantine
              else sources[id].noReplacement == {} && sources[id].selection.quarantine == map[]
      ensures Installed(Block(tunnels, id), OwnTunnels(topo, id))
      ensures forall i :: 0 <= i < |topo| ==>
                Block(tunnels, id)[i].monitor.failingSince == SinceOf(old(Remembered(id)), topo[i].baseTunnelId)
    {
      syncSeen := true;
      var quarantine: map<PairKey, Time>, noReplacement: set<Tag> := map[], {};
      if id in sources {
        quarantine, noReplacement := sources[id].selection.quarantine, sources[id].noReplacement;
      }
      var before := Remembered(id);
      var topology := OwnTunnels(topo, id);
      var own: seq<Tun> := [];
      for i := 0 to |topology|
        modifies {}
        invariant AllOf(own, id) && Installed(own, topology[..i])
        invariant forall j :: 0 <= j < i ==> own[j].monitor.failingSince == SinceOf(before, topology[j].baseTunnelId)
      {
        var tn := topology[i];
        own := own + [Tun(tn, Monitor(Idle, 0, SinceOf(before, tn.baseTunnelId)))];
      }
      assert topology[..|topology|] == topology;
      OwnTunnelIds(topo, id);
      Install(id, SourceState(hashes, topology, "", [], SelectionState(quarantine, map[]), noReplacement), own);
    }
  }

  /** tuns with the current outbound and the monitor of one tunnel of a source set. */
  function Updated(tuns: seq<Tun>, id: string, tag: Tag, current: Tag, monitor: Monitor): (r: seq<Tun>)
    ensures |r| == |tuns|
    ensures forall i :: 0 <= i < |r| ==>
              r[i] == if tuns[i].mapping.sourceId == id && tuns[i].mapping.baseTunnelId == tag
                      then Tun(tuns[i].mapping.(outboundTagCurrent := current), monitor) else tuns[i]
  {
    seq(|tuns|, i requires 0 <= i < |tuns| =>
      if tuns[i].mapping.sourceId == id && tuns[i].mapping.baseTunnelId == tag
      then Tun(tuns[i].mapping.(outboundTagCurrent := current), monitor) else tuns[i])
  }

  lemma {:induction false} UpdatedBlock(tuns: seq<Tun>, id: string, tag: Tag, current: Tag, monitor: Monitor)
    ensures Block(Updated(tuns, id, tag, current, monitor), id) == Updated(Block(tuns, id), id, tag, current, monitor)
    ensures Others(Updated(tuns, id, tag, current, monitor), id) == Others(tuns, id)
  {
    if tuns != [] {
      var n := |tuns| - 1;
      UpdatedBlock(tuns[..n], id, tag, current, monitor);
      assert Updated(tuns, id, tag, current, monitor)[..n] == Updated(tuns[..n], id, tag, current, monitor);
    }
  }

  function SinceOf(before: map<Tag, Tun>, tag: Tag): Option<Time> {
    if tag in before then before[tag].monitor.failingSince else None
  }

  /** The tunnels a full apply starts with. */
  predicate Installed(tuns: seq<Tun>, topology: seq<Tunnel>) {
    && |tuns| == |topology|
    && forall i :: 0 <= i < |tuns| ==>
         tuns[i].mapping == topology[i] && tuns[i].monitor.health == Idle && tuns[i].monitor.failuresInRow == 0
  }

  /** A source after ReplaceSourceTunnel. */
  function Reslot(src: SourceState, id: string, oldId: Tag, next: Option<Tunnel>): SourceState {
    var topology := Reslotted(src.topology, id, oldId, next);
    src.(topology := topology, hashes := map k | k in src.hashes :: Hash(k, topology), noReplacement := src.noReplacement - {oldId})
  }

  /** The tunnels of a source after ReplaceSourceTunnel: all but oldId as they were, next idle. */
  ghost predicate Swapped(was: seq<Tun>, id: string, oldId: Tag, next: Option<Tunnel>, own: seq<Tun>) {
    && (forall tn :: tn in own <==>
          || (tn in was && tn.mapping.baseTunnelId != oldId)
          || (next.Some? && tn == Tun(next.value.(sourceId := id), IDLE)))
    && |own| == |was| - (if oldId in Ids(was) then 1 else 0) + if next.Some? then 1 else 0
  }

  /** topo as tunnels of the source. */
  function OwnTunnels(topo: seq<Tunnel>, id: string): (r: seq<Tunnel>)
    ensures |r| == |topo| && forall i :: 0 <= i < |r| ==> r[i] == topo[i].(sourceId := id)
  {
    seq(|topo|, i requires 0 <= i < |topo| => topo[i].(sourceId := id))
  }

  lemma OwnTunnelIds(topo: seq<Tunnel>, id: string)
    ensures TunnelIds(OwnTunnels(topo, id)) == TunnelIds(topo)
  {
  }

  /** The tunnels of topology without the one called oldId. */
  function Except(topology: seq<Tunnel>, oldId: Tag): seq<Tunnel> {
    if topology == [] then []
    else
      var n := |topology| - 1;
      Except(topology[..n], oldId) + if topology[n].baseTunnelId == oldId then [] else [topology[n]]
  }

  lemma {:induction false} ExceptKeeps(topology: seq<Tunnel>, oldId: Tag)
    requires NoRepeats(TunnelIds(topology))
    ensures forall tn :: tn in Except(topology, oldId) <==> tn in topology && tn.baseTunnelId != oldId
    ensures NoRepeats(TunnelIds(Except(topology, oldId)))
    ensures |Except(topology, oldId)| == |topology| - if oldId in TunnelIds(topology) then 1 else 0
  {
    if topology != [] {
      var n := |topology| - 1;
      var init := topology[..n];
      InitNoRepeats(topology);
      ExceptKeeps(init, oldId);
      assert topology == init + [topology[n]];
      var kept := Except(init, oldId);
      if topology[n].baseTunnelId == oldId {
        assert Except(topology, oldId) == kept;
      } else {
        AppendId(init, kept, topology[n]);
        assert Except(topology, oldId) == kept + [topology[n]];
      }
    }
  }

  lemma InitNoRepeats(topology: seq<Tunnel>)
    requires NoRepeats(TunnelIds(topology)) && topology != []
    ensures TunnelIds(topology) == TunnelIds(topology[..|topology| - 1]) + [topology[|topology| - 1].baseTunnelId]
    ensures NoRepeats(TunnelIds(topology[..|topology| - 1]))
    ensures topology[|topology| - 1].baseTunnelId !in TunnelIds(topology[..|topology| - 1])
  {
    var init := topology[..|topology| - 1];
    assert forall i :: 0 <= i < |init| ==> TunnelIds(init)[i] == TunnelIds(topology)[i] != TunnelIds(topology)[|init|];
    forall i, j | 0 <= i < j < |init|
      ensures TunnelIds(init)[i] != TunnelIds(init)[j]
    {
      assert TunnelIds(topology)[i] != TunnelIds(topology)[j];
    }
  }

  lemma AppendId(all: seq<Tunnel>, some: seq<Tunnel>, tn: Tunnel)
    requires NoRepeats(TunnelIds(all + [tn])) && NoRepeats(TunnelIds(some))
    requires forall x :: x in some ==> x in all
    ensures NoRepeats(TunnelIds(some + [tn]))
  {
    var ids := TunnelIds(some + [tn]);
    forall i | 0 <= i < |some|
      ensures some[i].baseTunnelId != tn.baseTunnelId
    {
      assert some[i] in some;
      var j :| 0 <= j < |all| && all[j] == some[i];
      assert TunnelIds(all + [tn])[j] != TunnelIds(all + [tn])[|all|];
    }
    assert forall i :: 0 <= i < |some| ==> ids[i] == TunnelIds(some)[i];
  }

  lemma ByPortIds(tunnels: seq<Tunnel>)
    requires NoRepeats(TunnelIds(tunnels))
    ensures NoRepeats(TunnelIds(ByPort(tunnels)))
    ensures forall tn :: tn in ByPort(tunnels) <==> tn in tunnels
  {
    var cmp := PortCompare(tunnels);
    StableOrderPermutes(|tunnels|, cmp);
    var order := StableOrder(|tunnels|, cmp);
    forall i, j | 0 <= i < j < |tunnels|
      ensures TunnelIds(ByPort(tunnels))[i] != TunnelIds(ByPort(tunnels))[j]
    {
      assert order[i] != order[j];
      assert TunnelIds(tunnels)[order[i]] != TunnelIds(tunnels)[order[j]];
    }
    assert forall tn :: tn in ByPort(tunnels) <==> tn in multiset(ByPort(tunnels));
    assert forall tn :: tn in tunnels <==> tn in multiset(tunnels);
  }

  /** The tunnels of a source after ReplaceSourceTunnel. */
  function Reslotted(topology: seq<Tunnel>, id: string, oldId: Tag, next: Option<Tunnel>): seq<Tunnel> {
    ByPort(Except(topology, oldId) + if next.Some? then [next.value.(sourceId := id)] else [])
  }

  /** next may take a slot: no other tunnel of the topology has its id. */
  predicate Fits(topology: seq<Tunnel>, oldId: Tag, next: Option<Tunnel>) {
    next.Some? ==> forall tn :: tn in topology && tn.baseTunnelId != oldId ==> tn.baseTunnelId != next.value.baseTunnelId
  }

  lemma ReslottedIds(topology: seq<Tunnel>, id: string, oldId: Tag, next: Option<Tunnel>)
    requires NoRepeats(TunnelIds(topology)) && Fits(topology, oldId, next)
    ensures NoRepeats(TunnelIds(Reslotted(topology, id, oldId, next)))
    ensures forall tn :: tn in Reslotted(topology, id, oldId, next) <==>
              (tn in topology && tn.baseTunnelId != oldId) || (next.Some? && tn == next.value.(sourceId := id))
    ensures |Reslotted(topology, id, oldId, next)| ==
            |topology| - (if oldId in TunnelIds(topology) then 1 else 0) + if next.Some? then 1 else 0
  {
    var kept := Except(topology, oldId);
    ExceptKeeps(topology, oldId);
    var all := kept + if next.Some? then [next.value.(sourceId := id)] else [];
    assert next.None? ==> all == kept;
    forall i, j | 0 <= i < j < |all|
      ensures TunnelIds(all)[i] != TunnelIds(all)[j]
    {
      assert all[i] == kept[i] && kept[i] in kept;
      if j < |kept| {
        assert TunnelIds(kept)[i] != TunnelIds(kept)[j];
      }
    }
    ByPortIds(all);
  }

  /** The Tun of a source for each id. */
  function ById(tuns: seq<Tun>): map<Tag, Tun> {
    if tuns == [] then map[]
    else
      var n := |tuns| - 1;
      ById(tuns[..n])[tuns[n].mapping.baseTunnelId := tuns[n]]
  }

  /** What ById finds for the tunnels of a mirrored topology. */
  lemma {:induction false} ByIdFinds(tuns: seq<Tun>, topology: seq<Tunnel>, id: string)
    requires Mirrors(tuns, topology, id)
    ensures forall i :: 0 <= i < |tuns| ==>
              topology[i].baseTunnelId in ById(tuns) && ById(tuns)[topology[i].baseTunnelId] == tuns[i]
  {
    if tuns != [] {
      var n := |tuns| - 1;
      assert forall i :: 0 <= i <= n ==> TunnelIds(topology)[i] == topology[i].baseTunnelId;
      assert forall i :: 0 <= i < n ==> TunnelIds(topology[..n])[i] == topology[i].baseTunnelId;
      ByIdFinds(tuns[..n], topology[..n], id);
    }
  }

  /** The tunnels ReplaceSourceTunnel puts in place: those kept as they are, next idle. */
  predicate Reseated(was: seq<Tun>, id: string, next: Option<Tunnel>, topology: seq<Tunnel>, own: seq<Tun>) {
    && |own| == |topology|
    && forall i :: 0 <= i < |own| ==>
         if next.Some? && topology[i].baseTunnelId == next.value.baseTunnelId
         then own[i] == Tun(next.value.(sourceId := id), IDLE)
         else own[i] in was && own[i].mapping.baseTunnelId == topology[i].baseTunnelId
  }

  /** byId finds what Reseated wants for every tunnel of a topology. */
  ghost predicate Seats(byId: map<Tag, Tun>, was: seq<Tun>, next: Option<Tunnel>, topology: seq<Tunnel>, id: string) {
    forall tn :: tn in topology ==>
      && tn.baseTunnelId in byId && tn.sourceId == id
      && byId[tn.baseTunnelId].mapping == tn.(outboundTagCurrent := byId[tn.baseTunnelId].mapping.outboundTagCurrent)
      && if next.Some? && tn.baseTunnelId == next.value.baseTunnelId
         then byId[tn.baseTunnelId] == Tun(next.value.(sourceId := id), IDLE)
         else byId[tn.baseTunnelId] in was
  }

  lemma AllSeated(was: seq<Tun>, id: string, oldId: Tag, next: Option<Tunnel>, before: seq<Tunnel>)
    requires Mirrors(was, before, id) && Fits(before, oldId, next)
    ensures var byId := if next.Some? then ById(was)[next.value.baseTunnelId := Tun(next.value.(sourceId := id), IDLE)] else ById(was);
            Seats(byId, was, next, Reslotted(before, id, oldId, next), id)
  {
    ReslottedIds(before, id, oldId, next);
    ByIdFinds(was, before, id);
    forall tn | tn in Reslotted(before, id, oldId, next) && !(next.Some? && tn == next.value.(sourceId := id))
      ensures tn.sourceId == id && tn.baseTunnelId in ById(was) && ById(was)[tn.baseTunnelId] in was
      ensures ById(was)[tn.baseTunnelId].mapping == tn.(outboundTagCurrent := ById(was)[tn.baseTunnelId].mapping.outboundTagCurrent)
    {
      var k :| 0 <= k < |before| && before[k] == tn;
      assert ById(was)[tn.baseTunnelId] == was[k];
    }
  }

  /** The tunnels of the new topology, by id: none is missing. */
  method Reseat(was: seq<Tun>, id: string, oldId: Tag, next: Option<Tunnel>, ghost before: seq<Tunnel>, topology: seq<Tunnel>)
    returns (own: seq<Tun>)
    requires Mirrors(was, before, id) && Fits(before, oldId, next) && topology == Reslotted(before, id, oldId, next)
    ensures AllOf(own, id) && Mirrors(own, topology, id) && Swapped(was, id, oldId, next, own)
  {
    AllSeated(was, id, oldId, next, before);
    var byId := ById(was);
    if next.Some? {
      byId := byId[next.value.baseTunnelId := Tun(next.value.(sourceId := id), IDLE)];
    }
    own := [];
    for i := 0 to |topology|
      invariant |own| == i
      invariant forall j :: 0 <= j < i ==> own[j] == byId[topology[j].baseTunnelId]
    {
      assert topology[i] in topology;
      own := own + [byId[topology[i].baseTunnelId]];
    }
    assert forall j :: 0 <= j < |topology| ==> topology[j] in topology;
    ReslottedIds(before, id, oldId, next);
    ReseatedSwaps(was, id, oldId, next, before, topology, own);
  }

  lemma ReseatedSwaps(was: seq<Tun>, id: string, oldId: Tag, next: Option<Tunnel>, before: seq<Tunnel>, topology: seq<Tunnel>, own: seq<Tun>)
    requires Mirrors(was, before, id) && Fits(before, oldId, next) && topology == Reslotted(before, id, oldId, next)
    requires Reseated(was, id, next, topology, own)
    ensures Swapped(was, id, oldId, next, own)
  {
    ReslottedIds(before, id, oldId, next);
    assert Ids(was) == TunnelIds(before);
    forall tn | tn in was && tn.mapping.baseTunnelId != oldId
      ensures tn in own
    {
      KeptSeat(was, id, oldId, next, before, topology, own, tn);
    }
    if next.Some? {
      var i :| 0 <= i < |topology| && topology[i] == next.value.(sourceId := id);
      assert own[i] in own;
    }
    forall i | 0 <= i < |own| && !(next.Some? && own[i] == Tun(next.value.(sourceId := id), IDLE))
      ensures own[i] in was && own[i].mapping.baseTunnelId != oldId
    {
      assert topology[i] in topology;
    }
  }

  lemma KeptSeat(was: seq<Tun>, id: string, oldId: Tag, next: Option<Tunnel>, before: seq<Tunnel>, topology: seq<Tunnel>, own: seq<Tun>, tn: Tun)
    requires Mirrors(was, before, id) && Fits(before, oldId, next) && Reseated(was, id, next, topology, own)
    requires forall x :: x in before && x.baseTunnelId != oldId ==> x in topology
    requires tn in was && tn.mapping.baseTunnelId != oldId
    ensures tn in own
  {
    var k :| 0 <= k < |was| && was[k] == tn;
    assert before[k] in topology;
    var i :| 0 <= i < |topology| && topology[i] == before[k];
    SameSeat(was, before, id, own[i], tn);
  }

  /** Tunnels of one block with one id are the same. */
  lemma SameSeat(was: seq<Tun>, before: seq<Tunnel>, id: string, a: Tun, b: Tun)
    requires Mirrors(was, before, id) && a in was && b in was && a.mapping.baseTunnelId == b.mapping.baseTunnelId
    ensures a == b
  {
    var i :| 0 <= i < |was| && was[i] == a;
    var j :| 0 <= j < |was| && was[j] == b;
    assert TunnelIds(before)[i] == TunnelIds(before)[j];
  }

  /** The loop of replaceTunnels. */
  method Splice(tuns: seq<Tun>, id: string, own: seq<Tun>) returns (out: seq<Tun>)
    requires SortedById(tuns)
    ensures out == Below(tuns, id) + own + Above(tuns, id)
  {
    out := [];
    var inserted := false;
    for i := 0 to |tuns|
      invariant Splicing(tuns[..i], id, own, inserted, out)
    {
      var tn := tuns[i];
      var order := StringsCompare(tn.mapping.sourceId, id);
      SpliceStep(tuns, i, id);
      SplicingStep(tuns, i, id, own, inserted, out, order);
      if tn.mapping.sourceId != id {
        if !inserted && order > 0 {
          out, inserted := out + own, true;
        }
        out := out + [tn];
      }
    }
    assert tuns[..|tuns|] == tuns;
    if !inserted {
      out := out + own;
    }
  }

  predicate Splicing(done: seq<Tun>, id: string, own: seq<Tun>, inserted: bool, out: seq<Tun>) {
    && (inserted <==> Above(done, id) != [])
    && out == if inserted then Below(done, id) + own + Above(done, id) else Below(done, id)
  }

  lemma SplicingStep(tuns: seq<Tun>, i: nat, id: string, own: seq<Tun>, inserted: bool, out: seq<Tun>, order: int)
    requires i < |tuns| && Splicing(tuns[..i], id, own, inserted, out)
    requires Below(tuns[..i + 1], id) == Below(tuns[..i], id) + if order < 0 then [tuns[i]] else []
    requires Above(tuns[..i + 1], id) == Above(tuns[..i], id) + if order > 0 then [tuns[i]] else []
    requires order < 0 ==> Above(tuns[..i], id) == []
    ensures order == 0 ==> Splicing(tuns[..i + 1], id, own, inserted, out)
    ensures order < 0 || (order > 0 && inserted) ==> Splicing(tuns[..i + 1], id, own, inserted, out + [tuns[i]])
    ensures order > 0 && !inserted ==> Splicing(tuns[..i + 1], id, own, true, out + own + [tuns[i]])
  {
    var tn, low, high := tuns[i], Below(tuns[..i], id), Above(tuns[..i], id);
    assert low + [] == low && high + [] == high;
    if order == 0 {
    } else if order < 0 {
      assert Above(tuns[..i + 1], id) == [] && !inserted;
    } else if inserted {
      assert low + own + (high + [tn]) == low + own + high + [tn];
    } else {
      assert high == [];
      assert low + own + [tn] == low + own + (high + [tn]);
    }
  }

  /** tuns holds one tunnel for each of topology, in order; only the current outbound may differ
      (repair and rejoin change it). */
  predicate Mirrors(tuns: seq<Tun>, topology: seq<Tunnel>, id: string) {
    && |tuns| == |topology|
    && NoRepeats(TunnelIds(topology))
    && forall i :: 0 <= i < |tuns| ==>
         && topology[i].sourceId == id
         && tuns[i].mapping == topology[i].(outboundTagCurrent := tuns[i].mapping.outboundTagCurrent)
  }

  /** The tunnels of the sources before, and after, a source. */
  function Below(tuns: seq<Tun>, id: string): seq<Tun> {
    if tuns == [] then []
    else
      var n := |tuns| - 1;
      Below(tuns[..n], id) + if StringsCompare(tuns[n].mapping.sourceId, id) < 0 then [tuns[n]] else []
  }

  function Above(tuns: seq<Tun>, id: string): seq<Tun> {
    if tuns == [] then []
    else
      var n := |tuns| - 1;
      Above(tuns[..n], id) + if StringsCompare(tuns[n].mapping.sourceId, id) > 0 then [tuns[n]] else []
  }

  lemma {:induction false} BelowAndAbove(tuns: seq<Tun>, id: string)
    requires SortedById(tuns)
    ensures forall tn :: tn in Below(tuns, id) ==> StringsCompare(tn.mapping.sourceId, id) < 0
    ensures forall tn :: tn in Above(tuns, id) ==> StringsCompare(tn.mapping.sourceId, id) > 0
    ensures Others(tuns, id) == Below(tuns, id) + Above(tuns, id)
  {
    if tuns != [] {
      var n := |tuns| - 1;
      BelowAndAbove(tuns[..n], id);
      StringsCompareFlips(tuns[n].mapping.sourceId, id);
      if StringsCompare(tuns[n].mapping.sourceId, id) < 0 {
        NoneAbove(tuns, id);
      }
    }
  }

  lemma {:induction false} OthersSorted(tuns: seq<Tun>, id: string)
    requires SortedById(tuns)
    ensures SortedById(Others(tuns, id))
  {
    if tuns != [] {
      var n := |tuns| - 1;
      OthersSorted(tuns[..n], id);
      Members(tuns[..n], id);
      AppendSorted(Others(tuns[..n], id), [tuns[n]]);
    }
  }

  /** If the last of sorted tunnels is before id, all are. */
  lemma NoneAbove(tuns: seq<Tun>, id: string)
    requires SortedById(tuns) && tuns != [] && StringsCompare(tuns[|tuns| - 1].mapping.sourceId, id) < 0
    ensures Above(tuns[..|tuns| - 1], id) == []
  {
    var n := |tuns| - 1;
    forall i | 0 <= i < n
      ensures StringsCompare(tuns[i].mapping.sourceId, id) <= 0
    {
      StringsCompareTransitive(tuns[i].mapping.sourceId, tuns[n].mapping.sourceId, id);
    }
    AboveNothing(tuns[..n], id);
  }

  lemma {:induction false} AboveNothing(tuns: seq<Tun>, id: string)
    requires forall i :: 0 <= i < |tuns| ==> StringsCompare(tuns[i].mapping.sourceId, id) <= 0
    ensures Above(tuns, id) == []
  {
    if tuns != [] {
      AboveNothing(tuns[..|tuns| - 1], id);
    }
  }

  lemma SpliceStep(tuns: seq<Tun>, i: nat, id: string)
    requires i < |tuns| && SortedById(tuns)
    ensures Below(tuns[..i + 1], id) == Below(tuns[..i], id) + if StringsCompare(tuns[i].mapping.sourceId, id) < 0 then [tuns[i]] else []
    ensures Above(tuns[..i + 1], id) == Above(tuns[..i], id) + if StringsCompare(tuns[i].mapping.sourceId, id) > 0 then [tuns[i]] else []
    ensures StringsCompare(tuns[i].mapping.sourceId, id) == 0 <==> tuns[i].mapping.sourceId == id
    ensures StringsCompare(tuns[i].mapping.sourceId, id) < 0 ==> Above(tuns[..i], id) == []
  {
    assert tuns[..i + 1][..i] == tuns[..i];
    StringsCompareFlips(tuns[i].mapping.sourceId, id);
    if StringsCompare(tuns[i].mapping.sourceId, id) < 0 {
      NoneAbove(tuns[..i + 1], id);
    }
  }

  /** Appending sorted tunnels no smaller than those there keeps the order. */
  lemma AppendSorted(a: seq<Tun>, b: seq<Tun>)
    requires SortedById(a) && SortedById(b)
    ensures (forall x, y :: x in a && y in b ==> Le(x.mapping.sourceId, y.mapping.sourceId)) ==> SortedById(a + b)
  {
  }

  /** What replaceTunnels makes of sorted tunnels. */
  lemma Spliced(tuns: seq<Tun>, id: string, own: seq<Tun>)
    requires SortedById(tuns) && AllOf(own, id)
    ensures var r := Below(tuns, id) + own + Above(tuns, id);
            SortedById(r) && Block(r, id) == own && Others(r, id) == Others(tuns, id)
  {
    var low, high := Below(tuns, id), Above(tuns, id);
    BelowAndAbove(tuns, id);
    SplicedSorted(low, own, high, id, tuns);
    StringsCompareFlips(id, id);
    BlockBetween(low, own, high, id);
  }

  predicate NotOf(tuns: seq<Tun>, id: string) {
    forall tn :: tn in tuns ==> tn.mapping.sourceId != id
  }

  lemma BlockBetween(low: seq<Tun>, own: seq<Tun>, high: seq<Tun>, id: string)
    requires AllOf(own, id)
    requires NotOf(low, id) && NotOf(high, id)
    ensures Block(low + own + high, id) == own && Others(low + own + high, id) == low + high
  {
    NoneOf(low, id);
    NoneOf(high, id);
    BlockOfOwn(own, id);
    BlockOfConcat(low, own, id);
    assert Block(low + own, id) == own && Others(low + own, id) == low;
    BlockOfConcat(low + own, high, id);
  }

  lemma SplicedSorted(low: seq<Tun>, own: seq<Tun>, high: seq<Tun>, id: string, tuns: seq<Tun>)
    requires SortedById(tuns) && Others(tuns, id) == low + high && AllOf(own, id)
    requires forall tn :: tn in low ==> StringsCompare(tn.mapping.sourceId, id) < 0
    requires forall tn :: tn in high ==> StringsCompare(tn.mapping.sourceId, id) > 0
    ensures SortedById(low + own + high)
  {
    var r := low + own + high;
    OthersSorted(tuns, id);
    StringsCompareFlips(id, id);
    forall i, j | 0 <= i < j < |r|
      ensures Le(r[i].mapping.sourceId, r[j].mapping.sourceId)
    {
      var a, b := r[i].mapping.sourceId, r[j].mapping.sourceId;
      StringsCompareFlips(a, id);
      StringsCompareFlips(b, id);
      var i', j' := if i < |low| then i else i - |own|, if j < |low| then j else j - |own|;
      if |low| <= i < |low| + |own| {
        assert r[i] in own;
        assert |low| + |own| <= j ==> r[j] in high;
        assert j < |low| + |own| ==> r[j] in own;
      } else if |low| <= j < |low| + |own| {
        assert r[j] in own && r[i] in low;
      } else {
        assert (low + high)[i'] == r[i] && (low + high)[j'] == r[j];
      }
    }
  }

  lemma {:induction false} NoneOf(tuns: seq<Tun>, id: string)
    requires NotOf(tuns, id)
    ensures Block(tuns, id) == [] && Others(tuns, id) == tuns
  {
    if tuns != [] {
      var n := |tuns| - 1;
      NoneOf(tuns[..n], id);
      assert tuns[n] in tuns;
      assert tuns == tuns[..n] + [tuns[n]];
    }
  }
}
