/** A full apply of a candidate source: its three plans in Xray, then memory
    (internal/scd/syncer/wireguard.go, full; internal/scd/syncer/syncer.go, applyPlans). */
module FullApply {
  import opened Namespaces
  import Sets
  import opened SourceRules
  import opened Selection
  import opened Decide
  import opened XrayApi
  import opened Topology
  import opened TunnelCalls
  import opened RepairCalls
  import opened ApplyScript
  import opened ApplyOutbounds
  import opened ApplyTunnels
  import opened TargetState
  import opened Slots
  import opened Plans
  import opened FailureCounts

  /** The outbounds of the plan: the tunnels' initial ones. */
  function OutboundsOf(topo: seq<Tunnel>): (r: seq<Outbound>)
    ensures |r| == |topo| && forall i :: 0 <= i < |r| ==> r[i] == OutboundOf(topo[i].outboundInitial)
  {
    seq(|topo|, i requires 0 <= i < |topo| => OutboundOf(topo[i].outboundInitial))
  }

  function InitialTags(topo: seq<Tunnel>): set<Tag> {
    set tn | tn in topo :: tn.outboundTagInitial
  }

  function InboundTagSet(topo: seq<Tunnel>): set<Tag> {
    set tn | tn in topo :: tn.inboundTag
  }

  /** Xray went from a to x by an apply of topo that succeeded: it holds nothing else of the
      source and, if it did not restart on the way, exactly that. */
  ghost predicate Applied(scope: Scope, a: Server, x: Server, topo: seq<Tunnel>) {
    && a.restarts <= x.restarts
    && Mine(scope, x) <= InitialTags(topo)
    && MineIn(scope, x) <= InboundTagSet(topo)
    && (x.restarts == a.restarts ==>
          && x.outbounds == a.outbounds - Mine(scope, a) + MapOf(OutboundsOf(topo))
          && x.inbounds == a.inbounds - MineIn(scope, a) + Listeners(topo)
          && x.rules == Outside(a.rules, scope) + RulesOf(topo))
  }

  predicate Failing(o: Outcome) {
    o.ListFailed? || o.r.failed > 0
  }

  lemma PlanTags(topo: seq<Tunnel>, ns: Namespace)
    requires AllWellFormed(topo, ns)
    ensures MapOf(OutboundsOf(topo)).Keys == InitialTags(topo)
    ensures Listeners(topo).Keys == InboundTagSet(topo)
  {
    KeysOf(OutboundsOf(topo));
    assert forall i :: 0 <= i < |topo| ==> topo[i] in topo;
    ListenerTags(topo);
  }

  lemma {:induction false} ListenerTags(topo: seq<Tunnel>)
    ensures Listeners(topo).Keys == InboundTagSet(topo)
  {
    if topo != [] {
      var n := |topo| - 1;
      ListenerTags(topo[..n]);
      assert topo == topo[..n] + [topo[n]];
    }
  }

  /** The scope is clear in a freshly booted Xray. */
  lemma BootHasNothing(c: Client, ns: Namespace)
    requires Working(c, ns)
    ensures Mine(c.session.scope, c.boot) == {} && MineIn(c.session.scope, c.boot) == {}
  {
  }

  /** The new tunnels' outbounds are prefixed, the second ones of twins are not. */
  lemma PlanIsClashless(f: Feed, tuns: seq<Tun>, topo: seq<Tunnel>)
    requires f.Valid() && Ported(f, tuns) && AllWellFormed(topo, f.ns)
    ensures Clashless(TwinsOf(tuns), f.Scope(), OutboundsOf(topo))
    ensures forall h :: h in OutboundsOf(topo) ==> f.ns.Owns(KindOutbound, h.tag)
  {
    forall h | h in OutboundsOf(topo)
      ensures f.ns.Owns(KindOutbound, h.tag) && exists i :: 0 <= i < |topo| && h.tag == f.ns.obsPrefix + topo[i].baseTunnelId
    {
      var i :| 0 <= i < |topo| && OutboundsOf(topo)[i] == h;
      assert topo[i] in topo;
      TunnelTagsCovered(topo[i], f.t, f.ns);
    }
    forall p | p in TwinsOf(tuns)
      ensures p.0 != p.1 && f.Scope().Covers(KindOutbound, p.0) && f.Scope().Covers(KindOutbound, p.1)
      ensures f.ns.obsPrefix != "" && HasPrefix(p.1, f.ns.Stem())
    {
      var tn :| tn in tuns && p in Twins(tn.mapping);
      PairTagsOwned(f, tn.mapping);
      assert f.ns.obsPrefix == "" ==> f.ns.obsPrefix + tn.mapping.baseTunnelId == tn.mapping.baseTunnelId;
    }
  }

  method ApplyOutboundPlan(c: Client, ghost f: Feed, ns: Namespace, topo: seq<Tunnel>, limit: nat)
    returns (failed: bool, ghost rolled: nat, ghost met: bool, ghost mid: nat)
    requires Working(c, ns) && AllWellFormed(topo, ns) && Clashless(c.session.apart, c.session.scope, OutboundsOf(topo))
    requires forall h :: h in OutboundsOf(topo) ==> ns.Owns(KindOutbound, h.tag)
    modifies c
    ensures Working(c, ns) && c.Kept()
    ensures !failed ==> Mine(c.session.scope, c.x) <= InitialTags(topo)
    ensures !failed && c.x.restarts == old(c.x.restarts) ==>
              c.x == old(c.x).(outbounds := old(c.x.outbounds) - Mine(c.session.scope, old(c.x)) + MapOf(OutboundsOf(topo)))
    ensures !met ==> c.Moved()
    ensures met ==>
              && failed && limit != 1 && !(c.lost == old(c.lost) && rolled == 0)
              && Meetable(old(c.session.apart), old(c.x), OutboundsOf(topo))
              && NeverBoth(c.trace, old(c.session.from), mid, old(c.session.apart)) && |old(c.trace)| <= mid <= |c.trace|
  {
    PlanTags(topo, ns);
    var o;
    o, rolled, met, mid := Outbounds(c, ns, OutboundsOf(topo), limit);
    failed := Failing(o);
  }

  /** The inbound and routing plans; the second is applied even if the first failed. */
  method ApplyTunnelPlans(c: Client, ns: Namespace, topo: seq<Tunnel>) returns (failed: bool)
    requires Working(c, ns) && AllWellFormed(topo, ns)
    modifies c
    ensures Working(c, ns) && c.Moved()
    ensures c.x.outbounds == Base(c.boot, old(c.x), c.x).outbounds
    ensures !failed ==> MineIn(c.session.scope, c.x) <= InboundTagSet(topo)
    ensures !failed && c.x.restarts == old(c.x.restarts) ==>
              && c.x.inbounds == old(c.x.inbounds) - MineIn(c.session.scope, old(c.x)) + Listeners(topo)
              && c.x.rules == Outside(old(c.x.rules), c.session.scope) + RulesOf(topo)
  {
    PlanTags(topo, ns);
    BootHasNothing(c, ns);
    var o := Inbounds(c, ns, topo);
    failed := Failing(o);
    o := Routing(c, ns, topo);
    failed := failed || Failing(o);
  }

  /** applyPlans: every plan is applied, also after a failed one. */
  method ApplyPlans(c: Client, ghost f: Feed, ns: Namespace, topo: seq<Tunnel>, limit: nat)
    returns (failed: bool, ghost rolled: nat, ghost met: bool, ghost mid: nat)
    requires Working(c, ns) && AllWellFormed(topo, ns) && Clashless(c.session.apart, c.session.scope, OutboundsOf(topo))
    requires forall h :: h in OutboundsOf(topo) ==> ns.Owns(KindOutbound, h.tag)
    modifies c
    ensures Working(c, ns) && c.Kept()
    ensures !failed ==> Applied(c.session.scope, old(c.x), c.x, topo)
    ensures !met ==> c.Moved()
    ensures met ==>
              && failed && limit != 1 && !(c.lost == old(c.lost) && rolled == 0)
              && Meetable(old(c.session.apart), old(c.x), OutboundsOf(topo))
              && NeverBoth(c.trace, old(c.session.from), mid, old(c.session.apart)) && |old(c.trace)| <= mid <= |c.trace|
  {
    BootHasNothing(c, ns);
    failed, rolled, met, mid := ApplyOutboundPlan(c, f, ns, topo, limit);
    var more := ApplyTunnelPlans(c, ns, topo);
    failed := failed || more;
  }

  // ---- in memory

  /** pruneNoReplacement: the tags that are active, and as many others as there are empty slots. */
  method PruneNoReplacement(noRep: set<Tag>, active: set<Tag>, empty: nat) returns (r: set<Tag>)
    ensures r <= noRep && noRep * active <= r
    ensures |r - active| <= empty && (r == noRep || |r - active| == empty)
  {
    r := noRep;
    var rest, left := noRep, empty;
    ghost var done: set<Tag> := {};
    while rest != {}
      invariant rest <= r <= noRep && done <= r && done !! active && done !! rest && |done| + left == empty
      invariant forall tag :: tag in noRep && tag in active ==> tag in r
      invariant forall tag :: tag in r && tag !in active ==> tag in done || tag in rest
      invariant r == noRep || left == 0
      decreases rest
    {
      var tag :| tag in rest;
      rest := rest - {tag};
      if tag !in active {
        if left > 0 {
          left, done := left - 1, done + {tag};
        } else {
          r := r - {tag};
        }
      }
    }
    assert r - active == done;
  }

  lemma {:induction false} FewBases(tuns: seq<Tun>)
    ensures |Bases(tuns)| <= |tuns|
  {
    if tuns != [] {
      var n := |tuns| - 1;
      FewBases(tuns[..n]);
      assert tuns == tuns[..n] + [tuns[n]];
      assert Bases(tuns) == Bases(tuns[..n]) + {tuns[n].mapping.baseTunnelId};
    }
  }

  /** Forgetting all tunnels keeps the number of slots. */
  lemma DroppedConserved(f: Feed, tuns: seq<Tun>, noRep: set<Tag>)
    requires Conserved(f, tuns, noRep)
    ensures Conserved(f, [], noRep)
  {
    FewBases(tuns);
    assert noRep == (noRep - Bases(tuns)) + noRep * Bases(tuns);
    Sets.SubsetSize(noRep * Bases(tuns), Bases(tuns));
    assert noRep - Bases([]) == noRep;
  }

  lemma InstalledTuns(f: Feed, file: seq<Entry>, topo: seq<Tunnel>, tuns: seq<Tun>)
    requires f.Valid() && FileOk(f, file) && Slotted(f, file, topo) && Installed(tuns, OwnTunnels(topo, f.ns.sourceId))
    ensures AllWellFormed(topo, f.ns) && |tuns| == |topo|
    ensures forall i :: 0 <= i < |tuns| ==> tuns[i].mapping == topo[i]
    ensures Ported(f, tuns) && Keyed(f, tuns, file)
  {
    forall i | 0 <= i < |topo|
      ensures WellFormed(topo[i], f.ns) && topo[i].sourceId == f.ns.sourceId && InFile(file, topo[i].baseTunnelId)
    {
      assert topo[i].port == f.start + i;
      var e :| e in file && topo[i] == f.TunnelOf(e, f.start + i);
    }
    InSlots(f, file, topo, tuns);
  }

  lemma InSlots(f: Feed, file: seq<Entry>, topo: seq<Tunnel>, tuns: seq<Tun>)
    requires |tuns| == |topo| <= f.maxActive && forall i :: 0 <= i < |tuns| ==> tuns[i].mapping == topo[i]
    requires forall i :: 0 <= i < |topo| ==>
               WellFormed(topo[i], f.ns) && InFile(file, topo[i].baseTunnelId) && topo[i].port == f.start + i
    requires forall i, j :: 0 <= i < j < |topo| ==> f.keyOf(topo[i].baseTunnelId) != f.keyOf(topo[j].baseTunnelId)
    ensures Ported(f, tuns) && Keyed(f, tuns, file)
  {
    forall a, b | a in tuns && b in tuns && a != b
      ensures a.mapping.port != b.mapping.port && f.keyOf(a.mapping.baseTunnelId) != f.keyOf(b.mapping.baseTunnelId)
    {
      var i :| 0 <= i < |tuns| && tuns[i] == a;
      var j :| 0 <= j < |tuns| && tuns[j] == b;
      assert topo[i].port == f.start + i && topo[j].port == f.start + j;
      assert if i < j then f.keyOf(topo[i].baseTunnelId) != f.keyOf(topo[j].baseTunnelId)
             else f.keyOf(topo[j].baseTunnelId) != f.keyOf(topo[i].baseTunnelId);
    }
  }

  lemma AppliedMirrored(f: Feed, a: Server, x: Server, topo: seq<Tunnel>, tuns: seq<Tun>)
    requires f.Valid() && AllWellFormed(topo, f.ns) && |tuns| == |topo| && forall i :: 0 <= i < |tuns| ==> tuns[i].mapping == topo[i]
    requires Applied(f.Scope(), a, x, topo)
    ensures Mirrored(f, tuns, x, a.restarts)
  {
    forall tag | tag in Owned(f.t, f.ns, x)
      ensures Runs(tuns, tag)
    {
      assert tag in Mine(f.Scope(), x);
      var i :| 0 <= i < |topo| && topo[i].outboundTagInitial == tag;
      assert tuns[i] in tuns;
    }
    forall tag | tag in MineIn(f.Scope(), x)
      ensures Listens(tuns, tag)
    {
      var i :| 0 <= i < |topo| && topo[i].inboundTag == tag;
      assert tuns[i] in tuns;
    }
    if x.restarts == a.restarts {
      ListenerTags(topo);
      forall tn | tn in tuns
        ensures tn.mapping.inboundTag in x.inbounds
      {
        var i :| 0 <= i < |tuns| && tuns[i] == tn;
        assert topo[i] in topo;
      }
    }
  }

  lemma AppliedSingle(f: Feed, a: Server, x: Server, topo: seq<Tunnel>, tuns: seq<Tun>)
    requires f.Valid() && AllWellFormed(topo, f.ns) && |tuns| == |topo| && forall i :: 0 <= i < |tuns| ==> tuns[i].mapping == topo[i]
    requires Applied(f.Scope(), a, x, topo)
    ensures Apart(TwinsOf(tuns), x)
  {
    forall p | p in TwinsOf(tuns)
      ensures p.1 !in x.outbounds
    {
      var tn :| tn in tuns && p in Twins(tn.mapping);
      var i :| 0 <= i < |tuns| && tuns[i] == tn;
      assert topo[i] in topo;
      PairTagsOwned(f, topo[i]);
      assert f.ns.obsPrefix == "" ==> f.ns.obsPrefix + tn.mapping.baseTunnelId == tn.mapping.baseTunnelId;
      assert p.1 !in InitialTags(topo);
      assert p.1 in x.outbounds ==> p.1 in Mine(f.Scope(), x);
    }
  }

  /** A successful full apply leaves the source sound. */
  lemma AppliedSound(f: Feed, a: Server, x: Server, file: seq<Entry>, topo: seq<Tunnel>, st: SourceState, tuns: seq<Tun>)
    requires f.Valid() && FileOk(f, file) && Slotted(f, file, topo) && Applied(f.Scope(), a, x, topo)
    requires Installed(tuns, OwnTunnels(topo, f.ns.sourceId))
    requires FileOk(f, st.candidates) && |st.noReplacement - Bases(tuns)| <= f.maxActive - |topo|
    ensures Sound(f, x, a.restarts, st, tuns) && Keyed(f, tuns, file)
  {
    InstalledTuns(f, file, topo, tuns);
    AppliedMirrored(f, a, x, topo, tuns);
    AppliedSingle(f, a, x, topo, tuns);
  }

  /** The hashes saved after a full apply: one for each kind. */
  function HashesOf(topo: seq<Tunnel>): (r: map<Kind, Hash>)
    ensures r != map[]
  {
    var r := map[KindOutbound := Hash(KindOutbound, topo), KindInbound := Hash(KindInbound, topo), KindRouting := Hash(KindRouting, topo)];
    assert KindRouting in r;
    r
  }

  /** The source and its tunnels, if it has any state, are sound. */
  ghost predicate SoundIfKnown(tg: TargetState.Target, f: Feed, x: Server, full: nat)
    reads tg
  {
    f.ns.sourceId in tg.sources ==> Sound(f, x, full, tg.sources[f.ns.sourceId], Block(tg.tunnels, f.ns.sourceId))
  }

  /** A source whose tunnels were dropped is sound whatever Xray holds. */
  lemma DroppedSound(f: Feed, x: Server, full: nat, st: SourceState, tuns: seq<Tun>)
    requires Conserved(f, tuns, st.noReplacement) && FileOk(f, st.candidates) && st.hashes == map[]
    ensures Sound(f, x, full, st, [])
  {
    DroppedConserved(f, tuns, st.noReplacement);
  }

  /** Memory after a failed full apply. */
  method FinishFailed(tg: TargetState.Target, ghost f: Feed, ghost a: Server, ghost x: Server, ghost full: nat, id: string,
                      file: seq<Entry>, sel: SelectionState)
    requires tg.Valid() && id == f.ns.sourceId && FileOk(f, file) && SoundIfKnown(tg, f, a, full)
    modifies tg
    ensures tg.Valid() && tg.OthersKept(id) && SoundIfKnown(tg, f, x, full)
    ensures id !in old(tg.sources) ==> tg.sources == old(tg.sources) && tg.tunnels == old(tg.tunnels)
    ensures id in old(tg.sources) ==>
              && id in tg.sources && Block(tg.tunnels, id) == []
              && tg.sources[id] == old(tg.sources)[id].(topology := [], hashes := map[], selection := sel, candidates := file)
  {
    if id in tg.sources {
      ghost var tuns, st := Block(tg.tunnels, id), tg.sources[id];
      tg.DropSourceTunnels(id);
      tg.UpdateSource(id, tg.sources[id].(selection := sel, candidates := file));
      DroppedSound(f, x, full, tg.sources[id], tuns);
    }
  }

  /** Memory after a full apply that succeeded. */
  method FinishApplied(tg: TargetState.Target, ghost f: Feed, ghost a: Server, ghost x: Server, id: string, maxActive: nat,
                       topo: seq<Tunnel>, ghost source: seq<Entry>, configHash: string, file: seq<Entry>, sel: SelectionState)
    requires tg.Valid() && f.Valid() && id == f.ns.sourceId && maxActive == f.maxActive
    requires FileOk(f, file) && FileOk(f, source) && Slotted(f, source, topo) && Applied(f.Scope(), a, x, topo)
    modifies tg
    ensures tg.Valid() && tg.OthersKept(id) && id in tg.sources
    ensures Sound(f, x, a.restarts, tg.sources[id], Block(tg.tunnels, id)) && Keyed(f, Block(tg.tunnels, id), source)
    ensures tg.sources[id].hashes == HashesOf(topo) && tg.sources[id].configHash == configHash
    ensures tg.sources[id].selection == sel && tg.sources[id].candidates == file
    ensures Installed(Block(tg.tunnels, id), topo)
    ensures id in old(tg.sources) ==> tg.sources[id].noReplacement <= old(tg.sources)[id].noReplacement
  {
    SlottedOwn(f, source, topo);
    SlottedIds(f, source, topo);
    tg.ReplaceSourceTopology(id, topo, HashesOf(topo));
    InstalledBases(Block(tg.tunnels, id), topo);
    FinishSource(tg, id, maxActive, topo, configHash, file, sel);
    AppliedSound(f, a, x, source, topo, tg.sources[id], Block(tg.tunnels, id));
  }

  /** The fields of a source that a full apply updates last. */
  method FinishSource(tg: TargetState.Target, id: string, maxActive: nat, topo: seq<Tunnel>, configHash: string, file: seq<Entry>,
                      sel: SelectionState)
    requires tg.Valid() && id in tg.sources && |topo| <= maxActive
    modifies tg`sources
    ensures tg.Valid() && tg.OthersKept(id) && id in tg.sources
    ensures tg.sources[id] == old(tg.sources)[id].(noReplacement := tg.sources[id].noReplacement, configHash := configHash,
                                                   selection := sel, candidates := file)
    ensures tg.sources[id].noReplacement <= old(tg.sources)[id].noReplacement
    ensures |tg.sources[id].noReplacement - set tn | tn in topo :: tn.baseTunnelId| <= maxActive - |topo|
  {
    var active := set tn | tn in topo :: tn.baseTunnelId;
    var nr := PruneNoReplacement(tg.sources[id].noReplacement, active, maxActive - |topo|);
    tg.UpdateSource(id, tg.sources[id].(noReplacement := nr, configHash := configHash, selection := sel, candidates := file));
  }

  lemma SlottedOwn(f: Feed, file: seq<Entry>, topo: seq<Tunnel>)
    requires Slotted(f, file, topo)
    ensures OwnTunnels(topo, f.ns.sourceId) == topo
  {
    forall i | 0 <= i < |topo|
      ensures topo[i].sourceId == f.ns.sourceId
    {
      assert topo[i].port == f.start + i;
      var e :| e in file && topo[i] == f.TunnelOf(e, f.start + i);
    }
  }

  lemma InstalledBases(tuns: seq<Tun>, topo: seq<Tunnel>)
    requires Installed(tuns, topo)
    ensures Bases(tuns) == set tn | tn in topo :: tn.baseTunnelId
  {
    forall i | 0 <= i < |tuns|
      ensures tuns[i] in tuns && topo[i] in topo && tuns[i].mapping == topo[i]
    {
    }
  }

  /** No tunnel of tuns has had both its outbounds since, up to state mid; to the end if they did
      not meet. */
  twostate predicate Parted(c: Client, tuns: seq<Tun>, met: bool, mid: nat)
    reads c
  {
    && |old(c.trace)| <= mid <= |c.trace| && (!met ==> mid == |c.trace|)
    && NeverBoth(c.trace, |old(c.trace)|, mid, TwinsOf(tuns))
  }

  /** A tunnel that runs on its bare outbound is applied again on its prefixed one. */
  ghost predicate Repicked(tuns: seq<Tun>, a: Server, topo: seq<Tunnel>) {
    exists tn, next ::
      && tn in tuns && next in topo && next.outboundTagInitial == tn.mapping.outboundTagInitial != tn.mapping.baseTunnelId
      && tn.mapping.baseTunnelId in a.outbounds
  }

  lemma MeetableRepicked(tuns: seq<Tun>, a: Server, topo: seq<Tunnel>, ns: Namespace)
    requires Meetable(TwinsOf(tuns), a, OutboundsOf(topo)) && AllWellFormed(topo, ns)
    ensures Repicked(tuns, a, topo)
  {
    var p :| p in TwinsOf(tuns) && p.1 in a.outbounds && p.0 in Tags(OutboundsOf(topo));
    var tn :| tn in tuns && p in Twins(tn.mapping);
    var i :| 0 <= i < |topo| && Tags(OutboundsOf(topo))[i] == p.0;
    assert topo[i] in topo;
  }

  /** The session of a full apply of topo in place of tuns. No tunnel of tuns ever has both its
      outbounds, unless a call of the rollback failed or an answer was lost, the limit is not one
      and a tunnel on its bare outbound was applied again; then up to the restore. */
  method XApply(c: Client, ghost f: Feed, ns: Namespace, topo: seq<Tunnel>, limit: nat, ghost tuns: seq<Tun>)
    returns (failed: bool, ghost rolled: nat, ghost met: bool, ghost mid: nat)
    requires Open(c, f) && ns == f.ns && AllWellFormed(topo, ns) && Ported(f, tuns) && Apart(TwinsOf(tuns), c.x)
    modifies c
    ensures Open(c, f) && old(c.trace) <= c.trace && Within(f, c.boot, old(c.x), c.x)
    ensures !failed ==> Applied(f.Scope(), old(c.x), c.x, topo)
    ensures Parted(c, tuns, met, mid)
    ensures met ==> failed && limit != 1 && !(c.lost == old(c.lost) && rolled == 0) && Repicked(tuns, old(c.x), topo)
  {
    BeginSlot(c, f, tuns, {});
    assert TwinsOf(tuns) + {} == TwinsOf(tuns);
    PlanIsClashless(f, tuns, topo);
    failed, rolled, met, mid := ApplyPlans(c, f, ns, topo, limit);
    if met {
      MeetableRepicked(tuns, old(c.x), topo, ns);
    } else {
      mid := |c.trace|;
      SessionNeverBoth(c, TwinsOf(tuns));
    }
  }

  /** The tunnels run the best ranked candidates of the file outside quarantine, slot i on the i-th
      port of the range. */
  ghost predicate RunsBest(f: Feed, file: seq<Entry>, strategy: Strategy, quarantine: map<PairKey, Time>, now: Time, active: set<Tag>,
                           tuns: seq<Tun>) {
    exists picked :: BestOf(file, strategy, quarantine, now, active, f.maxActive, picked) && RunsOn(f, picked, tuns)
  }

  /** A tunnel that runs on its bare outbound may be picked again. */
  ghost predicate MayBeRepicked(f: Feed, file: seq<Entry>, quarantine: map<PairKey, Time>, now: Time, a: Server, tuns: seq<Tun>) {
    && f.ns.obsPrefix != "" && f.maxActive != 1
    && exists tn, e ::
         && tn in tuns && tn.mapping.baseTunnelId in a.outbounds
         && e in file && e.candidate.tag == tn.mapping.baseTunnelId && IsEligible(quarantine, now, e)
  }

  lemma RepickedMay(f: Feed, file: seq<Entry>, strategy: Strategy, quarantine: map<PairKey, Time>, now: Time, active: set<Tag>,
                    picked: seq<Entry>, topo: seq<Tunnel>, a: Server, tuns: seq<Tun>)
    requires BestOf(file, strategy, quarantine, now, active, f.maxActive, picked) && Ported(f, tuns)
    requires |topo| == |picked| && forall i :: 0 <= i < |topo| ==> topo[i] == f.TunnelOf(picked[i], f.start + i)
    requires Repicked(tuns, a, topo) && f.maxActive != 1 && f.Valid()
    ensures MayBeRepicked(f, file, quarantine, now, a, tuns)
  {
    BestAreMaximal(file, strategy, quarantine, now, active, f.maxActive, picked);
    var tn, next :|
      && tn in tuns && next in topo && next.outboundTagInitial == tn.mapping.outboundTagInitial != tn.mapping.baseTunnelId
      && tn.mapping.baseTunnelId in a.outbounds;
    var i :| 0 <= i < |topo| && topo[i] == next;
    assert picked[i] in picked;
    PrefixCancels(f.ns.obsPrefix, picked[i].candidate.tag, tn.mapping.baseTunnelId);
    assert f.ns.obsPrefix == "" ==> f.ns.obsPrefix + tn.mapping.baseTunnelId == tn.mapping.baseTunnelId;
  }

  /** full: the source is applied with the best candidates outside quarantine. A failure leaves it
      without tunnels and hashes. The twins of its tunnels stay apart as XApply says. */
  method Full(c: Client, tg: TargetState.Target, f: Feed, ghost full: nat, file: seq<Entry>, ranked: seq<Entry>, strategy: Strategy,
              configHash: string, sel: SelectionState, active: set<Tag>, now: Time, ghost tuns: seq<Tun>)
    returns (failed: bool, ghost rolled: nat, ghost met: bool, ghost mid: nat)
    requires Open(c, f) && tg.Valid() && SoundIfKnown(tg, f, c.x, full) && tuns == Block(tg.tunnels, f.ns.sourceId)
    requires FileOk(f, file) && FileOk(f, ranked) && forall e :: e in file ==> e in ranked
    modifies c, tg
    ensures Open(c, f) && old(c.trace) <= c.trace && Within(f, c.boot, old(c.x), c.x) && tg.Valid() && tg.OthersKept(f.ns.sourceId)
    ensures SoundIfKnown(tg, f, c.x, if failed then full else old(c.x.restarts))
    ensures Remembered(tg, f, ranked, sel, failed)
    ensures !failed ==> RunsBest(f, file, strategy, sel.quarantine, now, active, Block(tg.tunnels, f.ns.sourceId))
    ensures Parted(c, tuns, met, mid)
    ensures met ==> failed && !(c.lost == old(c.lost) && rolled == 0) && MayBeRepicked(f, file, sel.quarantine, now, old(c.x), tuns)
  {
    var topo;
    ghost var source, picked;
    ghost var a := c.x;
    BlockOfUnknown(tg, f.ns.sourceId);
    failed, topo, source, picked, rolled, met, mid := XFull(c, f, file, strategy, sel.quarantine, active, now, tuns);
    FinishFull(tg, f, a, c.x, full, failed, topo, source, configHash, ranked, sel);
    if !failed {
      InstalledRunsBest(f, file, strategy, sel.quarantine, now, active, picked, topo, Block(tg.tunnels, f.ns.sourceId));
    }
  }

  lemma InstalledRunsBest(f: Feed, file: seq<Entry>, strategy: Strategy, quarantine: map<PairKey, Time>, now: Time, active: set<Tag>,
                          picked: seq<Entry>, topo: seq<Tunnel>, tuns: seq<Tun>)
    requires BestOf(file, strategy, quarantine, now, active, f.maxActive, picked) && Installed(tuns, topo)
    requires |topo| == |picked| && forall i :: 0 <= i < |topo| ==> topo[i] == f.TunnelOf(picked[i], f.start + i)
    ensures RunsBest(f, file, strategy, quarantine, now, active, tuns)
  {
    assert RunsOn(f, picked, tuns);
  }

  /** The part of a full apply in Xray. */
  method XFull(c: Client, f: Feed, file: seq<Entry>, strategy: Strategy, quarantine: map<PairKey, Time>, active: set<Tag>, now: Time,
               ghost tuns: seq<Tun>)
    returns (failed: bool, topo: seq<Tunnel>, ghost source: seq<Entry>, ghost picked: seq<Entry>, ghost rolled: nat, ghost met: bool, ghost mid: nat)
    requires Open(c, f) && FileOk(f, file) && Ported(f, tuns) && Apart(TwinsOf(tuns), c.x)
    modifies c
    ensures Open(c, f) && old(c.trace) <= c.trace && Within(f, c.boot, old(c.x), c.x)
    ensures BestOf(file, strategy, quarantine, now, active, f.maxActive, picked)
    ensures |topo| == |picked| && forall i :: 0 <= i < |topo| ==> topo[i] == f.TunnelOf(picked[i], f.start + i)
    ensures FileOk(f, source) && Slotted(f, source, topo) && forall e :: e in source ==> e in file
    ensures !failed ==> Applied(f.Scope(), old(c.x), c.x, topo)
    ensures Parted(c, tuns, met, mid)
    ensures met ==> failed && !(c.lost == old(c.lost) && rolled == 0) && MayBeRepicked(f, file, quarantine, now, old(c.x), tuns)
  {
    ghost var a := c.x;
    topo, source, picked := PlanFull(f, file, strategy, quarantine, active, now);
    failed, rolled, met, mid := XApply(c, f, f.ns, topo, f.maxActive, tuns);
    if met {
      RepickedMay(f, file, strategy, quarantine, now, active, picked, topo, a, tuns);
    }
  }

  /** A source without state has no tunnels. */
  lemma BlockOfUnknown(tg: TargetState.Target, id: string)
    requires tg.Valid()
    ensures id !in tg.sources ==> Block(tg.tunnels, id) == []
  {
    Members(tg.tunnels, id);
    if Block(tg.tunnels, id) != [] {
      assert Block(tg.tunnels, id)[0] in Block(tg.tunnels, id);
    }
  }

  /** The plan of a full apply: the best ranked candidates outside quarantine, one for each key. */
  method PlanFull(f: Feed, file: seq<Entry>, strategy: Strategy, quarantine: map<PairKey, Time>, active: set<Tag>, now: Time)
    returns (topo: seq<Tunnel>, ghost source: seq<Entry>, ghost picked: seq<Entry>)
    requires f.Valid() && FileOk(f, file)
    ensures BestOf(file, strategy, quarantine, now, active, f.maxActive, picked)
    ensures |topo| == |picked| && forall i :: 0 <= i < |topo| ==> topo[i] == f.TunnelOf(picked[i], f.start + i)
    ensures FileOk(f, source) && Slotted(f, source, topo) && AllWellFormed(topo, f.ns) && forall e :: e in source ==> e in file
  {
    var entries, kept := Eligible(file, quarantine, now, active);
    source := entries;
    topo, picked := BuildTopology(f, entries, strategy);
    SlottedWellFormed(f, source, topo);
  }

  /** Memory after a full apply: the file, the selection (with its counters) and, if it worked, a
      topology with hashes; a failure leaves a known source without tunnels. */
  twostate predicate Remembered(tg: TargetState.Target, f: Feed, ranked: seq<Entry>, sel: SelectionState, failed: bool)
    reads tg
  {
    var id := f.ns.sourceId;
    && NoMoreFailures(old(Block(tg.tunnels, id)), Block(tg.tunnels, id))
    && (!failed ==> KnownWith(tg, f, ranked, sel) && tg.sources[id].hashes != map[])
    && (failed && id in old(tg.sources) ==> KnownWith(tg, f, ranked, sel) && Block(tg.tunnels, id) == [] && tg.sources[id].hashes == map[])
    && (failed && id !in old(tg.sources) ==> tg.sources == old(tg.sources) && tg.tunnels == old(tg.tunnels))
  }

  /** Memory after a full apply. */
  method FinishFull(tg: TargetState.Target, f: Feed, ghost a: Server, ghost x: Server, ghost full: nat, failed: bool,
                    topo: seq<Tunnel>, ghost source: seq<Entry>, configHash: string, ranked: seq<Entry>, sel: SelectionState)
    requires f.Valid() && tg.Valid() && SoundIfKnown(tg, f, a, full)
    requires FileOk(f, ranked) && FileOk(f, source) && Slotted(f, source, topo) && forall e :: e in source ==> e in ranked
    requires !failed ==> Applied(f.Scope(), a, x, topo)
    modifies tg
    ensures tg.Valid() && tg.OthersKept(f.ns.sourceId)
    ensures SoundIfKnown(tg, f, x, if failed then full else a.restarts)
    ensures Remembered(tg, f, ranked, sel, failed) && (!failed ==> Installed(Block(tg.tunnels, f.ns.sourceId), topo))
  {
    ghost var tuns := Block(tg.tunnels, f.ns.sourceId);
    if failed {
      FinishFailed(tg, f, a, x, full, f.ns.sourceId, ranked, sel);
    } else {
      FinishApplied(tg, f, a, x, f.ns.sourceId, f.maxActive, topo, source, configHash, ranked, sel);
      InstalledCounts(tuns, Block(tg.tunnels, f.ns.sourceId), topo);
      KeyedWithin(f, Block(tg.tunnels, f.ns.sourceId), source, ranked);
    }
  }

  /** Slot i runs entry i. */
  predicate RunsOn(f: Feed, picked: seq<Entry>, tuns: seq<Tun>) {
    |tuns| == |picked| && forall i :: 0 <= i < |tuns| ==> tuns[i].mapping == f.TunnelOf(picked[i], f.start + i)
  }

  /** The source is known, with its tunnels in the file. */
  ghost predicate KnownWith(tg: TargetState.Target, f: Feed, file: seq<Entry>, sel: SelectionState)
    reads tg
  {
    && f.ns.sourceId in tg.sources
    && tg.sources[f.ns.sourceId].candidates == file && tg.sources[f.ns.sourceId].selection == sel
    && Keyed(f, Block(tg.tunnels, f.ns.sourceId), file)
  }

  lemma KeyedWithin(f: Feed, tuns: seq<Tun>, source: seq<Entry>, file: seq<Entry>)
    requires Keyed(f, tuns, source) && forall e :: e in source ==> e in file
    ensures Keyed(f, tuns, file)
  {
  }

  lemma SlottedWellFormed(f: Feed, file: seq<Entry>, topo: seq<Tunnel>)
    requires f.Valid() && FileOk(f, file) && Slotted(f, file, topo)
    ensures AllWellFormed(topo, f.ns)
  {
    forall i | 0 <= i < |topo|
      ensures WellFormed(topo[i], f.ns)
    {
      assert topo[i].port == f.start + i;
      var e :| e in file && topo[i] == f.TunnelOf(e, f.start + i);
    }
  }
}
