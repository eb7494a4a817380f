/** Repair and rejoin of a tunnel of a candidate source, in Xray and in memory
    (internal/scd/monitor/repair.go). */
module Repairs {
  import opened Namespaces
  import opened SourceRules
  import opened XrayApi
  import opened Topology
  import opened TunnelCalls
  import opened RepairCalls
  import opened ApplyTunnels
  import opened TargetState
  import opened Slots
  import opened FailureCounts

  /** The tunnels with the given base tag (Updated changes them). */
  predicate Named(tn: Tun, tag: Tag) {
    tn.mapping.baseTunnelId == tag
  }

  method Find(tuns: seq<Tun>, tag: Tag) returns (found: bool, tn: Tun)
    requires tuns != []
    ensures found <==> tag in Bases(tuns)
    ensures found ==> tn in tuns && tn.mapping.baseTunnelId == tag
  {
    for i := 0 to |tuns|
      invariant forall j :: 0 <= j < i ==> tuns[j].mapping.baseTunnelId != tag
    {
      if tuns[i].mapping.baseTunnelId == tag {
        return true, tuns[i];
      }
    }
    return false, tuns[0];
  }

  /** Tunnels of one source with one base tag are the same. */
  lemma SameTun(tg: TargetState.Target, id: string, a: Tun, b: Tun)
    requires tg.Valid() && id in tg.sources
    requires a in Block(tg.tunnels, id) && b in Block(tg.tunnels, id) && a.mapping.baseTunnelId == b.mapping.baseTunnelId
    ensures a == b
  {
    SameSeat(Block(tg.tunnels, id), tg.sources[id].topology, id, a, b);
  }

  /** Moving a tunnel to another of its outbounds changes nothing that Sound speaks of. */
  lemma UpdatedSound(f: Feed, x: Server, full: nat, st: SourceState, tuns: seq<Tun>, tag: Tag, current: Tag, monitor: Monitor)
    requires Sound(f, x, full, st, tuns) && AllOf(tuns, f.ns.sourceId)
    requires forall tn :: tn in tuns && Named(tn, tag) ==> current in Pair(tn.mapping)
    ensures Sound(f, x, full, st, Updated(tuns, f.ns.sourceId, tag, current, monitor))
    ensures Bases(Updated(tuns, f.ns.sourceId, tag, current, monitor)) == Bases(tuns)
    ensures TwinsOf(Updated(tuns, f.ns.sourceId, tag, current, monitor)) == TwinsOf(tuns)
  {
    var tuns' := Updated(tuns, f.ns.sourceId, tag, current, monitor);
    UpdatedAlike(f, tuns, tag, current, monitor);
    AlikeTags(tuns, tuns');
    if st.hashes != map[] {
      UpdatedMirrored(f, x, full, tuns, tuns');
    }
  }

  lemma AlikeTags(tuns: seq<Tun>, tuns': seq<Tun>)
    requires AllAlike(tuns, tuns')
    ensures Bases(tuns') == Bases(tuns) && TwinsOf(tuns') == TwinsOf(tuns)
  {
    AlikeWithin(tuns, tuns');
    AlikeWithin(tuns', tuns);
  }

  lemma AlikeWithin(tuns: seq<Tun>, tuns': seq<Tun>)
    requires AllAlike(tuns, tuns') || AllAlike(tuns', tuns)
    ensures Bases(tuns) <= Bases(tuns') && TwinsOf(tuns) <= TwinsOf(tuns')
  {
    forall tn | tn in tuns
      ensures tn.mapping.baseTunnelId in Bases(tuns') && Twins(tn.mapping) <= TwinsOf(tuns')
    {
      var k :| 0 <= k < |tuns| && tuns[k] == tn;
      assert tuns'[k] in tuns' && Twins(tuns'[k].mapping) == Twins(tn.mapping);
    }
  }

  /** b is a on any of its outbounds. */
  predicate Alike(a: Tun, b: Tun) {
    b.mapping == a.mapping.(outboundTagCurrent := b.mapping.outboundTagCurrent)
  }

  predicate AllAlike(tuns: seq<Tun>, tuns': seq<Tun>) {
    |tuns'| == |tuns| && forall k :: 0 <= k < |tuns| ==> Alike(tuns[k], tuns'[k])
  }

  lemma UpdatedAlike(f: Feed, tuns: seq<Tun>, tag: Tag, current: Tag, monitor: Monitor)
    requires Ported(f, tuns) && AllOf(tuns, f.ns.sourceId)
    requires forall tn :: tn in tuns && Named(tn, tag) ==> current in Pair(tn.mapping)
    ensures var tuns' := Updated(tuns, f.ns.sourceId, tag, current, monitor);
            Ported(f, tuns') && AllAlike(tuns, tuns')
  {
    var tuns' := Updated(tuns, f.ns.sourceId, tag, current, monitor);
    forall tn | tn in tuns'
      ensures (exists was :: was in tuns && Alike(was, tn)) && WellFormed(tn.mapping, f.ns)
    {
      var k :| 0 <= k < |tuns'| && tuns'[k] == tn;
      assert tuns[k] in tuns && Alike(tuns[k], tn);
      assert tn.mapping.outboundTagCurrent == tuns[k].mapping.outboundTagCurrent || Named(tuns[k], tag);
    }
  }

  lemma UpdatedMirrored(f: Feed, x: Server, full: nat, tuns: seq<Tun>, tuns': seq<Tun>)
    requires Mirrored(f, tuns, x, full) && AllAlike(tuns, tuns')
    ensures Mirrored(f, tuns', x, full)
  {
    forall tag | tag in Owned(f.t, f.ns, x)
      ensures Runs(tuns', tag)
    {
      var tn :| tn in tuns && tag in Pair(tn.mapping);
      var k :| 0 <= k < |tuns| && tuns[k] == tn;
      assert tuns'[k] in tuns' && Alike(tn, tuns'[k]);
    }
    forall tag | tag in MineIn(f.Scope(), x)
      ensures Listens(tuns', tag)
    {
      var tn :| tn in tuns && tag == tn.mapping.inboundTag;
      var k :| 0 <= k < |tuns| && tuns[k] == tn;
      assert tuns'[k] in tuns' && Alike(tn, tuns'[k]);
    }
  }

  /** What a move of tunnel cur does to Xray between states a and x. */
  ghost predicate Shifted(boot: Server, a: Server, x: Server, cur: Tunnel) {
    && a.restarts <= x.restarts
    && x.outbounds.Keys <= Base(boot, a, x).outbounds.Keys + Pair(cur)
    && x.inbounds == Base(boot, a, x).inbounds
  }

  lemma ShiftedSound(f: Feed, boot: Server, a: Server, x: Server, full: nat, st: SourceState, tuns: seq<Tun>, cur: Tun)
    requires f.Valid() && Clear(f.Scope(), boot) && Sound(f, a, full, st, tuns) && cur in tuns
    requires Shifted(boot, a, x, cur.mapping) && Apart(TwinsOf(tuns), x)
    ensures Sound(f, x, full, st, tuns)
  {
    if st.hashes != map[] {
      BootIsClear(f, boot, tuns);
      forall tag | tag in Owned(f.t, f.ns, x)
        ensures Runs(tuns, tag)
      {
        if tag !in Pair(cur.mapping) {
          assert tag in Owned(f.t, f.ns, Base(boot, a, x));
        }
      }
      forall tag | tag in MineIn(f.Scope(), x)
        ensures Listens(tuns, tag)
      {
        assert tag in MineIn(f.Scope(), Base(boot, a, x));
      }
    }
  }

  /** The twins of the other tunnels do not speak of those of cur. */
  lemma TwinsAreApart(tg: TargetState.Target, f: Feed, cur: Tun)
    requires tg.Valid() && f.Valid() && f.ns.sourceId in tg.sources
    requires Ported(f, Block(tg.tunnels, f.ns.sourceId)) && cur in Block(tg.tunnels, f.ns.sourceId)
    ensures TwinsApart(TwinsOf(Block(tg.tunnels, f.ns.sourceId)), cur.mapping)
  {
    var tuns := Block(tg.tunnels, f.ns.sourceId);
    forall p, tag | p in TwinsOf(tuns) - Twins(cur.mapping) && tag in Pair(cur.mapping)
      ensures Spares(p, tag)
    {
      var tn :| tn in tuns && p in Twins(tn.mapping);
      if tn.mapping.baseTunnelId == cur.mapping.baseTunnelId {
        SameTun(tg, f.ns.sourceId, tn, cur);
      } else {
        PrefixCancels(f.ns.obsPrefix, tn.mapping.baseTunnelId, cur.mapping.baseTunnelId);
      }
    }
  }

  datatype Move = Skipped | DialFailed | StateLost | MoveFailed | Moved

  // ---- in Xray

  /** hasInbound and, if it is there, repairCalls. */
  method XRepair(c: Client, ghost f: Feed, ghost full: nat, ghost st: SourceState, ghost tuns: seq<Tun>, tun: Tun)
    returns (r: Move, added: bool, err: Error)
    requires Open(c, f) && Sound(f, c.x, full, st, tuns)
    requires tun in tuns && !ShouldRejoin(tun.mapping) && TwinsApart(TwinsOf(tuns), tun.mapping)
    modifies c
    ensures OneSession(c, f, tuns) && Sound(f, c.x, full, st, tuns)
    ensures r == StateLost || r == MoveFailed || r == Moved
    ensures r == StateLost ==> tun.mapping.inboundTag !in c.x.inbounds && c.x.outbounds == Base(c.boot, old(c.x), c.x).outbounds
    ensures r == Moved <==> added && err == Nil
    ensures added && c.x.restarts == old(c.x.restarts) ==>
              c.x.outbounds == (old(c.x.outbounds) - Pair(tun.mapping))[tun.mapping.baseTunnelId := tun.mapping.outboundWithoutPrefix.json]
  {
    var cur := tun.mapping;
    ghost var a := c.x;
    BeginSlot(c, f, tuns, {});
    assert TwinsOf(tuns) + {} == TwinsOf(tuns);
    var present;
    present, err := HasInbound(c, cur.inboundTag);
    added := false;
    if err == Nil && !present {
      ShiftedSound(f, c.boot, a, c.x, full, st, tuns, tun);
      return StateLost, added, err;
    }
    if err == Nil {
      added, err := Repair(c, f.ns, cur);
    }
    ShiftedSound(f, c.boot, a, c.x, full, st, tuns, tun);
    r := if err == Nil then Moved else MoveFailed;
  }

  method XRejoin(c: Client, ghost f: Feed, ghost full: nat, ghost st: SourceState, ghost tuns: seq<Tun>, tun: Tun)
    returns (stuck: bool, err: Error, ghost back: bool)
    requires Open(c, f) && Sound(f, c.x, full, st, tuns)
    requires tun in tuns && ShouldRejoin(tun.mapping) && TwinsApart(TwinsOf(tuns), tun.mapping)
    modifies c
    ensures OneSession(c, f, tuns) && Sound(f, c.x, full, st, tuns)
    ensures err == Nil ==> !stuck
    ensures stuck ==> tun.mapping.baseTunnelId !in c.x.outbounds
    ensures err == Nil && c.x.restarts == old(c.x.restarts) ==>
              c.x.outbounds == (old(c.x.outbounds) - {tun.mapping.baseTunnelId})[tun.mapping.outboundTagInitial := tun.mapping.outboundInitial.json]
    ensures back && c.x.restarts == old(c.x.restarts) ==>
              && !stuck
              && c.x.outbounds == (old(c.x.outbounds) - Pair(tun.mapping))[tun.mapping.baseTunnelId := tun.mapping.outboundWithoutPrefix.json]
  {
    ghost var a := c.x;
    BeginSlot(c, f, tuns, {});
    assert TwinsOf(tuns) + {} == TwinsOf(tuns);
    stuck, err, back := Rejoin(c, f.ns, tun.mapping);
    ShiftedSound(f, c.boot, a, c.x, full, st, tuns, tun);
  }

  // ---- in memory

  /** The monitor records that tunnel cur is on current, and its checks; reset empties the hashes
      of the source. */
  method Note(tg: TargetState.Target, ghost f: Feed, ghost x: Server, ghost full: nat, id: string, cur: Tun, current: Tag,
              monitor: Monitor, reset: bool)
    requires tg.Valid() && id in tg.sources && id == f.ns.sourceId
    requires Sound(f, x, full, tg.sources[id], Block(tg.tunnels, id))
    requires cur in Block(tg.tunnels, id) && current in Pair(cur.mapping)
    modifies tg
    ensures tg.Valid() && tg.OthersKept(id) && id in tg.sources
    ensures tg.sources[id] == if reset then old(tg.sources)[id].(hashes := map[]) else old(tg.sources)[id]
    ensures Block(tg.tunnels, id) ==
            Updated(old(Block(tg.tunnels, id)), id, cur.mapping.baseTunnelId, current, monitor)
    ensures Sound(f, x, full, tg.sources[id], Block(tg.tunnels, id))
    ensures Bases(Block(tg.tunnels, id)) == Bases(old(Block(tg.tunnels, id)))
    ensures TwinsOf(Block(tg.tunnels, id)) == TwinsOf(old(Block(tg.tunnels, id)))
    ensures Tun(cur.mapping.(outboundTagCurrent := current), monitor) in Block(tg.tunnels, id)
  {
    ghost var tuns := Block(tg.tunnels, id);
    OnlyCur(tg, id, cur, current);
    if reset {
      tg.ResetSourceHashes(id);
    }
    tg.UpdateTunnel(id, cur.mapping.baseTunnelId, current, monitor);
    UpdatedSound(f, x, full, tg.sources[id], tuns, cur.mapping.baseTunnelId, current, monitor);
    UpdatedHas(tuns, id, cur, current, monitor);
  }

  lemma OnlyCur(tg: TargetState.Target, id: string, cur: Tun, current: Tag)
    requires tg.Valid() && id in tg.sources && cur in Block(tg.tunnels, id) && current in Pair(cur.mapping)
    ensures AllOf(Block(tg.tunnels, id), id)
    ensures forall tn :: tn in Block(tg.tunnels, id) && Named(tn, cur.mapping.baseTunnelId) ==> current in Pair(tn.mapping)
  {
    Members(tg.tunnels, id);
    forall tn | tn in Block(tg.tunnels, id) && Named(tn, cur.mapping.baseTunnelId)
      ensures tn == cur
    {
      SameTun(tg, id, tn, cur);
    }
  }

  lemma UpdatedHas(tuns: seq<Tun>, id: string, cur: Tun, current: Tag, monitor: Monitor)
    requires cur in tuns && cur.mapping.sourceId == id
    ensures Tun(cur.mapping.(outboundTagCurrent := current), monitor) in Updated(tuns, id, cur.mapping.baseTunnelId, current, monitor)
  {
    var k :| 0 <= k < |tuns| && tuns[k] == cur;
    assert Updated(tuns, id, cur.mapping.baseTunnelId, current, monitor)[k] == Tun(cur.mapping.(outboundTagCurrent := current), monitor);
  }

  /** A move is noted: the tunnels and their outbounds are the same, the hashes may be gone. */
  method NoteMove(tg: TargetState.Target, ghost f: Feed, ghost x: Server, ghost full: nat, id: string, cur: Tun, current: Tag,
                  health: TunnelHealth, lost: bool, reset: bool)
    requires tg.Valid() && id in tg.sources && id == f.ns.sourceId
    requires Sound(f, x, full, tg.sources[id], Block(tg.tunnels, id))
    requires cur in Block(tg.tunnels, id) && current in Pair(cur.mapping)
    modifies tg
    ensures tg.Valid() && tg.OthersKept(id) && id in tg.sources
    ensures tg.sources[id] == if reset then old(tg.sources)[id].(hashes := map[]) else old(tg.sources)[id]
    ensures Sound(f, x, full, tg.sources[id], Block(tg.tunnels, id))
    ensures Bases(Block(tg.tunnels, id)) == Bases(old(Block(tg.tunnels, id)))
    ensures TwinsOf(Block(tg.tunnels, id)) == TwinsOf(old(Block(tg.tunnels, id)))
    ensures Tun(cur.mapping.(outboundTagCurrent := current), cur.monitor.(health := health)) in Block(tg.tunnels, id)
    ensures NoMoreFailures(old(Block(tg.tunnels, id)), Block(tg.tunnels, id))
  {
    if lost {
      tg.SetStateLost(id);
    }
    Members(tg.tunnels, id);
    MovedCounts(Block(tg.tunnels, id), id, cur, current, cur.monitor.(health := health));
    Note(tg, f, x, full, id, cur, current, cur.monitor.(health := health), reset);
  }

  // ---- both

  /** There is a tunnel with the given tag to repair, or, back, one to rejoin: on its prefixed
      outbound, or on its bare one. */
  predicate MayMove(tuns: seq<Tun>, tag: Tag, back: bool) {
    exists tn :: tn in tuns && tn.mapping.baseTunnelId == tag && (ShouldRejoin(tn.mapping) <==> back)
  }

  lemma OnlyMoves(tg: TargetState.Target, id: string, tag: Tag, back: bool)
    requires tg.Valid() && id in tg.sources
    ensures forall tn :: tn in Block(tg.tunnels, id) && tn.mapping.baseTunnelId == tag ==>
              (MayMove(Block(tg.tunnels, id), tag, back) <==> (ShouldRejoin(tn.mapping) <==> back))
  {
    forall tn, other | tn in Block(tg.tunnels, id) && other in Block(tg.tunnels, id) && tn.mapping.baseTunnelId == tag == other.mapping.baseTunnelId
      ensures tn == other
    {
      SameTun(tg, id, tn, other);
    }
  }

  /** Repair: a tunnel whose check failed moves to its unprefixed outbound. dialed says whether
      the client could be created. */
  method RepairTunnel(c: Client, tg: TargetState.Target, ghost f: Feed, ghost full: nat, id: string, tag: Tag, dialed: bool)
    returns (r: Move, added: bool)
    requires Ready(c, tg, f, full) && id == f.ns.sourceId
    modifies c, tg
    ensures Ready(c, tg, f, full) && tg.OthersKept(id)
    ensures Bases(Block(tg.tunnels, id)) == Bases(old(Block(tg.tunnels, id)))
    ensures TwinsOf(Block(tg.tunnels, id)) == TwinsOf(old(Block(tg.tunnels, id)))
    ensures NoMoreFailures(old(Block(tg.tunnels, id)), Block(tg.tunnels, id))
    ensures tg.sources[id] == old(tg.sources)[id] || tg.sources[id] == old(tg.sources)[id].(hashes := map[])
    ensures if r == Skipped || r == DialFailed then c.trace == old(c.trace) && c.x == old(c.x)
            else OneSession(c, f, old(Block(tg.tunnels, id)))
    ensures r == StateLost ==> tg.sources[id].hashes == map[]
    ensures r == Skipped ==> tg.tunnels == old(tg.tunnels) && tg.sources == old(tg.sources)
    ensures r == Skipped <==> !MayMove(old(Block(tg.tunnels, id)), tag, false)
    ensures r == Moved ==> added
    ensures added ==> Recorded(Block(tg.tunnels, id), tag, false) && (c.x.restarts == old(c.x.restarts) ==> tag in c.x.outbounds)
  {
    added := false;
    var tuns := Block(tg.tunnels, id);
    if tuns == [] {
      return Skipped, added;
    }
    var found, cur := Find(tuns, tag);
    OnlyMoves(tg, id, tag, false);
    if !found || ShouldRejoin(cur.mapping) {
      return Skipped, added;
    }
    r, added := RepairFound(c, tg, f, full, id, cur, dialed);
  }

  /** Repair of a tunnel that is there: it is marked, then repaired. */
  method RepairFound(c: Client, tg: TargetState.Target, ghost f: Feed, ghost full: nat, id: string, cur: Tun, dialed: bool)
    returns (r: Move, added: bool)
    requires Ready(c, tg, f, full) && id == f.ns.sourceId && cur in Block(tg.tunnels, id) && !ShouldRejoin(cur.mapping)
    modifies c, tg
    ensures Ready(c, tg, f, full) && tg.OthersKept(id)
    ensures Bases(Block(tg.tunnels, id)) == Bases(old(Block(tg.tunnels, id)))
    ensures TwinsOf(Block(tg.tunnels, id)) == TwinsOf(old(Block(tg.tunnels, id)))
    ensures NoMoreFailures(old(Block(tg.tunnels, id)), Block(tg.tunnels, id))
    ensures tg.sources[id] == old(tg.sources)[id] || tg.sources[id] == old(tg.sources)[id].(hashes := map[])
    ensures if r == DialFailed then c.trace == old(c.trace) && c.x == old(c.x) else OneSession(c, f, old(Block(tg.tunnels, id)))
    ensures r != Skipped && (r == StateLost ==> tg.sources[id].hashes == map[]) && (r == Moved ==> added)
    ensures added ==>
              && Recorded(Block(tg.tunnels, id), cur.mapping.baseTunnelId, false)
              && (c.x.restarts == old(c.x.restarts) ==> cur.mapping.baseTunnelId in c.x.outbounds)
  {
    NoteMove(tg, f, c.x, full, id, cur, cur.mapping.outboundTagCurrent, Repairing, false, false);
    if !dialed {
      return DialFailed, false;
    }
    r, added := RepairNoted(c, tg, f, full, id, Tun(cur.mapping, cur.monitor.(health := Repairing)));
  }

  /** Repair after the tunnel is marked. */
  method RepairNoted(c: Client, tg: TargetState.Target, ghost f: Feed, ghost full: nat, id: string, cur: Tun) returns (r: Move, added: bool)
    requires Ready(c, tg, f, full) && id == f.ns.sourceId && cur in Block(tg.tunnels, id) && !ShouldRejoin(cur.mapping)
    modifies c, tg
    ensures Ready(c, tg, f, full) && tg.OthersKept(id) && OneSession(c, f, old(Block(tg.tunnels, id)))
    ensures Bases(Block(tg.tunnels, id)) == Bases(old(Block(tg.tunnels, id)))
    ensures TwinsOf(Block(tg.tunnels, id)) == TwinsOf(old(Block(tg.tunnels, id)))
    ensures NoMoreFailures(old(Block(tg.tunnels, id)), Block(tg.tunnels, id))
    ensures tg.sources[id] == old(tg.sources)[id] || tg.sources[id] == old(tg.sources)[id].(hashes := map[])
    ensures r == StateLost || r == MoveFailed || r == Moved
    ensures r == StateLost ==> tg.sources[id].hashes == map[]
    ensures r == Moved ==> added
    ensures Tun(if added then Repaired(cur.mapping) else cur.mapping, cur.monitor.(health := Degraded)) in Block(tg.tunnels, id)
    ensures added && c.x.restarts == old(c.x.restarts) ==> cur.mapping.baseTunnelId in c.x.outbounds
  {
    TwinsAreApart(tg, f, cur);
    var err;
    r, added, err := XRepair(c, f, full, tg.sources[id], Block(tg.tunnels, id), cur);
    var current := if added then cur.mapping.outboundWithoutPrefix.tag else cur.mapping.outboundTagCurrent;
    NoteMove(tg, f, c.x, full, id, cur, current, Degraded, r == StateLost, r == StateLost || err == CapReached);
  }

  /** Memory holds the tunnel with the given tag on its prefixed outbound, or on the other one. */
  ghost predicate Recorded(tuns: seq<Tun>, tag: Tag, prefixed: bool) {
    exists tn :: tn in tuns && tn.mapping.baseTunnelId == tag &&
                 tn.mapping.outboundTagCurrent == if prefixed then tn.mapping.outboundTagInitial else tag
  }

  /** Rejoin: a healthy tunnel on its unprefixed outbound moves back. A rejoin that is stuck
      leaves it recorded on its prefixed one, so that the next repair removes that first; any
      other failure leaves it recorded on the unprefixed one. */
  method RejoinTunnel(c: Client, tg: TargetState.Target, ghost f: Feed, ghost full: nat, id: string, tag: Tag, dialed: bool)
    returns (r: Move, stuck: bool)
    requires Ready(c, tg, f, full) && id == f.ns.sourceId
    modifies c, tg
    ensures Ready(c, tg, f, full) && tg.OthersKept(id)
    ensures Bases(Block(tg.tunnels, id)) == Bases(old(Block(tg.tunnels, id)))
    ensures TwinsOf(Block(tg.tunnels, id)) == TwinsOf(old(Block(tg.tunnels, id)))
    ensures NoMoreFailures(old(Block(tg.tunnels, id)), Block(tg.tunnels, id))
    ensures tg.sources[id] == old(tg.sources)[id] || tg.sources[id] == old(tg.sources)[id].(hashes := map[])
    ensures if r == Skipped || r == DialFailed
            then c.trace == old(c.trace) && c.x == old(c.x) && tg.tunnels == old(tg.tunnels) && tg.sources == old(tg.sources)
            else OneSession(c, f, old(Block(tg.tunnels, id)))
    ensures r == Moved || r == MoveFailed ==> Recorded(Block(tg.tunnels, id), tag, r == Moved || stuck)
    ensures r == Skipped <==> !MayMove(old(Block(tg.tunnels, id)), tag, true)
    ensures stuck ==> tag !in c.x.outbounds
  {
    stuck := false;
    var tuns := Block(tg.tunnels, id);
    if tuns == [] {
      return Skipped, stuck;
    }
    var found, cur := Find(tuns, tag);
    OnlyMoves(tg, id, tag, true);
    if !found || !ShouldRejoin(cur.mapping) {
      return Skipped, stuck;
    }
    if !dialed {
      return DialFailed, stuck;
    }
    r, stuck := RejoinFound(c, tg, f, full, id, cur);
  }

  /** Rejoin of a tunnel that is there. */
  method RejoinFound(c: Client, tg: TargetState.Target, ghost f: Feed, ghost full: nat, id: string, cur: Tun) returns (r: Move, stuck: bool)
    requires Ready(c, tg, f, full) && id == f.ns.sourceId && cur in Block(tg.tunnels, id) && ShouldRejoin(cur.mapping)
    modifies c, tg
    ensures Ready(c, tg, f, full) && tg.OthersKept(id) && OneSession(c, f, old(Block(tg.tunnels, id)))
    ensures Bases(Block(tg.tunnels, id)) == Bases(old(Block(tg.tunnels, id)))
    ensures TwinsOf(Block(tg.tunnels, id)) == TwinsOf(old(Block(tg.tunnels, id)))
    ensures NoMoreFailures(old(Block(tg.tunnels, id)), Block(tg.tunnels, id))
    ensures tg.sources[id] == old(tg.sources)[id] || tg.sources[id] == old(tg.sources)[id].(hashes := map[])
    ensures r == Moved || r == MoveFailed
    ensures Tun(if r == Moved || stuck then Rejoined(cur.mapping) else cur.mapping, cur.monitor) in Block(tg.tunnels, id)
    ensures r == Moved && c.x.restarts == old(c.x.restarts) ==> cur.mapping.outboundTagInitial in c.x.outbounds
    ensures stuck ==> cur.mapping.baseTunnelId !in c.x.outbounds
  {
    TwinsAreApart(tg, f, cur);
    var err;
    ghost var back;
    stuck, err, back := XRejoin(c, f, full, tg.sources[id], Block(tg.tunnels, id), cur);
    var current := if err == Nil || stuck then cur.mapping.outboundTagInitial else cur.mapping.outboundTagCurrent;
    NoteMove(tg, f, c.x, full, id, cur, current, cur.monitor.health, false, err == CapReached);
    r := if err == Nil then Moved else MoveFailed;
  }
}
