/** One candidate source in memory and in Xray: what the two know of each other, and the ways a
    single slot of it changes (internal/scd/syncer/wireguard.go, internal/scd/monitor/replace.go). */
module Slots {
  import opened Namespaces
  import Sets
  import opened SourceRules
  import opened Selection
  import opened XrayApi
  import opened Topology
  import opened TunnelCalls
  import opened RepairCalls
  import opened ApplyTunnels
  import opened TargetState

  /** The configuration of a candidate source. keyOf gives the key a tag was built from: a tag
      carries a hash of its key. */
  datatype Feed = Feed(t: SourceRules.Target, ns: Namespace, maxActive: nat, start: int, listen: string, keyOf: Tag -> Key)
  {
    function Scope(): Scope { SourceScope(t, ns) }

    /** Its namespace is free of fixed tags, and no bare tag of it is a prefixed one. */
    ghost predicate Valid() {
      && ns.obsPrefix == t.obsPrefix && FixedFree(t, ns)
      && (ns.obsPrefix != "" ==> forall bare, other :: HasPrefix(bare, ns.Stem()) ==> bare != ns.obsPrefix + other)
    }

    /** A tunnel of the entry with the given tag. */
    function TunnelOf(e: Entry, port: int): Tunnel {
      NewTunnel(e.candidate.tag, e.json, ns.sourceId, t, listen, port)
    }
  }

  // ---- what memory and Xray keep of each other

  function Bases(tuns: seq<Tun>): set<Tag> {
    set tn | tn in tuns :: tn.mapping.baseTunnelId
  }

  /** tag is an outbound tag, or the inbound tag, of one of the tunnels. */
  ghost predicate Runs(tuns: seq<Tun>, tag: Tag) {
    exists tn :: tn in tuns && tag in Pair(tn.mapping)
  }

  ghost predicate Listens(tuns: seq<Tun>, tag: Tag) {
    exists tn :: tn in tuns && tag == tn.mapping.inboundTag
  }

  /** Xray holds only outbounds and inbounds of the tunnels; if it has not restarted since the
      last full apply (at restart count full) it holds the inbounds of all of them. */
  ghost predicate Mirrored(f: Feed, tuns: seq<Tun>, x: Server, full: nat) {
    && full <= x.restarts
    && (forall tag :: tag in Owned(f.t, f.ns, x) ==> Runs(tuns, tag))
    && (forall tag :: tag in MineIn(f.Scope(), x) ==> Listens(tuns, tag))
    && (x.restarts == full ==> forall tn :: tn in tuns ==> tn.mapping.inboundTag in x.inbounds)
  }

  /** The tunnels are those of entries, on distinct ports of the first maxActive of the range. */
  predicate Ported(f: Feed, tuns: seq<Tun>) {
    && (forall tn :: tn in tuns ==> WellFormed(tn.mapping, f.ns) && f.start <= tn.mapping.port < f.start + f.maxActive)
    && (forall a, b :: a in tuns && b in tuns && a.mapping.port == b.mapping.port ==> a.mapping.baseTunnelId == b.mapping.baseTunnelId)
  }

  /** No slot is counted twice: tunnels and the removed ones without a replacement. */
  predicate Conserved(f: Feed, tuns: seq<Tun>, noReplacement: set<Tag>) {
    |tuns| + |noReplacement - Bases(tuns)| <= f.maxActive
  }

  /** Both outbounds of each tunnel. */
  function TwinsOf(tuns: seq<Tun>): set<(Tag, Tag)> {
    set tn, p | tn in tuns && p in Twins(tn.mapping) :: p
  }

  /** A manifest of the source: its tags are distinct and carry its id and their key. */
  predicate FileOk(f: Feed, file: seq<Entry>) {
    && (forall e :: e in file ==> HasPrefix(e.candidate.tag, f.ns.Stem()) && e.candidate.key == f.keyOf(e.candidate.tag))
    && UniqueTags(file)
  }

  predicate UniqueTags(file: seq<Entry>) {
    forall i, j :: 0 <= i < j < |file| ==> file[i].candidate.tag != file[j].candidate.tag
  }

  predicate InFile(file: seq<Entry>, tag: Tag) {
    exists e :: e in file && e.candidate.tag == tag
  }

  /** Every tunnel is in the file of the last sync, and no key runs twice. */
  predicate Keyed(f: Feed, tuns: seq<Tun>, file: seq<Entry>) {
    && (forall tn :: tn in tuns ==> InFile(file, tn.mapping.baseTunnelId))
    && (forall a, b :: a in tuns && b in tuns && f.keyOf(a.mapping.baseTunnelId) == f.keyOf(b.mapping.baseTunnelId) ==>
          a.mapping.baseTunnelId == b.mapping.baseTunnelId)
  }

  /** The state of a source is sound: while it has hashes, memory mirrors Xray. */
  ghost predicate Sound(f: Feed, x: Server, full: nat, st: SourceState, tuns: seq<Tun>) {
    && Ported(f, tuns)
    && Conserved(f, tuns, st.noReplacement)
    && Apart(TwinsOf(tuns), x)
    && FileOk(f, st.candidates)
    && (st.hashes != map[] ==> Mirrored(f, tuns, x, full))
  }

  /** The rest of a source's state is as it was. */
  predicate SameFile(st: SourceState, st': SourceState) {
    st'.candidates == st.candidates && st'.selection == st.selection && st'.configHash == st.configHash
  }

  // ---- facts

  lemma PairTagsOwned(f: Feed, tn: Tunnel)
    requires f.Valid() && WellFormed(tn, f.ns)
    ensures f.Scope().Covers(KindOutbound, tn.outboundTagInitial) && f.Scope().Covers(KindOutbound, tn.baseTunnelId)
    ensures f.Scope().Covers(KindInbound, tn.inboundTag)
  {
    TunnelTagsCovered(tn, f.t, f.ns);
  }

  /** The tags of an entry that is not active have nothing to do with the active tunnels. */
  lemma NewTagsAreFree(f: Feed, tuns: seq<Tun>, tag: Tag)
    requires f.Valid() && Ported(f, tuns) && HasPrefix(tag, f.ns.Stem()) && tag !in Bases(tuns)
    ensures !Runs(tuns, f.ns.obsPrefix + tag) && !Runs(tuns, tag)
    ensures forall p :: p in TwinsOf(tuns) ==> Spares(p, f.ns.obsPrefix + tag) && Spares(p, tag)
  {
    forall tn | tn in tuns
      ensures f.ns.obsPrefix + tag !in Pair(tn.mapping) && tag !in Pair(tn.mapping)
    {
      var base := tn.mapping.baseTunnelId;
      assert base in Bases(tuns);
      PrefixCancels(f.ns.obsPrefix, tag, base);
      assert f.ns.obsPrefix == "" ==> f.ns.obsPrefix + tag == tag && f.ns.obsPrefix + base == base;
    }
  }

  /** What a freshly booted Xray lacks. */
  lemma BootIsClear(f: Feed, boot: Server, tuns: seq<Tun>)
    requires f.Valid() && Ported(f, tuns) && Clear(f.Scope(), boot)
    ensures Apart(TwinsOf(tuns), boot)
    ensures Owned(f.t, f.ns, boot) == {} && MineIn(f.Scope(), boot) == {}
  {
    forall tn | tn in tuns
      ensures tn.mapping.outboundTagInitial !in boot.outbounds
    {
      PairTagsOwned(f, tn.mapping);
    }
  }

  /** A tag that is owned but of no tunnel is not in Xray. */
  lemma StrangersAreAbsent(f: Feed, tuns: seq<Tun>, x: Server, full: nat, tag: Tag)
    requires Mirrored(f, tuns, x, full) && !Runs(tuns, tag) && f.Scope().Covers(KindOutbound, tag)
    ensures tag !in x.outbounds
  {
    assert tag in x.outbounds ==> tag in Owned(f.t, f.ns, x);
  }

  function PairOfOption(prev: Option<Tunnel>): set<Tag> {
    if prev.Some? then Pair(prev.value) else {}
  }

  function InTag(tn: Option<Tunnel>): set<Tag> {
    if tn.Some? then {tn.value.inboundTag} else {}
  }

  function IdOf(tn: Option<Tunnel>): Tag {
    if tn.Some? then tn.value.baseTunnelId else ""
  }

  /** What a successful slot operation did to Xray between states a and x. */
  ghost predicate Changed(boot: Server, a: Server, x: Server, prev: Option<Tunnel>, next: Option<Tunnel>) {
    && a.restarts <= x.restarts
    && x.outbounds.Keys <= Base(boot, a, x).outbounds.Keys - PairOfOption(prev) + (if next.Some? then {next.value.outboundTagInitial} else {})
    && x.inbounds.Keys <= Base(boot, a, x).inbounds.Keys - InTag(prev) + InTag(next)
    && (x.restarts == a.restarts ==> x.inbounds.Keys >= a.inbounds.Keys - InTag(prev) + InTag(next))
  }

  /** One slot given up, taken, or both: the mirror goes on. */
  lemma SlotMirrored(f: Feed, boot: Server, a: Server, x: Server, full: nat, tuns: seq<Tun>, tuns': seq<Tun>,
                     prev: Option<Tunnel>, next: Option<Tunnel>)
    requires f.Valid() && Ported(f, tuns) && Clear(f.Scope(), boot)
    requires Mirrored(f, tuns, a, full) && Changed(boot, a, x, prev, next)
    requires prev.Some? ==> WellFormed(prev.value, f.ns)
    requires next.Some? ==> WellFormed(next.value, f.ns)
    requires Swapped(tuns, f.ns.sourceId, IdOf(prev), next, tuns')
    ensures Mirrored(f, tuns', x, full)
  {
    BootIsClear(f, boot, tuns);
    var added := if next.Some? then [Tun(next.value.(sourceId := f.ns.sourceId), IDLE)] else [];
    assert forall tn :: tn in added ==> tn in tuns';
    forall tag | tag in Owned(f.t, f.ns, x)
      ensures Runs(tuns', tag)
    {
      if next.Some? && tag == next.value.outboundTagInitial {
        assert tag in Pair(added[0].mapping);
      } else {
        assert tag in Base(boot, a, x).outbounds && tag !in PairOfOption(prev);
        assert tag in Owned(f.t, f.ns, Base(boot, a, x));
        var tn :| tn in tuns && tag in Pair(tn.mapping);
        assert tn in tuns';
      }
    }
    SlotListens(f, boot, a, x, full, tuns, tuns', prev, next);
  }

  lemma SlotListens(f: Feed, boot: Server, a: Server, x: Server, full: nat, tuns: seq<Tun>, tuns': seq<Tun>,
                    prev: Option<Tunnel>, next: Option<Tunnel>)
    requires f.Valid() && Ported(f, tuns) && MineIn(f.Scope(), boot) == {}
    requires Mirrored(f, tuns, a, full) && Changed(boot, a, x, prev, next)
    requires prev.Some? ==> WellFormed(prev.value, f.ns)
    requires Swapped(tuns, f.ns.sourceId, IdOf(prev), next, tuns')
    ensures forall tag :: tag in MineIn(f.Scope(), x) ==> Listens(tuns', tag)
    ensures x.restarts == full ==> forall tn :: tn in tuns' ==> tn.mapping.inboundTag in x.inbounds
  {
    var added := if next.Some? then [Tun(next.value.(sourceId := f.ns.sourceId), IDLE)] else [];
    assert forall tn :: tn in added ==> tn in tuns';
    forall tag | tag in MineIn(f.Scope(), x)
      ensures Listens(tuns', tag)
    {
      if next.Some? && tag == next.value.inboundTag {
        assert tag == added[0].mapping.inboundTag;
      } else {
        assert tag in MineIn(f.Scope(), Base(boot, a, x));
        var tn :| tn in tuns && tag == tn.mapping.inboundTag;
        assert tn in tuns';
      }
    }
    if x.restarts == full {
      forall tn | tn in tuns'
        ensures tn.mapping.inboundTag in x.inbounds
      {
        if tn in tuns && tn.mapping.baseTunnelId != IdOf(prev) {
          PrefixCancels("in-", tn.mapping.baseTunnelId, IdOf(prev));
        }
      }
    }
  }

  lemma PrefixCancels(p: string, a: Tag, b: Tag)
    ensures p + a == p + b <==> a == b
  {
    assert (p + a)[|p|..] == a && (p + b)[|p|..] == b;
  }

  /** The tunnels after a slot changed keep distinct ports in the range. */
  lemma SlotPorted(f: Feed, tuns: seq<Tun>, tuns': seq<Tun>, oldId: Tag, next: Option<Tunnel>)
    requires Ported(f, tuns) && Swapped(tuns, f.ns.sourceId, oldId, next, tuns')
    requires next.Some? ==> WellFormed(next.value, f.ns) && f.start <= next.value.port < f.start + f.maxActive
    requires next.Some? ==> forall tn :: tn in tuns && tn.mapping.baseTunnelId != oldId ==> tn.mapping.port != next.value.port
    ensures Ported(f, tuns')
    ensures Bases(tuns') == Bases(tuns) - {oldId} + if next.Some? then {next.value.baseTunnelId} else {}
  {
    if next.Some? {
      assert Tun(next.value.(sourceId := f.ns.sourceId), IDLE) in tuns';
    }
  }

  /** Giving up slot oldId, whether or not another tunnel takes it, frees no more slots than it
      had. */
  lemma SlotConserved(f: Feed, tuns: seq<Tun>, tuns': seq<Tun>, oldId: Tag, next: Option<Tunnel>, noRep: set<Tag>, noRep': set<Tag>)
    requires Conserved(f, tuns, noRep) && Swapped(tuns, f.ns.sourceId, oldId, next, tuns')
    requires oldId in Bases(tuns)
    requires Bases(tuns') == Bases(tuns) - {oldId} + if next.Some? then {next.value.baseTunnelId} else {}
    requires noRep' == noRep - {oldId} || (next.None? && noRep' == noRep + {oldId})
    ensures Conserved(f, tuns', noRep')
  {
    assert oldId in Ids(tuns) by {
      var tn :| tn in tuns && tn.mapping.baseTunnelId == oldId;
      var k :| 0 <= k < |tuns| && tuns[k] == tn;
      assert Ids(tuns)[k] == oldId;
    }
    var free := noRep - Bases(tuns);
    Sets.SubsetSize(noRep' - Bases(tuns'), if next.Some? then free else free + {oldId});
    if next.Some? {
      assert noRep' - Bases(tuns') <= free;
    }
  }

  // ---- the slot operations in Xray

  /** The client may work for the source. */
  ghost predicate Open(c: Client, f: Feed)
    reads c
  {
    c.Valid() && f.Valid() && c.t == f.t && Clear(f.Scope(), c.boot)
  }

  /** Between states a and x of Xray only the source's own resources changed. */
  ghost predicate Within(f: Feed, boot: Server, a: Server, x: Server) {
    a.restarts <= x.restarts && Rest(f.Scope(), x) == Rest(f.Scope(), Base(boot, a, x))
  }

  lemma WithinTransitive(f: Feed, boot: Server, a: Server, b: Server, x: Server)
    requires Within(f, boot, a, b) && Within(f, boot, b, x)
    ensures Within(f, boot, a, x)
  {
  }

  lemma SessionStays(c: Client, f: Feed, b: Server)
    requires Open(c, f) && c.session.scope == f.Scope() && c.session.start == b
    ensures Within(f, c.boot, b, c.x)
  {
  }

  /** The work since was one session of the source, in every state of which no tunnel of tuns
      had both its outbounds. */
  twostate predicate OneSession(c: Client, f: Feed, tuns: seq<Tun>)
    reads c
  {
    && Open(c, f)
    && old(c.trace) <= c.trace && old(c.x.restarts) <= c.x.restarts
    && c.session.scope == f.Scope() && c.session.start == old(c.x) && c.session.from == |old(c.trace)|
    && TwinsOf(tuns) <= c.session.apart
  }

  ghost method BeginSlot(c: Client, f: Feed, tuns: seq<Tun>, extra: set<(Tag, Tag)>)
    requires Open(c, f) && Ported(f, tuns) && Apart(TwinsOf(tuns), c.x)
    requires Apart(extra, c.x) && Apart(extra, c.boot)
    modifies c`session, c`past
    ensures Working(c, f.ns)
    ensures c.session == Session(f.Scope(), TwinsOf(tuns) + extra, c.x, |c.trace|)
  {
    BootIsClear(f, c.boot, tuns);
    c.Begin(f.Scope(), TwinsOf(tuns) + extra);
  }

  method XRemove(c: Client, ghost f: Feed, ghost tuns: seq<Tun>, tn: Tunnel) returns (ruleErr: Error, err: Error)
    requires Open(c, f) && Ported(f, tuns) && Apart(TwinsOf(tuns), c.x) && WellFormed(tn, f.ns)
    modifies c
    ensures OneSession(c, f, tuns)
    ensures err == Nil ==> Changed(c.boot, old(c.x), c.x, Some(tn), None)
  {
    BeginSlot(c, f, tuns, {});
    ruleErr, err := RemoveTunnel(c, f.ns, tn);
  }

  /** The new outbound of next meets nothing it must not meet. */
  lemma NewcomerFits(f: Feed, x: Server, boot: Server, full: nat, tuns: seq<Tun>, next: Tunnel)
    requires f.Valid() && Ported(f, tuns) && Mirrored(f, tuns, x, full) && Clear(f.Scope(), boot)
    requires WellFormed(next, f.ns) && next.baseTunnelId !in Bases(tuns)
    ensures next.outboundTagInitial !in x.outbounds && next.outboundTagInitial !in boot.outbounds
    ensures next.baseTunnelId !in x.outbounds
    ensures forall p :: p in TwinsOf(tuns) ==> Spares(p, next.outboundTagInitial)
  {
    NewTagsAreFree(f, tuns, next.baseTunnelId);
    PairTagsOwned(f, next);
    StrangersAreAbsent(f, tuns, x, full, next.outboundTagInitial);
    StrangersAreAbsent(f, tuns, x, full, next.baseTunnelId);
  }

  method XReplace(c: Client, ghost f: Feed, ghost full: nat, ghost tuns: seq<Tun>, tn: Tunnel, next: Tunnel)
    returns (ruleErr: Error, err: Error)
    requires Open(c, f) && Ported(f, tuns) && Apart(TwinsOf(tuns), c.x) && Mirrored(f, tuns, c.x, full)
    requires WellFormed(tn, f.ns) && WellFormed(next, f.ns) && next.baseTunnelId !in Bases(tuns)
    modifies c
    ensures OneSession(c, f, tuns) && Exclusive(tn, next) <= c.session.apart
    ensures err == Nil ==> Changed(c.boot, old(c.x), c.x, Some(tn), Some(next))
  {
    NewcomerFits(f, c.x, c.boot, full, tuns, next);
    BeginSlot(c, f, tuns, Exclusive(tn, next));
    ruleErr, err := ReplaceTunnel(c, f.ns, tn, next);
  }

  method XAdd(c: Client, ghost f: Feed, ghost full: nat, ghost tuns: seq<Tun>, next: Tunnel) returns (err: Error)
    requires Open(c, f) && Ported(f, tuns) && Apart(TwinsOf(tuns), c.x) && Mirrored(f, tuns, c.x, full)
    requires WellFormed(next, f.ns) && next.baseTunnelId !in Bases(tuns)
    modifies c
    ensures OneSession(c, f, tuns) && Twins(next) <= c.session.apart
    ensures err == Nil ==> Changed(c.boot, old(c.x), c.x, None, Some(next))
  {
    NewcomerFits(f, c.x, c.boot, full, tuns, next);
    BeginSlot(c, f, tuns, Twins(next));
    err := AddTunnel(c, f.ns, next);
  }

  // ---- and in memory

  /** What a slot operation leaves in memory; a failed one empties the hashes. */
  twostate predicate Settled(tg: TargetState.Target, id: string, oldId: Tag, next: Option<Tunnel>, ok: bool)
    reads tg
  {
    && tg.Valid() && tg.OthersKept(id) && id in tg.sources && id in old(tg.sources)
    && Swapped(old(Block(tg.tunnels, id)), id, oldId, next, Block(tg.tunnels, id))
    && SameFile(old(tg.sources)[id], tg.sources[id])
    && if ok then tg.sources[id].hashes.Keys == old(tg.sources)[id].hashes.Keys else tg.sources[id].hashes == map[]
  }

  /** A removal. */
  method Forget(tg: TargetState.Target, id: string, oldId: Tag, ok: bool)
    requires tg.Valid() && id in tg.sources
    modifies tg
    ensures Settled(tg, id, oldId, None, ok)
    ensures tg.sources[id].noReplacement == var nr := old(tg.sources)[id].noReplacement; if ok then nr + {oldId} else nr - {oldId}
  {
    tg.ReplaceSourceTunnel(id, oldId, None);
    if ok {
      tg.UpdateSource(id, tg.sources[id].(noReplacement := tg.sources[id].noReplacement + {oldId}));
    } else {
      tg.ResetSourceHashes(id);
    }
  }

  /** A replacement: a failed one leaves the slot empty. */
  method Reseat(tg: TargetState.Target, id: string, oldId: Tag, next: Tunnel, ok: bool)
    requires tg.Valid() && id in tg.sources && next.baseTunnelId !in Bases(Block(tg.tunnels, id))
    modifies tg
    ensures Settled(tg, id, oldId, if ok then Some(next) else None, ok)
    ensures tg.sources[id].noReplacement == old(tg.sources)[id].noReplacement - {oldId}
  {
    NewcomerSits(tg, id, oldId, next);
    tg.ReplaceSourceTunnel(id, oldId, if ok then Some(next) else None);
    if !ok {
      tg.ResetSourceHashes(id);
    }
  }

  lemma NewcomerSits(tg: TargetState.Target, id: string, oldId: Tag, next: Tunnel)
    requires tg.Valid() && id in tg.sources && next.baseTunnelId !in Bases(Block(tg.tunnels, id))
    ensures Fits(tg.sources[id].topology, oldId, Some(next))
  {
    var tuns, topology := Block(tg.tunnels, id), tg.sources[id].topology;
    forall tn | tn in topology
      ensures tn.baseTunnelId != next.baseTunnelId
    {
      var k :| 0 <= k < |topology| && topology[k] == tn;
      assert tuns[k] in tuns && tuns[k].mapping.baseTunnelId == tn.baseTunnelId;
    }
  }

  /** Removed tags without a replacement after next took an empty slot: one less. */
  ghost predicate OneSlotLess(noRep: set<Tag>, tuns: seq<Tun>, next: Tag, noRep': set<Tag>) {
    if next in noRep then noRep' == noRep - {next}
    else if noRep <= Bases(tuns) then noRep' == noRep
    else exists tag :: tag in noRep && tag !in Bases(tuns) && noRep' == noRep - {tag}
  }

  /** An empty slot taken. */
  method Seat(tg: TargetState.Target, id: string, next: Tunnel)
    requires tg.Valid() && id in tg.sources && next.baseTunnelId !in Bases(Block(tg.tunnels, id))
    modifies tg
    ensures Settled(tg, id, "", Some(next), true)
    ensures OneSlotLess(old(tg.sources)[id].noReplacement - {""}, old(Block(tg.tunnels, id)), next.baseTunnelId, tg.sources[id].noReplacement)
  {
    var inUse := set tn | tn in Block(tg.tunnels, id) :: tn.mapping.baseTunnelId;
    NewcomerSits(tg, id, "", next);
    tg.ReplaceSourceTunnel(id, "", Some(next));
    var nr := tg.sources[id].noReplacement;
    if next.baseTunnelId in nr {
      nr := nr - {next.baseTunnelId};
    } else if nr - inUse != {} {
      var tag :| tag in nr - inUse;
      nr := nr - {tag};
    }
    tg.UpdateSource(id, tg.sources[id].(noReplacement := nr));
  }

  // ---- sound again

  /** A slot operation that gave up prev keeps the source sound. */
  lemma SlotSound(f: Feed, boot: Server, a: Server, x: Server, full: nat, st: SourceState, st': SourceState,
                  tuns: seq<Tun>, tuns': seq<Tun>, prev: Tun, next: Option<Tunnel>)
    requires f.Valid() && Clear(f.Scope(), boot)
    requires Sound(f, a, full, st, tuns) && st.hashes != map[] && prev in tuns
    requires SameFile(st, st') && Swapped(tuns, f.ns.sourceId, prev.mapping.baseTunnelId, next, tuns')
    requires st'.noReplacement == st.noReplacement - {prev.mapping.baseTunnelId} ||
             (next.None? && st'.noReplacement == st.noReplacement + {prev.mapping.baseTunnelId})
    requires next.Some? ==> WellFormed(next.value, f.ns) && next.value.port == prev.mapping.port && next.value.baseTunnelId !in Bases(tuns)
    requires Apart(TwinsOf(tuns'), x)
    requires st'.hashes != map[] ==> Changed(boot, a, x, Some(prev.mapping), next)
    ensures Sound(f, x, full, st', tuns')
    ensures Bases(tuns') == Bases(tuns) - {prev.mapping.baseTunnelId} + if next.Some? then {next.value.baseTunnelId} else {}
  {
    var id := prev.mapping.baseTunnelId;
    SlotPorted(f, tuns, tuns', id, next);
    SlotConserved(f, tuns, tuns', id, next, st.noReplacement, st'.noReplacement);
    if st'.hashes != map[] {
      SlotMirrored(f, boot, a, x, full, tuns, tuns', Some(prev.mapping), next);
    }
  }

  /** An empty slot taken keeps the source sound. */
  lemma FillSound(f: Feed, boot: Server, a: Server, x: Server, full: nat, st: SourceState, st': SourceState,
                  tuns: seq<Tun>, tuns': seq<Tun>, next: Tunnel)
    requires f.Valid() && Clear(f.Scope(), boot)
    requires Sound(f, a, full, st, tuns) && st.hashes != map[] && |tuns| < f.maxActive
    requires SameFile(st, st') && Swapped(tuns, f.ns.sourceId, "", Some(next), tuns')
    requires OneSlotLess(st.noReplacement - {""}, tuns, next.baseTunnelId, st'.noReplacement)
    requires WellFormed(next, f.ns) && next.baseTunnelId !in Bases(tuns)
    requires f.start <= next.port < f.start + f.maxActive && forall tn :: tn in tuns ==> tn.mapping.port != next.port
    requires Apart(TwinsOf(tuns'), x) && Changed(boot, a, x, None, Some(next))
    ensures Sound(f, x, full, st', tuns')
    ensures Bases(tuns') == Bases(tuns) + {next.baseTunnelId} && |tuns'| == |tuns| + 1
  {
    FillPorted(f, tuns, tuns', next);
    SlotMirrored(f, boot, a, x, full, tuns, tuns', None, Some(next));
    FillConserved(f, tuns, tuns', next.baseTunnelId, st.noReplacement, st'.noReplacement);
  }

  lemma FillPorted(f: Feed, tuns: seq<Tun>, tuns': seq<Tun>, next: Tunnel)
    requires Ported(f, tuns) && Swapped(tuns, f.ns.sourceId, "", Some(next), tuns')
    requires WellFormed(next, f.ns)
    requires f.start <= next.port < f.start + f.maxActive && forall tn :: tn in tuns ==> tn.mapping.port != next.port
    ensures Ported(f, tuns')
    ensures Bases(tuns') == Bases(tuns) + {next.baseTunnelId} && |tuns'| == |tuns| + 1
  {
    EmptyIsNoId(f, tuns);
    SlotPorted(f, tuns, tuns', "", Some(next));
  }

  lemma EmptyIsNoId(f: Feed, tuns: seq<Tun>)
    requires Ported(f, tuns)
    ensures "" !in Ids(tuns) && "" !in Bases(tuns)
  {
    forall i | 0 <= i < |tuns|
      ensures Ids(tuns)[i] != ""
    {
      assert tuns[i] in tuns;
    }
  }

  lemma FillConserved(f: Feed, tuns: seq<Tun>, tuns': seq<Tun>, next: Tag, noRep: set<Tag>, noRep': set<Tag>)
    requires Conserved(f, tuns, noRep) && |tuns| < f.maxActive && |tuns'| == |tuns| + 1
    requires Bases(tuns') == Bases(tuns) + {next} && next !in Bases(tuns)
    requires OneSlotLess(noRep - {""}, tuns, next, noRep')
    ensures Conserved(f, tuns', noRep')
  {
    var out, out' := noRep - Bases(tuns), noRep' - Bases(tuns');
    if next in noRep - {""} {
      Sets.SubsetSize(out', out - {next});
    } else if noRep - {""} <= Bases(tuns) {
      assert out' == {};
    } else {
      var tag :| tag in noRep - {""} && tag !in Bases(tuns) && noRep' == noRep - {""} - {tag};
      Sets.SubsetSize(out', out - {tag});
    }
  }

  lemma TwinsSpread(tuns: seq<Tun>, tuns': seq<Tun>, id: string, oldId: Tag, next: Option<Tunnel>, apart: set<(Tag, Tag)>, x: Server)
    requires TwinsOf(tuns) <= apart && Apart(apart, x) && Swapped(tuns, id, oldId, next, tuns')
    requires next.Some? ==> Twins(next.value) <= apart
    ensures Apart(TwinsOf(tuns'), x)
  {
    forall p | p in TwinsOf(tuns')
      ensures p in apart
    {
      var tn :| tn in tuns' && p in Twins(tn.mapping);
      if next.Some? && tn == Tun(next.value.(sourceId := id), IDLE) {
        assert p in Twins(next.value);
      }
    }
  }

  /** SlotSound where the session kept the twins apart. */
  lemma SlotSoundApart(f: Feed, boot: Server, a: Server, x: Server, full: nat, st: SourceState, st': SourceState,
                       tuns: seq<Tun>, tuns': seq<Tun>, prev: Tun, next: Option<Tunnel>, apart: set<(Tag, Tag)>)
    requires f.Valid() && Clear(f.Scope(), boot)
    requires Sound(f, a, full, st, tuns) && st.hashes != map[] && prev in tuns
    requires SameFile(st, st') && Swapped(tuns, f.ns.sourceId, prev.mapping.baseTunnelId, next, tuns')
    requires st'.noReplacement == st.noReplacement - {prev.mapping.baseTunnelId} ||
             (next.None? && st'.noReplacement == st.noReplacement + {prev.mapping.baseTunnelId})
    requires next.Some? ==> WellFormed(next.value, f.ns) && next.value.port == prev.mapping.port && next.value.baseTunnelId !in Bases(tuns)
    requires TwinsOf(tuns) <= apart && Apart(apart, x) && (next.Some? ==> Twins(next.value) <= apart)
    requires st'.hashes != map[] ==> Changed(boot, a, x, Some(prev.mapping), next)
    ensures Sound(f, x, full, st', tuns')
    ensures Bases(tuns') == Bases(tuns) - {prev.mapping.baseTunnelId} + if next.Some? then {next.value.baseTunnelId} else {}
  {
    TwinsSpread(tuns, tuns', f.ns.sourceId, prev.mapping.baseTunnelId, next, apart, x);
    SlotSound(f, boot, a, x, full, st, st', tuns, tuns', prev, next);
  }

  // ---- both

  ghost predicate Ready(c: Client, tg: TargetState.Target, f: Feed, full: nat)
    reads c, tg
  {
    && Open(c, f) && tg.Valid() && f.ns.sourceId in tg.sources
    && Sound(f, c.x, full, tg.sources[f.ns.sourceId], Block(tg.tunnels, f.ns.sourceId))
  }

  /** The memory half of a removal, after Xray went from a to x. */
  method FinishRemoval(tg: TargetState.Target, ghost f: Feed, ghost boot: Server, ghost a: Server, ghost x: Server, ghost full: nat,
                       id: string, tun: Tun, ok: bool, ghost apart: set<(Tag, Tag)>)
    requires f.Valid() && Clear(f.Scope(), boot) && id == f.ns.sourceId
    requires tg.Valid() && id in tg.sources && Sound(f, a, full, tg.sources[id], Block(tg.tunnels, id))
    requires tun in Block(tg.tunnels, id) && tg.sources[id].hashes != map[]
    requires TwinsOf(Block(tg.tunnels, id)) <= apart && Apart(apart, x)
    requires ok ==> Changed(boot, a, x, Some(tun.mapping), None)
    modifies tg
    ensures Settled(tg, id, tun.mapping.baseTunnelId, None, ok) && Sound(f, x, full, tg.sources[id], Block(tg.tunnels, id))
    ensures Bases(Block(tg.tunnels, id)) == Bases(old(Block(tg.tunnels, id))) - {tun.mapping.baseTunnelId}
  {
    ghost var st, tuns := tg.sources[id], Block(tg.tunnels, id);
    Forget(tg, id, tun.mapping.baseTunnelId, ok);
    SlotSoundApart(f, boot, a, x, full, st, tg.sources[id], tuns, Block(tg.tunnels, id), tun, None, apart);
  }

  /** A sync removes a tunnel for which there is no replacement. */
  method RemoveSlot(c: Client, tg: TargetState.Target, ghost f: Feed, ghost full: nat, id: string, tun: Tun)
    returns (ruleErr: Error, err: Error)
    requires Ready(c, tg, f, full) && id == f.ns.sourceId
    requires tun in Block(tg.tunnels, id) && tg.sources[id].hashes != map[]
    modifies c, tg
    ensures Ready(c, tg, f, full) && OneSession(c, f, old(Block(tg.tunnels, id)))
    ensures Settled(tg, id, tun.mapping.baseTunnelId, None, err == Nil)
    ensures Bases(Block(tg.tunnels, id)) == Bases(old(Block(tg.tunnels, id))) - {tun.mapping.baseTunnelId}
  {
    ghost var a := c.x;
    ruleErr, err := XRemove(c, f, Block(tg.tunnels, id), tun.mapping);
    FinishRemoval(tg, f, c.boot, a, c.x, full, id, tun, err == Nil, c.session.apart);
  }

  /** The memory half of a replacement. */
  method FinishReplacement(tg: TargetState.Target, ghost f: Feed, ghost boot: Server, ghost a: Server, ghost x: Server, ghost full: nat,
                           id: string, tun: Tun, next: Tunnel, ok: bool, ghost apart: set<(Tag, Tag)>)
    requires f.Valid() && Clear(f.Scope(), boot) && id == f.ns.sourceId
    requires tg.Valid() && id in tg.sources && Sound(f, a, full, tg.sources[id], Block(tg.tunnels, id))
    requires tun in Block(tg.tunnels, id) && tg.sources[id].hashes != map[]
    requires WellFormed(next, f.ns) && next.port == tun.mapping.port && next.baseTunnelId !in Bases(Block(tg.tunnels, id))
    requires TwinsOf(Block(tg.tunnels, id)) <= apart && Twins(next) <= apart && Apart(apart, x)
    requires ok ==> Changed(boot, a, x, Some(tun.mapping), Some(next))
    modifies tg
    ensures Settled(tg, id, tun.mapping.baseTunnelId, if ok then Some(next) else None, ok)
    ensures Sound(f, x, full, tg.sources[id], Block(tg.tunnels, id))
    ensures Bases(Block(tg.tunnels, id)) ==
            Bases(old(Block(tg.tunnels, id))) - {tun.mapping.baseTunnelId} + if ok then {next.baseTunnelId} else {}
  {
    ghost var st, tuns := tg.sources[id], Block(tg.tunnels, id);
    Reseat(tg, id, tun.mapping.baseTunnelId, next, ok);
    ghost var slot := if ok then Some(next) else None;
    SlotSoundApart(f, boot, a, x, full, st, tg.sources[id], tuns, Block(tg.tunnels, id), tun, slot, apart);
  }

  /** next takes the slot and the port of a tunnel. */
  method ReplaceSlot(c: Client, tg: TargetState.Target, ghost f: Feed, ghost full: nat, id: string, tun: Tun, next: Tunnel)
    returns (ruleErr: Error, err: Error)
    requires Ready(c, tg, f, full) && id == f.ns.sourceId
    requires tun in Block(tg.tunnels, id) && tg.sources[id].hashes != map[]
    requires WellFormed(next, f.ns) && next.port == tun.mapping.port && next.baseTunnelId !in Bases(Block(tg.tunnels, id))
    modifies c, tg
    ensures Ready(c, tg, f, full) && OneSession(c, f, old(Block(tg.tunnels, id))) && Exclusive(tun.mapping, next) <= c.session.apart
    ensures Settled(tg, id, tun.mapping.baseTunnelId, if err == Nil then Some(next) else None, err == Nil)
    ensures Bases(Block(tg.tunnels, id)) ==
            Bases(old(Block(tg.tunnels, id))) - {tun.mapping.baseTunnelId} + if err == Nil then {next.baseTunnelId} else {}
  {
    ghost var a := c.x;
    ruleErr, err := XReplace(c, f, full, Block(tg.tunnels, id), tun.mapping, next);
    assert Twins(next) <= Exclusive(tun.mapping, next);
    FinishReplacement(tg, f, c.boot, a, c.x, full, id, tun, next, err == Nil, c.session.apart);
  }

  /** The memory half of a fill: a failed one only empties the hashes. */
  method FinishFill(tg: TargetState.Target, ghost f: Feed, ghost boot: Server, ghost a: Server, ghost x: Server, ghost full: nat,
                    id: string, next: Tunnel, ok: bool, ghost apart: set<(Tag, Tag)>)
    requires f.Valid() && Clear(f.Scope(), boot) && id == f.ns.sourceId
    requires tg.Valid() && id in tg.sources && Sound(f, a, full, tg.sources[id], Block(tg.tunnels, id))
    requires tg.sources[id].hashes != map[] && |Block(tg.tunnels, id)| < f.maxActive
    requires WellFormed(next, f.ns) && next.baseTunnelId !in Bases(Block(tg.tunnels, id))
    requires f.start <= next.port < f.start + f.maxActive
    requires forall tn :: tn in Block(tg.tunnels, id) ==> tn.mapping.port != next.port
    requires TwinsOf(Block(tg.tunnels, id)) <= apart && Twins(next) <= apart && Apart(apart, x)
    requires ok ==> Changed(boot, a, x, None, Some(next))
    modifies tg
    ensures tg.OthersKept(id) && tg.Valid() && id in tg.sources && Sound(f, x, full, tg.sources[id], Block(tg.tunnels, id))
    ensures SameFile(old(tg.sources)[id], tg.sources[id])
    ensures if ok then Settled(tg, id, "", Some(next), true) else tg.tunnels == old(tg.tunnels) && tg.sources[id].hashes == map[]
    ensures Bases(Block(tg.tunnels, id)) == Bases(old(Block(tg.tunnels, id))) + if ok then {next.baseTunnelId} else {}
    ensures ok ==> |Block(tg.tunnels, id)| == old(|Block(tg.tunnels, id)|) + 1
  {
    ghost var st, tuns := tg.sources[id], Block(tg.tunnels, id);
    if ok {
      Seat(tg, id, next);
      TwinsSpread(tuns, Block(tg.tunnels, id), id, "", Some(next), apart, x);
      FillSound(f, boot, a, x, full, st, tg.sources[id], tuns, Block(tg.tunnels, id), next);
    } else {
      tg.ResetSourceHashes(id);
      assert TwinsOf(tuns) <= apart;
    }
  }

  /** next takes an empty slot. */
  method FillSlot(c: Client, tg: TargetState.Target, ghost f: Feed, ghost full: nat, id: string, next: Tunnel) returns (err: Error)
    requires Ready(c, tg, f, full) && id == f.ns.sourceId
    requires tg.sources[id].hashes != map[] && |Block(tg.tunnels, id)| < f.maxActive
    requires WellFormed(next, f.ns) && next.baseTunnelId !in Bases(Block(tg.tunnels, id))
    requires f.start <= next.port < f.start + f.maxActive
    requires forall tn :: tn in Block(tg.tunnels, id) ==> tn.mapping.port != next.port
    modifies c, tg
    ensures Ready(c, tg, f, full) && OneSession(c, f, old(Block(tg.tunnels, id))) && tg.OthersKept(id)
    ensures SameFile(old(tg.sources)[id], tg.sources[id])
    ensures if err == Nil then Settled(tg, id, "", Some(next), true) else tg.tunnels == old(tg.tunnels) && tg.sources[id].hashes == map[]
    ensures Bases(Block(tg.tunnels, id)) == Bases(old(Block(tg.tunnels, id))) + if err == Nil then {next.baseTunnelId} else {}
    ensures err == Nil ==> |Block(tg.tunnels, id)| == old(|Block(tg.tunnels, id)|) + 1
  {
    ghost var a := c.x;
    err := XAdd(c, f, full, Block(tg.tunnels, id), next);
    FinishFill(tg, f, c.boot, a, c.x, full, id, next, err == Nil, c.session.apart);
  }
}
