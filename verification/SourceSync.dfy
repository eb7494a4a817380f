/** A sync of a candidate source and the replacement of a failed tunnel, each under the target
    lock (internal/scd/syncer/wireguard.go, internal/scd/monitor/replace.go). */
module SourceSync {
  import opened Namespaces
  import opened SourceRules
  import opened Selection
  import opened Decide
  import opened XrayApi
  import opened Topology
  import opened TunnelCalls
  import opened RepairCalls
  import opened TargetState
  import opened Slots
  import opened Repairs
  import opened Plans
  import opened FullApply
  import opened ApplyTunnels
  import opened SlotSync
  import opened FailureCounts

  /** strings.TrimPrefix. */
  function TrimPrefix(s: string, p: string): string {
    if HasPrefix(s, p) then s[|p|..] else s
  }

  /** Xray has neither a managed id nor, for a repaired outbound, its unprefixed form. */
  predicate Lacks(have: set<Tag>, ids: seq<Tag>, prefix: string) {
    exists i :: 0 <= i < |ids| && ids[i] !in have && TrimPrefix(ids[i], prefix) !in have
  }

  /** The ids the plan of a kind manages. */
  function ManagedIds(kind: Kind, topo: seq<Tunnel>): seq<Tag> {
    seq(|topo|, i requires 0 <= i < |topo| =>
      match kind
      case KindOutbound => topo[i].outboundInitial.tag
      case KindInbound => topo[i].inboundTag
      case KindRouting => topo[i].routeTag)
  }

  /** Xray lost a managed resource of some kind. */
  predicate Drifted(x: Server, topo: seq<Tunnel>, prefix: string) {
    exists kind :: Lacks(TagsOf(x, kind), ManagedIds(kind, topo), prefix)
  }

  method AnyLacking(have: set<Tag>, ids: seq<Tag>, prefix: string) returns (r: bool)
    ensures r <==> Lacks(have, ids, prefix)
  {
    r := false;
    for i := 0 to |ids|
      invariant r <==> exists j :: 0 <= j < i && ids[j] !in have && TrimPrefix(ids[j], prefix) !in have
    {
      if ids[i] !in have && TrimPrefix(ids[i], prefix) !in have {
        r := true;
      }
    }
  }

  /** The tags of one kind, listed. */
  method ListKind(c: Client, kind: Kind) returns (have: set<Tag>, err: Error)
    requires c.Valid()
    modifies c
    ensures c.Valid() && c.Looked() && c.Tallied(err) && (err == Nil || err == RpcError)
    ensures err == Nil ==> have == TagsOf(c.x, kind)
  {
    match kind {
      case KindOutbound =>
        var list;
        list, err := c.ListOutbounds();
        have := set h | h in list :: h.tag;
        assert err == Nil ==> forall tag :: tag in c.x.outbounds ==> Outbound(tag, c.x.outbounds[tag]) in list;
      case KindInbound =>
        var list;
        list, err := c.ListInbounds();
        have := set h | h in list :: h.tag;
        assert err == Nil ==>
            forall tag :: tag in c.x.inbounds ==> Inbound(tag, c.x.inbounds[tag].listen, c.x.inbounds[tag].port) in list;
      case KindRouting =>
        var list;
        list, err := c.ListRules();
        have := set r | r in list :: r.ruleTag;
    }
  }

  /** missingIn: whether the target lacks resources of the topology; a failed list counts as none
      missing. */
  method MissingIn(c: Client, topo: seq<Tunnel>, prefix: string) returns (missing: bool)
    requires c.Valid()
    modifies c
    ensures c.Valid() && c.Looked() && c.lost == old(c.lost)
    ensures c.failed == old(c.failed) && c.x.restarts == old(c.x.restarts) ==> (missing <==> Drifted(c.x, topo, prefix))
    ensures c.failed != old(c.failed) ==> !missing
  {
    missing := false;
    var kinds := [KindOutbound, KindInbound, KindRouting];
    for i := 0 to |kinds|
      invariant c.Valid() && c.Looked() && c.failed == old(c.failed) && c.lost == old(c.lost)
      invariant c.x.restarts == old(c.x.restarts) ==>
                  (missing <==> exists j :: 0 <= j < i && Lacks(TagsOf(c.x, kinds[j]), ManagedIds(kinds[j], topo), prefix))
    {
      var have, err := ListKind(c, kinds[i]);
      if err != Nil {
        return false;
      }
      var lacking := AnyLacking(have, ManagedIds(kinds[i], topo), prefix);
      missing := missing || lacking;
    }
    assert kinds[0] == KindOutbound && kinds[1] == KindInbound && kinds[2] == KindRouting;
  }

  // ---- what a source keeps between operations

  /** The selection of the source counts only streaks of its decisions. */
  ghost predicate Streaks(sel: SelectionState, wins: seq<set<Win>>) {
    forall k :: k in sel.better ==> Streak(wins, k, sel.better[k])
  }

  /** What holds of the source whenever the lock is free: it is sound and, while it has hashes,
      its tunnels are those of the file of its last sync, no key running twice. */
  ghost predicate AtRest(tg: TargetState.Target, f: Feed, x: Server, full: nat, wins: seq<set<Win>>)
    reads tg
  {
    && tg.Valid() && SoundIfKnown(tg, f, x, full)
    && (f.ns.sourceId in tg.sources ==>
          && Streaks(tg.sources[f.ns.sourceId].selection, wins)
          && (tg.sources[f.ns.sourceId].hashes != map[] ==>
                Keyed(f, Block(tg.tunnels, f.ns.sourceId), tg.sources[f.ns.sourceId].candidates)))
  }

  /** The work of one operation on a source: Xray changed only inside its namespace, memory only
      for it. */
  twostate predicate Worked(c: Client, tg: TargetState.Target, f: Feed)
    reads c, tg
  {
    && Open(c, f) && tg.OthersKept(f.ns.sourceId) && old(c.trace) <= c.trace && Within(f, c.boot, old(c.x), c.x)
    && NoMoreFailures(old(Block(tg.tunnels, f.ns.sourceId)), Block(tg.tunnels, f.ns.sourceId))
  }

  /** The end of a sync: the selection and the file are saved. */
  method SaveFile(tg: TargetState.Target, ghost f: Feed, ghost x: Server, ghost full: nat, id: string, sel: SelectionState,
                  ranked: seq<Entry>, ghost wins: seq<set<Win>>)
    requires tg.Valid() && id == f.ns.sourceId && id in tg.sources && FileOk(f, ranked) && Streaks(sel, wins)
    requires Sound(f, x, full, tg.sources[id], Block(tg.tunnels, id))
    requires tg.sources[id].hashes != map[] ==> Keyed(f, Block(tg.tunnels, id), ranked)
    modifies tg`sources
    ensures AtRest(tg, f, x, full, wins) && tg.OthersKept(id) && id in tg.sources
    ensures tg.sources[id] == old(tg.sources)[id].(selection := sel, candidates := ranked)
  {
    tg.UpdateSource(id, tg.sources[id].(selection := sel, candidates := ranked));
  }

  /** decide: the decision, its actions and, if all went well, the empty slots. */
  method DecideSlots(c: Client, tg: TargetState.Target, f: Feed, ghost full: nat, ranked: seq<Entry>, cfg: Config, now: Time,
                     ghost wins: seq<set<Win>>)
    returns (err: Error, ghost x: Input, ghost run: Run, ghost wins': seq<set<Win>>)
    requires Open(c, f) && AtRest(tg, f, c.x, full, wins)
    requires f.ns.sourceId in tg.sources && tg.sources[f.ns.sourceId].hashes != map[]
    requires FileOk(f, ranked) && cfg.switchConfirmChecks >= 1
    modifies c, tg
    ensures Worked(c, tg, f) && AtRest(tg, f, c.x, full, wins') && DecidedNext(x, run, wins, wins') && SwitchesConfirmed(x, run, wins')
    ensures x == Input(SlotsOf(old(Block(tg.tunnels, f.ns.sourceId)), old(tg.sources)[f.ns.sourceId].candidates, ranked), Candidates(ranked),
                       old(tg.sources)[f.ns.sourceId].selection.quarantine, old(tg.sources)[f.ns.sourceId].selection.better, now, cfg)
    ensures Decided(f, old(Block(tg.tunnels, f.ns.sourceId)), x, run, ranked) && KeysApart(f, Bases(old(Block(tg.tunnels, f.ns.sourceId))))
    ensures f.ns.sourceId in tg.sources && (err == Nil <==> tg.sources[f.ns.sourceId].hashes != map[])
  {
    var id := f.ns.sourceId;
    var slots, last, sel := Block(tg.tunnels, id), tg.sources[id].candidates, tg.sources[id].selection;
    BlockIsDistinct(tg, id);
    KeyedApart(f, slots, last);
    SlotsAreValid(f, slots, last, ranked);
    var st := new State.Clone(sel.quarantine, sel.better, wins);
    var actions;
    actions, run := st.Decide(SlotsOf(slots, last, ranked), Candidates(ranked), now, cfg);
    x := Input(SlotsOf(slots, last, ranked), Candidates(ranked), sel.quarantine, sel.better, now, cfg);
    DecisionCanBeCarriedOut(f, slots, x, run, ranked);
    err := CarryOutAndFill(c, tg, f, full, slots, x, run, actions, ranked, st.quarantine, now);
    wins' := st.wins;
    SaveFile(tg, f, c.x, full, id, SelectionState(st.quarantine, st.better), ranked, wins');
  }

  method CarryOutAndFill(c: Client, tg: TargetState.Target, f: Feed, ghost full: nat, slots: seq<Tun>, ghost x: Input, ghost run: Run,
                         actions: seq<Action>, ranked: seq<Entry>, quarantine: map<PairKey, Time>, now: Time)
    returns (err: Error)
    requires Ready(c, tg, f, full) && Decided(f, slots, x, run, ranked) && actions == run.actions
    requires slots == Block(tg.tunnels, f.ns.sourceId) && tg.sources[f.ns.sourceId].hashes != map[]
    modifies c, tg
    ensures Worked(c, tg, f) && Ready(c, tg, f, full)
    ensures if err == Nil
            then tg.sources[f.ns.sourceId].hashes != map[] && Keyed(f, Block(tg.tunnels, f.ns.sourceId), ranked)
            else tg.sources[f.ns.sourceId].hashes == map[]
  {
    ghost var a := c.x;
    err := CarryOut(c, tg, f, full, slots, actions, ranked);
    if err == Nil {
      DecidedIsKeyed(f, slots, x, run, ranked, Block(tg.tunnels, f.ns.sourceId));
      err := Fill(c, tg, f, full, a, ranked, quarantine, now);
    }
  }

  lemma DecisionCanBeCarriedOut(f: Feed, slots: seq<Tun>, x: Input, r: Run, ranked: seq<Entry>)
    requires FileOk(f, ranked) && DistinctBases(slots) && x.Valid() && Decides(x, r) && x.ranked == Candidates(ranked) && |x.active| == |slots|
    requires forall i :: 0 <= i < |slots| ==> x.active[i].candidate.tag == slots[i].mapping.baseTunnelId
    ensures Decided(f, slots, x, r, ranked)
  {
    DecisionIsSound(x, r);
    var fin := Final(x.active, x.ranked, r.actions);
    forall i | 0 <= i < |slots| && r.actions[i].Replace?
      ensures InFile(ranked, r.actions[i].to.tag) && r.actions[i].to.tag !in Bases(slots)
    {
      var to := r.actions[i].to;
      assert SoundAction(x, i, r.actions[i]);
      assert IsNew(x, to);
      var k :| 0 <= k < |ranked| && ranked[k].candidate == to;
      assert ranked[k] in ranked;
      forall tn | tn in slots
        ensures tn.mapping.baseTunnelId != to.tag
      {
        var j :| 0 <= j < |slots| && slots[j] == tn;
        assert x.active[j].candidate.tag in ActiveTags(x.active);
      }
    }
    forall i, j | 0 <= i < j < |slots| && r.actions[i].Replace? && r.actions[j].Replace?
      ensures r.actions[i].to.tag != r.actions[j].to.tag
    {
      assert fin[i] == Some(r.actions[i].to) && fin[j] == Some(r.actions[j].to);
    }
  }

  // ---- a sync

  /** The selection a sync starts from: that of the source, or an empty one. */
  function SelectionOf(tg: TargetState.Target, id: string): SelectionState
    reads tg
  {
    if id in tg.sources then tg.sources[id].selection else SelectionState(map[], map[])
  }

  /** A read of Xray under a session of the source. */
  method CheckDrift(c: Client, tg: TargetState.Target, f: Feed, ghost full: nat, ghost wins: seq<set<Win>>) returns (missing: bool)
    requires Open(c, f) && AtRest(tg, f, c.x, full, wins) && f.ns.sourceId in tg.sources
    modifies c
    ensures Open(c, f) && Within(f, c.boot, old(c.x), c.x) && old(c.trace) <= c.trace && AtRest(tg, f, c.x, full, wins)
    ensures c.x == Base(c.boot, old(c.x), c.x) && c.lost == old(c.lost)
    ensures Parted(c, Block(tg.tunnels, f.ns.sourceId), false, |c.trace|)
    ensures c.failed == old(c.failed) && c.x.restarts == old(c.x.restarts) ==>
              (missing <==> Drifted(c.x, tg.sources[f.ns.sourceId].topology, f.t.obsPrefix))
    ensures c.failed != old(c.failed) ==> !missing
  {
    ghost var tuns := Block(tg.tunnels, f.ns.sourceId);
    ghost var a := c.x;
    BeginSlot(c, f, tuns, {});
    missing := MissingIn(c, tg.sources[f.ns.sourceId].topology, f.t.obsPrefix);
    SessionStays(c, f, a);
    SessionNeverBoth(c, TwinsOf(tuns));
    LookedSound(f, c.boot, a, c.x, full, tg.sources[f.ns.sourceId], tuns);
  }

  /** Reading keeps a source sound: Xray is as it was or freshly booted. */
  lemma LookedSound(f: Feed, boot: Server, a: Server, x: Server, full: nat, st: SourceState, tuns: seq<Tun>)
    requires f.Valid() && Clear(f.Scope(), boot) && Sound(f, a, full, st, tuns)
    requires a.restarts <= x.restarts && x == Base(boot, a, x)
    ensures Sound(f, x, full, st, tuns)
  {
    BootIsClear(f, boot, tuns);
    if x != a {
      assert Owned(f.t, f.ns, x) == Owned(f.t, f.ns, boot) && MineIn(f.Scope(), x) == MineIn(f.Scope(), boot);
    }
  }

  datatype SyncResult = NotDialed | FullApply(failed: bool) | SlotChanges(ok: bool)

  /** syncWireGuard: a source without state or hashes, of another configuration or with resources
      missing in Xray is applied in full; otherwise single slots change. full' is the restart
      count at the last successful full apply. */
  method SyncSource(c: Client, tg: TargetState.Target, f: Feed, ghost full: nat, file: seq<Entry>, cfg: Config, configHash: string,
                    dialed: bool, now: Time, ghost wins: seq<set<Win>>)
    returns (r: SyncResult, ghost full': nat, ghost wins': seq<set<Win>>, ghost rolled: nat, ghost met: bool, ghost mid: nat)
    requires Open(c, f) && AtRest(tg, f, c.x, full, wins) && FileOk(f, file) && cfg.switchConfirmChecks >= 1
    modifies c, tg
    ensures Worked(c, tg, f) && AtRest(tg, f, c.x, full', wins')
    ensures wins <= wins'
    ensures r == NotDialed <==> !dialed
    ensures r.NotDialed? ==> c.x == old(c.x) && tg.sources == old(tg.sources) && tg.tunnels == old(tg.tunnels)
    ensures r.SlotChanges? ==> f.ns.sourceId in old(tg.sources) && old(tg.sources)[f.ns.sourceId].hashes != map[] &&
                               old(tg.sources)[f.ns.sourceId].configHash == configHash
    ensures !r.NotDialed? && f.ns.sourceId in tg.sources ==>
              (tg.sources[f.ns.sourceId].hashes != map[] <==> r == FullApply(false) || r == SlotChanges(true))
    ensures r == FullApply(false) ==> f.ns.sourceId in tg.sources && full' >= old(c.x.restarts)
    ensures r.FullApply? ==>
              AppliedInFull(c, tg, f, file, cfg.strategy, now, old(SelectionOf(tg, f.ns.sourceId)), old(Block(tg.tunnels, f.ns.sourceId)),
                            old(c.x), |old(c.trace)|, old(c.lost), r.failed, rolled, met, mid)
  {
    full', wins', rolled, met, mid := full, wins, 0, false, 0;
    var id := f.ns.sourceId;
    tg.MarkSynced();
    var ranked := RankEntries(file, cfg.strategy);
    RankedIsFile(f, file, ranked);
    if !dialed {
      return NotDialed, full', wins', rolled, met, mid;
    }
    ghost var a := c.x;
    var needed, drifted := NeedsFull(c, tg, f, full, configHash, wins);
    if needed {
      r, full', rolled, met, mid := SyncFull(c, tg, f, full, file, ranked, cfg.strategy, configHash, drifted, now, wins, a, |old(c.trace)|);
    } else {
      r, wins' := SyncSlots(c, tg, f, full, ranked, cfg, now, wins, a);
    }
  }

  /** Whether a sync applies the source in full, and whether because Xray lost resources of it;
      reading Xray changes nothing. */
  method NeedsFull(c: Client, tg: TargetState.Target, f: Feed, ghost full: nat, configHash: string, ghost wins: seq<set<Win>>)
    returns (needed: bool, drifted: bool)
    requires Open(c, f) && AtRest(tg, f, c.x, full, wins)
    modifies c
    ensures Open(c, f) && Within(f, c.boot, old(c.x), c.x) && old(c.trace) <= c.trace && AtRest(tg, f, c.x, full, wins)
    ensures c.x == Base(c.boot, old(c.x), c.x) && c.lost == old(c.lost)
    ensures Parted(c, Block(tg.tunnels, f.ns.sourceId), false, |c.trace|)
    ensures !needed ==> f.ns.sourceId in tg.sources && tg.sources[f.ns.sourceId].hashes != map[] &&
                        tg.sources[f.ns.sourceId].configHash == configHash
    ensures !needed && c.failed == old(c.failed) && c.x.restarts == old(c.x.restarts) ==>
              !Drifted(c.x, tg.sources[f.ns.sourceId].topology, f.t.obsPrefix)
    ensures drifted ==> needed && f.ns.sourceId in tg.sources
  {
    var id := f.ns.sourceId;
    needed, drifted := id !in tg.sources || tg.sources[id].hashes == map[] || tg.sources[id].configHash != configHash, false;
    if !needed {
      drifted := CheckDrift(c, tg, f, full, wins);
      needed := drifted;
    }
  }

  /** logDrift: the tunnels of the source start over. */
  method NoteDrift(tg: TargetState.Target, ghost f: Feed, ghost x: Server, ghost full: nat, id: string, ghost wins: seq<set<Win>>)
    requires AtRest(tg, f, x, full, wins)
    modifies tg`stateLost
    ensures AtRest(tg, f, x, full, wins) && tg.stateLost == old(tg.stateLost) + {id}
  {
    tg.SetStateLost(id);
  }

  lemma RankedIsFile(f: Feed, file: seq<Entry>, ranked: seq<Entry>)
    requires FileOk(f, file) && SameEntries(file, ranked)
    ensures FileOk(f, ranked)
  {
  }

  /** What a sync by a full apply of the file does that began in state a of Xray, with the
      selection sel, the tunnels tuns, a history of length from and lost answers. It keeps the
      selection with its counters; if it works the tunnels run the best candidates; and no tunnel
      of tuns ever has both its outbounds unless the apply failed, an answer was lost or a call of
      the rollback failed, and a tunnel on its bare outbound may have been picked again: then up to
      the restore, at state mid. */
  ghost predicate AppliedInFull(c: Client, tg: TargetState.Target, f: Feed, file: seq<Entry>, strategy: Strategy, now: Time,
                                sel: SelectionState, tuns: seq<Tun>, a: Server, from: nat, lost: nat,
                                failed: bool, rolled: nat, met: bool, mid: nat)
    reads c, tg
  {
    var id := f.ns.sourceId;
    && (id in tg.sources ==> tg.sources[id].selection == sel)
    && (!failed ==> id in tg.sources && RunsBest(f, file, strategy, sel.quarantine, now, Bases(tuns), Block(tg.tunnels, id)))
    && NeverBoth(c.trace, from, if met then mid else |c.trace|, TwinsOf(tuns))
    && (met ==> from <= mid && failed && !(c.lost == lost && rolled == 0) && MayBeRepicked(f, file, sel.quarantine, now, a, tuns))
  }

  method SyncFull(c: Client, tg: TargetState.Target, f: Feed, ghost full: nat, file: seq<Entry>, ranked: seq<Entry>, strategy: Strategy,
                  configHash: string, drifted: bool, now: Time, ghost wins: seq<set<Win>>, ghost a: Server, ghost from: nat)
    returns (r: SyncResult, ghost full': nat, ghost rolled: nat, ghost met: bool, ghost mid: nat)
    requires Open(c, f) && AtRest(tg, f, c.x, full, wins) && Within(f, c.boot, a, c.x) && c.x == Base(c.boot, a, c.x)
    requires FileOk(f, file) && FileOk(f, ranked) && forall e :: e in file ==> e in ranked
    requires from <= |c.trace| && NeverBoth(c.trace, from, |c.trace|, TwinsOf(Block(tg.tunnels, f.ns.sourceId)))
    modifies c, tg
    ensures Open(c, f) && tg.OthersKept(f.ns.sourceId) && old(c.trace) <= c.trace && Within(f, c.boot, a, c.x)
    ensures NoMoreFailures(old(Block(tg.tunnels, f.ns.sourceId)), Block(tg.tunnels, f.ns.sourceId))
    ensures AtRest(tg, f, c.x, full', wins) && r.FullApply?
    ensures f.ns.sourceId in tg.sources ==> (tg.sources[f.ns.sourceId].hashes != map[] <==> r == FullApply(false))
    ensures r == FullApply(false) ==> f.ns.sourceId in tg.sources && full' == old(c.x.restarts)
    ensures AppliedInFull(c, tg, f, file, strategy, now, old(SelectionOf(tg, f.ns.sourceId)), old(Block(tg.tunnels, f.ns.sourceId)),
                          a, from, old(c.lost), r.failed, rolled, met, mid)
  {
    if drifted {
      NoteDrift(tg, f, c.x, full, f.ns.sourceId, wins);
    }
    ghost var b, before := c.x, c.trace;
    var tuns, sel := Block(tg.tunnels, f.ns.sourceId), SelectionOf(tg, f.ns.sourceId);
    BlockOfUnknown(tg, f.ns.sourceId);
    var failed;
    failed, rolled, met, mid := Full(c, tg, f, full, file, ranked, strategy, configHash, sel, Bases(tuns), now, tuns);
    WithinTransitive(f, c.boot, a, b, c.x);
    PartedAfterLook(c.trace, before, from, mid, TwinsOf(tuns));
    if met {
      RepickedBefore(f, file, sel.quarantine, now, c.boot, a, b, tuns);
    }
    r, full' := FullApply(failed), if failed then full else b.restarts;
  }

  // ---- counters after a full apply

  const SlowA := Candidate("s-A", "", None, Some(2.0), "1", "a", "", 0)
  const FastB := Candidate("s-B", "", None, Some(1.0), "2", "b", "", 0)

  /** A runs, B is better; two decisions in a row must find so. */
  function AfterWins(better: map<(Tag, Tag), nat>): Input {
    Input([Slot(SlowA, true)], [FastB, SlowA], map[], better, 0, Config(ByScore, 0, 2, 0, 1))
  }

  /** A full apply keeps the counters (AppliedInFull), and that shows: with the count of one win
      from before it the next decision switches; from no counts it would keep the slot. */
  lemma CountersSurvive(sel: SelectionState, r: Run)
    requires Decides(AfterWins(sel.better), r)
    ensures sel.better == map[("s-A", "s-B") := 1] ==> r.actions == [Replace(FastB, Better)]
    ensures sel.better == map[] ==> r.actions == [Keep]
  {
    var x := AfterWins(sel.better);
    assert x.RefillStep(0, r.refill[0], r.firsts[0], r.refill[1]);
    assert ByTag([FastB, SlowA], "s-A") == Some(SlowA);
    assert r.firsts[0] == Keep && r.refill[1] == [Some(SlowA)];
    assert x.SwitchStep(0, r.switch[0], r.counts[0], r.firsts[0], r.challengers[0], r.actions[0], r.switch[1], r.counts[1]);
    BFirst(x, r.switch[0], r.challengers[0]);
  }

  lemma BFirst(x: Input, fin: Assignment, challenger: Option<Candidate>)
    requires x == AfterWins(x.better) && fin == [Some(SlowA)] && x.FirstChallenger(0, fin, SlowA, challenger)
    ensures challenger == Some(FastB)
  {
    var keys := KeysIn(fin[0 := None]);
    assert keys == {};
    assert x.active[0].candidate == SlowA && fin[0].Some?;
    assert x.ranked[0] == FastB && Beats(FastB, SlowA, x.cfg);
    assert Challenges(x.ranked, 0, SlowA, x.InUse(fin), keys, x.Live(), x.now, x.cfg);
  }

  /** What holds of a full apply holds of the sync that first looked for drift. */
  lemma PartedAfterLook(trace: seq<Server>, before: seq<Server>, from: nat, mid: nat, pairs: set<(Tag, Tag)>)
    requires before <= trace && NeverBoth(before, from, |before|, pairs) && NeverBoth(trace, |before|, mid, pairs)
    ensures NeverBoth(trace, from, mid, pairs)
  {
    forall k | from <= k < mid
      ensures k < |trace| && Apart(pairs, trace[k])
    {
      if k < |before| {
        assert before[k] == trace[k];
      }
    }
  }

  lemma RepickedBefore(f: Feed, file: seq<Entry>, quarantine: map<PairKey, Time>, now: Time, boot: Server, a: Server, b: Server, tuns: seq<Tun>)
    requires f.Valid() && Ported(f, tuns) && Clear(f.Scope(), boot) && b == Base(boot, a, b)
    requires MayBeRepicked(f, file, quarantine, now, b, tuns)
    ensures MayBeRepicked(f, file, quarantine, now, a, tuns)
  {
    forall tn | tn in tuns
      ensures tn.mapping.baseTunnelId in b.outbounds ==> tn.mapping.baseTunnelId in a.outbounds
    {
      PairTagsOwned(f, tn.mapping);
    }
  }

  method SyncSlots(c: Client, tg: TargetState.Target, f: Feed, ghost full: nat, ranked: seq<Entry>, cfg: Config, now: Time,
                   ghost wins: seq<set<Win>>, ghost a: Server)
    returns (r: SyncResult, ghost wins': seq<set<Win>>)
    requires Open(c, f) && AtRest(tg, f, c.x, full, wins) && Within(f, c.boot, a, c.x)
    requires f.ns.sourceId in tg.sources && tg.sources[f.ns.sourceId].hashes != map[]
    requires FileOk(f, ranked) && cfg.switchConfirmChecks >= 1
    modifies c, tg
    ensures Open(c, f) && tg.OthersKept(f.ns.sourceId) && old(c.trace) <= c.trace && Within(f, c.boot, a, c.x)
    ensures NoMoreFailures(old(Block(tg.tunnels, f.ns.sourceId)), Block(tg.tunnels, f.ns.sourceId))
    ensures AtRest(tg, f, c.x, full, wins') && wins <= wins' && r.SlotChanges?
    ensures f.ns.sourceId in tg.sources ==> (tg.sources[f.ns.sourceId].hashes != map[] <==> r == SlotChanges(true))
  {
    ghost var b := c.x;
    ghost var x, run;
    var err;
    err, x, run, wins' := DecideSlots(c, tg, f, full, ranked, cfg, now, wins);
    WithinTransitive(f, c.boot, a, b, c.x);
    r := SlotChanges(err == Nil);
  }
}
