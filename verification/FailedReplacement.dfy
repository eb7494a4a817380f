/** The replacement of a tunnel whose checks keep failing, under the target lock
    (internal/scd/monitor/replace.go, ReplaceFailed). */
module FailedReplacement {
  import opened Namespaces
  import opened SourceRules
  import opened Selection
  import opened Decide
  import opened XrayApi
  import opened Topology
  import opened TunnelCalls
  import opened RepairCalls
  import opened TargetState
  import opened Slots
  import opened Repairs
  import opened Plans
  import opened FullApply
  import opened SlotSync
  import opened SourceSync
  import opened FailureCounts

  /** How a replacement ends. NotReplaced: the tunnel is gone, its source waits for a dependency
      or for a full apply. */
  datatype Ending = NotReplaced | NoClient | ListFailed | InboundGone | DependencyWaits | NoCandidate | Swap(to: Entry) | SwapFailed

  /** The quarantine with the pair of the failed tunnel, when its candidate is known. */
  function Quarantining(quarantine: map<PairKey, Time>, file: seq<Entry>, tag: Tag, now: Time, minutes: nat): map<PairKey, Time> {
    if InFile(file, tag) then quarantine[PairOf(EntryOf(file, tag).value.candidate) := now + minutes * MINUTE] else quarantine
  }

  /** The tunnels other than the one with the given tag. */
  function OtherTuns(tuns: seq<Tun>, tag: Tag): (r: seq<Tun>)
    ensures forall tn :: tn in r <==> tn in tuns && tn.mapping.baseTunnelId != tag
  {
    if tuns == [] then []
    else
      var n := |tuns| - 1;
      assert tuns == tuns[..n] + [tuns[n]];
      OtherTuns(tuns[..n], tag) + if tuns[n].mapping.baseTunnelId == tag then [] else [tuns[n]]
  }

  /** Which entries may take the slot of a failed tunnel: not active, of a key no other tunnel
      has, and outside quarantine. */
  predicate MayTake(e: Entry, tuns: seq<Tun>, tag: Tag, file: seq<Entry>, quarantine: map<PairKey, Time>, now: Time) {
    Allowed(e.candidate, Bases(tuns), KnownKeys(OtherTuns(tuns, tag), file), quarantine, now)
  }

  /** e is the first entry of the file that may. */
  ghost predicate FirstToTake(e: Entry, tuns: seq<Tun>, tag: Tag, file: seq<Entry>, quarantine: map<PairKey, Time>, now: Time) {
    exists i :: 0 <= i < |file| && file[i] == e && MayTake(e, tuns, tag, file, quarantine, now) &&
                forall j :: 0 <= j < i ==> !MayTake(file[j], tuns, tag, file, quarantine, now)
  }

  method ChooseFor(f: Feed, tuns: seq<Tun>, tag: Tag, file: seq<Entry>, quarantine: map<PairKey, Time>, now: Time) returns (e: Option<Entry>)
    requires FileOk(f, file) && tag in Bases(tuns)
    ensures e.Some? ==> FirstToTake(e.value, tuns, tag, file, quarantine, now)
    ensures e.None? ==> forall x :: x in file ==> !MayTake(x, tuns, tag, file, quarantine, now)
  {
    var active := {tag} + set tn | tn in OtherTuns(tuns, tag) :: tn.mapping.baseTunnelId;
    assert active == Bases(tuns);
    var next := Replacement(Candidates(file), active, KnownKeys(OtherTuns(tuns, tag), file), quarantine, now);
    if next.None? {
      forall x | x in file
        ensures !MayTake(x, tuns, tag, file, quarantine, now)
      {
        var k :| 0 <= k < |file| && file[k] == x;
        assert Candidates(file)[k] == x.candidate;
      }
      return None;
    }
    var entry := EntryOfCandidate(file, next.value);
    e := Some(entry);
    ghost var keys := KnownKeys(OtherTuns(tuns, tag), file);
    ghost var i :| 0 <= i < |file| && Candidates(file)[i] == next.value && Allowed(next.value, active, keys, quarantine, now) &&
                   forall j :: 0 <= j < i ==> !Allowed(Candidates(file)[j], active, keys, quarantine, now);
    assert file[i] in file;
    EntryIsUnique(file, file[i], entry);
    assert forall j :: 0 <= j < i ==> !MayTake(file[j], tuns, tag, file, quarantine, now);
  }

  /** hasInbound under a session of the source. */
  method Look(c: Client, tg: TargetState.Target, f: Feed, ghost full: nat, ghost wins: seq<set<Win>>, inboundTag: Tag)
    returns (present: bool, err: Error)
    requires Open(c, f) && AtRest(tg, f, c.x, full, wins) && f.ns.sourceId in tg.sources
    modifies c
    ensures Open(c, f) && Within(f, c.boot, old(c.x), c.x) && old(c.trace) <= c.trace && AtRest(tg, f, c.x, full, wins)
    ensures c.x == Base(c.boot, old(c.x), c.x)
    ensures err == Nil ==> (present <==> inboundTag in c.x.inbounds)
  {
    ghost var tuns := Block(tg.tunnels, f.ns.sourceId);
    ghost var a := c.x;
    BeginSlot(c, f, tuns, {});
    present, err := HasInbound(c, inboundTag);
    SessionStays(c, f, a);
    LookedSound(f, c.boot, a, c.x, full, tg.sources[f.ns.sourceId], tuns);
  }

  /** The selection of a source after its tunnel was judged dead. */
  function Judged(st: SourceState, tag: Tag, now: Time, cfg: Config): SelectionState
    requires cfg.deadPairCooldownMinutes >= 0
  {
    st.selection.(quarantine := Quarantining(st.selection.quarantine, st.candidates, tag, now, cfg.deadPairCooldownMinutes))
  }

  /** What a replacement of the tunnel with the given tag does to the source's state st and its
      tunnels tuns. The first candidate that may takes the slot, on the port of the tunnel; all
      other tunnels are as they were. */
  ghost predicate Outcome(f: Feed, st: SourceState, tuns: seq<Tun>, st': SourceState, tuns': seq<Tun>, tag: Tag, cfg: Config, now: Time, r: Ending)
    requires cfg.deadPairCooldownMinutes >= 0
  {
    match r
    case InboundGone => st' == st.(hashes := map[]) && Bases(tuns') == Bases(tuns)
    case NoCandidate =>
      && st' == st.(selection := Judged(st, tag, now, cfg), noReplacement := st.noReplacement + {tag}) && tuns' == tuns
      && forall e :: e in st.candidates ==> !MayTake(e, tuns, tag, st.candidates, st'.selection.quarantine, now)
    case Swap(to) =>
      && st'.selection == Judged(st, tag, now, cfg) && st'.hashes != map[]
      && FirstToTake(to, tuns, tag, st.candidates, st'.selection.quarantine, now)
      && TookSlot(f, tuns, tag, to, tuns')
    case SwapFailed =>
      && st'.selection == Judged(st, tag, now, cfg) && st'.hashes == map[]
      && Swapped(tuns, f.ns.sourceId, tag, None, tuns')
    case _ => st' == st && tuns' == tuns
  }

  /** The entry runs idle on the port of the tunnel with the given tag, in its place. */
  ghost predicate TookSlot(f: Feed, tuns: seq<Tun>, tag: Tag, e: Entry, tuns': seq<Tun>) {
    exists was :: was in tuns && was.mapping.baseTunnelId == tag &&
                  Swapped(tuns, f.ns.sourceId, tag, Some(f.TunnelOf(e, was.mapping.port)), tuns')
  }

  /** Memory when no candidate may take the slot. */
  method NoteNoCandidate(tg: TargetState.Target, ghost f: Feed, ghost x: Server, ghost full: nat, id: string, tag: Tag, sel: SelectionState,
                         ghost wins: seq<set<Win>>)
    requires AtRest(tg, f, x, full, wins) && id == f.ns.sourceId && id in tg.sources && Streaks(sel, wins)
    requires tag in Bases(Block(tg.tunnels, id))
    modifies tg`sources
    ensures AtRest(tg, f, x, full, wins) && tg.OthersKept(id) && id in tg.sources
    ensures tg.sources[id] == old(tg.sources)[id].(selection := sel, noReplacement := old(tg.sources)[id].noReplacement + {tag})
  {
    var nr := tg.sources[id].noReplacement;
    assert nr + {tag} - Bases(Block(tg.tunnels, id)) == nr - Bases(Block(tg.tunnels, id));
    tg.UpdateSource(id, tg.sources[id].(selection := sel, noReplacement := nr + {tag}));
  }

  /** The key of e is that of no tunnel but the one with the given tag. */
  predicate KeyFree(f: Feed, tuns: seq<Tun>, tag: Tag, file: seq<Entry>, e: Entry) {
    && InFile(file, e.candidate.tag) && e.candidate.tag !in Bases(tuns) && HasPrefix(e.candidate.tag, f.ns.Stem())
    && forall tn :: tn in tuns && tn.mapping.baseTunnelId != tag ==> f.keyOf(tn.mapping.baseTunnelId) != f.keyOf(e.candidate.tag)
  }

  lemma ChosenKeyFree(f: Feed, tuns: seq<Tun>, tag: Tag, file: seq<Entry>, e: Entry, quarantine: map<PairKey, Time>, now: Time)
    requires FileOk(f, file) && Keyed(f, tuns, file) && FirstToTake(e, tuns, tag, file, quarantine, now)
    ensures KeyFree(f, tuns, tag, file, e)
  {
    KeysKnown(f, OtherTuns(tuns, tag), file);
  }

  /** A replaced slot runs a key that no other tunnel has. */
  lemma ReplacedIsKeyed(f: Feed, tuns: seq<Tun>, tuns': seq<Tun>, file: seq<Entry>, tag: Tag, e: Entry)
    requires Keyed(f, tuns, file) && KeyFree(f, tuns, tag, file, e)
    requires Bases(tuns') == Bases(tuns) - {tag} + {e.candidate.tag}
    ensures Keyed(f, tuns', file)
  {
    forall tn | tn in tuns' && tn.mapping.baseTunnelId != e.candidate.tag
      ensures exists was :: was in tuns && was.mapping.baseTunnelId == tn.mapping.baseTunnelId != tag
    {
      assert tn.mapping.baseTunnelId in Bases(tuns');
    }
  }

  /** Memory after the candidate took the slot, or failed to. */
  method FinishSwap(tg: TargetState.Target, ghost f: Feed, ghost boot: Server, ghost a: Server, ghost x: Server, ghost full: nat,
                    id: string, tun: Tun, e: Entry, next: Tunnel, sel: SelectionState, ok: bool, ghost apart: set<(Tag, Tag)>,
                    ghost wins: seq<set<Win>>)
    requires f.Valid() && Clear(f.Scope(), boot) && id == f.ns.sourceId
    requires AtRest(tg, f, a, full, wins) && id in tg.sources && Streaks(sel, wins)
    requires tun in Block(tg.tunnels, id) && tg.sources[id].hashes != map[]
    requires KeyFree(f, Block(tg.tunnels, id), tun.mapping.baseTunnelId, tg.sources[id].candidates, e)
    requires next == f.TunnelOf(e, tun.mapping.port)
    requires TwinsOf(Block(tg.tunnels, id)) <= apart && Twins(next) <= apart && Apart(apart, x)
    requires ok ==> Slots.Changed(boot, a, x, Some(tun.mapping), Some(next))
    modifies tg
    ensures AtRest(tg, f, x, full, wins) && tg.OthersKept(id) && id in tg.sources
    ensures tg.sources[id].selection == sel && (ok <==> tg.sources[id].hashes != map[])
    ensures Swapped(old(Block(tg.tunnels, id)), id, tun.mapping.baseTunnelId, if ok then Some(next) else None, Block(tg.tunnels, id))
  {
    var file := tg.sources[id].candidates;
    PutInPlace(tg, f, boot, a, x, full, id, tun, e, next, ok, apart);
    SaveFile(tg, f, x, full, id, sel, file, wins);
  }

  /** The tunnels after the candidate took the slot, or failed to. */
  method PutInPlace(tg: TargetState.Target, ghost f: Feed, ghost boot: Server, ghost a: Server, ghost x: Server, ghost full: nat,
                    id: string, tun: Tun, ghost e: Entry, next: Tunnel, ok: bool, ghost apart: set<(Tag, Tag)>)
    requires f.Valid() && Clear(f.Scope(), boot) && id == f.ns.sourceId
    requires tg.Valid() && id in tg.sources && Sound(f, a, full, tg.sources[id], Block(tg.tunnels, id))
    requires Keyed(f, Block(tg.tunnels, id), tg.sources[id].candidates)
    requires tun in Block(tg.tunnels, id) && tg.sources[id].hashes != map[]
    requires KeyFree(f, Block(tg.tunnels, id), tun.mapping.baseTunnelId, tg.sources[id].candidates, e)
    requires next == f.TunnelOf(e, tun.mapping.port)
    requires TwinsOf(Block(tg.tunnels, id)) <= apart && Twins(next) <= apart && Apart(apart, x)
    requires ok ==> Slots.Changed(boot, a, x, Some(tun.mapping), Some(next))
    modifies tg
    ensures Settled(tg, id, tun.mapping.baseTunnelId, if ok then Some(next) else None, ok)
    ensures Sound(f, x, full, tg.sources[id], Block(tg.tunnels, id)) && (ok <==> tg.sources[id].hashes != map[])
    ensures ok ==> Keyed(f, Block(tg.tunnels, id), tg.sources[id].candidates)
  {
    ghost var tuns := Block(tg.tunnels, id);
    FinishReplacement(tg, f, boot, a, x, full, id, tun, next, ok, apart);
    if ok {
      ReplacedIsKeyed(f, tuns, Block(tg.tunnels, id), tg.sources[id].candidates, tun.mapping.baseTunnelId, e);
    }
  }

  /** The candidate takes the slot and the port of the failed tunnel. */
  method SwapFor(c: Client, tg: TargetState.Target, f: Feed, ghost full: nat, tun: Tun, e: Entry, sel: SelectionState,
                 ghost wins: seq<set<Win>>)
    returns (err: Error)
    requires Open(c, f) && AtRest(tg, f, c.x, full, wins) && f.ns.sourceId in tg.sources && Streaks(sel, wins)
    requires tun in Block(tg.tunnels, f.ns.sourceId) && tg.sources[f.ns.sourceId].hashes != map[]
    requires KeyFree(f, Block(tg.tunnels, f.ns.sourceId), tun.mapping.baseTunnelId, tg.sources[f.ns.sourceId].candidates, e)
    modifies c, tg
    ensures Worked(c, tg, f) && AtRest(tg, f, c.x, full, wins) && f.ns.sourceId in tg.sources
    ensures tg.sources[f.ns.sourceId].selection == sel && (err == Nil <==> tg.sources[f.ns.sourceId].hashes != map[])
    ensures Swapped(old(Block(tg.tunnels, f.ns.sourceId)), f.ns.sourceId, tun.mapping.baseTunnelId,
                    if err == Nil then Some(f.TunnelOf(e, tun.mapping.port)) else None, Block(tg.tunnels, f.ns.sourceId))
  {
    ghost var a := c.x;
    var next := f.TunnelOf(e, tun.mapping.port);
    var ruleErr;
    ruleErr, err := XReplace(c, f, full, Block(tg.tunnels, f.ns.sourceId), tun.mapping, next);
    SessionStays(c, f, a);
    assert Twins(next) <= TunnelCalls.Exclusive(tun.mapping, next);
    ghost var tuns := Block(tg.tunnels, f.ns.sourceId);
    FinishSwap(tg, f, c.boot, a, c.x, full, f.ns.sourceId, tun, e, next, sel, err == Nil, c.session.apart, wins);
    SwappedCounts(tuns, f.ns.sourceId, tun.mapping.baseTunnelId, if err == Nil then Some(next) else None, Block(tg.tunnels, f.ns.sourceId));
  }

  /** The second half of ReplaceFailed: the tunnel's pair goes into quarantine and the first
      candidate that may takes its slot. */
  method Judge(c: Client, tg: TargetState.Target, f: Feed, ghost full: nat, tun: Tun, cfg: Config, now: Time, ghost wins: seq<set<Win>>)
    returns (r: Ending)
    requires Open(c, f) && AtRest(tg, f, c.x, full, wins) && f.ns.sourceId in tg.sources && cfg.deadPairCooldownMinutes >= 0
    requires tun in Block(tg.tunnels, f.ns.sourceId) && tg.sources[f.ns.sourceId].hashes != map[]
    modifies c, tg
    ensures Worked(c, tg, f) && AtRest(tg, f, c.x, full, wins)
    ensures f.ns.sourceId in tg.sources
    ensures Outcome(f, old(tg.sources)[f.ns.sourceId], old(Block(tg.tunnels, f.ns.sourceId)),
                    tg.sources[f.ns.sourceId], Block(tg.tunnels, f.ns.sourceId), tun.mapping.baseTunnelId, cfg, now, r)
    ensures r == NoCandidate || r == SwapFailed || r.Swap?
  {
    var id, tag := f.ns.sourceId, tun.mapping.baseTunnelId;
    ghost var tuns := Block(tg.tunnels, id);
    var st := tg.sources[id];
    var sel, e := Choose(f, Block(tg.tunnels, id), tag, st, cfg, now);
    r := Enact(c, tg, f, full, tun, e, sel, wins);
    EnactedIsOutcome(f, st, tuns, tg.sources[id], Block(tg.tunnels, id), tun, e, sel, cfg, now, r);
  }

  /** What is done is what was to be chosen. */
  ghost predicate Chosen(st: SourceState, tuns: seq<Tun>, tag: Tag, e: Option<Entry>, sel: SelectionState, now: Time) {
    if e.Some? then FirstToTake(e.value, tuns, tag, st.candidates, sel.quarantine, now)
    else forall x :: x in st.candidates ==> !MayTake(x, tuns, tag, st.candidates, sel.quarantine, now)
  }

  method Choose(f: Feed, tuns: seq<Tun>, tag: Tag, st: SourceState, cfg: Config, now: Time) returns (sel: SelectionState, e: Option<Entry>)
    requires FileOk(f, st.candidates) && Keyed(f, tuns, st.candidates) && tag in Bases(tuns) && cfg.deadPairCooldownMinutes >= 0
    ensures sel == Judged(st, tag, now, cfg) && Chosen(st, tuns, tag, e, sel, now)
    ensures e.Some? ==> KeyFree(f, tuns, tag, st.candidates, e.value)
  {
    sel := Judged(st, tag, now, cfg);
    e := ChooseFor(f, tuns, tag, st.candidates, sel.quarantine, now);
    if e.Some? {
      ChosenKeyFree(f, tuns, tag, st.candidates, e.value, sel.quarantine, now);
    }
  }

  lemma EnactedIsOutcome(f: Feed, st: SourceState, tuns: seq<Tun>, st': SourceState, tuns': seq<Tun>, tun: Tun, e: Option<Entry>,
                         sel: SelectionState, cfg: Config, now: Time, r: Ending)
    requires cfg.deadPairCooldownMinutes >= 0 && tun in tuns && sel == Judged(st, tun.mapping.baseTunnelId, now, cfg)
    requires Chosen(st, tuns, tun.mapping.baseTunnelId, e, sel, now) && Enacted(f, st, tuns, st', tuns', tun, e, sel, r)
    ensures Outcome(f, st, tuns, st', tuns', tun.mapping.baseTunnelId, cfg, now, r)
  {
  }

  /** What was chosen for the tunnel is done. */
  method Enact(c: Client, tg: TargetState.Target, f: Feed, ghost full: nat, tun: Tun, e: Option<Entry>, sel: SelectionState,
               ghost wins: seq<set<Win>>)
    returns (r: Ending)
    requires Open(c, f) && AtRest(tg, f, c.x, full, wins) && f.ns.sourceId in tg.sources && Streaks(sel, wins)
    requires tun in Block(tg.tunnels, f.ns.sourceId) && tg.sources[f.ns.sourceId].hashes != map[]
    requires e.Some? ==> KeyFree(f, Block(tg.tunnels, f.ns.sourceId), tun.mapping.baseTunnelId, tg.sources[f.ns.sourceId].candidates, e.value)
    modifies c, tg
    ensures Worked(c, tg, f) && AtRest(tg, f, c.x, full, wins) && f.ns.sourceId in tg.sources
    ensures Enacted(f, old(tg.sources)[f.ns.sourceId], old(Block(tg.tunnels, f.ns.sourceId)),
                    tg.sources[f.ns.sourceId], Block(tg.tunnels, f.ns.sourceId), tun, e, sel, r)
  {
    if e.None? {
      LeaveAs(c, tg, f, full, f.ns.sourceId, tun.mapping.baseTunnelId, sel, wins);
      r := NoCandidate;
    } else {
      var err := SwapFor(c, tg, f, full, tun, e.value, sel, wins);
      r := if err == Nil then Swap(e.value) else SwapFailed;
    }
  }

  method LeaveAs(ghost c: Client, tg: TargetState.Target, ghost f: Feed, ghost full: nat, id: string, tag: Tag, sel: SelectionState, ghost wins: seq<set<Win>>)
    requires Open(c, f) && AtRest(tg, f, c.x, full, wins) && f.ns.sourceId in tg.sources && Streaks(sel, wins)
    requires tag in Bases(Block(tg.tunnels, f.ns.sourceId)) && id == f.ns.sourceId
    modifies tg`sources
    ensures Worked(c, tg, f) && AtRest(tg, f, c.x, full, wins) && f.ns.sourceId in tg.sources
    ensures tg.sources[f.ns.sourceId] ==
            old(tg.sources)[f.ns.sourceId].(selection := sel, noReplacement := old(tg.sources)[f.ns.sourceId].noReplacement + {tag})
  {
    NoteNoCandidate(tg, f, c.x, full, id, tag, sel, wins);
    assert Within(f, c.boot, c.x, c.x);
  }

  ghost predicate Enacted(f: Feed, st: SourceState, tuns: seq<Tun>, st': SourceState, tuns': seq<Tun>, tun: Tun, e: Option<Entry>,
                          sel: SelectionState, r: Ending) {
    var tag := tun.mapping.baseTunnelId;
    if e.None? then
      r == NoCandidate && st' == st.(selection := sel, noReplacement := st.noReplacement + {tag}) && tuns' == tuns
    else
      var ok := st'.hashes != map[];
      && st'.selection == sel
      && r == (if ok then Swap(e.value) else SwapFailed)
      && Swapped(tuns, f.ns.sourceId, tag, if ok then Some(f.TunnelOf(e.value, tun.mapping.port)) else None, tuns')
  }

  /** ReplaceFailed. waiting: the source waits for a dependency; fresh: a dependency asked again is
      not healthy. A tunnel is replaced only while its source has hashes and does not wait, and
      its inbound is in Xray. */
  method ReplaceFailed(c: Client, tg: TargetState.Target, f: Feed, ghost full: nat, tag: Tag, cfg: Config, waiting: bool, dialed: bool,
                       askedAgain: bool, now: Time, ghost wins: seq<set<Win>>)
    returns (r: Ending)
    requires Open(c, f) && AtRest(tg, f, c.x, full, wins) && cfg.deadPairCooldownMinutes >= 0
    modifies c, tg
    ensures Worked(c, tg, f) && AtRest(tg, f, c.x, full, wins)
    ensures f.ns.sourceId in old(tg.sources) ==>
              && f.ns.sourceId in tg.sources
              && Outcome(f, old(tg.sources)[f.ns.sourceId], old(Block(tg.tunnels, f.ns.sourceId)),
                         tg.sources[f.ns.sourceId], Block(tg.tunnels, f.ns.sourceId), tag, cfg, now, r)
    ensures r.Swap? || r == SwapFailed || r == NoCandidate ==>
              && !waiting && dialed && !askedAgain && f.ns.sourceId in old(tg.sources) && old(tg.sources)[f.ns.sourceId].hashes != map[]
              && "in-" + tag in old(c.x.inbounds)
    ensures r == NotReplaced || r == NoClient ==> c.x == old(c.x)
    ensures r == DependencyWaits ==> askedAgain && f.ns.sourceId in old(tg.sources)
  {
    var id := f.ns.sourceId;
    var tuns := Block(tg.tunnels, id);
    if id !in tg.sources || tg.sources[id].hashes == map[] || waiting || tuns == [] {
      return NotReplaced;
    }
    var found, tun := Find(tuns, tag);
    if !found {
      return NotReplaced;
    }
    if !dialed {
      return NoClient;
    }
    r := ReplaceFound(c, tg, f, full, tun, cfg, askedAgain, now, wins);
  }

  /** stateLost: the source waits for a full apply. */
  method NoteGone(tg: TargetState.Target, ghost f: Feed, ghost x: Server, ghost full: nat, id: string, tun: Tun, ghost wins: seq<set<Win>>)
    requires AtRest(tg, f, x, full, wins) && id == f.ns.sourceId && id in tg.sources && tun in Block(tg.tunnels, id)
    modifies tg
    ensures AtRest(tg, f, x, full, wins) && tg.OthersKept(id) && id in tg.sources
    ensures tg.sources[id] == old(tg.sources)[id].(hashes := map[])
    ensures Bases(Block(tg.tunnels, id)) == Bases(old(Block(tg.tunnels, id)))
    ensures NoMoreFailures(old(Block(tg.tunnels, id)), Block(tg.tunnels, id))
  {
    tg.SetStateLost(id);
    Members(tg.tunnels, id);
    MovedCounts(Block(tg.tunnels, id), id, tun, tun.mapping.outboundTagCurrent, tun.monitor.(health := Degraded));
    Note(tg, f, x, full, id, tun, tun.mapping.outboundTagCurrent, tun.monitor.(health := Degraded), true);
  }

  /** ReplaceFailed of a tunnel that is there. */
  method ReplaceFound(c: Client, tg: TargetState.Target, f: Feed, ghost full: nat, tun: Tun, cfg: Config, askedAgain: bool, now: Time,
                      ghost wins: seq<set<Win>>)
    returns (r: Ending)
    requires Open(c, f) && AtRest(tg, f, c.x, full, wins) && f.ns.sourceId in tg.sources && cfg.deadPairCooldownMinutes >= 0
    requires tun in Block(tg.tunnels, f.ns.sourceId) && tg.sources[f.ns.sourceId].hashes != map[]
    modifies c, tg
    ensures Worked(c, tg, f) && AtRest(tg, f, c.x, full, wins)
    ensures f.ns.sourceId in tg.sources
    ensures Outcome(f, old(tg.sources)[f.ns.sourceId], old(Block(tg.tunnels, f.ns.sourceId)),
                    tg.sources[f.ns.sourceId], Block(tg.tunnels, f.ns.sourceId), tun.mapping.baseTunnelId, cfg, now, r)
    ensures r.Swap? || r == SwapFailed || r == NoCandidate ==> tun.mapping.inboundTag in old(c.x.inbounds)
    ensures r != NotReplaced && r != NoClient && (askedAgain ==> r == ListFailed || r == InboundGone || r == DependencyWaits)
    ensures r == DependencyWaits ==> askedAgain
  {
    ghost var a := c.x;
    var present, err := Look(c, tg, f, full, wins, tun.mapping.inboundTag);
    ghost var b := c.x;
    PairTagsOwned(f, tun.mapping);
    if err == Nil && present && !askedAgain {
      r := Judge(c, tg, f, full, tun, cfg, now, wins);
      WithinTransitive(f, c.boot, a, b, c.x);
    } else {
      r := HoldOff(tg, f, c.x, full, tun, err == Nil, present, cfg, now, wins);
    }
  }

  /** The tunnel is not judged: Xray does not answer, has no inbound of it, or its source is to wait. */
  method HoldOff(tg: TargetState.Target, f: Feed, ghost x: Server, ghost full: nat, tun: Tun, answered: bool, present: bool, ghost cfg: Config,
                 ghost now: Time, ghost wins: seq<set<Win>>)
    returns (r: Ending)
    requires AtRest(tg, f, x, full, wins) && f.ns.sourceId in tg.sources && cfg.deadPairCooldownMinutes >= 0
    requires tun in Block(tg.tunnels, f.ns.sourceId) && tg.sources[f.ns.sourceId].hashes != map[]
    modifies tg
    ensures AtRest(tg, f, x, full, wins) && tg.OthersKept(f.ns.sourceId) && f.ns.sourceId in tg.sources
    ensures NoMoreFailures(old(Block(tg.tunnels, f.ns.sourceId)), Block(tg.tunnels, f.ns.sourceId))
    ensures Outcome(f, old(tg.sources)[f.ns.sourceId], old(Block(tg.tunnels, f.ns.sourceId)),
                    tg.sources[f.ns.sourceId], Block(tg.tunnels, f.ns.sourceId), tun.mapping.baseTunnelId, cfg, now, r)
    ensures r == if !answered then ListFailed else if !present then InboundGone else DependencyWaits
  {
    if !answered {
      return ListFailed;
    }
    if !present {
      NoteGone(tg, f, x, full, f.ns.sourceId, tun, wins);
      return InboundGone;
    }
    return DependencyWaits;
  }
}
