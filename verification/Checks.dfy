/** What checks and dependency waits note in memory, and why no replacement is premature
    (internal/scd/monitor/tunnels.go, checkTunnel; internal/scd/monitor/wait.go, applyWaits). */
module Checks {
  import opened Namespaces
  import Sets
  import opened SourceRules
  import opened Decide
  import opened XrayApi
  import opened TargetState
  import opened FailureCounts
  import opened Slots
  import Repairs
  import opened FullApply
  import opened SourceSync
  import opened Waits

  // ---- the counters and the history of checks

  /** The counters of a source's tunnels, and its failed checks whose replacement is still to be
      tried, are what the log says; no replacement was too early. */
  ghost predicate CountsOk(log: seq<Event>, limit: nat, tuns: seq<Tun>, pending: map<Tag, nat>) {
    && (forall tag :: CountOf(tuns, tag) <= Failures(log, tag))
    && (forall tag :: tag in pending ==> limit <= pending[tag] <= Failures(log, tag))
    && NoneTooEarly(log, limit)
  }

  lemma FewerCounts(log: seq<Event>, limit: nat, tuns: seq<Tun>, tuns': seq<Tun>, pending: map<Tag, nat>, pending': map<Tag, nat>)
    requires CountsOk(log, limit, tuns, pending) && NoMoreFailures(tuns, tuns')
    requires forall tag :: tag in pending' ==> tag in pending && pending'[tag] == pending[tag]
    ensures CountsOk(log, limit, tuns', pending')
  {
  }

  /** The counters after a check of a tunnel. */
  ghost predicate CheckCounted(tuns: seq<Tun>, tag: Tag, passed: bool, inRow: nat, tuns': seq<Tun>) {
    && (forall t :: t != tag ==> CountOf(tuns', t) <= CountOf(tuns, t))
    && CountOf(tuns', tag) <= (if passed then 0 else CountOf(tuns, tag) + 1)
    && inRow <= (if passed then 0 else CountOf(tuns, tag) + 1)
  }

  /** A check joins the history; a failed one may become pending. */
  lemma CheckLogged(log: seq<Event>, limit: nat, tuns: seq<Tun>, pending: map<Tag, nat>, tag: Tag, passed: bool, inRow: nat,
                    tuns': seq<Tun>, pending': map<Tag, nat>)
    requires CountsOk(log, limit, tuns, pending) && tag !in pending && CheckCounted(tuns, tag, passed, inRow, tuns')
    requires pending' == pending || (!passed && inRow >= limit && pending' == pending[tag := inRow])
    ensures CountsOk(log + [if passed then CheckPassed(tag) else CheckFailed(tag)], limit, tuns', pending')
  {
    var e := if passed then CheckPassed(tag) else CheckFailed(tag);
    forall t {
      FailuresAppend(log, e, t);
    }
    NoneTooEarlyAppend(log, e, limit);
  }

  /** The end of a wait joins the history. */
  lemma WaitEndLogged(log: seq<Event>, limit: nat, tuns: seq<Tun>, tuns': seq<Tun>)
    requires NoneTooEarly(log, limit) && forall t :: CountOf(tuns', t) == 0
    ensures CountsOk(log + [WaitEnded], limit, tuns', map[])
  {
    forall t {
      FailuresAppend(log, WaitEnded, t);
    }
    NoneTooEarlyAppend(log, WaitEnded, limit);
  }

  /** The replacement of a pending tunnel joins the history. */
  lemma SwapLogged(log: seq<Event>, limit: nat, tuns: seq<Tun>, tuns': seq<Tun>, pending: map<Tag, nat>, tag: Tag)
    requires CountsOk(log, limit, tuns, pending) && NoMoreFailures(tuns, tuns') && tag in pending
    ensures CountsOk(log + [Swapped(tag)], limit, tuns', pending - {tag})
  {
    forall t {
      FailuresAppend(log, Swapped(tag), t);
    }
    NoneTooEarlyAppend(log, Swapped(tag), limit);
  }

  // ---- in memory

  lemma KeyedByTags(f: Feed, tuns: seq<Tun>, tuns': seq<Tun>, file: seq<Entry>)
    requires Keyed(f, tuns, file) && Bases(tuns') == Bases(tuns)
    ensures Keyed(f, tuns', file)
  {
    forall tn | tn in tuns'
      ensures exists was :: was in tuns && was.mapping.baseTunnelId == tn.mapping.baseTunnelId
    {
      assert tn.mapping.baseTunnelId in Bases(tuns');
    }
  }

  /** What checkTunnel remembers of a check. */
  function Checked(m: Monitor, passed: bool, now: Time): Monitor {
    if passed then Monitor(TunnelHealth.Healthy, 0, None)
    else Monitor(Degraded, m.failuresInRow + 1, if m.failingSince.Some? then m.failingSince else Some(now))
  }

  /** checkTunnel up to its first updates. inRow is FailuresInRow after a failed check, 0 if the
      tunnel is gone. */
  method NoteCheck(tg: TargetState.Target, ghost f: Feed, ghost x: Server, ghost full: nat, id: string, tag: Tag, passed: bool, now: Time,
                   ghost wins: seq<set<Win>>)
    returns (inRow: nat)
    requires AtRest(tg, f, x, full, wins) && id == f.ns.sourceId
    modifies tg
    ensures AtRest(tg, f, x, full, wins) && tg.OthersKept(id)
    ensures CheckCounted(old(Block(tg.tunnels, id)), tag, passed, inRow, Block(tg.tunnels, id))
  {
    inRow := 0;
    var tuns := Block(tg.tunnels, id);
    BlockOfUnknown(tg, id);
    NotThere(tuns, tag, passed);
    if tuns == [] {
      return;
    }
    var found, cur := Repairs.Find(tuns, tag);
    if found {
      inRow := NoteFound(tg, f, x, full, id, cur, passed, now, wins);
    }
  }

  lemma NotThere(tuns: seq<Tun>, tag: Tag, passed: bool)
    ensures tag !in Bases(tuns) ==> CheckCounted(tuns, tag, passed, 0, tuns)
  {
    CountIsReached(tuns, tag);
  }

  method NoteFound(tg: TargetState.Target, ghost f: Feed, ghost x: Server, ghost full: nat, id: string, cur: Tun, passed: bool, now: Time,
                   ghost wins: seq<set<Win>>)
    returns (inRow: nat)
    requires AtRest(tg, f, x, full, wins) && id == f.ns.sourceId && id in tg.sources && cur in Block(tg.tunnels, id)
    modifies tg
    ensures AtRest(tg, f, x, full, wins) && tg.OthersKept(id) && id in tg.sources
    ensures CheckCounted(old(Block(tg.tunnels, id)), cur.mapping.baseTunnelId, passed, inRow, Block(tg.tunnels, id))
  {
    ghost var tuns := Block(tg.tunnels, id);
    Rewrite(tg, f, x, full, id, cur, Checked(cur.monitor, passed, now), wins);
    CountCovers(tuns, cur);
    inRow := if passed then 0 else cur.monitor.failuresInRow + 1;
    if passed {
      HasReplacement(tg, f, x, full, id, cur.mapping.baseTunnelId, wins);
    }
  }

  lemma SameSources(a: map<string, SourceState>, b: map<string, SourceState>, id: string)
    requires a - {id} == b - {id} && id in a && id in b && a[id] == b[id]
    ensures a == b
  {
    forall other
      ensures other in a <==> other in b
      ensures other in a ==> a[other] == b[other]
    {
      assert other != id ==> (other in a <==> other in a - {id}) && (other in b <==> other in b - {id});
      assert other != id && other in a ==> a[other] == (a - {id})[other] == (b - {id})[other];
    }
  }

  /** The tag counts at most n failures; the others count what they did. */
  ghost predicate Recounted(tuns: seq<Tun>, tuns': seq<Tun>, tag: Tag, n: nat) {
    (forall t :: t != tag ==> CountOf(tuns', t) == CountOf(tuns, t)) && CountOf(tuns', tag) <= n
  }

  lemma RecountedToNone(tuns: seq<Tun>, tuns': seq<Tun>, tag: Tag)
    requires Recounted(tuns, tuns', tag, 0)
    ensures NoMoreFailures(tuns, tuns') && CountOf(tuns', tag) == 0
  {
  }

  /** The monitor of a tunnel is rewritten. */
  method Rewrite(tg: TargetState.Target, ghost f: Feed, ghost x: Server, ghost full: nat, id: string, cur: Tun, monitor: Monitor,
                 ghost wins: seq<set<Win>>)
    requires AtRest(tg, f, x, full, wins) && id == f.ns.sourceId && id in tg.sources && cur in Block(tg.tunnels, id)
    modifies tg
    ensures AtRest(tg, f, x, full, wins) && tg.OthersKept(id) && tg.sources == old(tg.sources)
    ensures Bases(Block(tg.tunnels, id)) == Bases(old(Block(tg.tunnels, id)))
    ensures Recounted(old(Block(tg.tunnels, id)), Block(tg.tunnels, id), cur.mapping.baseTunnelId, monitor.failuresInRow)
  {
    ghost var tuns := Block(tg.tunnels, id);
    Members(tg.tunnels, id);
    ghost var sources := tg.sources;
    Repairs.Note(tg, f, x, full, id, cur, cur.mapping.outboundTagCurrent, monitor, false);
    SameSources(sources, tg.sources, id);
    UpdatedCounts(tuns, id, cur.mapping.baseTunnelId, cur.mapping.outboundTagCurrent, monitor);
    if tg.sources[id].hashes != map[] {
      KeyedByTags(f, tuns, Block(tg.tunnels, id), tg.sources[id].candidates);
    }
  }

  /** A tunnel that works again needs no replacement. */
  method HasReplacement(tg: TargetState.Target, ghost f: Feed, ghost x: Server, ghost full: nat, id: string, tag: Tag, ghost wins: seq<set<Win>>)
    requires AtRest(tg, f, x, full, wins) && id == f.ns.sourceId && id in tg.sources
    modifies tg`sources
    ensures AtRest(tg, f, x, full, wins) && tg.OthersKept(id) && id in tg.sources
  {
    FewerConserved(f, Block(tg.tunnels, id), tg.sources[id].noReplacement, tag);
    tg.UpdateSource(id, tg.sources[id].(noReplacement := tg.sources[id].noReplacement - {tag}));
  }

  lemma FewerConserved(f: Feed, tuns: seq<Tun>, noRep: set<Tag>, tag: Tag)
    requires Conserved(f, tuns, noRep)
    ensures Conserved(f, tuns, noRep - {tag})
  {
    Sets.SubsetSize(noRep - {tag} - Bases(tuns), noRep - Bases(tuns));
  }

  /** The end of a wait: the failed checks of the source's tunnels count no more. */
  method ResetCounts(tg: TargetState.Target, ghost f: Feed, ghost x: Server, ghost full: nat, id: string, ghost wins: seq<set<Win>>)
    requires AtRest(tg, f, x, full, wins) && id == f.ns.sourceId
    modifies tg
    ensures AtRest(tg, f, x, full, wins) && tg.OthersKept(id) && tg.sources == old(tg.sources)
    ensures forall t :: CountOf(Block(tg.tunnels, id), t) == 0
  {
    BlockOfUnknown(tg, id);
    var rest := set tn | tn in Block(tg.tunnels, id) :: tn.mapping.baseTunnelId;
    ghost var bases := rest;
    forall t {
      CountIsReached(Block(tg.tunnels, id), t);
    }
    while rest != {}
      invariant AtRest(tg, f, x, full, wins) && tg.OthersKept(id) && tg.sources == old(tg.sources)
      invariant id in tg.sources || rest == {}
      invariant Bases(Block(tg.tunnels, id)) == bases && rest <= bases
      invariant NoneOutside(Block(tg.tunnels, id), rest)
      decreases rest
    {
      var tag :| tag in rest;
      ghost var tuns := Block(tg.tunnels, id);
      ResetOne(tg, f, x, full, id, tag, wins);
      FewerOutside(tuns, Block(tg.tunnels, id), rest, tag);
      rest := rest - {tag};
    }
  }

  /** Only the tags count failures. */
  ghost predicate NoneOutside(tuns: seq<Tun>, tags: set<Tag>) {
    forall t :: t !in tags ==> CountOf(tuns, t) == 0
  }

  lemma FewerOutside(tuns: seq<Tun>, tuns': seq<Tun>, tags: set<Tag>, tag: Tag)
    requires NoneOutside(tuns, tags) && NoMoreFailures(tuns, tuns') && CountOf(tuns', tag) == 0
    ensures NoneOutside(tuns', tags - {tag})
  {
  }

  method ResetOne(tg: TargetState.Target, ghost f: Feed, ghost x: Server, ghost full: nat, id: string, tag: Tag, ghost wins: seq<set<Win>>)
    requires AtRest(tg, f, x, full, wins) && id == f.ns.sourceId && id in tg.sources && tag in Bases(Block(tg.tunnels, id))
    modifies tg
    ensures AtRest(tg, f, x, full, wins) && tg.OthersKept(id) && tg.sources == old(tg.sources)
    ensures Bases(Block(tg.tunnels, id)) == Bases(old(Block(tg.tunnels, id)))
    ensures NoMoreFailures(old(Block(tg.tunnels, id)), Block(tg.tunnels, id)) && CountOf(Block(tg.tunnels, id), tag) == 0
  {
    ghost var tuns := Block(tg.tunnels, id);
    var found, cur := Repairs.Find(Block(tg.tunnels, id), tag);
    Rewrite(tg, f, x, full, id, cur, cur.monitor.(failuresInRow := 0), wins);
    RecountedToNone(tuns, Block(tg.tunnels, id), tag);
  }

  /** The start of a wait: the quarantines that may come from it end. */
  method ReleaseFor(tg: TargetState.Target, ghost f: Feed, ghost x: Server, ghost full: nat, id: string, deps: seq<Dep>, now: Time, minutes: nat,
                    ghost wins: seq<set<Win>>)
    requires AtRest(tg, f, x, full, wins) && id == f.ns.sourceId
    modifies tg`sources
    ensures AtRest(tg, f, x, full, wins) && tg.OthersKept(id) && tg.tunnels == old(tg.tunnels)
    ensures id in tg.sources <==> id in old(tg.sources)
    ensures id in tg.sources ==>
              var st := old(tg.sources)[id];
              tg.sources[id] == st.(selection := st.selection.(quarantine := Released(st.selection.quarantine, deps, now, minutes)))
  {
    if id in tg.sources {
      var st := tg.sources[id];
      var sel := new State.Clone(st.selection.quarantine, st.selection.better, wins);
      var n := ReleaseQuarantine(sel, deps, now, minutes);
      tg.UpdateSource(id, st.(selection := SelectionState(sel.quarantine, sel.better)));
    }
  }
}
