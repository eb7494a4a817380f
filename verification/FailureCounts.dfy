/** The failed checks in a row that memory counts for the tunnels of a source
    (internal/scd/state/state.go, TunnelMonitor.FailuresInRow). */
module FailureCounts {
  import opened Namespaces
  import opened SourceRules
  import opened Topology
  import opened TargetState

  /** The largest count of the tunnels with the given tag; 0 without one. */
  function CountOf(tuns: seq<Tun>, tag: Tag): nat {
    if tuns == [] then 0
    else
      var n := |tuns| - 1;
      var rest := CountOf(tuns[..n], tag);
      if tuns[n].mapping.baseTunnelId == tag && rest < tuns[n].monitor.failuresInRow then tuns[n].monitor.failuresInRow else rest
  }

  /** No tag has a larger count in tuns' than in tuns. */
  ghost predicate NoMoreFailures(tuns: seq<Tun>, tuns': seq<Tun>) {
    forall tag :: CountOf(tuns', tag) <= CountOf(tuns, tag)
  }

  lemma {:induction false} CountCovers(tuns: seq<Tun>, tn: Tun)
    requires tn in tuns
    ensures tn.monitor.failuresInRow <= CountOf(tuns, tn.mapping.baseTunnelId)
  {
    var n := |tuns| - 1;
    assert tuns == tuns[..n] + [tuns[n]];
    if tn != tuns[n] {
      CountCovers(tuns[..n], tn);
    }
  }

  lemma {:induction false} CountIsReached(tuns: seq<Tun>, tag: Tag)
    ensures CountOf(tuns, tag) > 0 ==>
              exists tn :: tn in tuns && tn.mapping.baseTunnelId == tag && tn.monitor.failuresInRow == CountOf(tuns, tag)
  {
    if tuns != [] {
      var n := |tuns| - 1;
      assert tuns == tuns[..n] + [tuns[n]];
      CountIsReached(tuns[..n], tag);
    }
  }

  /** Tunnels that are new and idle, or were there, count no more failures. */
  lemma {:induction false} KeptOrIdle(tuns: seq<Tun>, tuns': seq<Tun>)
    requires forall tn :: tn in tuns' ==> tn.monitor.failuresInRow == 0 || tn in tuns
    ensures NoMoreFailures(tuns, tuns')
  {
    forall tag
      ensures CountOf(tuns', tag) <= CountOf(tuns, tag)
    {
      CountIsReached(tuns', tag);
      if CountOf(tuns', tag) > 0 {
        var tn :| tn in tuns' && tn.mapping.baseTunnelId == tag && tn.monitor.failuresInRow == CountOf(tuns', tag);
        CountCovers(tuns, tn);
      }
    }
  }

  lemma SwappedCounts(tuns: seq<Tun>, id: string, oldId: Tag, next: Option<Tunnel>, tuns': seq<Tun>)
    requires Swapped(tuns, id, oldId, next, tuns')
    ensures NoMoreFailures(tuns, tuns')
  {
    KeptOrIdle(tuns, tuns');
  }

  lemma InstalledCounts(tuns: seq<Tun>, tuns': seq<Tun>, topology: seq<Tunnel>)
    requires Installed(tuns', topology)
    ensures NoMoreFailures(tuns, tuns')
  {
    KeptOrIdle(tuns, tuns');
  }

  lemma {:induction false} UpdatedCounts(tuns: seq<Tun>, id: string, tag: Tag, current: Tag, monitor: Monitor)
    requires forall tn :: tn in tuns ==> tn.mapping.sourceId == id
    ensures forall t :: t != tag ==> CountOf(Updated(tuns, id, tag, current, monitor), t) == CountOf(tuns, t)
    ensures CountOf(Updated(tuns, id, tag, current, monitor), tag) <= monitor.failuresInRow
  {
    if tuns != [] {
      var n := |tuns| - 1;
      assert tuns[n] in tuns;
      UpdatedCounts(tuns[..n], id, tag, current, monitor);
      assert Updated(tuns, id, tag, current, monitor)[..n] == Updated(tuns[..n], id, tag, current, monitor);
    }
  }

  /** A tunnel noted on another outbound keeps its count. */
  lemma MovedCounts(tuns: seq<Tun>, id: string, cur: Tun, current: Tag, monitor: Monitor)
    requires (forall tn :: tn in tuns ==> tn.mapping.sourceId == id) && cur in tuns
    requires monitor.failuresInRow <= cur.monitor.failuresInRow
    ensures NoMoreFailures(tuns, Updated(tuns, id, cur.mapping.baseTunnelId, current, monitor))
  {
    UpdatedCounts(tuns, id, cur.mapping.baseTunnelId, current, monitor);
    CountCovers(tuns, cur);
  }
}
