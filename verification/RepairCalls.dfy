/** The call sequences of the tunnel monitor (internal/scd/monitor/repair.go): a repair moves a
    tunnel to its unprefixed outbound, a rejoin back to the prefixed one. */
module RepairCalls {
  import opened Namespaces
  import opened SourceRules
  import opened XrayApi
  import opened Topology
  import opened TunnelCalls

  /** The two outbounds of a tunnel, when they differ: never both in Xray. */
  function Twins(tn: Tunnel): set<(Tag, Tag)> {
    if tn.outboundTagInitial == tn.baseTunnelId then {} else {(tn.outboundTagInitial, tn.baseTunnelId)}
  }

  /** Of the pairs that must stay apart, only the twins of tn speak of its outbounds. */
  predicate TwinsApart(apart: set<(Tag, Tag)>, tn: Tunnel) {
    Twins(tn) <= apart && forall p :: p in apart - Twins(tn) ==> forall tag :: tag in Pair(tn) ==> Spares(p, tag)
  }

  lemma TwinFits(apart: set<(Tag, Tag)>, tn: Tunnel, s: Server, p: Prepared)
    requires TwinsApart(apart, tn) && Apart(apart, s) && p.tag in Pair(tn)
    requires forall tag :: tag in Pair(tn) && tag != p.tag ==> tag !in s.outbounds
    ensures Apart(apart, s.WithOutbound(OutboundOf(p)))
  {
    forall q | q in apart
      ensures !(q.0 in s.WithOutbound(OutboundOf(p)).outbounds && q.1 in s.WithOutbound(OutboundOf(p)).outbounds)
    {
      if q in Twins(tn) {
        assert q.0 in Pair(tn) && q.1 in Pair(tn);
      } else {
        assert q in apart - Twins(tn) && Spares(q, p.tag);
      }
    }
  }

  /** shouldRejoin: the tunnel has a prefix and runs on its unprefixed outbound. */
  predicate ShouldRejoin(tn: Tunnel) {
    tn.outboundTagCurrent != tn.outboundTagInitial && tn.outboundTagInitial != tn.outboundWithoutPrefix.tag
  }

  function Repaired(tn: Tunnel): Tunnel {
    tn.(outboundTagCurrent := tn.outboundWithoutPrefix.tag)
  }

  function Rejoined(tn: Tunnel): Tunnel {
    tn.(outboundTagCurrent := tn.outboundTagInitial)
  }

  /** hasInbound: one ListInbounds. */
  method HasInbound(c: Client, tag: Tag) returns (present: bool, err: Error)
    requires c.Valid()
    modifies c
    ensures c.Valid() && c.Looked() && (err == Nil || err == RpcError)
    ensures err == Nil ==> (present <==> tag in c.x.inbounds)
  {
    var list;
    list, err := c.ListInbounds();
    present := false;
    if err == Nil {
      for i := 0 to |list|
        invariant present <==> exists j :: 0 <= j < i && list[j].tag == tag
      {
        if list[i].tag == tag {
          present := true;
        }
      }
      assert tag in c.x.inbounds ==> Inbound(tag, c.x.inbounds[tag].listen, c.x.inbounds[tag].port) in list;
    }
  }

  /** removeTunnel: the rule (best effort) and the current outbound; a failed RemoveOutbound puts
      the rule back. */
  method RemoveCurrent(c: Client, ghost ns: Namespace, cur: Tunnel) returns (err: Error)
    requires Working(c, ns) && WellFormed(cur, ns)
    modifies c
    ensures Working(c, ns) && c.Moved() && (err == Nil || err == RpcError)
    ensures c.x.inbounds == Base(c.boot, old(c.x), c.x).inbounds
    ensures c.x.outbounds.Keys <= Base(c.boot, old(c.x), c.x).outbounds.Keys
    ensures err == Nil ==> c.x.outbounds == Base(c.boot, old(c.x), c.x).outbounds - {cur.outboundTagCurrent}
    ensures err == Nil && c.failed == old(c.failed) && c.x.restarts == old(c.x.restarts) ==>
              c.x.rules == Without(old(c.x.rules), cur.routeTag)
    ensures err == Nil ==> c.failed <= old(c.failed) + 1
    ensures err != Nil && c.failed == old(c.failed) + 1 && c.x.restarts == old(c.x.restarts) ==>
              c.x.rules == Without(old(c.x.rules), cur.routeTag) + [RuleOf(cur, cur.outboundTagCurrent)]
  {
    TunnelTagsCovered(cur, c.t, ns);
    var _ := c.RemoveRule(cur.routeTag);
    err := c.RemoveOutbound(cur.outboundTagCurrent);
    if err != Nil {
      var _ := c.AddRule(RuleOf(cur, cur.outboundTagCurrent));
    }
  }

  lemma BootHasNoTwin(c: Client, ns: Namespace, tn: Tunnel)
    requires Working(c, ns) && WellFormed(tn, ns)
    ensures forall tag :: tag in Pair(tn) ==> tag !in c.boot.outbounds
  {
    TunnelTagsCovered(tn, c.t, ns);
  }

  /** AddOutbound of one of the outbounds of cur while the other is gone. */
  method AddTwin(c: Client, ghost ns: Namespace, cur: Tunnel, p: Prepared) returns (err: Error)
    requires Working(c, ns) && WellFormed(cur, ns) && p.tag in Pair(cur) && TwinsApart(c.session.apart, cur)
    requires forall tag :: tag in Pair(cur) && tag != p.tag ==> tag !in c.x.outbounds
    modifies c
    ensures Working(c, ns) && c.Moved() && err != BuildError
    ensures err == Nil ==> c.x == Base(c.boot, old(c.x), c.x).WithOutbound(OutboundOf(p)) && c.failed == old(c.failed)
    ensures err != Nil ==> c.x == Base(c.boot, old(c.x), c.x) || c.x == Base(c.boot, old(c.x), c.x).WithOutbound(OutboundOf(p))
  {
    TunnelTagsCovered(cur, c.t, ns);
    TwinFits(c.session.apart, cur, c.x, p);
    BootHasNoTwin(c, ns, cur);
    TwinFits(c.session.apart, cur, c.boot, p);
    err := c.AddOutbound(OutboundOf(p));
  }

  /** AddOutbound of p and, if it worked, AddRule to it; added reports the first. */
  method AddAndRoute(c: Client, ghost ns: Namespace, cur: Tunnel, p: Prepared) returns (added: bool, err: Error)
    requires Working(c, ns) && WellFormed(cur, ns) && p.tag in Pair(cur)
    requires TwinsApart(c.session.apart, cur)
    requires forall tag :: tag in Pair(cur) && tag != p.tag ==> tag !in c.x.outbounds
    modifies c
    ensures Working(c, ns) && c.Moved() && err != BuildError
    ensures c.x.inbounds == Base(c.boot, old(c.x), c.x).inbounds
    ensures c.x.outbounds.Keys <= Base(c.boot, old(c.x), c.x).outbounds.Keys + {p.tag}
    ensures c.x.restarts == old(c.x.restarts) ==>
              && c.x.outbounds - {p.tag} == old(c.x.outbounds) - {p.tag}
              && (added ==> c.x.outbounds == old(c.x.outbounds)[p.tag := p.json])
    ensures err == Nil ==> added && c.failed == old(c.failed)
    ensures err == Nil && c.x.restarts == old(c.x.restarts) ==> c.x.rules == old(c.x.rules) + [RuleOf(cur, p.tag)]
  {
    TunnelTagsCovered(cur, c.t, ns);
    err := AddTwin(c, ns, cur, p);
    added := err == Nil;
    if added {
      err := c.AddRule(RuleOf(cur, p.tag));
    }
  }

  /** repairCalls: added reports that the unprefixed outbound was added. In no state of the
      session do both outbounds of the tunnel exist. */
  method Repair(c: Client, ghost ns: Namespace, cur: Tunnel) returns (added: bool, err: Error)
    requires Working(c, ns) && WellFormed(cur, ns) && !ShouldRejoin(cur)
    requires TwinsApart(c.session.apart, cur)
    modifies c
    ensures Working(c, ns) && c.Moved()
    ensures c.x.inbounds == Base(c.boot, old(c.x), c.x).inbounds
    ensures c.x.outbounds.Keys <= Base(c.boot, old(c.x), c.x).outbounds.Keys + {cur.baseTunnelId}
    ensures err == BuildError ==> c.x == old(c.x)
    ensures err == Nil ==> added
    ensures added && c.x.restarts == old(c.x.restarts) ==>
              c.x.outbounds == (old(c.x.outbounds) - Pair(cur))[cur.baseTunnelId := cur.outboundWithoutPrefix.json]
    ensures err == Nil && c.failed == old(c.failed) && c.x.restarts == old(c.x.restarts) ==>
              c.x.rules == Without(old(c.x.rules), cur.routeTag) + [RuleOf(cur, cur.baseTunnelId)]
  {
    added := false;
    err := Build();
    if err != Nil {
      return;
    }
    TunnelTagsCovered(cur, c.t, ns);
    err := RemoveCurrent(c, ns, cur);
    if err == Nil {
      added, err := AddAndRoute(c, ns, cur, cur.outboundWithoutPrefix);
    }
  }

  /** rejoinCalls with its rollback. stuck reports that the prefixed outbound may still exist
      after a failure: nothing more is added then. back reports that the rollback put the
      unprefixed outbound back. In no state of the session do both outbounds of the tunnel
      exist. */
  method Rejoin(c: Client, ghost ns: Namespace, cur: Tunnel) returns (stuck: bool, err: Error, ghost back: bool)
    requires Working(c, ns) && WellFormed(cur, ns) && ShouldRejoin(cur)
    requires TwinsApart(c.session.apart, cur)
    modifies c
    ensures Working(c, ns) && c.Moved()
    ensures c.x.inbounds == Base(c.boot, old(c.x), c.x).inbounds
    ensures c.x.outbounds.Keys <= Base(c.boot, old(c.x), c.x).outbounds.Keys + Pair(cur)
    ensures err == BuildError ==> c.x == old(c.x)
    ensures err == Nil && c.x.restarts == old(c.x.restarts) ==>
              && c.x.outbounds == (old(c.x.outbounds) - {cur.baseTunnelId})[cur.outboundTagInitial := cur.outboundInitial.json]
              && (c.failed == old(c.failed) ==>
                    c.x.rules == Without(old(c.x.rules), cur.routeTag) + [RuleOf(cur, cur.outboundTagInitial)])
    ensures err == Nil ==> !stuck && !back
    ensures back && c.x.restarts == old(c.x.restarts) ==>
              && !stuck
              && c.x.outbounds == (old(c.x.outbounds) - Pair(cur))[cur.baseTunnelId := cur.outboundWithoutPrefix.json]
    ensures stuck ==> cur.baseTunnelId !in c.x.outbounds
  {
    stuck, back := false, false;
    err := Build();
    if err != Nil {
      return;
    }
    TunnelTagsCovered(cur, c.t, ns);
    err := RemoveCurrent(c, ns, cur);
    if err == Nil {
      stuck, err, back := ReturnToInitial(c, ns, cur);
    }
  }

  /** A rejoin after the unprefixed outbound is gone. */
  method ReturnToInitial(c: Client, ghost ns: Namespace, cur: Tunnel) returns (stuck: bool, err: Error, ghost back: bool)
    requires Working(c, ns) && WellFormed(cur, ns) && ShouldRejoin(cur)
    requires TwinsApart(c.session.apart, cur) && cur.baseTunnelId !in c.x.outbounds
    modifies c
    ensures Working(c, ns) && c.Moved() && err != BuildError
    ensures c.x.inbounds == Base(c.boot, old(c.x), c.x).inbounds
    ensures c.x.outbounds.Keys <= Base(c.boot, old(c.x), c.x).outbounds.Keys + Pair(cur)
    ensures err == Nil ==> !stuck && !back && c.failed == old(c.failed)
    ensures err == Nil && c.x.restarts == old(c.x.restarts) ==>
              && c.x.outbounds == old(c.x.outbounds)[cur.outboundTagInitial := cur.outboundInitial.json]
              && c.x.rules == old(c.x.rules) + [RuleOf(cur, cur.outboundTagInitial)]
    ensures back && c.x.restarts == old(c.x.restarts) ==>
              && !stuck
              && c.x.outbounds == (old(c.x.outbounds) - Pair(cur))[cur.baseTunnelId := cur.outboundWithoutPrefix.json]
    ensures stuck ==> cur.baseTunnelId !in c.x.outbounds
  {
    BootHasNoTwin(c, ns, cur);
    var added;
    added, err := AddAndRoute(c, ns, cur, cur.outboundInitial);
    stuck, back := false, false;
    if err != Nil {
      stuck, back := BackOut(c, ns, cur);
    }
  }

  /** The rollback of a rejoin. */
  method BackOut(c: Client, ghost ns: Namespace, cur: Tunnel) returns (stuck: bool, ghost back: bool)
    requires Working(c, ns) && WellFormed(cur, ns) && ShouldRejoin(cur)
    requires TwinsApart(c.session.apart, cur) && cur.baseTunnelId !in c.x.outbounds
    modifies c
    ensures Working(c, ns) && c.Moved()
    ensures c.x.inbounds == Base(c.boot, old(c.x), c.x).inbounds
    ensures c.x.outbounds.Keys <= Base(c.boot, old(c.x), c.x).outbounds.Keys + {cur.baseTunnelId}
    ensures stuck ==> cur.baseTunnelId !in c.x.outbounds
    ensures back ==> !stuck
    ensures back && c.x.restarts == old(c.x.restarts) ==>
              && c.x.outbounds == (old(c.x.outbounds) - {cur.outboundTagInitial})[cur.baseTunnelId := cur.outboundWithoutPrefix.json]
              && c.x.rules == old(c.x.rules) + [RuleOf(cur, cur.baseTunnelId)]
  {
    TunnelTagsCovered(cur, c.t, ns);
    BootHasNoTwin(c, ns, cur);
    back := false;
    var err := c.RemoveOutbound(cur.outboundTagInitial);
    if err != Nil {
      return true, back;
    }
    err := AddTwin(c, ns, cur, cur.outboundWithoutPrefix);
    var ruleErr := c.AddRule(RuleOf(cur, cur.baseTunnelId));
    stuck, back := false, err == Nil && ruleErr == Nil;
  }
}
