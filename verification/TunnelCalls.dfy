/** The call sequences on one slot (internal/scd/apply/tunnel.go): remove, replace, add. */
module TunnelCalls {
  import opened Namespaces
  import opened SourceRules
  import opened XrayApi
  import opened Topology

  /** outboundTags: the outbound tags of tn, current first, without duplicates. */
  function OutboundTags(tn: Tunnel): seq<Tag> {
    var tags := [tn.outboundTagCurrent];
    var tags := if tn.outboundTagInitial != "" && tn.outboundTagInitial !in tags then tags + [tn.outboundTagInitial] else tags;
    if tn.outboundWithoutPrefix.tag != "" && tn.outboundWithoutPrefix.tag !in tags then tags + [tn.outboundWithoutPrefix.tag] else tags
  }

  /** Both outbound tags of tn. */
  function Pair(tn: Tunnel): set<Tag> {
    {tn.outboundTagInitial, tn.baseTunnelId}
  }

  lemma OutboundTagsArePair(tn: Tunnel, ns: Namespace)
    requires WellFormed(tn, ns)
    ensures (set tag | tag in OutboundTags(tn)) == Pair(tn)
  {
    assert tn.baseTunnelId != "" && tn.outboundTagInitial != "";
  }

  /** The client works for the source with namespace ns. */
  ghost predicate Working(c: Client, ns: Namespace)
    reads c
  {
    c.Valid() && c.session.scope == SourceScope(c.t, ns) && FixedFree(c.t, ns)
  }

  /** RemoveOutbound of each tag in turn, up to the first error. */
  method RemoveOutbounds(c: Client, ghost ns: Namespace, tags: seq<Tag>) returns (err: Error)
    requires Working(c, ns)
    requires forall tag :: tag in tags ==> c.session.scope.Covers(KindOutbound, tag)
    modifies c
    ensures Working(c, ns) && c.Moved()
    ensures c.x.restarts == old(c.x.restarts) ==>
              && c.x == old(c.x).(outbounds := c.x.outbounds)
              && c.x.outbounds.Keys <= old(c.x.outbounds).Keys
              && (err == Nil ==> c.x.outbounds == old(c.x.outbounds) - set tag | tag in tags)
    ensures c.x.restarts != old(c.x.restarts) ==> c.x == c.boot.(restarts := c.x.restarts)
    ensures if err == Nil then c.failed == old(c.failed) else err == RpcError && c.failed == old(c.failed) + 1
  {
    err := Nil;
    for i := 0 to |tags|
      invariant Working(c, ns) && c.Moved()
      invariant err == Nil && c.failed == old(c.failed)
      invariant c.x == if c.x.restarts == old(c.x.restarts)
                       then old(c.x).(outbounds := old(c.x.outbounds) - First(tags, i))
                       else c.boot.(restarts := c.x.restarts)
    {
      err := c.RemoveOutbound(tags[i]);
      if err != Nil {
        return;
      }
    }
    FirstOfAll(tags, |tags|);
  }

  function First(tags: seq<Tag>, n: nat): set<Tag>
    requires n <= |tags|
  {
    if n == 0 then {} else First(tags, n - 1) + {tags[n - 1]}
  }

  lemma {:induction false} FirstOfAll(tags: seq<Tag>, n: nat)
    requires n <= |tags|
    ensures First(tags, n) == set i | 0 <= i < n :: tags[i]
    ensures n == |tags| ==> First(tags, n) == set tag | tag in tags
  {
    if n > 0 {
      FirstOfAll(tags, n - 1);
    }
  }

  /** The first half of RemoveTunnel: the rule (best effort), then both outbounds. A failed
      RemoveOutbound puts the rule back. */
  method Detach(c: Client, ghost ns: Namespace, tn: Tunnel) returns (ruleErr: Error, err: Error)
    requires Working(c, ns) && WellFormed(tn, ns)
    modifies c
    ensures Working(c, ns) && c.Moved()
    ensures err == Nil || err == RpcError
    ensures c.x.restarts == old(c.x.restarts) ==>
              && c.x == old(c.x).(outbounds := c.x.outbounds, rules := c.x.rules)
              && c.x.outbounds.Keys <= old(c.x.outbounds).Keys
              && (err == Nil ==>
                    && c.x.outbounds == old(c.x.outbounds) - Pair(tn)
                    && (c.x.rules == Without(old(c.x.rules), tn.routeTag) || (ruleErr != Nil && c.x.rules == old(c.x.rules))))
              && (err != Nil && c.failed == old(c.failed) + 1 ==>
                    c.x.rules == Without(old(c.x.rules), tn.routeTag) + [RuleOf(tn, tn.outboundTagCurrent)])
    ensures c.x.restarts != old(c.x.restarts) ==>
              c.x.outbounds.Keys <= c.boot.outbounds.Keys && c.x.inbounds == c.boot.inbounds
  {
    TunnelTagsCovered(tn, c.t, ns);
    OutboundTagsArePair(tn, ns);
    ruleErr := c.RemoveRule(tn.routeTag);
    err := RemoveOutbounds(c, ns, OutboundTags(tn));
    if err != Nil {
      var _ := c.AddRule(RuleOf(tn, tn.outboundTagCurrent));
    }
  }

  /** RemoveTunnel: the rule (best effort), both outbounds, the inbound. On success all of them
      are gone and nothing else changed. */
  method RemoveTunnel(c: Client, ghost ns: Namespace, tn: Tunnel) returns (ruleErr: Error, err: Error)
    requires Working(c, ns) && WellFormed(tn, ns)
    modifies c
    ensures Working(c, ns) && c.Moved()
    ensures err == Nil || err == RpcError
    ensures c.x.inbounds.Keys <= Base(c.boot, old(c.x), c.x).inbounds.Keys
    ensures c.x.outbounds.Keys <= Base(c.boot, old(c.x), c.x).outbounds.Keys
    ensures err == Nil ==>
              && c.x.restarts == old(c.x.restarts)
              && c.x.outbounds == old(c.x.outbounds) - Pair(tn)
              && tn.inboundTag in old(c.x.inbounds) && c.x.inbounds == old(c.x.inbounds) - {tn.inboundTag}
              && (c.x.rules == Without(old(c.x.rules), tn.routeTag) || (ruleErr != Nil && c.x.rules == old(c.x.rules)))
    ensures err != Nil && c.failed == old(c.failed) + 1 && c.x.restarts == old(c.x.restarts) &&
            tn.outboundTagCurrent in c.x.outbounds ==>
              c.x.rules == Without(old(c.x.rules), tn.routeTag) + [RuleOf(tn, tn.outboundTagCurrent)]
  {
    ruleErr, err := Detach(c, ns, tn);
    if err == Nil {
      TunnelTagsCovered(tn, c.t, ns);
      err := c.RemoveInbound(tn.inboundTag);
    }
  }

  /** The outbounds that next's prefixed one must never meet when it takes the slot of tn:
      those of tn, and its own other one. */
  function Exclusive(tn: Tunnel, next: Tunnel): set<(Tag, Tag)> {
    set o | o in Pair(tn) + {next.baseTunnelId} && o != next.outboundTagInitial :: (next.outboundTagInitial, o)
  }

  /** The pair p does not speak of tag. */
  predicate Spares(p: (Tag, Tag), tag: Tag) {
    p.0 != tag && p.1 != tag
  }

  /** outbound.ToProto and resources.Inbound: building the messages of next may fail locally. */
  method Build() returns (err: Error)
    ensures err == Nil || err == BuildError
  {
    var ok: bool := *;
    err := if ok then Nil else BuildError;
  }

  /** The second half of ReplaceTunnel: AddOutbound, AddInbound, AddRule, up to the first error. */
  method Install(c: Client, ghost ns: Namespace, next: Tunnel) returns (err: Error)
    requires Working(c, ns) && WellFormed(next, ns)
    requires forall p :: p in c.session.apart ==>
               || Spares(p, next.outboundTagInitial)
               || (p.0 == next.outboundTagInitial && p.1 != p.0 && p.1 !in c.x.outbounds && p.1 !in c.boot.outbounds)
    modifies c
    ensures Working(c, ns) && c.Moved() && err != BuildError
    ensures c.x.outbounds.Keys <= Base(c.boot, old(c.x), c.x).outbounds.Keys + {next.outboundTagInitial}
    ensures c.x.inbounds.Keys <= Base(c.boot, old(c.x), c.x).inbounds.Keys + {next.inboundTag}
    ensures err == Nil && c.x.restarts == old(c.x.restarts) ==>
              && next.outboundTagInitial !in old(c.x.outbounds) && next.inboundTag !in old(c.x.inbounds)
              && c.x == old(c.x).WithOutbound(OutboundOf(next.outboundInitial))
                        .WithInbound(InboundOf(next)).WithRule(RuleOf(next, next.outboundTagInitial))
  {
    TunnelTagsCovered(next, c.t, ns);
    err := c.AddOutbound(OutboundOf(next.outboundInitial));
    if err == Nil {
      err := c.AddInbound(InboundOf(next));
    }
    if err == Nil {
      err := c.AddRule(RuleOf(next, next.outboundTagInitial));
    }
  }

  /** ReplaceTunnel: next takes the slot of tn, remove before add; nothing is added when the
      removal fails and nothing is rolled back. */
  method ReplaceTunnel(c: Client, ghost ns: Namespace, tn: Tunnel, next: Tunnel) returns (ruleErr: Error, err: Error)
    requires Working(c, ns) && WellFormed(tn, ns) && WellFormed(next, ns)
    requires forall p :: p in c.session.apart ==> p in Exclusive(tn, next) || Spares(p, next.outboundTagInitial)
    requires (next.outboundTagInitial, next.baseTunnelId) in c.session.apart ==>
               next.baseTunnelId !in c.x.outbounds || next.baseTunnelId in Pair(tn)
    modifies c
    ensures Working(c, ns) && c.Moved()
    ensures c.x.outbounds.Keys <= Base(c.boot, old(c.x), c.x).outbounds.Keys + {next.outboundTagInitial}
    ensures c.x.inbounds.Keys <= Base(c.boot, old(c.x), c.x).inbounds.Keys + {next.inboundTag}
    ensures err == BuildError ==> c.x == old(c.x) && c.trace == old(c.trace)
    ensures err == Nil ==>
              && c.x.outbounds.Keys <= Base(c.boot, old(c.x), c.x).outbounds.Keys - Pair(tn) + {next.outboundTagInitial}
              && c.x.inbounds.Keys <= Base(c.boot, old(c.x), c.x).inbounds.Keys - {tn.inboundTag} + {next.inboundTag}
    ensures err == Nil && c.x.restarts == old(c.x.restarts) ==>
              && tn.inboundTag in old(c.x.inbounds)
              && c.x.outbounds == (old(c.x.outbounds) - Pair(tn))[next.outboundTagInitial := next.outboundInitial.json]
              && c.x.inbounds == (old(c.x.inbounds) - {tn.inboundTag})[next.inboundTag := Listener(next.listen, next.port)]
              && (ruleErr == Nil ==>
                    c.x.rules == Without(old(c.x.rules), tn.routeTag) + [RuleOf(next, next.outboundTagInitial)])
  {
    ruleErr := Nil;
    err := Build();
    if err != Nil {
      return;
    }
    ruleErr, err := RemoveTunnel(c, ns, tn);
    if err != Nil {
      return;
    }
    TunnelTagsCovered(tn, c.t, ns);
    TunnelTagsCovered(next, c.t, ns);
    err := Install(c, ns, next);
  }

  /** AddTunnel: next takes an empty slot. A failure is rolled back best effort, in reverse: if
      no call of the rollback fails, none of next's outbounds is left, even if the answer of
      the failed call was lost. */
  method AddTunnel(c: Client, ghost ns: Namespace, next: Tunnel) returns (err: Error)
    requires Working(c, ns) && WellFormed(next, ns)
    requires forall p :: p in c.session.apart ==>
               || Spares(p, next.outboundTagInitial)
               || (p == (next.outboundTagInitial, next.baseTunnelId) && p.0 != p.1 && p.1 !in c.x.outbounds)
    modifies c
    ensures Working(c, ns) && c.Moved()
    ensures c.x.outbounds.Keys <= Base(c.boot, old(c.x), c.x).outbounds.Keys + {next.outboundTagInitial}
    ensures c.x.inbounds.Keys <= Base(c.boot, old(c.x), c.x).inbounds.Keys + {next.inboundTag}
    ensures err == BuildError ==> c.x == old(c.x) && c.trace == old(c.trace)
    ensures err == Nil && c.x.restarts == old(c.x.restarts) ==>
              && next.outboundTagInitial !in old(c.x.outbounds) && next.inboundTag !in old(c.x.inbounds)
              && c.x == old(c.x).WithOutbound(OutboundOf(next.outboundInitial))
                        .WithInbound(InboundOf(next)).WithRule(RuleOf(next, next.outboundTagInitial))
    ensures err == RpcError && c.failed == old(c.failed) + 1 && c.x.restarts == old(c.x.restarts) ==>
              && c.x.outbounds == old(c.x.outbounds) - {next.outboundTagInitial}
              && (c.lost == old(c.lost) ==> c.x.inbounds == old(c.x.inbounds))
  {
    TunnelTagsCovered(next, c.t, ns);
    err := Build();
    if err != Nil {
      return;
    }
    err := c.AddOutbound(OutboundOf(next.outboundInitial));
    if err != Nil {
      var _ := c.RemoveOutbound(next.outboundTagInitial); // the add may have happened
      return;
    }
    err := AddEnds(c, ns, next);
  }

  /** AddTunnel from its AddInbound on. */
  method AddEnds(c: Client, ghost ns: Namespace, next: Tunnel) returns (err: Error)
    requires Working(c, ns) && WellFormed(next, ns)
    modifies c
    ensures Working(c, ns) && c.Moved() && (err == Nil || err == RpcError)
    ensures c.x.outbounds.Keys <= Base(c.boot, old(c.x), c.x).outbounds.Keys
    ensures c.x.inbounds.Keys <= Base(c.boot, old(c.x), c.x).inbounds.Keys + {next.inboundTag}
    ensures err == Nil && c.x.restarts == old(c.x.restarts) ==>
              && next.inboundTag !in old(c.x.inbounds)
              && c.x == old(c.x).WithInbound(InboundOf(next)).WithRule(RuleOf(next, next.outboundTagInitial))
    ensures err != Nil && c.failed == old(c.failed) + 1 && c.x.restarts == old(c.x.restarts) ==>
              && c.x.outbounds == old(c.x.outbounds) - {next.outboundTagInitial}
              && (c.lost == old(c.lost) ==> c.x.inbounds == old(c.x.inbounds))
  {
    TunnelTagsCovered(next, c.t, ns);
    err := c.AddInbound(InboundOf(next));
    if err != Nil {
      var _ := c.RemoveOutbound(next.outboundTagInitial);
      return;
    }
    err := c.AddRule(RuleOf(next, next.outboundTagInitial));
    if err != Nil {
      Unwind(c, ns, next);
    }
  }

  /** The rollback of AddTunnel after a failed AddRule. */
  method Unwind(c: Client, ghost ns: Namespace, next: Tunnel)
    requires Working(c, ns) && WellFormed(next, ns)
    modifies c
    ensures Working(c, ns) && c.Moved()
    ensures c.x.outbounds.Keys <= Base(c.boot, old(c.x), c.x).outbounds.Keys
    ensures c.x.inbounds.Keys <= Base(c.boot, old(c.x), c.x).inbounds.Keys
    ensures c.failed == old(c.failed) && c.x.restarts == old(c.x.restarts) ==>
              && c.x.outbounds == old(c.x.outbounds) - {next.outboundTagInitial}
              && c.x.inbounds == old(c.x.inbounds) - {next.inboundTag}
  {
    TunnelTagsCovered(next, c.t, ns);
    var _ := c.RemoveRule(next.routeTag);
    var _ := c.RemoveInbound(next.inboundTag);
    var _ := c.RemoveOutbound(next.outboundTagInitial);
  }
}
