/** Tunnels (internal/scd/topology/topology.go): one SOCKS inbound routed to one outbound. */
module Topology {
  import opened Namespaces
  import opened SourceRules
  import opened XrayApi

  /** An outbound under one tag. */
  datatype Prepared = Prepared(tag: Tag, json: string)

  datatype Tunnel = Tunnel(
    sourceId: string,
    baseTunnelId: Tag,
    outboundTagInitial: Tag,
    outboundTagCurrent: Tag,
    inboundTag: Tag,
    routeTag: Tag,
    listen: string,
    port: int,
    outboundInitial: Prepared,
    outboundWithoutPrefix: Prepared)

  /** NewTunnel: the tunnel of the entry with the given tag and outbound at port. */
  function NewTunnel(tag: Tag, json: string, sourceId: string, t: Target, listen: string, port: int): (tn: Tunnel)
    ensures HasPrefix(tag, sourceId + "-") ==> WellFormed(tn, Namespace(t.obsPrefix, sourceId))
  {
    var initial := t.obsPrefix + tag;
    Tunnel(sourceId, tag, initial, initial, "in-" + tag, "route-" + tag, listen, port,
           Prepared(initial, json), Prepared(tag, json))
  }

  /** What holds of every tunnel of the source with namespace ns: its tags come from its entry
      tag, and it runs on one of its two outbounds. */
  predicate WellFormed(tn: Tunnel, ns: Namespace) {
    && tn.sourceId == ns.sourceId
    && HasPrefix(tn.baseTunnelId, ns.Stem())
    && tn.outboundTagInitial == ns.obsPrefix + tn.baseTunnelId
    && (tn.outboundTagCurrent == tn.outboundTagInitial || tn.outboundTagCurrent == tn.baseTunnelId)
    && tn.inboundTag == "in-" + tn.baseTunnelId
    && tn.routeTag == "route-" + tn.baseTunnelId
    && tn.outboundInitial.tag == tn.outboundTagInitial
    && tn.outboundWithoutPrefix.tag == tn.baseTunnelId
  }

  /** No fixed tag lies in ns (SourceRules.FixedNotOwned). */
  ghost predicate FixedFree(t: Target, ns: Namespace) {
    forall kind, tag :: tag in t.Fixed(kind) ==> !ns.Owns(kind, tag)
  }

  lemma TunnelTagsCovered(tn: Tunnel, t: Target, ns: Namespace)
    requires WellFormed(tn, ns) && FixedFree(t, ns)
    ensures SourceScope(t, ns).Covers(KindOutbound, tn.outboundTagInitial)
    ensures SourceScope(t, ns).Covers(KindOutbound, tn.outboundTagCurrent)
    ensures SourceScope(t, ns).Covers(KindOutbound, tn.baseTunnelId)
    ensures SourceScope(t, ns).Covers(KindInbound, tn.inboundTag)
    ensures SourceScope(t, ns).Covers(KindRouting, tn.routeTag)
  {
    PrefixOfConcat(ns.obsPrefix, ns.Stem(), tn.baseTunnelId);
    PrefixOfConcat("in-", ns.Stem(), tn.baseTunnelId);
    PrefixOfConcat("route-", ns.Stem(), tn.baseTunnelId);
  }

  /** resources.Rule and resources.Inbound. */
  function RuleOf(tn: Tunnel, outboundTag: Tag): Rule {
    Rule(tn.routeTag, tn.inboundTag, outboundTag)
  }

  function InboundOf(tn: Tunnel): Inbound {
    Inbound(tn.inboundTag, tn.listen, tn.port)
  }

  function OutboundOf(p: Prepared): Outbound {
    Outbound(p.tag, p.json)
  }
}
