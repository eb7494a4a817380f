/** The config rules that make the sources of one target independent
    (internal/scd/config/rules.go, checkSources and checkTargetSources). */
module SourceRules {
  import opened Namespaces

  datatype PortRange = PortRange(start: int, end: int)

  datatype Option<+T> = None | Some(value: T)

  datatype Source = Source(
    id: string,
    enabled: bool,
    candidateType: bool,
    maxActive: int,
    portRange: Option<PortRange>)

  datatype Target = Target(
    obsPrefix: string,
    fixedOutbounds: seq<Tag>,
    fixedInbounds: seq<Tag>,
    fixedRouting: seq<Tag>)
  {
    function Fixed(kind: Kind): seq<Tag> {
      match kind
      case KindOutbound => fixedOutbounds
      case KindInbound => fixedInbounds
      case KindRouting => fixedRouting
    }
  }

  /** Which resource kinds scd manages. */
  datatype Resources = Resources(outbounds: bool, inbounds: bool, routing: bool)

  datatype Subscription = Subscription(target: Target, sources: seq<Source>) {
    function Ns(j: nat): Namespace
      requires j < |sources|
    {
      Namespace(target.obsPrefix, sources[j].id)
    }
  }

  /** One reported problem; j is the index of the source it is reported at. */
  datatype Issue =
    | InvalidId(j: nat)
    | DuplicateId(j: nat)
    | OverlappingIds(j: nat)
    | OverlappingPorts(j: nat)
    | PortRangeEnd(j: nat)
    | TooFewPorts(j: nat)
    | PortRangeRequired(j: nat)
    | KindsRequired(j: nat)
    | PrefixOverlap(j: nat)
    | FixedInNamespace(j: nat, kind: Kind, tag: Tag)

  /** sourceIDRe: one to sixteen of [a-z0-9-], no "-" at either end. */
  predicate ValidSourceId(id: string) {
    && 1 <= |id| <= 16
    && (forall k :: 0 <= k < |id| ==> IdChar(id[k]))
    && id[0] != '-' && id[|id| - 1] != '-'
  }

  predicate IdChar(c: char) {
    'a' <= c <= 'z' || '0' <= c <= '9' || c == '-'
  }

  /** What the config parser has already settled (internal/scd/config/load.go): ids are not
      empty, ports are 1..65535 and a candidate source has maxActive of at least one. */
  predicate Parsed(sub: Subscription) {
    forall j :: 0 <= j < |sub.sources| ==>
      var s := sub.sources[j];
      && s.id != ""
      && (s.portRange.Some? ==> 1 <= s.portRange.value.start <= 65535 && 1 <= s.portRange.value.end <= 65535)
      && (s.candidateType ==> s.maxActive >= 1)
      && (!s.candidateType ==> s.maxActive == 0)
  }

  // ---- what an accepted subscription satisfies, one clause per rule

  predicate PairOk(s: Source, other: Source) {
    && s.id != other.id
    && !HasPrefix(s.id, other.id + "-") && !HasPrefix(other.id, s.id + "-")
    && !PortsOverlap(s, other)
  }

  predicate PortsOverlap(s: Source, other: Source) {
    && s.portRange.Some? && other.portRange.Some?
    && s.portRange.value.start <= other.portRange.value.end
    && other.portRange.value.start <= s.portRange.value.end
  }

  predicate PortsOk(s: Source, res: Resources) {
    match s.portRange
    case Some(pr) => pr.start <= pr.end && (s.maxActive > 0 ==> pr.end - pr.start + 1 >= s.maxActive)
    case None => !res.inbounds && !res.routing
  }

  predicate PrefixOk(s: Source, obs: string) {
    obs != "" ==> !Comparable(obs, s.id + "-")
  }

  predicate FixedOk(s: Source, t: Target) {
    s.enabled ==> forall kind, tag :: tag in t.Fixed(kind) ==> !Namespace(t.obsPrefix, s.id).Owns(kind, tag)
  }

  predicate SourceOk(s: Source, t: Target, res: Resources) {
    && ValidSourceId(s.id)
    && PortsOk(s, res)
    && (s.candidateType ==> res.inbounds && res.routing)
    && PrefixOk(s, t.obsPrefix)
    && FixedOk(s, t)
  }

  predicate Accepted(sub: Subscription, res: Resources) {
    && Parsed(sub)
    && (forall j :: 0 <= j < |sub.sources| ==> SourceOk(sub.sources[j], sub.target, res))
    && (forall j, k :: 0 <= k < j < |sub.sources| ==> PairOk(sub.sources[j], sub.sources[k]))
  }

  // ---- the checks as the program runs them

  method CheckFixed(s: Source, j: nat, t: Target) returns (issues: seq<Issue>)
    requires s.enabled
    ensures issues == [] <==> FixedOk(s, t)
  {
    var ns := Namespace(t.obsPrefix, s.id);
    issues := [];
    var kinds := [KindOutbound, KindInbound, KindRouting];
    for k := 0 to |kinds|
      invariant issues == [] <==> forall i, tag :: 0 <= i < k && tag in t.Fixed(kinds[i]) ==> !ns.Owns(kinds[i], tag)
    {
      var tags := t.Fixed(kinds[k]);
      ghost var before := issues;
      for i := 0 to |tags|
        invariant issues == [] <==> before == [] && forall m :: 0 <= m < i ==> !ns.Owns(kinds[k], tags[m])
      {
        if ns.Owns(kinds[k], tags[i]) {
          issues := issues + [FixedInNamespace(j, kinds[k], tags[i])];
        }
      }
    }
    forall kind, tag | issues == [] && tag in t.Fixed(kind)
      ensures !ns.Owns(kind, tag)
    {
      var i := match kind case KindOutbound => 0 case KindInbound => 1 case KindRouting => 2;
      assert kinds[i] == kind;
    }
  }

  method CheckTargetSource(s: Source, j: nat, t: Target, res: Resources) returns (issues: seq<Issue>)
    requires s.portRange.Some? ==> s.portRange.value.start > 0 && s.portRange.value.end > 0
    ensures issues == [] && ValidSourceId(s.id) <==> SourceOk(s, t, res)
  {
    issues := [];
    if s.portRange.Some? {
      var pr := s.portRange.value;
      if pr.start > 0 && pr.end > 0 && pr.end < pr.start {
        issues := issues + [PortRangeEnd(j)];
      } else if s.maxActive > 0 && pr.start > 0 && pr.end - pr.start + 1 < s.maxActive {
        issues := issues + [TooFewPorts(j)];
      }
    } else if res.inbounds || res.routing {
      issues := issues + [PortRangeRequired(j)];
    }
    if s.candidateType && (!res.inbounds || !res.routing) {
      issues := issues + [KindsRequired(j)];
    }
    if !ValidSourceId(s.id) {
      return;
    }
    var p := s.id + "-";
    if t.obsPrefix != "" && (HasPrefix(t.obsPrefix, p) || HasPrefix(p, t.obsPrefix)) {
      issues := issues + [PrefixOverlap(j)];
    }
    if s.enabled {
      var more := CheckFixed(s, j, t);
      issues := issues + more;
    }
  }

  /** Source j against those before it. */
  method CheckPairs(sub: Subscription, j: nat) returns (issues: seq<Issue>)
    requires Parsed(sub) && j < |sub.sources|
    ensures issues == [] <==> forall k :: 0 <= k < j ==> PairOk(sub.sources[j], sub.sources[k])
  {
    issues := [];
    var s := sub.sources[j];
    for k := 0 to j
      invariant issues == [] <==> forall k' :: 0 <= k' < k ==> PairOk(s, sub.sources[k'])
    {
      var other := sub.sources[k];
      if s.id != "" && s.id == other.id {
        issues := issues + [DuplicateId(j)];
      } else if s.id != "" && other.id != "" && (HasPrefix(s.id, other.id + "-") || HasPrefix(other.id, s.id + "-")) {
        issues := issues + [OverlappingIds(j)];
      }
      if PortsOverlap(s, other) {
        issues := issues + [OverlappingPorts(j)];
      }
    }
  }

  /** checkSources for one subscription. */
  method CheckSources(sub: Subscription, res: Resources) returns (issues: seq<Issue>)
    requires Parsed(sub)
    ensures issues == [] <==> Accepted(sub, res)
  {
    issues := [];
    for j := 0 to |sub.sources|
      invariant issues == [] <==>
        && (forall i :: 0 <= i < j ==> ValidSourceId(sub.sources[i].id))
        && (forall i, k :: 0 <= k < i < j ==> PairOk(sub.sources[i], sub.sources[k]))
    {
      var s := sub.sources[j];
      if s.id != "" && !ValidSourceId(s.id) {
        issues := issues + [InvalidId(j)];
        continue;
      }
      var clashes := CheckPairs(sub, j);
      issues := issues + clashes;
    }
    ghost var pairs := issues;
    for j := 0 to |sub.sources|
      invariant issues == [] <==>
        && pairs == []
        && forall i :: 0 <= i < j ==> ValidSourceId(sub.sources[i].id) ==> SourceOk(sub.sources[i], sub.target, res)
    {
      var more := CheckTargetSource(sub.sources[j], j, sub.target, res);
      issues := issues + more;
    }
  }

  // ---- what acceptance buys

  /** No tag of any kind lies in the namespaces of two sources. */
  lemma NamespacesDisjoint(sub: Subscription, res: Resources, i: nat, j: nat, kind: Kind, tag: Tag)
    requires Accepted(sub, res) && i < |sub.sources| && j < |sub.sources| && i != j
    ensures !(sub.Ns(i).Owns(kind, tag) && sub.Ns(j).Owns(kind, tag))
    decreases j - i
  {
    if i < j {
      NamespacesDisjoint(sub, res, j, i, kind, tag);
    } else if sub.Ns(i).Owns(kind, tag) && sub.Ns(j).Owns(kind, tag) {
      var s, o, obs := sub.sources[i], sub.sources[j], sub.target.obsPrefix;
      var p, q := s.id + "-", o.id + "-";
      assert PairOk(s, o);
      StemsIncomparable(s.id, o.id);
      match kind
      case KindInbound => TaggedStemsIncomparable("in-", p, q, tag);
      case KindRouting => TaggedStemsIncomparable("route-", p, q, tag);
      case KindOutbound =>
        if obs == "" {
          assert obs + p == p && obs + q == q;
          PrefixesOfOneStringCompare(p, q, tag);
        } else if HasPrefix(tag, obs + p) && HasPrefix(tag, obs + q) {
          TaggedStemsIncomparable(obs, p, q, tag);
        } else if HasPrefix(tag, obs + p) {
          StemMeetsPrefixed(o, obs, p, tag);
        } else if HasPrefix(tag, obs + q) {
          StemMeetsPrefixed(s, obs, q, tag);
        } else {
          PrefixesOfOneStringCompare(p, q, tag);
        }
    }
  }

  /** Valid, distinct ids none of which starts with the other followed by "-" have
      incomparable stems. */
  lemma StemsIncomparable(a: string, b: string)
    requires a != b && !HasPrefix(a, b + "-") && !HasPrefix(b, a + "-")
    ensures !Comparable(a + "-", b + "-")
  {
    if HasPrefix(b + "-", a + "-") {
      StemPrefix(a, b);
    } else if HasPrefix(a + "-", b + "-") {
      StemPrefix(b, a);
    }
  }

  lemma StemPrefix(a: string, b: string)
    requires HasPrefix(b + "-", a + "-")
    ensures a == b || HasPrefix(b, a + "-")
  {
    if |a| == |b| {
      assert a == (a + "-")[..|a|] == (b + "-")[..|a|] == b;
    } else {
      assert a + "-" == (b + "-")[..|a| + 1] == b[..|a| + 1];
    }
  }

  lemma TaggedStemsIncomparable(head: string, p: string, q: string, tag: Tag)
    requires HasPrefix(tag, head + p) && HasPrefix(tag, head + q)
    ensures Comparable(p, q)
  {
    PrefixesOfOneStringCompare(head + p, head + q, tag);
    PrefixOfConcat(head, p, q);
    PrefixOfConcat(head, q, p);
  }

  /** A tag that starts with a source's stem and with the observatory prefix can only exist
      when that prefix is empty. */
  lemma StemMeetsPrefixed(s: Source, obs: string, rest: string, tag: Tag)
    requires PrefixOk(s, obs)
    requires HasPrefix(tag, s.id + "-") && HasPrefix(tag, obs + rest)
    ensures obs == ""
  {
    assert HasPrefix(obs + rest, obs);
    PrefixTransitive(obs, obs + rest, tag);
    PrefixesOfOneStringCompare(obs, s.id + "-", tag);
  }

  /** No fixed tag lies in the namespace of an enabled source. */
  lemma FixedNotOwned(sub: Subscription, res: Resources, j: nat, kind: Kind, tag: Tag)
    requires Accepted(sub, res) && j < |sub.sources| && sub.sources[j].enabled
    requires tag in sub.target.Fixed(kind)
    ensures !sub.Ns(j).Owns(kind, tag)
  {
    assert SourceOk(sub.sources[j], sub.target, res);
  }

  /** The prefixed and the bare outbound tag of tunnels of any sources never collide: with a
      non-empty observatory prefix no tag of a namespace is the prefixed form of another. */
  lemma PrefixedIsNotBare(sub: Subscription, res: Resources, i: nat, bare: Tag, other: Tag)
    requires Accepted(sub, res) && i < |sub.sources| && sub.target.obsPrefix != ""
    requires HasPrefix(bare, sub.Ns(i).Stem())
    ensures bare != sub.target.obsPrefix + other
  {
    if bare == sub.target.obsPrefix + other {
      assert SourceOk(sub.sources[i], sub.target, res);
      StemMeetsPrefixed(sub.sources[i], sub.target.obsPrefix, other, bare);
    }
  }

  predicate InRange(s: Source, port: int) {
    s.portRange.Some? && s.portRange.value.start <= port <= s.portRange.value.end
  }

  /** A port lies in the range of at most one source. */
  lemma PortsDisjoint(sub: Subscription, res: Resources, i: nat, j: nat, port: int)
    requires Accepted(sub, res) && i < |sub.sources| && j < |sub.sources| && i != j
    ensures !(InRange(sub.sources[i], port) && InRange(sub.sources[j], port))
  {
    if j < i {
      assert PairOk(sub.sources[i], sub.sources[j]);
    } else {
      assert PairOk(sub.sources[j], sub.sources[i]);
    }
  }
}
