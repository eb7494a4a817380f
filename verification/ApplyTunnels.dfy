/** Replacing the inbounds and the routing rules of one source, without rollback
    (internal/scd/apply/inbounds.go and routing.go). */
module ApplyTunnels {
  import opened Namespaces
  import opened SourceRules
  import opened XrayApi
  import opened Topology
  import opened TunnelCalls
  import opened ApplyOutbounds

  /** The inbounds of s that an apply of the scope replaces. */
  function MineIn(scope: Scope, s: Server): set<Tag> {
    set tag | tag in s.inbounds && scope.Covers(KindInbound, tag)
  }

  function InboundTags(tunnels: seq<Tunnel>): seq<Tag> {
    seq(|tunnels|, i requires 0 <= i < |tunnels| => tunnels[i].inboundTag)
  }

  function RouteTags(tunnels: seq<Tunnel>): seq<Tag> {
    seq(|tunnels|, i requires 0 <= i < |tunnels| => tunnels[i].routeTag)
  }

  function Listeners(tunnels: seq<Tunnel>): map<Tag, Listener> {
    if tunnels == [] then map[]
    else
      var n := |tunnels| - 1;
      Listeners(tunnels[..n])[tunnels[n].inboundTag := Listener(tunnels[n].listen, tunnels[n].port)]
  }

  predicate AllWellFormed(tunnels: seq<Tunnel>, ns: Namespace) {
    forall tn :: tn in tunnels ==> WellFormed(tn, ns)
  }

  /** Nothing but inbounds, or nothing but rules, was touched. */
  twostate predicate OnlyInbounds(c: Client)
    reads c
  {
    c.Moved() && c.x == Base(c.boot, old(c.x), c.x).(inbounds := c.x.inbounds)
  }

  twostate predicate OnlyRules(c: Client)
    reads c
  {
    c.Moved() && c.x == Base(c.boot, old(c.x), c.x).(rules := c.x.rules)
  }

  // ---- inbounds

  /** If Xray has not restarted since state a, it is a with the inbounds m. */
  ghost predicate HoldsIn(c: Client, a: Server, m: map<Tag, Listener>)
    reads c
  {
    a.restarts <= c.x.restarts && (c.x.restarts == a.restarts ==> c.x == a.(inbounds := m))
  }

  method RemoveOneInbound(c: Client, ghost ns: Namespace, tag: Tag, ghost a: Server, ghost m: map<Tag, Listener>) returns (err: Error)
    requires Working(c, ns) && c.session.scope.Covers(KindInbound, tag) && HoldsIn(c, a, m)
    modifies c
    ensures Working(c, ns) && OnlyInbounds(c)
    ensures err == Nil ==>
              && HoldsIn(c, a, m - {tag})
              && MineIn(c.session.scope, c.x) <= MineIn(c.session.scope, old(c.x)) - {tag}
  {
    err := c.RemoveInbound(tag);
  }

  /** The tags of the scope among the first n inbounds are gone. */
  ghost predicate CoveredIn(existing: seq<Inbound>, n: nat, scope: Scope, gone: set<Tag>)
    requires n <= |existing|
  {
    gone == set i | 0 <= i < n && scope.Covers(KindInbound, existing[i].tag) :: existing[i].tag
  }

  lemma CoveredInMore(existing: seq<Inbound>, n: nat, scope: Scope, gone: set<Tag>)
    requires n < |existing| && CoveredIn(existing, n, scope, gone)
    ensures CoveredIn(existing, n + 1, scope, gone + if scope.Covers(KindInbound, existing[n].tag) then {existing[n].tag} else {})
  {
  }

  /** Step 3: the listed inbounds of the source are removed. */
  method RemoveInbounds(c: Client, ns: Namespace, existing: seq<Inbound>) returns (r: Report, err: Error)
    requires Working(c, ns)
    requires forall tag :: tag in c.x.inbounds <==> exists h :: h in existing && h.tag == tag
    modifies c
    ensures Working(c, ns) && OnlyInbounds(c) && r.failed == 0 && r.appliedIds == []
    ensures err == Nil ==>
              && MineIn(c.session.scope, c.x) == {}
              && HoldsIn(c, old(c.x), old(c.x.inbounds) - MineIn(c.session.scope, old(c.x)))
              && (c.x.restarts == old(c.x.restarts) ==>
                    (set tag | tag in r.deletedIds) == MineIn(c.session.scope, old(c.x)))
  {
    r, err := EmptyReport, Nil;
    ghost var scope := c.session.scope;
    ghost var gone: set<Tag> := {};
    var n := 0;
    while n < |existing|
      invariant Working(c, ns) && OnlyInbounds(c) && err == Nil && r.failed == 0 && r.appliedIds == []
      invariant n <= |existing| && gone == set tag | tag in r.deletedIds
      invariant CoveredIn(existing, n, scope, gone)
      invariant MineIn(scope, c.x) <= MineIn(scope, old(c.x)) - gone
      invariant HoldsIn(c, old(c.x), old(c.x.inbounds) - gone)
    {
      var tag := existing[n].tag;
      CoveredInMore(existing, n, scope, gone);
      if tag !in c.t.fixedInbounds && ns.Owns(KindInbound, tag) {
        err := RemoveOneInbound(c, ns, tag, old(c.x), old(c.x.inbounds) - gone);
        if err != Nil {
          return;
        }
        assert old(c.x.inbounds) - gone - {tag} == old(c.x.inbounds) - (gone + {tag});
        gone := gone + {tag};
        r := r.WithRemoved(tag);
      }
      n := n + 1;
    }
    assert MineIn(scope, old(c.x)) <= gone by {
      forall tag | tag in MineIn(scope, old(c.x))
        ensures tag in gone
      {
        var h :| h in existing && h.tag == tag;
        var i :| 0 <= i < |existing| && existing[i] == h;
        assert existing[i].tag in gone;
      }
    }
    assert gone == MineIn(scope, old(c.x)) by {
      forall i | 0 <= i < |existing|
        ensures existing[i].tag in old(c.x.inbounds)
      {
        assert existing[i] in existing;
      }
    }
  }

  lemma ListenersMore(base: map<Tag, Listener>, tunnels: seq<Tunnel>, n: nat)
    requires n < |tunnels|
    ensures base + Listeners(tunnels[..n + 1]) ==
            (base + Listeners(tunnels[..n]))[tunnels[n].inboundTag := Listener(tunnels[n].listen, tunnels[n].port)]
    ensures Listeners(tunnels[..n + 1]).Keys == Listeners(tunnels[..n]).Keys + {tunnels[n].inboundTag}
    ensures InboundTags(tunnels[..n + 1]) == InboundTags(tunnels[..n]) + [tunnels[n].inboundTag]
  {
    assert tunnels[..n + 1][..n] == tunnels[..n];
  }

  method AddOneInbound(c: Client, ghost ns: Namespace, tn: Tunnel, ghost a: Server, ghost m: map<Tag, Listener>) returns (err: Error)
    requires Working(c, ns) && c.session.scope.Covers(KindInbound, tn.inboundTag) && HoldsIn(c, a, m)
    modifies c
    ensures Working(c, ns) && OnlyInbounds(c)
    ensures err == Nil ==>
              && HoldsIn(c, a, m[tn.inboundTag := Listener(tn.listen, tn.port)])
              && MineIn(c.session.scope, c.x) <= MineIn(c.session.scope, old(c.x)) + {tn.inboundTag}
  {
    err := Build();
    if err == Nil {
      err := c.AddInbound(InboundOf(tn));
    }
  }

  /** Step 4: the inbounds of the tunnels are added in order. */
  method AddInbounds(c: Client, ghost ns: Namespace, tunnels: seq<Tunnel>, r0: Report, ghost a: Server,
                     ghost kept: map<Tag, Listener>, existed: set<Tag>)
    returns (r: Report, err: Error)
    requires Working(c, ns) && MineIn(c.session.scope, c.x) == {} && HoldsIn(c, a, kept)
    requires forall tn :: tn in tunnels ==> c.session.scope.Covers(KindInbound, tn.inboundTag)
    requires r0.failed == 0 && r0.appliedIds == []
    modifies c
    ensures Working(c, ns) && OnlyInbounds(c) && r.failed == 0 && r.deletedIds == r0.deletedIds
    ensures err == Nil ==>
              && r.appliedIds == InboundTags(tunnels)
              && MineIn(c.session.scope, c.x) <= Listeners(tunnels).Keys
              && HoldsIn(c, a, kept + Listeners(tunnels))
  {
    r, err := r0, Nil;
    var n := 0;
    assert kept + Listeners(tunnels[..0]) == kept;
    while n < |tunnels|
      invariant Working(c, ns) && OnlyInbounds(c) && err == Nil && r.failed == 0 && r.deletedIds == r0.deletedIds
      invariant n <= |tunnels| && r.appliedIds == InboundTags(tunnels[..n])
      invariant MineIn(c.session.scope, c.x) <= Listeners(tunnels[..n]).Keys
      invariant HoldsIn(c, a, kept + Listeners(tunnels[..n]))
    {
      var tn := tunnels[n];
      err := AddOneInbound(c, ns, tn, a, kept + Listeners(tunnels[..n]));
      if err != Nil {
        return;
      }
      ListenersMore(kept, tunnels, n);
      r := r.WithAdded(tn.inboundTag, tn.inboundTag in existed);
      n := n + 1;
    }
    assert tunnels[..n] == tunnels;
  }

  /** Inbounds: on success the source's inbounds are exactly those of the tunnels and nothing
      else changed; after a restart on the way at least no others are left. */
  method Inbounds(c: Client, ns: Namespace, tunnels: seq<Tunnel>) returns (o: Outcome)
    requires Working(c, ns) && AllWellFormed(tunnels, ns)
    modifies c
    ensures Working(c, ns) && OnlyInbounds(c)
    ensures o.ListFailed? ==> c.Looked()
    ensures o.Reported? && o.r.failed == 0 ==>
              && o.r.appliedIds == InboundTags(tunnels)
              && MineIn(c.session.scope, c.x) <= Listeners(tunnels).Keys
              && (c.x.restarts == old(c.x.restarts) ==>
                    c.x == old(c.x).(inbounds := old(c.x.inbounds) - MineIn(c.session.scope, old(c.x)) + Listeners(tunnels)))
  {
    forall tn | tn in tunnels
      ensures c.session.scope.Covers(KindInbound, tn.inboundTag)
    {
      TunnelTagsCovered(tn, c.t, ns);
    }
    for i := 0 to |tunnels|
      invariant Working(c, ns) && OnlyInbounds(c) && c.x == old(c.x)
    {
      if tunnels[i].inboundTag in c.t.fixedInbounds {
        return Reported(EmptyReport.WithFailure(tunnels[i].inboundTag));
      }
    }
    var existing, err := c.ListInbounds();
    if err != Nil {
      return ListFailed;
    }
    assert forall tag :: tag in c.x.inbounds ==>
             Inbound(tag, c.x.inbounds[tag].listen, c.x.inbounds[tag].port) in existing;
    o := ReplaceInbounds(c, ns, existing, tunnels);
  }

  method ReplaceInbounds(c: Client, ns: Namespace, existing: seq<Inbound>, tunnels: seq<Tunnel>) returns (o: Outcome)
    requires Working(c, ns)
    requires forall tn :: tn in tunnels ==> c.session.scope.Covers(KindInbound, tn.inboundTag)
    requires forall tag :: tag in c.x.inbounds <==> exists h :: h in existing && h.tag == tag
    modifies c
    ensures Working(c, ns) && OnlyInbounds(c) && o.Reported?
    ensures o.r.failed == 0 ==>
              && o.r.appliedIds == InboundTags(tunnels)
              && MineIn(c.session.scope, c.x) <= Listeners(tunnels).Keys
              && HoldsIn(c, old(c.x), old(c.x.inbounds) - MineIn(c.session.scope, old(c.x)) + Listeners(tunnels))
  {
    ghost var a := c.x;
    var r, err := RemoveInbounds(c, ns, existing);
    if err == Nil {
      var existed := set h | h in existing :: h.tag;
      r, err := AddInbounds(c, ns, tunnels, r, a, a.inbounds - MineIn(c.session.scope, a), existed);
    }
    if err != Nil {
      r := r.WithFailure(if |tunnels| > 0 then tunnels[0].inboundTag else "inbound");
    }
    o := Reported(r);
  }

  // ---- routing rules

  /** The rules whose tags are not in gone, in order. */
  function Drop(rules: seq<Rule>, gone: set<Tag>): seq<Rule> {
    if rules == [] then []
    else (if rules[0].ruleTag in gone then [] else [rules[0]]) + Drop(rules[1..], gone)
  }

  lemma {:induction false} DropMore(rules: seq<Rule>, gone: set<Tag>, tag: Tag)
    ensures Without(Drop(rules, gone), tag) == Drop(rules, gone + {tag})
  {
    if rules != [] {
      DropMore(rules[1..], gone, tag);
      var rest := Drop(rules[1..], gone);
      if rules[0].ruleTag !in gone {
        assert ([rules[0]] + rest)[1..] == rest;
      } else {
        assert [] + rest == rest;
      }
    }
  }

  lemma {:induction false} DropNone(rules: seq<Rule>)
    ensures Drop(rules, {}) == rules
  {
    if rules != [] {
      DropNone(rules[1..]);
    }
  }

  /** Dropping every covered tag that occurs leaves what lies outside the scope. */
  lemma {:induction false} DropCovered(rules: seq<Rule>, gone: set<Tag>, scope: Scope)
    requires forall r :: r in rules ==> (r.ruleTag in gone <==> scope.Covers(KindRouting, r.ruleTag))
    ensures Drop(rules, gone) == Outside(rules, scope)
  {
    if rules != [] {
      assert rules[0] in rules;
      DropCovered(rules[1..], gone, scope);
    }
  }

  function RulesOf(tunnels: seq<Tunnel>): seq<Rule> {
    seq(|tunnels|, i requires 0 <= i < |tunnels| => RuleOf(tunnels[i], tunnels[i].outboundTagCurrent))
  }

  ghost predicate HoldsRules(c: Client, a: Server, rules: seq<Rule>)
    reads c
  {
    a.restarts <= c.x.restarts && (c.x.restarts == a.restarts ==> c.x == a.(rules := rules))
  }

  method RemoveOneRule(c: Client, ghost ns: Namespace, tag: Tag, ghost a: Server, ghost rules: seq<Rule>) returns (err: Error)
    requires Working(c, ns) && c.session.scope.Covers(KindRouting, tag) && HoldsRules(c, a, rules)
    modifies c
    ensures Working(c, ns) && OnlyRules(c)
    ensures err == Nil ==> HoldsRules(c, a, Without(rules, tag))
  {
    err := c.RemoveRule(tag);
  }

  method AddOneRule(c: Client, ghost ns: Namespace, rl: Rule, ghost a: Server, ghost rules: seq<Rule>) returns (err: Error)
    requires Working(c, ns) && c.session.scope.Covers(KindRouting, rl.ruleTag) && HoldsRules(c, a, rules)
    modifies c
    ensures Working(c, ns) && OnlyRules(c)
    ensures err == Nil ==> HoldsRules(c, a, rules + [rl])
  {
    err := c.AddRule(rl);
  }

  /** Of the first n rules exactly the tags of the scope are gone. */
  ghost predicate CoveredTags(existing: seq<Rule>, n: nat, scope: Scope, gone: set<Tag>)
    requires n <= |existing|
  {
    && (forall tag :: tag in gone ==> scope.Covers(KindRouting, tag))
    && forall i :: 0 <= i < n && scope.Covers(KindRouting, existing[i].ruleTag) ==> existing[i].ruleTag in gone
  }

  method RemoveRules(c: Client, ns: Namespace, existing: seq<Rule>) returns (r: Report, err: Error)
    requires Working(c, ns) && existing == c.x.rules
    modifies c
    ensures Working(c, ns) && OnlyRules(c) && r.failed == 0 && r.appliedIds == []
    ensures err == Nil ==> HoldsRules(c, old(c.x), Outside(old(c.x.rules), c.session.scope))
  {
    r, err := EmptyReport, Nil;
    ghost var scope := c.session.scope;
    ghost var gone: set<Tag> := {};
    DropNone(existing);
    var n := 0;
    while n < |existing|
      invariant Working(c, ns) && OnlyRules(c) && err == Nil && r.failed == 0 && r.appliedIds == []
      invariant n <= |existing| && CoveredTags(existing, n, scope, gone)
      invariant HoldsRules(c, old(c.x), Drop(existing, gone))
    {
      var tag := existing[n].ruleTag;
      if tag !in c.t.fixedRouting && ns.Owns(KindRouting, tag) {
        err := RemoveOneRule(c, ns, tag, old(c.x), Drop(existing, gone));
        if err != Nil {
          return;
        }
        DropMore(existing, gone, tag);
        gone := gone + {tag};
        r := r.WithRemoved(tag);
      }
      n := n + 1;
    }
    DropCovered(existing, gone, scope);
  }

  method AddRules(c: Client, ghost ns: Namespace, tunnels: seq<Tunnel>, r0: Report, ghost a: Server,
                  ghost kept: seq<Rule>, existed: set<Tag>)
    returns (r: Report, err: Error)
    requires Working(c, ns) && HoldsRules(c, a, kept)
    requires forall tn :: tn in tunnels ==> c.session.scope.Covers(KindRouting, tn.routeTag)
    requires r0.failed == 0 && r0.appliedIds == []
    modifies c
    ensures Working(c, ns) && OnlyRules(c) && r.failed == 0
    ensures err == Nil ==> r.appliedIds == RouteTags(tunnels) && HoldsRules(c, a, kept + RulesOf(tunnels))
  {
    r, err := r0, Nil;
    var n := 0;
    while n < |tunnels|
      invariant Working(c, ns) && OnlyRules(c) && err == Nil && r.failed == 0
      invariant n <= |tunnels| && r.appliedIds == RouteTags(tunnels[..n])
      invariant HoldsRules(c, a, kept + RulesOf(tunnels[..n]))
    {
      var tn := tunnels[n];
      err := AddOneRule(c, ns, RuleOf(tn, tn.outboundTagCurrent), a, kept + RulesOf(tunnels[..n]));
      if err != Nil {
        return;
      }
      assert kept + RulesOf(tunnels[..n + 1]) == kept + RulesOf(tunnels[..n]) + [RuleOf(tn, tn.outboundTagCurrent)];
      r := r.WithAdded(tn.routeTag, tn.routeTag in existed);
      n := n + 1;
    }
    assert tunnels[..n] == tunnels;
  }

  /** Routing: on success without a restart the source's rules are exactly those of the tunnels,
      after all other rules, whose order is kept. */
  method Routing(c: Client, ns: Namespace, tunnels: seq<Tunnel>) returns (o: Outcome)
    requires Working(c, ns) && AllWellFormed(tunnels, ns)
    modifies c
    ensures Working(c, ns) && OnlyRules(c)
    ensures o.ListFailed? ==> c.Looked()
    ensures o.Reported? && o.r.failed == 0 ==>
              && o.r.appliedIds == RouteTags(tunnels)
              && (c.x.restarts == old(c.x.restarts) ==>
                    c.x == old(c.x).(rules := Outside(old(c.x.rules), c.session.scope) + RulesOf(tunnels)))
  {
    forall tn | tn in tunnels
      ensures c.session.scope.Covers(KindRouting, tn.routeTag)
    {
      TunnelTagsCovered(tn, c.t, ns);
    }
    for i := 0 to |tunnels|
      invariant Working(c, ns) && OnlyRules(c) && c.x == old(c.x)
    {
      if tunnels[i].routeTag in c.t.fixedRouting {
        return Reported(EmptyReport.WithFailure(tunnels[i].routeTag));
      }
    }
    var existing, err := c.ListRules();
    if err != Nil {
      return ListFailed;
    }
    ghost var a := c.x;
    var r;
    r, err := RemoveRules(c, ns, existing);
    if err == Nil {
      var existed := set rl | rl in existing :: rl.ruleTag;
      r, err := AddRules(c, ns, tunnels, r, a, Outside(a.rules, c.session.scope), existed);
    }
    if err != Nil {
      r := r.WithFailure(if |tunnels| > 0 then tunnels[0].routeTag else "routing");
    }
    o := Reported(r);
  }
}
