/** Removing what no enabled source owns (internal/scd/apply/namespace.go, RemoveOrphans). */
module Orphans {
  import opened Namespaces
  import opened SourceRules
  import opened XrayApi
  import opened ApplyOutbounds
  import opened ApplyTunnels

  datatype Orphan = Orphan(kind: Kind, tag: Tag)

  /** The client removes the orphans of the target whose enabled sources have the namespaces. */
  ghost predicate Sweeping(c: Client, namespaces: seq<Namespace>)
    reads c
  {
    c.Valid() && c.session.scope == OrphanScope(c.t, namespaces)
  }

  /** The closure orphan of RemoveOrphans. */
  predicate IsOrphan(t: Target, namespaces: seq<Namespace>, kind: Kind, tag: Tag) {
    tag != "" && tag !in t.Fixed(kind) && forall i :: 0 <= i < |namespaces| ==> !namespaces[i].Owns(kind, tag)
  }

  lemma OrphansAreCovered(t: Target, namespaces: seq<Namespace>, kind: Kind, tag: Tag)
    ensures IsOrphan(t, namespaces, kind, tag) <==> OrphanScope(t, namespaces).Covers(kind, tag)
  {
    assert forall i :: 0 <= i < |namespaces| ==> namespaces[i] in namespaces;
  }

  /** s without its orphans of the given kinds. */
  function Swept(s: Server, kinds: set<Kind>, scope: Scope): Server {
    Server(
      if KindOutbound in kinds then Rest(scope, s).outbounds else s.outbounds,
      if KindInbound in kinds then Rest(scope, s).inbounds else s.inbounds,
      if KindRouting in kinds then Rest(scope, s).rules else s.rules,
      s.restarts)
  }

  /** s without the resources of one kind whose tags are in gone. */
  function Minus(s: Server, kind: Kind, gone: set<Tag>): Server {
    match kind
    case KindOutbound => s.(outbounds := s.outbounds - gone)
    case KindInbound => s.(inbounds := s.inbounds - gone)
    case KindRouting => s.(rules := Drop(s.rules, gone))
  }

  /** The orphans of one kind among tags. */
  function Covered(tags: seq<Tag>, kind: Kind, scope: Scope): set<Tag> {
    set tag | tag in tags && scope.Covers(kind, tag)
  }

  lemma SweptIsMinus(s: Server, kind: Kind, tags: seq<Tag>, scope: Scope)
    requires forall tag :: tag in tags <==> tag in TagsOf(s, kind)
    ensures Minus(s, kind, Covered(tags, kind, scope)) == Swept(s, {kind}, scope)
  {
    if kind == KindRouting {
      forall r | r in s.rules
        ensures r.ruleTag in TagsOf(s, kind)
      {
        var i :| 0 <= i < |s.rules| && s.rules[i] == r;
      }
      DropCovered(s.rules, Covered(tags, kind, scope), scope);
    }
  }

  /** If Xray has not restarted since state a, it is b. */
  ghost predicate Reached(c: Client, a: Server, b: Server)
    reads c
  {
    a.restarts <= c.x.restarts && (c.x.restarts == a.restarts ==> c.x == b)
  }

  lemma InboundsListed(list: seq<Inbound>, s: Server, tags: seq<Tag>)
    requires forall h :: h in list <==> h.tag in s.inbounds && s.inbounds[h.tag] == Listener(h.listen, h.port)
    requires |tags| == |list| && forall i :: 0 <= i < |list| ==> tags[i] == list[i].tag
    ensures forall tag :: tag in tags <==> tag in s.inbounds
  {
    forall tag | tag in s.inbounds
      ensures tag in tags
    {
      var h := Inbound(tag, s.inbounds[tag].listen, s.inbounds[tag].port);
      assert h in list;
      var i :| 0 <= i < |list| && list[i] == h;
      assert tags[i] == tag;
    }
    forall i | 0 <= i < |tags|
      ensures tags[i] in s.inbounds
    {
      assert list[i] in list;
    }
  }

  lemma OutboundsListed(list: seq<Outbound>, s: Server, tags: seq<Tag>)
    requires Lists(list, s)
    requires |tags| == |list| && forall i :: 0 <= i < |list| ==> tags[i] == list[i].tag
    ensures forall tag :: tag in tags <==> tag in s.outbounds
  {
    forall tag | tag in s.outbounds
      ensures tag in tags
    {
      var h := Outbound(tag, s.outbounds[tag]);
      assert h in list;
      var i :| 0 <= i < |list| && list[i] == h;
      assert tags[i] == tag;
    }
    forall i | 0 <= i < |tags|
      ensures tags[i] in s.outbounds
    {
      assert list[i] in list;
    }
  }

  /** The tags of one kind, as listed. */
  method ListTags(c: Client, kind: Kind) returns (tags: seq<Tag>, err: Error)
    requires c.Valid()
    modifies c
    ensures c.Valid() && c.Looked()
    ensures err == Nil ==> forall tag :: tag in tags <==> tag in TagsOf(c.x, kind)
  {
    tags := [];
    match kind
    case KindRouting =>
      var list;
      list, err := c.ListRules();
      tags := seq(|list|, i requires 0 <= i < |list| => list[i].ruleTag);
      assert forall i :: 0 <= i < |list| ==> tags[i] == list[i].ruleTag;
    case KindInbound =>
      var list;
      list, err := c.ListInbounds();
      tags := seq(|list|, i requires 0 <= i < |list| => list[i].tag);
      if err == Nil {
        InboundsListed(list, c.x, tags);
      }
    case KindOutbound =>
      var list;
      list, err := c.ListOutbounds();
      tags := seq(|list|, i requires 0 <= i < |list| => list[i].tag);
      if err == Nil {
        OutboundsListed(list, c.x, tags);
      }
  }

  /** The remove call of one kind. */
  method Remove(c: Client, ghost namespaces: seq<Namespace>, kind: Kind, tag: Tag, ghost a: Server, ghost gone: set<Tag>) returns (err: Error)
    requires Sweeping(c, namespaces) && c.session.scope.Covers(kind, tag)
    requires Reached(c, a, Minus(a, kind, gone))
    modifies c
    ensures Sweeping(c, namespaces) && c.Moved()
    ensures err == Nil ==> Reached(c, a, Minus(a, kind, gone + {tag}))
  {
    match kind
    case KindRouting =>
      err := c.RemoveRule(tag);
      DropMore(a.rules, gone, tag);
    case KindInbound =>
      err := c.RemoveInbound(tag);
      assert a.inbounds - gone - {tag} == a.inbounds - (gone + {tag});
    case KindOutbound =>
      err := c.RemoveOutbound(tag);
      assert a.outbounds - gone - {tag} == a.outbounds - (gone + {tag});
  }

  /** The orphans of one kind; kept lists the other tags. */
  method Sweep(c: Client, namespaces: seq<Namespace>, kind: Kind) returns (removed: seq<Orphan>, kept: seq<Tag>, err: Error)
    requires Sweeping(c, namespaces)
    modifies c
    ensures Sweeping(c, namespaces) && c.Moved()
    ensures err == Nil ==> Reached(c, old(c.x), Swept(old(c.x), {kind}, c.session.scope))
    ensures forall o :: o in removed ==> o.kind == kind && c.session.scope.Covers(kind, o.tag)
    ensures err == Nil && c.x.restarts == old(c.x.restarts) ==>
              && (forall tag :: tag in TagsOf(old(c.x), kind) && c.session.scope.Covers(kind, tag) ==> Orphan(kind, tag) in removed)
              && (forall tag :: tag in kept <==> tag in TagsOf(old(c.x), kind) && !c.session.scope.Covers(kind, tag))
  {
    var tags;
    tags, err := ListTags(c, kind);
    removed, kept := [], [];
    if err == Nil {
      SweptIsMinus(c.x, kind, tags, c.session.scope);
      removed, kept, err := SweepTags(c, namespaces, kind, tags);
    }
  }

  method SweepTags(c: Client, namespaces: seq<Namespace>, kind: Kind, tags: seq<Tag>)
    returns (removed: seq<Orphan>, kept: seq<Tag>, err: Error)
    requires Sweeping(c, namespaces)
    modifies c
    ensures Sweeping(c, namespaces) && c.Moved()
    ensures err == Nil ==> Reached(c, old(c.x), Minus(old(c.x), kind, Covered(tags, kind, c.session.scope)))
    ensures forall o :: o in removed ==> o.kind == kind && c.session.scope.Covers(kind, o.tag)
    ensures err == Nil ==>
              && (forall tag :: tag in tags && c.session.scope.Covers(kind, tag) ==> Orphan(kind, tag) in removed)
              && (forall tag :: tag in kept <==> tag in tags && !c.session.scope.Covers(kind, tag))
  {
    ghost var a, scope := c.x, c.session.scope;
    removed, kept, err := [], [], Nil;
    NothingGone(a, kind, tags, scope);
    var i := 0;
    while i < |tags|
      invariant i <= |tags| && Sweeping(c, namespaces) && c.Moved() && err == Nil
      invariant Reached(c, a, Minus(a, kind, Covered(tags[..i], kind, scope)))
      invariant Sorted(tags[..i], kind, scope, removed, kept)
    {
      var tag := tags[i];
      OrphansAreCovered(c.t, namespaces, kind, tag);
      CoveredStep(tags, i, kind, scope, removed, kept);
      if !IsOrphan(c.t, namespaces, kind, tag) {
        kept := kept + [tag];
      } else {
        err := Remove(c, namespaces, kind, tag, a, Covered(tags[..i], kind, scope));
        if err != Nil {
          return;
        }
        removed := removed + [Orphan(kind, tag)];
      }
      i := i + 1;
    }
    assert tags[..i] == tags;
  }

  /** removed and kept divide tags. */
  ghost predicate Sorted(tags: seq<Tag>, kind: Kind, scope: Scope, removed: seq<Orphan>, kept: seq<Tag>) {
    && (forall o :: o in removed <==> o.kind == kind && o.tag in tags && scope.Covers(kind, o.tag))
    && (forall tag :: tag in kept <==> tag in tags && !scope.Covers(kind, tag))
  }

  lemma CoveredStep(tags: seq<Tag>, i: nat, kind: Kind, scope: Scope, removed: seq<Orphan>, kept: seq<Tag>)
    requires i < |tags| && Sorted(tags[..i], kind, scope, removed, kept)
    ensures if scope.Covers(kind, tags[i])
            then Covered(tags[..i + 1], kind, scope) == Covered(tags[..i], kind, scope) + {tags[i]}
            else Covered(tags[..i + 1], kind, scope) == Covered(tags[..i], kind, scope)
    ensures if scope.Covers(kind, tags[i])
            then Sorted(tags[..i + 1], kind, scope, removed + [Orphan(kind, tags[i])], kept)
            else Sorted(tags[..i + 1], kind, scope, removed, kept + [tags[i]])
  {
    assert tags[..i + 1] == tags[..i] + [tags[i]];
  }

  lemma NothingGone(a: Server, kind: Kind, tags: seq<Tag>, scope: Scope)
    ensures Minus(a, kind, Covered(tags[..0], kind, scope)) == a
  {
    assert Covered(tags[..0], kind, scope) == {};
    DropNone(a.rules);
    assert a.outbounds - {} == a.outbounds && a.inbounds - {} == a.inbounds;
  }

  /** The orphans of routing and of inbounds. */
  method SweepTunnels(c: Client, kinds: set<Kind>, namespaces: seq<Namespace>) returns (removed: seq<Orphan>, err: Error)
    requires Sweeping(c, namespaces)
    modifies c
    ensures Sweeping(c, namespaces) && c.Moved()
    ensures err == Nil ==> Reached(c, old(c.x), Swept(old(c.x), kinds - {KindOutbound}, c.session.scope))
    ensures forall o :: o in removed ==> o.kind in kinds - {KindOutbound} && c.session.scope.Covers(o.kind, o.tag)
  {
    removed, err := [], Nil;
    var more, kept;
    if KindRouting in kinds {
      removed, kept, err := Sweep(c, namespaces, KindRouting);
    }
    if err == Nil && KindInbound in kinds {
      more, kept, err := Sweep(c, namespaces, KindInbound);
      removed := removed + more;
    }
  }

  /** RemoveOrphans: for the enabled kinds, routing before inbounds before outbounds. A success
      leaves, of those kinds, exactly what is fixed, owned by an enabled source or untagged, and
      returns exactly the outbound tags left. Whatever the outcome, nothing but orphans is ever
      touched (c.Valid and the session's scope). */
  method RemoveOrphans(c: Client, kinds: set<Kind>, namespaces: seq<Namespace>)
    returns (removed: seq<Orphan>, outbounds: seq<Tag>, err: Error)
    requires Sweeping(c, namespaces)
    modifies c
    ensures Sweeping(c, namespaces) && c.Moved()
    ensures err == Nil ==> Reached(c, old(c.x), Swept(old(c.x), kinds, c.session.scope))
    ensures forall o :: o in removed ==> o.kind in kinds && IsOrphan(c.t, namespaces, o.kind, o.tag)
    ensures err == Nil && KindOutbound in kinds && c.x.restarts == old(c.x.restarts) ==>
              && (forall tag :: tag in outbounds <==> tag in c.x.outbounds)
              && (forall tag :: tag in old(c.x.outbounds) && tag !in c.x.outbounds ==> Orphan(KindOutbound, tag) in removed)
    ensures err != Nil ==> outbounds == []
  {
    outbounds := [];
    var more, kept;
    removed, err := SweepTunnels(c, kinds, namespaces);
    if err == Nil && KindOutbound in kinds {
      more, kept, err := Sweep(c, namespaces, KindOutbound);
      removed := removed + more;
      if err == Nil {
        outbounds := kept;
      }
    }
    forall o | o in removed
      ensures IsOrphan(c.t, namespaces, o.kind, o.tag)
    {
      OrphansAreCovered(c.t, namespaces, o.kind, o.tag);
    }
  }
}
