/** Replacing all outbounds of one source, with rollback (internal/scd/apply/outbounds.go). */
module ApplyOutbounds {
  import opened Namespaces
  import opened Sets
  import opened SourceRules
  import opened XrayApi
  import opened Topology
  import opened TunnelCalls
  import opened ApplyScript

  datatype Status = Removed | Added | Replaced | Failed
  datatype Item = Item(id: Tag, status: Status)

  /** The report of one kind on one target. */
  datatype Report = Report(
    added: nat, replaced: nat, removed: nat, failed: nat,
    deletedIds: seq<Tag>, appliedIds: seq<Tag>, items: seq<Item>)
  {
    function WithRemoved(tag: Tag): Report {
      this.(removed := removed + 1, deletedIds := deletedIds + [tag], items := items + [Item(tag, Removed)])
    }

    function WithAdded(tag: Tag, again: bool): Report {
      this.(added := if again then added else added + 1, replaced := if again then replaced + 1 else replaced,
            appliedIds := appliedIds + [tag], items := items + [Item(tag, if again then Replaced else Added)])
    }

    function WithFailure(id: Tag): Report {
      this.(failed := 1, items := items + [Item(id, Failed)])
    }
  }

  const EmptyReport := Report(0, 0, 0, 0, [], [], [])

  /** The outbounds hs as Xray holds them, the last of one tag winning. */
  function MapOf(hs: seq<Outbound>): map<Tag, string> {
    if hs == [] then map[]
    else MapOf(hs[..|hs| - 1])[hs[|hs| - 1].tag := hs[|hs| - 1].json]
  }

  lemma {:induction false} KeysOf(hs: seq<Outbound>)
    ensures MapOf(hs).Keys == set i | 0 <= i < |hs| :: hs[i].tag
  {
    if hs != [] {
      var n := |hs| - 1;
      KeysOf(hs[..n]);
      assert forall i :: 0 <= i < n ==> hs[..n][i] == hs[i];
      assert MapOf(hs).Keys == MapOf(hs[..n]).Keys + {hs[n].tag};
    }
  }

  /** Adding to base one outbound more of hs. */
  lemma OneMore(base: map<Tag, string>, hs: seq<Outbound>, n: nat)
    requires n < |hs|
    ensures (base + MapOf(hs[..n]))[hs[n].tag := hs[n].json] == base + MapOf(hs[..n + 1])
    ensures hs[n].tag !in base && hs[n].tag !in MapOf(hs[..n]) ==>
              base + MapOf(hs[..n + 1]) - {hs[n].tag} == base + MapOf(hs[..n])
  {
    assert hs[..n + 1][..n] == hs[..n];
    assert hs[..n + 1][n] == hs[n];
  }

  /** Putting all backups back restores the map they were taken from. */
  lemma {:induction false} BackupsRestore(before: map<Tag, string>, backups: seq<Outbound>)
    requires forall i :: 0 <= i < |backups| ==> backups[i].tag in before && before[backups[i].tag] == backups[i].json
    ensures forall tag :: tag in MapOf(backups) ==> tag in before && before[tag] == MapOf(backups)[tag]
    ensures (before - MapOf(backups).Keys) + MapOf(backups) == before
  {
    if backups != [] {
      var n := |backups| - 1;
      BackupsRestore(before, backups[..n]);
    }
  }

  /** The outbounds of a scope among hs, in order. */
  function Select(hs: seq<Outbound>, scope: Scope): seq<Outbound> {
    if hs == [] then []
    else
      var n := |hs| - 1;
      Select(hs[..n], scope) + if scope.Covers(KindOutbound, hs[n].tag) then [hs[n]] else []
  }

  lemma SelectStep(hs: seq<Outbound>, n: nat, scope: Scope)
    requires n < |hs|
    ensures Select(hs[..n + 1], scope) ==
            Select(hs[..n], scope) + if scope.Covers(KindOutbound, hs[n].tag) then [hs[n]] else []
  {
    assert hs[..n + 1][..n] == hs[..n];
  }

  lemma {:induction false} SelectMembers(hs: seq<Outbound>, scope: Scope)
    ensures forall h :: h in Select(hs, scope) <==> h in hs && scope.Covers(KindOutbound, h.tag)
    ensures Distinct(hs) ==> Distinct(Select(hs, scope))
  {
    if hs != [] {
      var n := |hs| - 1;
      SelectMembers(hs[..n], scope);
      assert hs == hs[..n] + [hs[n]];
      var s := Select(hs[..n], scope);
      if Distinct(hs) {
        forall i | 0 <= i < |s|
          ensures s[i].tag != hs[n].tag
        {
          assert s[i] in hs[..n];
        }
      }
    }
  }

  /** existing lists exactly the outbounds of s. */
  ghost predicate Lists(existing: seq<Outbound>, s: Server) {
    && (forall h :: h in existing <==> h.tag in s.outbounds && s.outbounds[h.tag] == h.json)
    && Distinct(existing)
  }

  lemma SelectedAreMine(existing: seq<Outbound>, s: Server, scope: Scope)
    requires Lists(existing, s)
    ensures MapOf(Select(existing, scope)).Keys == Mine(scope, s)
  {
    var mine := Select(existing, scope);
    SelectMembers(existing, scope);
    KeysOf(mine);
    forall tag | tag in Mine(scope, s)
      ensures tag in MapOf(mine)
    {
      assert Outbound(tag, s.outbounds[tag]) in mine;
    }
    forall i | 0 <= i < |mine|
      ensures mine[i].tag in Mine(scope, s)
    {
      assert mine[i] in mine;
    }
  }

  /** The report of an apply that removed the outbounds backups, then added those of added. */
  function Done(backups: seq<Outbound>, added: seq<Outbound>): Report {
    if added != [] then
      var n := |added| - 1;
      Done(backups, added[..n]).WithAdded(added[n].tag, added[n].tag in Tags(backups))
    else if backups != [] then
      var n := |backups| - 1;
      Done(backups[..n], []).WithRemoved(backups[n].tag)
    else
      EmptyReport
  }

  /** How many of added were among backups. */
  function Again(backups: seq<Outbound>, added: seq<Outbound>): (n: nat)
    ensures n <= |added|
  {
    if added == [] then 0
    else
      var n := |added| - 1;
      Again(backups, added[..n]) + if added[n].tag in Tags(backups) then 1 else 0
  }

  /** The counters and id lists of a report agree with what was done. */
  lemma {:induction false} DoneSays(backups: seq<Outbound>, added: seq<Outbound>)
    ensures var r := Done(backups, added);
            && r.failed == 0
            && r.deletedIds == Tags(backups) && r.removed == |backups|
            && r.appliedIds == Tags(added) && r.added + r.replaced == |added|
            && r.replaced == Again(backups, added)
    decreases |backups| + |added|
  {
    if added != [] {
      var n := |added| - 1;
      DoneSays(backups, added[..n]);
      assert Tags(added) == Tags(added[..n]) + [added[n].tag];
    } else if backups != [] {
      var n := |backups| - 1;
      DoneSays(backups[..n], []);
      assert Tags(backups) == Tags(backups[..n]) + [backups[n].tag];
    }
  }

  /** m without the tags of hs. */
  function Left(m: map<Tag, string>, hs: seq<Outbound>): map<Tag, string> {
    if hs == [] then m else Left(m, hs[..|hs| - 1]) - {hs[|hs| - 1].tag}
  }

  lemma {:induction false} LeftIs(m: map<Tag, string>, hs: seq<Outbound>)
    ensures Left(m, hs) == m - MapOf(hs).Keys
  {
    if hs != [] {
      var n := |hs| - 1;
      LeftIs(m, hs[..n]);
      assert MapOf(hs).Keys == MapOf(hs[..n]).Keys + {hs[n].tag};
    }
  }

  // ---- the steps of an apply

  /** Xray after work since state a that left it with the outbounds m, unless it restarted:
      then it has just booted. */
  ghost predicate HoldsSince(c: Client, a: Server, m: map<Tag, string>)
    reads c
  {
    c.x == if c.x.restarts == a.restarts then a.(outbounds := m) else c.boot.(restarts := c.x.restarts)
  }

  /** One removal of step 3. */
  method RemoveOne(c: Client, ghost ns: Namespace, h: Outbound, ghost a: Server, ghost m: map<Tag, string>)
    returns (err: Error, ghost f: Fate)
    requires Working(c, ns) && c.session.scope.Covers(KindOutbound, h.tag)
    requires a.restarts <= c.x.restarts && HoldsSince(c, a, m)
    modifies c
    ensures c.x == AfterRemoval(c.boot, old(c.x), h.tag, f) && (err == Nil <==> f.Ok())
    ensures err != Nil && c.lost == old(c.lost) ==> !f.done
    ensures Working(c, ns) && c.Moved() && (err == Nil || err == RpcError)
    ensures err == Nil ==> HoldsSince(c, a, m - {h.tag}) && c.failed == old(c.failed) && c.lost == old(c.lost)
    ensures err != Nil && c.lost == old(c.lost) ==> HoldsSince(c, a, m)
  {
    ghost var s := c.x;
    err := c.RemoveOutbound(h.tag);
    f := Fate(c.x.restarts - s.restarts, err == Nil || c.x != Base(c.boot, s, c.x), err == Nil);
  }

  /** Step 3: the listed outbounds of the source are removed, in the order listed; their configs
      are kept as backups. n is how many of existing were passed. */
  method RemoveOwned(c: Client, ns: Namespace, existing: seq<Outbound>)
    returns (r: Report, backups: seq<Outbound>, err: Error, n: nat, ghost fs: seq<Fate>, ghost stop: Fate)
    requires Working(c, ns) && Lists(existing, c.x)
    modifies c
    ensures |fs| == |backups| && forall i :: 0 <= i < |fs| ==> fs[i].Ok()
    ensures err == Nil ==> c.x == Removing(c.boot, old(c.x), backups, fs) && !stop.done
    ensures err != Nil ==>
              && n < |existing| && c.session.scope.Covers(KindOutbound, existing[n].tag)
              && c.x == AfterRemoval(c.boot, Removing(c.boot, old(c.x), backups, fs), existing[n].tag, stop)
              && !stop.Ok() && (c.lost == old(c.lost) ==> !stop.done)
    ensures Working(c, ns) && c.Moved() && (err == Nil || err == RpcError)
    ensures n <= |existing| && backups == Select(existing[..n], c.session.scope) && r == Done(backups, [])
    ensures err == Nil ==> n == |existing| && c.failed == old(c.failed) && c.lost == old(c.lost)
    ensures err == Nil || c.lost == old(c.lost) ==> HoldsSince(c, old(c.x), Left(old(c.x.outbounds), backups))
  {
    backups, err, n, r := [], Nil, 0, EmptyReport;
    fs, stop := [], Fate(0, false, false);
    while n < |existing|
      invariant |fs| == |backups| && (forall i :: 0 <= i < |fs| ==> fs[i].Ok()) && !stop.done
      invariant c.x == Removing(c.boot, old(c.x), backups, fs)
      invariant Working(c, ns) && c.Moved() && err == Nil
      invariant n <= |existing| && backups == Select(existing[..n], c.session.scope) && r == Done(backups, [])
      invariant c.failed == old(c.failed) && c.lost == old(c.lost)
      invariant HoldsSince(c, old(c.x), Left(old(c.x.outbounds), backups))
    {
      var h := existing[n];
      SelectStep(existing, n, c.session.scope);
      NotYet(existing, n, c.session.scope);
      if h.tag !in Tags(backups) && h.tag !in c.t.fixedOutbounds && ns.Owns(KindOutbound, h.tag) {
        ghost var f;
        err, f := RemoveOne(c, ns, h, old(c.x), Left(old(c.x.outbounds), backups));
        if err != Nil {
          stop := f;
          return;
        }
        assert (backups + [h])[..|backups|] == backups && (fs + [f])[..|fs|] == fs;
        backups, fs := backups + [h], fs + [f];
        r := r.WithRemoved(h.tag);
      }
      n := n + 1;
    }
  }

  /** A listed tag is not among the backups taken before it: the list has no tag twice. */
  lemma NotYet(existing: seq<Outbound>, i: nat, scope: Scope)
    requires i < |existing| && Distinct(existing)
    ensures existing[i].tag !in Tags(Select(existing[..i], scope))
  {
    SelectMembers(existing[..i], scope);
    var s := Select(existing[..i], scope);
    forall k | 0 <= k < |s|
      ensures s[k].tag != existing[i].tag
    {
      assert s[k] in existing[..i];
    }
  }

  /** If Xray has not restarted since state a, it is a with the outbounds m. */
  ghost predicate Holds(c: Client, a: Server, m: map<Tag, string>)
    reads c
  {
    a.restarts <= c.x.restarts && (c.x.restarts == a.restarts ==> c.x == a.(outbounds := m))
  }

  /** The pairs that must stay apart are outbounds of the scope, and none has its second one
      among hs. */
  ghost predicate Clashless(apart: set<(Tag, Tag)>, scope: Scope, hs: seq<Outbound>) {
    && (forall p :: p in apart ==> p.0 != p.1 && scope.Covers(KindOutbound, p.0) && scope.Covers(KindOutbound, p.1))
    && (forall p, h :: p in apart && h in hs ==> h.tag != p.1)
  }

  /** The client works on the job. */
  ghost predicate WorksOn(c: Client, ns: Namespace, job: Job)
    reads c
  {
    && Working(c, ns) && job.t == c.t && job.caps == c.caps && job.boot == c.boot && job.ns == ns
    && Clashless(c.session.apart, c.session.scope, job.entries)
  }

  /** The prefixed outbound h meets no bare one of a pair. */
  lemma EntryFits(scope: Scope, apart: set<(Tag, Tag)>, s: Server, h: Outbound, entries: seq<Outbound>, n: nat)
    requires n <= |entries| && h in entries && Clashless(apart, scope, entries)
    requires Mine(scope, s) <= MapOf(entries[..n]).Keys
    ensures Apart(apart, s.WithOutbound(h))
  {
    KeysOf(entries[..n]);
    assert forall i :: 0 <= i < n ==> entries[..n][i] == entries[i] && entries[i] in entries;
    forall p | p in apart
      ensures p.1 !in s.WithOutbound(h).outbounds
    {
      assert p.1 !in MapOf(entries[..n]);
      assert p.1 in s.outbounds ==> p.1 in Mine(scope, s);
    }
  }

  /** One addition of step 4. */
  method AddOne(c: Client, ghost ns: Namespace, h: Outbound, ghost a: Server, ghost m: map<Tag, string>, ghost job: Job)
    returns (err: Error, ghost f: Fate)
    requires WorksOn(c, ns, job) && c.session.scope.Covers(KindOutbound, h.tag)
    requires Apart(c.session.apart, c.x.WithOutbound(h)) && Apart(c.session.apart, c.boot.WithOutbound(h))
    requires Holds(c, a, m)
    modifies c
    ensures WorksOn(c, ns, job) && c.Moved()
    ensures c.x == AfterAddition(job, old(c.x), h, f) && (err == Nil <==> Succeeds(job, old(c.x), h, f))
    ensures err != Nil && c.lost == old(c.lost) ==> !f.done
    ensures err == Nil ==>
              && Holds(c, a, m[h.tag := h.json]) && (c.x.restarts == a.restarts ==> h.tag !in m)
              && Mine(c.session.scope, c.x) <= Mine(c.session.scope, old(c.x)) + {h.tag}
              && c.lost == old(c.lost)
    ensures err != Nil && c.lost == old(c.lost) ==> Holds(c, a, m)
  {
    f := Fate(0, false, false);
    err := Build();
    if err == Nil {
      ghost var s := c.x;
      err := c.AddOutbound(h);
      f := Fate(c.x.restarts - s.restarts, h.tag in c.x.outbounds && h.tag !in Base(c.boot, s, c.x).outbounds, err == Nil);
    }
  }

  /** hs can be added to m one after the other. */
  ghost predicate Addable(m: map<Tag, string>, hs: seq<Outbound>) {
    Distinct(hs) && forall i :: 0 <= i < |hs| ==> hs[i].tag !in m
  }

  lemma AddableMore(m: map<Tag, string>, hs: seq<Outbound>, n: nat)
    requires n < |hs| && Addable(m, hs[..n]) && hs[n].tag !in m + MapOf(hs[..n])
    ensures Addable(m, hs[..n + 1])
  {
    KeysOf(hs[..n]);
    assert hs[..n + 1] == hs[..n] + [hs[n]];
  }

  lemma EntryAdded(kept: map<Tag, string>, entries: seq<Outbound>, backups: seq<Outbound>, n: nat)
    requires n < |entries|
    ensures (kept + MapOf(entries[..n]))[entries[n].tag := entries[n].json] == kept + MapOf(entries[..n + 1])
    ensures MapOf(entries[..n + 1]).Keys == MapOf(entries[..n]).Keys + {entries[n].tag}
    ensures Done(backups, entries[..n + 1]) == Done(backups, entries[..n]).WithAdded(entries[n].tag, entries[n].tag in Tags(backups))
  {
    OneMore(kept, entries, n);
    assert entries[..n + 1][..n] == entries[..n];
  }

  /** One entry more. */
  method AddEntry(c: Client, ghost ns: Namespace, entries: seq<Outbound>, n: nat, backups: seq<Outbound>, r0: Report,
                  ghost a: Server, ghost kept: map<Tag, string>, ghost job: Job)
    returns (r: Report, err: Error, ghost f: Fate)
    requires n < |entries| && r0 == Done(backups, entries[..n])
    requires WorksOn(c, ns, job) && job.entries == entries && c.session.scope.Covers(KindOutbound, entries[n].tag)
    requires Holds(c, a, kept + MapOf(entries[..n])) && (c.x.restarts == a.restarts ==> Addable(kept, entries[..n]))
    requires Mine(c.session.scope, c.x) <= MapOf(entries[..n]).Keys
    modifies c
    ensures WorksOn(c, ns, job) && c.Moved()
    ensures c.x == AfterAddition(job, old(c.x), entries[n], f) && (err == Nil <==> Succeeds(job, old(c.x), entries[n], f))
    ensures err != Nil && c.lost == old(c.lost) ==> !f.done
    ensures r == Done(backups, entries[..if err == Nil then n + 1 else n])
    ensures err == Nil ==>
              && c.lost == old(c.lost)
              && Holds(c, a, kept + MapOf(entries[..n + 1])) && (c.x.restarts == a.restarts ==> Addable(kept, entries[..n + 1]))
              && Mine(c.session.scope, c.x) <= MapOf(entries[..n + 1]).Keys
    ensures err != Nil && c.lost == old(c.lost) ==> Holds(c, a, kept + MapOf(entries[..n]))
    ensures err != Nil && c.x.restarts == a.restarts ==> Addable(kept, entries[..n])
  {
    r := r0;
    EntryFits(c.session.scope, c.session.apart, c.x, entries[n], entries, n);
    EntryFits(c.session.scope, c.session.apart, c.boot, entries[n], entries, 0);
    err, f := AddOne(c, ns, entries[n], a, kept + MapOf(entries[..n]), job);
    if err == Nil {
      EntryAdded(kept, entries, backups, n);
      r := r.WithAdded(entries[n].tag, entries[n].tag in Tags(backups));
      if c.x.restarts == a.restarts {
        AddableMore(kept, entries, n);
      }
    }
  }

  /** x is a after the first n entries were added with the fates fs. */
  ghost predicate FirstAdded(job: Job, a: Server, x: Server, entries: seq<Outbound>, n: nat, fs: seq<Fate>)
    requires n <= |entries|
  {
    |fs| == n && AllSucceed(job, a, entries[..n], fs) && x == Adding(job, a, entries[..n], fs)
  }

  /** The same, with the addition after those stopped by the given fate. */
  ghost predicate Additions(job: Job, a: Server, x: Server, entries: seq<Outbound>, n: nat, fs: seq<Fate>, stop: Fate)
    requires n <= |entries|
  {
    && |fs| == n && AllSucceed(job, a, entries[..n], fs)
    && var s := Adding(job, a, entries[..n], fs);
    && (n == |entries| ==> x == s)
    && (n < |entries| ==> x == AfterAddition(job, s, entries[n], stop) && !Succeeds(job, s, entries[n], stop))
  }

  lemma AddedMore(job: Job, a: Server, s: Server, x: Server, entries: seq<Outbound>, n: nat, fs: seq<Fate>, f: Fate)
    requires n < |entries| && FirstAdded(job, a, s, entries, n, fs)
    requires x == AfterAddition(job, s, entries[n], f) && Succeeds(job, s, entries[n], f)
    ensures FirstAdded(job, a, x, entries, n + 1, fs + [f])
  {
    assert (fs + [f])[..n] == fs && entries[..n + 1][..n] == entries[..n];
  }

  /** Step 4: the entries are added in order; n is how many were. Without a restart Xray then
      holds them beside what step 3 left. */
  method AddEntries(c: Client, ghost ns: Namespace, entries: seq<Outbound>, backups: seq<Outbound>, r0: Report,
                    ghost a: Server, ghost kept: map<Tag, string>, ghost job: Job)
    returns (r: Report, n: nat, err: Error, ghost fs: seq<Fate>, ghost stop: Fate)
    requires WorksOn(c, ns, job) && job.entries == entries
    requires forall h :: h in entries ==> c.session.scope.Covers(KindOutbound, h.tag)
    requires HoldsSince(c, a, kept) && a.restarts <= c.x.restarts && Mine(c.session.scope, c.x) == {}
    requires r0 == Done(backups, [])
    modifies c
    ensures WorksOn(c, ns, job) && c.Moved()
    ensures n <= |entries| && r == Done(backups, entries[..n]) && (err == Nil <==> n == |entries|)
    ensures Additions(job, old(c.x), c.x, entries, n, fs, stop) && (c.lost == old(c.lost) ==> !stop.done)
    ensures err == Nil || c.lost == old(c.lost) ==> Holds(c, a, kept + MapOf(entries[..n]))
    ensures c.x.restarts == a.restarts ==> Addable(kept, entries[..n])
    ensures err == Nil ==> Mine(c.session.scope, c.x) <= MapOf(entries).Keys
  {
    r, n, err, fs, stop := r0, 0, Nil, [], Fate(0, false, false);
    assert kept + MapOf(entries[..0]) == kept;
    while n < |entries| && err == Nil
      invariant n <= |entries| && (err == Nil || n < |entries|)
      invariant if err == Nil then FirstAdded(job, old(c.x), c.x, entries, n, fs) && !stop.done
                else Additions(job, old(c.x), c.x, entries, n, fs, stop) && (c.lost == old(c.lost) ==> !stop.done)
      invariant WorksOn(c, ns, job) && c.Moved() && n <= |entries| && (err != Nil ==> n < |entries|)
      invariant r == Done(backups, entries[..n])
      invariant err == Nil ==> c.lost == old(c.lost) && Mine(c.session.scope, c.x) <= MapOf(entries[..n]).Keys
      invariant err == Nil || c.lost == old(c.lost) ==> Holds(c, a, kept + MapOf(entries[..n]))
      invariant c.x.restarts == a.restarts ==> Addable(kept, entries[..n])
      decreases |entries| - n, err == Nil
    {
      ghost var f, s := stop, c.x;
      r, err, f := AddEntry(c, ns, entries, n, backups, r, a, kept, job);
      if err == Nil {
        AddedMore(job, old(c.x), s, c.x, entries, n, fs, f);
        n, fs := n + 1, fs + [f];
      } else {
        stop := f;
      }
    }
    assert n == |entries| ==> entries[..n] == entries;
  }

  // ---- rollback

  /** State a is within every cap, and within the cap of the source being applied. */
  ghost predicate StartsWithin(c: Client, ns: Namespace, limit: nat, a: Server) {
    && (forall i :: 0 <= i < |c.caps| ==> |Owned(c.t, c.caps[i].ns, a)| <= c.caps[i].limit)
    && (limit > 0 ==> |Owned(c.t, ns, a)| <= limit)
  }

  /** Where some of a's outbounds are missing there is room for one of them. */
  lemma RoomForBackup(t: Target, cap: Cap, a: Server, s: Server, h: Outbound)
    requires |Owned(t, cap.ns, a)| <= cap.limit
    requires s.outbounds.Keys <= a.outbounds.Keys - {h.tag} && h.tag in Owned(t, cap.ns, a)
    ensures Room(t, cap, s)
  {
    SubsetSize(Owned(t, cap.ns, s), Owned(t, cap.ns, a) - {h.tag});
  }

  /** If Xray has not restarted since state a, it holds kept and, beside it, added. */
  ghost predicate HoldsAdded(c: Client, a: Server, kept: map<Tag, string>, added: seq<Outbound>)
    reads c
  {
    Holds(c, a, kept + MapOf(added)) && (c.x.restarts == a.restarts ==> Addable(kept, added))
  }

  /** Takes back the additions, last first, errors ignored. */
  method TakeBack(c: Client, ghost ns: Namespace, added: seq<Outbound>, ghost a: Server, ghost kept: map<Tag, string>)
    returns (ghost fs: seq<Fate>)
    requires Working(c, ns)
    requires forall h :: h in added ==> c.session.scope.Covers(KindOutbound, h.tag)
    modifies c
    ensures Working(c, ns) && c.Moved()
    ensures old(HoldsAdded(c, a, kept, added)) && c.failed == old(c.failed) ==> Holds(c, a, kept)
    ensures |fs| == |added| && c.x == TakingBack(c.boot, old(c.x), added, fs)
    ensures c.failed == old(c.failed) ==> forall i :: 0 <= i < |fs| ==> fs[i].done
  {
    ghost var clean := HoldsAdded(c, a, kept, added);
    var k := |added|;
    fs := [];
    assert added[..k] == added;
    while k > 0
      invariant k <= |added| && Working(c, ns) && c.Moved()
      invariant |fs| == |added| - k && c.x == TakingBack(c.boot, old(c.x), added, fs)
      invariant c.failed == old(c.failed) ==> forall i :: 0 <= i < |fs| ==> fs[i].done
      invariant clean && c.failed == old(c.failed) ==> Holds(c, a, kept + MapOf(added[..k]))
    {
      k := k - 1;
      ghost var f := TakeBackOne(c, ns, added[k], a, kept + MapOf(added[..k + 1]));
      assert (fs + [f])[..|fs|] == fs;
      fs := fs + [f];
      if clean && c.x.restarts == a.restarts {
        OneLess(kept, added, k);
      }
    }
    assert kept + MapOf(added[..0]) == kept;
  }

  lemma OneLess(kept: map<Tag, string>, added: seq<Outbound>, k: nat)
    requires k < |added| && Addable(kept, added)
    ensures kept + MapOf(added[..k + 1]) - {added[k].tag} == kept + MapOf(added[..k])
  {
    KeysOf(added[..k]);
    OneMore(kept, added, k);
  }

  method TakeBackOne(c: Client, ghost ns: Namespace, h: Outbound, ghost a: Server, ghost m: map<Tag, string>)
    returns (ghost f: Fate)
    requires Working(c, ns) && c.session.scope.Covers(KindOutbound, h.tag)
    modifies c
    ensures Working(c, ns) && c.Moved()
    ensures old(Holds(c, a, m)) && c.failed == old(c.failed) ==> Holds(c, a, m - {h.tag})
    ensures c.x == AfterRemoval(c.boot, old(c.x), h.tag, f) && (c.failed == old(c.failed) ==> f.done)
  {
    ghost var s := c.x;
    var err := c.RemoveOutbound(h.tag);
    f := Fate(c.x.restarts - s.restarts, err == Nil || c.x != Base(c.boot, s, c.x), err == Nil);
  }

  /** Of no pair both are among the tags. */
  ghost predicate Spread(apart: set<(Tag, Tag)>, tags: set<Tag>) {
    forall p :: p in apart ==> !(p.0 in tags && p.1 in tags)
  }

  /** The backups, once restored beside what there is of the scope, stay within reach, of which no
      pair has both; with a cap of one there are never two. */
  ghost predicate Restorable(apart: set<(Tag, Tag)>, scope: Scope, backups: seq<Outbound>, limit: nat, reach: set<Tag>, s: Server) {
    && Clashless(apart, scope, [])
    && (forall h :: h in backups ==> scope.Covers(KindOutbound, h.tag))
    && (limit == 1 || (Spread(apart, reach) && Mine(scope, s) <= reach && forall h :: h in backups ==> h.tag in reach))
  }

  /** A backup fits: it makes no pair. */
  lemma BackupFits(t: Target, ns: Namespace, apart: set<(Tag, Tag)>, backups: seq<Outbound>, limit: nat, reach: set<Tag>, s: Server, h: Outbound)
    requires var scope := SourceScope(t, ns);
             Restorable(apart, scope, backups, limit, reach, s) && h in backups && (limit == 1 ==> Mine(scope, s) == {})
    ensures Apart(apart, s.WithOutbound(h))
  {
    var scope := SourceScope(t, ns);
    var held := s.WithOutbound(h).outbounds.Keys;
    forall p | p in apart
      ensures !(p.0 in held && p.1 in held)
    {
      assert p.0 in held ==> p.0 == h.tag || p.0 in Mine(scope, s);
      assert p.1 in held ==> p.1 == h.tag || p.1 in Mine(scope, s);
    }
  }

  /** restoreBackups: the backups are added again in removal order, errors ignored; with a cap
      every add first passes CheckCap, and the first refusal ends the restore. If all of them fit
      the caps beside what there is and no call fails, all of them are restored. */
  method RestoreBackups(c: Client, ns: Namespace, backups: seq<Outbound>, limit: nat, ghost reach: set<Tag>, ghost job: Job)
    returns (ghost fs: seq<Fate>)
    requires WorksOn(c, ns, job) && job.limit == limit
    requires Restorable(c.session.apart, c.session.scope, backups, limit, reach, c.x)
    requires Distinct(backups)
    modifies c
    ensures WorksOn(c, ns, job) && c.Moved()
    ensures |fs| <= |backups| && c.x == Restoring(job, old(c.x), backups, fs).s
    ensures |fs| < |backups| ==> !Restoring(job, old(c.x), backups, fs).going
    ensures old(Addable(c.x.outbounds, backups)) && old(WithAllWithin(c, ns, limit, c.x, backups)) && c.failed == old(c.failed) ==>
              Holds(c, old(c.x), old(c.x.outbounds) + MapOf(backups))
  {
    ghost var s := c.x;
    ghost var clean := Addable(s.outbounds, backups) && WithAllWithin(c, ns, limit, s, backups);
    assert s.outbounds + MapOf(backups[..0]) == s.outbounds;
    var k, ok := 0, true;
    fs := [];
    while k < |backups| && ok
      invariant k <= |backups| && WorksOn(c, ns, job) && c.Moved()
      invariant Restorable(c.session.apart, c.session.scope, backups, limit, reach, c.x)
      invariant |fs| == k && Restoring(job, s, backups, fs) == Progress(c.x, ok)
      invariant clean && c.failed == old(c.failed) ==> RestoredTo(c, s, backups, k, ok)
      decreases |backups| - k, ok
    {
      ghost var b := c.x;
      ghost var f;
      ok, f := RestoreNext(c, ns, backups, k, limit, s, reach, job, clean);
      RestoringMore(job, s, b, c.x, backups, fs, f, ok);
      k, fs := k + 1, fs + [f];
    }
    assert k == |backups| ==> backups[..k] == backups;
  }

  /** The first k backups are restored since state s; if Xray has not restarted none was refused. */
  ghost predicate RestoredTo(c: Client, s: Server, backups: seq<Outbound>, k: nat, ok: bool)
    requires k <= |backups|
    reads c
  {
    Holds(c, s, s.outbounds + MapOf(backups[..k])) && (c.x.restarts == s.restarts ==> ok)
  }

  lemma RestoringMore(job: Job, s: Server, b: Server, x: Server, backups: seq<Outbound>, fs: seq<Fate>, f: Fate, ok: bool)
    requires |fs| < |backups| && Restoring(job, s, backups, fs) == Progress(b, true)
    requires AfterRestore(job, b, backups[|fs|], f) == Progress(x, ok)
    ensures Restoring(job, s, backups, fs + [f]) == Progress(x, ok)
  {
    assert (fs + [f])[..|fs|] == fs;
  }

  /** The next backup. */
  method RestoreNext(c: Client, ns: Namespace, backups: seq<Outbound>, k: nat, limit: nat, ghost s: Server, ghost reach: set<Tag>,
                     ghost job: Job, ghost clean: bool)
    returns (ok: bool, ghost f: Fate)
    requires WorksOn(c, ns, job) && job.limit == limit && k < |backups|
    requires Restorable(c.session.apart, c.session.scope, backups, limit, reach, c.x)
    requires clean ==> Addable(s.outbounds, backups) && WithAllWithin(c, ns, limit, s, backups)
    modifies c
    ensures WorksOn(c, ns, job) && c.Moved()
    ensures Restorable(c.session.apart, c.session.scope, backups, limit, reach, c.x)
    ensures AfterRestore(job, old(c.x), backups[k], f) == Progress(c.x, ok)
    ensures clean && old(RestoredTo(c, s, backups, k, true)) && c.failed == old(c.failed) ==> RestoredTo(c, s, backups, k + 1, ok)
  {
    if clean {
      BackupMissing(s, backups, k);
    }
    ghost var full := s.(outbounds := s.outbounds + MapOf(backups));
    ok, f := RestoreOne(c, ns, backups, k, limit, full, s.outbounds + MapOf(backups[..k]), reach, job);
    OneMore(s.outbounds, backups, k);
  }

  /** State s with all backups is within the caps. */
  ghost predicate WithAllWithin(c: Client, ns: Namespace, limit: nat, s: Server, backups: seq<Outbound>)
    reads c
  {
    StartsWithin(c, ns, limit, s.(outbounds := s.outbounds + MapOf(backups)))
  }

  lemma BackupMissing(s: Server, backups: seq<Outbound>, k: nat)
    requires k < |backups| && Addable(s.outbounds, backups)
    ensures (s.outbounds + MapOf(backups[..k])).Keys <= (s.outbounds + MapOf(backups)).Keys - {backups[k].tag}
    ensures backups[k].tag in MapOf(backups)
  {
    KeysOf(backups);
    KeysOf(backups[..k]);
  }

  /** Xray can hold backup h beside m, within the caps. */
  ghost predicate Fits(c: Client, ns: Namespace, limit: nat, full: Server, m: map<Tag, string>, h: Outbound)
    reads c
  {
    StartsWithin(c, ns, limit, full) && m.Keys <= full.outbounds.Keys - {h.tag} && h.tag in full.outbounds
  }

  /** The check before one step of the restore; ok is false when it refused. */
  method MayRestore(c: Client, ns: Namespace, h: Outbound, limit: nat, ghost full: Server, ghost m: map<Tag, string>, ghost job: Job)
    returns (ok: bool, ghost answered: bool)
    requires WorksOn(c, ns, job) && job.limit == limit && c.session.scope.Covers(KindOutbound, h.tag)
    modifies c
    ensures WorksOn(c, ns, job) && c.Looked() && c.lost == old(c.lost)
    ensures ok <==> (limit > 0 ==> answered && Room(c.t, Cap(ns, limit), c.x))
    ensures old(Holds(c, full, m)) && old(Fits(c, ns, limit, full, m, h)) && c.failed == old(c.failed) && c.x.restarts == full.restarts ==> ok
  {
    ok, answered := true, true;
    if limit > 0 {
      ghost var clean := Holds(c, full, m) && Fits(c, ns, limit, full, m, h);
      var refused := c.CheckCap(Cap(ns, limit));
      ok, answered := refused == Nil, refused != RpcError;
      if clean && c.x.restarts == full.restarts && refused == CapReached {
        RoomForBackup(c.t, Cap(ns, limit), full, c.x, h);
      }
    }
  }

  /** One backup is added again. */
  method AddBackup(c: Client, ghost ns: Namespace, h: Outbound, ghost limit: nat, ghost full: Server, ghost m: map<Tag, string>, ghost job: Job)
    returns (ghost done: bool)
    requires WorksOn(c, ns, job) && c.session.scope.Covers(KindOutbound, h.tag)
    requires Apart(c.session.apart, c.x.WithOutbound(h)) && Apart(c.session.apart, c.boot.WithOutbound(h))
    modifies c
    ensures WorksOn(c, ns, job) && c.Moved()
    ensures c.x == AfterAddition(job, old(c.x), h, Fate(c.x.restarts - old(c.x.restarts), done, true))
    ensures old(Holds(c, full, m)) && old(Fits(c, ns, limit, full, m, h)) && c.failed == old(c.failed) ==>
              Holds(c, full, m[h.tag := h.json])
  {
    ghost var s := c.x;
    ghost var clean := Holds(c, full, m) && Fits(c, ns, limit, full, m, h);
    var err := c.AddOutbound(h);
    if clean && c.x.restarts == full.restarts && err == CapReached {
      ghost var i :| 0 <= i < |c.caps| && c.caps[i].ns.Owns(KindOutbound, h.tag) && !Room(c.t, c.caps[i], c.x);
      RoomForBackup(c.t, c.caps[i], full, c.x, h);
    }
    done := h.tag in c.x.outbounds && h.tag !in Base(c.boot, s, c.x).outbounds;
  }

  /** One step of the restore; ok is false when CheckCap refused it. */
  method RestoreOne(c: Client, ns: Namespace, backups: seq<Outbound>, k: nat, limit: nat, ghost full: Server, ghost m: map<Tag, string>,
                    ghost reach: set<Tag>, ghost job: Job)
    returns (ok: bool, ghost f: Fate)
    requires WorksOn(c, ns, job) && job.limit == limit && k < |backups|
    requires Restorable(c.session.apart, c.session.scope, backups, limit, reach, c.x)
    modifies c
    ensures WorksOn(c, ns, job) && c.Moved()
    ensures Restorable(c.session.apart, c.session.scope, backups, limit, reach, c.x)
    ensures AfterRestore(job, old(c.x), backups[k], f) == Progress(c.x, ok)
    ensures old(Holds(c, full, m)) && old(Fits(c, ns, limit, full, m, backups[k])) && c.failed == old(c.failed) ==>
              Holds(c, full, m[backups[k].tag := backups[k].json]) && (c.x.restarts == full.restarts ==> ok)
  {
    var h := backups[k];
    ghost var s := c.x;
    ghost var answered, done := true, false;
    ok, answered := MayRestore(c, ns, h, limit, full, m, job);
    ghost var b := c.x;
    if ok {
      AloneWithinOne(c.t, ns, limit, c.x);
      BackupFits(c.t, ns, c.session.apart, backups, limit, reach, c.x, h);
      BackupFits(c.t, ns, c.session.apart, backups, limit, reach, c.boot, h);
      done := AddBackup(c, ns, h, limit, full, m, job);
    }
    f := Fate(c.x.restarts - s.restarts, done, answered);
    StepOfRestore(job, s, b, c.x, h, ok, f);
  }

  lemma AloneWithinOne(t: Target, ns: Namespace, limit: nat, s: Server)
    ensures limit == 1 && Room(t, Cap(ns, limit), s) ==> Mine(SourceScope(t, ns), s) == {}
  {
    assert Mine(SourceScope(t, ns), s) == Owned(t, ns, s);
  }

  /** The check saw state b, the addition built on it or on a freshly booted Xray. */
  lemma StepOfRestore(job: Job, s: Server, b: Server, x: Server, h: Outbound, ok: bool, f: Fate)
    requires Clear(SourceScope(job.t, job.ns), job.boot) && s.restarts <= b.restarts <= x.restarts && b == Base(job.boot, s, b)
    requires ok <==> (job.limit > 0 ==> f.answered && Room(job.t, Cap(job.ns, job.limit), b))
    requires f.restarts == x.restarts - s.restarts
    requires if ok then x == AfterAddition(job, b, h, Fate(x.restarts - b.restarts, f.done, true)) else x == b
    ensures AfterRestore(job, s, h, f) == Progress(x, ok)
  {
    assert Owned(job.t, job.ns, job.boot) == {};
    assert Owned(job.t, job.ns, job.boot.(restarts := x.restarts)) == {};
  }

  // ---- the apply

  /** failedID: the entry being added, else the last added one, else the first entry. */
  function FailedId(currentId: Tag, added: seq<Tag>, entries: seq<Outbound>): Tag {
    if currentId != "" then currentId
    else if |added| > 0 then added[|added| - 1]
    else if |entries| > 0 && entries[0].tag != "" then entries[0].tag
    else "unknown"
  }

  datatype Outcome = ListFailed | Reported(r: Report)

  lemma {:induction false} SelectAt(existing: seq<Outbound>, n: nat, scope: Scope)
    requires n <= |existing|
    ensures Select(existing[..n], scope) <= Select(existing, scope)
    ensures n < |existing| && scope.Covers(KindOutbound, existing[n].tag) ==>
              var k := |Select(existing[..n], scope)|;
              k < |Select(existing, scope)| && Select(existing, scope)[k] == existing[n]
    decreases |existing| - n
  {
    if n < |existing| {
      SelectStep(existing, n, scope);
      SelectAt(existing, n + 1, scope);
    } else {
      assert existing[..n] == existing;
    }
  }

  /** Steps 3 and 4 of the job, begun in state a, ended in state x by the script, having removed
      the backups and added n entries. */
  ghost predicate StoppedAt(job: Job, a: Server, x: Server, sc: Script, backups: seq<Outbound>, n: nat) {
    && Stops(job, a, sc) && x == Stopped(job, a, sc)
    && backups == job.mine[..|sc.removed|] && n == |sc.added| && sc.takenBack == [] && sc.restored == []
  }

  /** The removals failed. */
  lemma StoppedRemoving(job: Job, a: Server, x: Server, existing: seq<Outbound>, seen: nat, scope: Scope, backups: seq<Outbound>,
                        fs: seq<Fate>, stop: Fate)
    requires seen < |existing| && scope.Covers(KindOutbound, existing[seen].tag) && job.mine == Select(existing, scope)
    requires backups == Select(existing[..seen], scope) && |fs| == |backups| && !stop.Ok()
    requires forall i :: 0 <= i < |fs| ==> fs[i].Ok()
    requires x == AfterRemoval(job.boot, Removing(job.boot, a, backups, fs), existing[seen].tag, stop)
    ensures StoppedAt(job, a, x, Script(fs, [], stop, [], []), backups, 0) && Fails(job, Script(fs, [], stop, [], []))
  {
    SelectAt(existing, seen, scope);
    assert job.mine[..|fs|] == backups && job.entries[..0] == [];
  }

  /** All removals worked. */
  lemma StoppedAdding(job: Job, a: Server, s: Server, x: Server, n: nat, fs: seq<Fate>, added: seq<Fate>, stop: Fate)
    requires |fs| == |job.mine| && (forall i :: 0 <= i < |fs| ==> fs[i].Ok()) && n <= |job.entries|
    requires s == Removing(job.boot, a, job.mine, fs) && Additions(job, s, x, job.entries, n, added, stop)
    ensures StoppedAt(job, a, x, Script(fs, added, stop, [], []), job.mine, n)
    ensures Fails(job, Script(fs, added, stop, [], [])) <==> n < |job.entries|
  {
    assert job.mine[..|fs|] == job.mine;
  }

  /** Step 3 of the job. */
  method RemoveMine(c: Client, ns: Namespace, existing: seq<Outbound>, ghost job: Job)
    returns (r: Report, backups: seq<Outbound>, err: Error, ghost fs: seq<Fate>, ghost stop: Fate)
    requires WorksOn(c, ns, job) && job.mine == Select(existing, c.session.scope) && Lists(existing, c.x)
    modifies c
    ensures WorksOn(c, ns, job) && c.Moved() && r == Done(backups, [])
    ensures forall h :: h in backups ==>
              c.session.scope.Covers(KindOutbound, h.tag) && h.tag in old(c.x.outbounds) && old(c.x.outbounds)[h.tag] == h.json
    ensures Distinct(backups)
    ensures err == Nil || c.lost == old(c.lost) ==> HoldsSince(c, old(c.x), old(c.x.outbounds) - MapOf(backups).Keys)
    ensures c.lost == old(c.lost) ==> !stop.done
    ensures err == Nil ==>
              && MapOf(backups).Keys == Mine(c.session.scope, old(c.x)) && Mine(c.session.scope, c.x) == {} && c.lost == old(c.lost)
              && backups == job.mine && |fs| == |job.mine| && (forall i :: 0 <= i < |fs| ==> fs[i].Ok())
              && c.x == Removing(job.boot, old(c.x), job.mine, fs)
    ensures err != Nil ==>
              && StoppedAt(job, old(c.x), c.x, Script(fs, [], stop, [], []), backups, 0)
              && Fails(job, Script(fs, [], stop, [], []))
  {
    ghost var a := c.x;
    ghost var scope := c.session.scope;
    var seen;
    r, backups, err, seen, fs, stop := RemoveOwned(c, ns, existing);
    SelectMembers(existing[..seen], scope);
    LeftIs(a.outbounds, backups);
    assert existing[..seen] <= existing;
    if err != Nil {
      StoppedRemoving(job, a, c.x, existing, seen, scope, backups, fs, stop);
    } else {
      assert existing[..seen] == existing;
      SelectedAreMine(existing, a, scope);
    }
  }

  /** Steps 3 and 4: the owned outbounds are removed, then the entries added. */
  method Exchange(c: Client, ns: Namespace, existing: seq<Outbound>, entries: seq<Outbound>, ghost job: Job)
    returns (r: Report, backups: seq<Outbound>, n: nat, currentId: Tag, err: Error, ghost sc: Script)
    requires WorksOn(c, ns, job) && job.entries == entries && job.mine == Select(existing, c.session.scope) && Lists(existing, c.x)
    requires forall h :: h in entries ==> c.session.scope.Covers(KindOutbound, h.tag)
    modifies c
    ensures WorksOn(c, ns, job) && c.Moved()
    ensures n <= |entries| && r == Done(backups, entries[..n])
    ensures forall h :: h in backups ==>
              c.session.scope.Covers(KindOutbound, h.tag) && h.tag in old(c.x.outbounds) && old(c.x.outbounds)[h.tag] == h.json
    ensures Distinct(backups)
    ensures StoppedAt(job, old(c.x), c.x, sc, backups, n) && (err == Nil <==> !Fails(job, sc))
    ensures c.lost == old(c.lost) ==> !sc.stop.done
    ensures err == Nil || c.lost == old(c.lost) ==>
              Holds(c, old(c.x), (old(c.x.outbounds) - MapOf(backups).Keys) + MapOf(entries[..n]))
    ensures c.x.restarts == old(c.x.restarts) ==> Addable(old(c.x.outbounds) - MapOf(backups).Keys, entries[..n])
    ensures err == Nil ==>
              && n == |entries| && MapOf(backups).Keys == Mine(c.session.scope, old(c.x))
              && Mine(c.session.scope, c.x) <= MapOf(entries).Keys
    ensures err != Nil && n < |entries| && currentId != "" ==> currentId == entries[n].tag
  {
    ghost var a := c.x;
    currentId, n := "", 0;
    ghost var fs, added, stop;
    r, backups, err, fs, stop := RemoveMine(c, ns, existing, job);
    ghost var kept := a.outbounds - MapOf(backups).Keys;
    assert kept + MapOf(entries[..0]) == kept;
    sc := Script(fs, [], stop, [], []);
    if err == Nil {
      ghost var s := c.x;
      r, n, err, added, stop := AddEntries(c, ns, entries, backups, r, a, kept, job);
      StoppedAdding(job, a, s, c.x, n, fs, added, stop);
      sc := Script(fs, added, stop, [], []);
      if n < |entries| {
        currentId := entries[n].tag;
      }
    }
  }

  predicate Conflicts(t: Target, entries: seq<Outbound>) {
    exists h :: h in entries && h.tag in t.fixedOutbounds
  }

  /** Step 1: the first entry whose tag is fixed. */
  method FindConflict(t: Target, entries: seq<Outbound>) returns (conflict: bool, id: Tag)
    ensures conflict <==> Conflicts(t, entries)
    ensures conflict ==> exists i :: 0 <= i < |entries| && entries[i].tag == id && id in t.fixedOutbounds &&
                                     forall j :: 0 <= j < i ==> entries[j].tag !in t.fixedOutbounds
  {
    for i := 0 to |entries|
      invariant forall j :: 0 <= j < i ==> entries[j].tag !in t.fixedOutbounds
    {
      if entries[i].tag in t.fixedOutbounds {
        assert entries[i] in entries;
        return true, entries[i].tag;
      }
    }
    return false, "";
  }

  /** Outbounds: replaces the outbounds of the source with the entries. On success Xray holds
      the entries in place of the source's outbounds, and the report says so. On failure the
      apply is rolled back: if no answer was lost, no call of the rollback failed (rolled counts
      them), Xray did not restart and it held no more outbounds than the caps allow, it is as it
      was before. The pairs of the session stay apart up to the restore (state mid); they may meet
      (met) only if an answer was lost or a call of the rollback failed, some pair's second
      outbound was there and its first is an entry, and the limit is not one. */
  method Outbounds(c: Client, ns: Namespace, entries: seq<Outbound>, limit: nat)
    returns (o: Outcome, ghost rolled: nat, ghost met: bool, ghost mid: nat)
    requires Working(c, ns) && Clashless(c.session.apart, c.session.scope, entries)
    requires forall h :: h in entries ==> ns.Owns(KindOutbound, h.tag)
    modifies c
    ensures Working(c, ns) && c.Kept()
    ensures Conflicts(c.t, entries) ==>
              c.trace == old(c.trace) && o.Reported? && o.r.failed == 1 && o.r.deletedIds == [] && o.r.appliedIds == []
    ensures o.ListFailed? ==> c.Looked()
    ensures o.Reported? ==> o.r.failed <= 1
    ensures o.Reported? && o.r.failed == 0 ==>
              Mine(c.session.scope, c.x) <= MapOf(entries).Keys
    ensures o.Reported? && o.r.failed == 0 && c.x.restarts == old(c.x.restarts) ==>
              && Distinct(entries)
              && c.x == old(c.x).(outbounds := old(c.x.outbounds) - Mine(c.session.scope, old(c.x)) + MapOf(entries))
              && Reports(o.r, Mine(c.session.scope, old(c.x)), entries)
    ensures o.Reported? && o.r.failed == 1 && c.lost == old(c.lost) && rolled == 0 &&
            c.x.restarts == old(c.x.restarts) && old(StartsWithin(c, ns, limit, c.x)) ==>
              c.x == old(c.x)
    ensures !met ==> c.Moved()
    ensures met ==> o.Reported? && o.r.failed == 1
    ensures met ==> NeverBoth(c.trace, old(c.session.from), mid, old(c.session.apart)) && |old(c.trace)| <= mid <= |c.trace|
    ensures met ==> limit != 1 && !(c.lost == old(c.lost) && rolled == 0) && Meetable(old(c.session.apart), old(c.x), entries)
  {
    rolled, met, mid := 0, false, 0;
    var conflict, id := FindConflict(c.t, entries);
    if conflict {
      return Reported(EmptyReport.WithFailure(id)), rolled, met, mid;
    }
    var existing, err := c.ListOutbounds();
    if err != Nil {
      return ListFailed, rolled, met, mid;
    }
    ghost var a := c.x;
    var r;
    ghost var account;
    r, rolled, account := ApplyListed(c, ns, existing, entries, limit);
    met, mid := account.met, account.mid;
    o := Reported(r);
    if met {
      AccountOfMet(account, a, old(c.session.apart), ns);
      assert Meetable(old(c.session.apart), a, entries);
    }
  }

  /** Some pair has its second outbound in Xray and its first among the entries. */
  ghost predicate Meetable(apart: set<(Tag, Tag)>, a: Server, entries: seq<Outbound>) {
    exists p :: p in apart && p.1 in a.outbounds && p.0 in Tags(entries)
  }

  /** How an apply went: its script and, if pairs were in reach when the restore began at state
      mid, met. */
  datatype Account = Account(job: Job, sc: Script, met: bool, mid: nat)

  /** The job of an apply in scope of ns that finds Xray in state a. */
  ghost predicate JobAt(job: Job, a: Server, ns: Namespace, entries: seq<Outbound>, limit: nat) {
    Sensible(job, a) && job.ns == ns && job.entries == entries && job.limit == limit
  }

  /** Why pairs were in reach. */
  lemma AccountOfMet(account: Account, a: Server, apart: set<(Tag, Tag)>, ns: Namespace)
    requires Sensible(account.job, a) && IsRun(account.job, a, account.sc) && Fails(account.job, account.sc)
    requires Clashless(apart, SourceScope(account.job.t, account.job.ns), account.job.entries) && Apart(apart, a)
    requires !Spread(apart, Reach(account.job, a, account.sc))
    ensures !Answered(account.sc) && Meetable(apart, a, account.job.entries)
  {
    var job, sc := account.job, account.sc;
    var p :| p in apart && p.0 in Reach(job, a, sc) && p.1 in Reach(job, a, sc);
    assert p.1 !in Tags(job.entries) by {
      assert forall i :: 0 <= i < |job.entries| ==> job.entries[i] in job.entries;
    }
    InReachOnlyIf(job, a, sc, p);
    if Answered(sc) {
      NotInReach(job, a, sc, p);
    }
  }

  /** Outbounds from its removals on: a run of the job. */
  method ApplyListed(c: Client, ns: Namespace, existing: seq<Outbound>, entries: seq<Outbound>, limit: nat)
    returns (r: Report, ghost rolled: nat, ghost account: Account)
    requires Working(c, ns) && Clashless(c.session.apart, c.session.scope, entries) && Lists(existing, c.x)
    requires forall h :: h in entries ==> c.session.scope.Covers(KindOutbound, h.tag)
    modifies c
    ensures Working(c, ns) && c.Kept() && r.failed <= 1
    ensures r.failed == 0 ==>
              && Mine(c.session.scope, c.x) <= MapOf(entries).Keys
              && (c.x.restarts == old(c.x.restarts) ==>
                    && Distinct(entries)
                    && c.x == old(c.x).(outbounds := old(c.x.outbounds) - Mine(c.session.scope, old(c.x)) + MapOf(entries))
                    && Reports(r, Mine(c.session.scope, old(c.x)), entries))
    ensures r.failed == 1 && c.lost == old(c.lost) && rolled == 0 &&
            c.x.restarts == old(c.x.restarts) && old(StartsWithin(c, ns, limit, c.x)) ==>
              c.x == old(c.x)
    ensures JobAt(account.job, old(c.x), ns, entries, limit) && account.job.t == c.t && account.job.caps == c.caps
    ensures IsRun(account.job, old(c.x), account.sc) && c.x == End(account.job, old(c.x), account.sc)
    ensures r.failed == 1 <==> Fails(account.job, account.sc)
    ensures c.lost == old(c.lost) && rolled == 0 ==> Answered(account.sc)
    ensures !account.met ==> c.Moved()
    ensures account.met ==>
              && Fails(account.job, account.sc) && limit != 1
              && !Spread(old(c.session.apart), Reach(account.job, old(c.x), account.sc))
              && |old(c.trace)| <= account.mid <= |c.trace|
              && NeverBoth(c.trace, old(c.session.from), account.mid, old(c.session.apart))
  {
    ghost var a := c.x;
    ghost var job := Job(c.t, c.caps, ns, limit, c.boot, Select(existing, c.session.scope), entries);
    JobIsSensible(job, existing, a);
    var backups, n, currentId, err;
    ghost var sc;
    r, backups, n, currentId, err, sc := Exchange(c, ns, existing, entries, job);
    DoneSays(backups, entries[..n]);
    rolled := 0;
    if err != Nil {
      ghost var before, mid, met := c.failed, 0, false;
      sc, mid, met := RollBack(c, ns, entries[..n], backups, limit, a, job, sc);
      rolled := c.failed - before;
      r := r.WithFailure(FailedId(currentId, r.appliedIds, entries));
      account := Account(job, sc, met, mid);
    } else {
      assert entries[..n] == entries;
      if c.x.restarts == a.restarts {
        DoneReports(backups, entries);
      }
      account := Account(job, sc, false, |c.trace|);
    }
  }

  lemma JobIsSensible(job: Job, existing: seq<Outbound>, a: Server)
    requires var scope := SourceScope(job.t, job.ns);
             && Lists(existing, a) && Clear(scope, job.boot) && job.mine == Select(existing, scope)
             && (forall h :: h in job.entries ==> scope.Covers(KindOutbound, h.tag))
    ensures Sensible(job, a)
  {
    var scope := SourceScope(job.t, job.ns);
    SelectMembers(existing, scope);
    SelectedAreMine(existing, a, scope);
    KeysOf(job.mine);
    forall tag | tag in Mine(scope, a)
      ensures tag in Tags(job.mine)
    {
      var i :| 0 <= i < |job.mine| && job.mine[i].tag == tag;
      assert Tags(job.mine)[i] == tag;
    }
  }

  /** r reports the exchange of the outbounds mine for the entries. */
  ghost predicate Reports(r: Report, mine: set<Tag>, entries: seq<Outbound>) {
    && (set tag | tag in r.deletedIds) == mine && |r.deletedIds| == r.removed == |mine|
    && r.appliedIds == Tags(entries)
    && r.replaced == |mine * MapOf(entries).Keys|
    && r.added == |MapOf(entries).Keys - mine|
  }

  lemma DoneReports(backups: seq<Outbound>, entries: seq<Outbound>)
    requires Distinct(backups) && Distinct(entries)
    ensures Reports(Done(backups, entries), MapOf(backups).Keys, entries)
  {
    DoneSays(backups, entries);
    TagsAreKeys(backups);
    ReplacedCount(backups, entries);
    DistinctSize(backups);
    DistinctSize(entries);
    var mine, keys := MapOf(backups).Keys, MapOf(entries).Keys;
    assert keys == mine * keys + (keys - mine);
  }

  lemma TagsAreKeys(hs: seq<Outbound>)
    ensures (set tag | tag in Tags(hs)) == MapOf(hs).Keys
    ensures forall tag :: tag in Tags(hs) <==> tag in MapOf(hs).Keys
  {
    KeysOf(hs);
    forall i | 0 <= i < |hs|
      ensures hs[i].tag in Tags(hs)
    {
      assert Tags(hs)[i] == hs[i].tag;
    }
  }

  /** The rollback: what was added is taken back, last first, then the backups are restored. If
      then a pair that must stay apart were in reach, the session ends where the restore begins (at
      state mid) and what follows is a session that keeps nothing apart. */
  method RollBack(c: Client, ns: Namespace, added: seq<Outbound>, backups: seq<Outbound>, limit: nat, ghost a: Server,
                  ghost job: Job, ghost sc: Script)
    returns (ghost sc': Script, ghost mid: nat, ghost met: bool)
    requires WorksOn(c, ns, job) && job.limit == limit
    requires forall h :: h in added ==> c.session.scope.Covers(KindOutbound, h.tag)
    requires forall h :: h in backups ==>
               c.session.scope.Covers(KindOutbound, h.tag) && h.tag in a.outbounds && a.outbounds[h.tag] == h.json
    requires Distinct(backups)
    requires StoppedAt(job, a, c.x, sc, backups, |added|) && Fails(job, sc) && added == job.entries[..|added|]
    modifies c
    ensures Working(c, ns) && c.Kept()
    ensures sc' == sc.(takenBack := sc'.takenBack, restored := sc'.restored) && IsRun(job, a, sc') && c.x == End(job, a, sc')
    ensures |old(c.trace)| <= mid <= |c.trace|
    ensures !met ==> c.Moved()
    ensures met ==> !Spread(old(c.session.apart), Reach(job, a, sc')) && limit != 1
    ensures met ==> NeverBoth(c.trace, old(c.session.from), mid, old(c.session.apart))
    ensures c.failed == old(c.failed) ==> forall i :: 0 <= i < |sc'.takenBack| ==> sc'.takenBack[i].done
    ensures old(HoldsAdded(c, a, a.outbounds - MapOf(backups).Keys, added)) && StartsWithin(c, ns, limit, a) &&
            c.failed == old(c.failed) && c.x.restarts == a.restarts ==>
              c.x == a
  {
    ghost var back, restored;
    back, met := Retreat(c, ns, added, backups, limit, a, job, sc);
    mid := |c.trace|;
    BackupsRestore(a.outbounds, backups);
    BackupsAreNew(a.outbounds, backups);
    restored := RestoreBackups(c, ns, backups, limit, Reach(job, a, sc.(takenBack := back)), job);
    sc' := sc.(takenBack := back, restored := restored);
    RunRolledBack(job, a, sc, sc', backups);
  }

  lemma RunRolledBack(job: Job, a: Server, sc: Script, sc': Script, backups: seq<Outbound>)
    requires Stops(job, a, sc) && sc' == sc.(takenBack := sc'.takenBack, restored := sc'.restored) && Fails(job, sc)
    requires backups == job.mine[..|sc.removed|] && |sc'.takenBack| == |sc.added| && |sc'.restored| <= |backups|
    requires |sc'.restored| < |backups| ==> !Restoring(job, TakenBack(job, a, sc'), backups, sc'.restored).going
    ensures IsRun(job, a, sc') && End(job, a, sc') == Restoring(job, TakenBack(job, a, sc'), backups, sc'.restored).s
    ensures Reach(job, a, sc') == Reach(job, a, sc.(takenBack := sc'.takenBack))
  {
  }

  /** The rollback up to the restore. */
  method Retreat(c: Client, ghost ns: Namespace, added: seq<Outbound>, ghost backups: seq<Outbound>, ghost limit: nat, ghost a: Server,
                 ghost job: Job, ghost sc: Script)
    returns (ghost fs: seq<Fate>, ghost met: bool)
    requires WorksOn(c, ns, job)
    requires forall h :: h in added + backups ==> c.session.scope.Covers(KindOutbound, h.tag)
    requires StoppedAt(job, a, c.x, sc, backups, |added|) && Fails(job, sc) && added == job.entries[..|added|]
    modifies c
    ensures WorksOn(c, ns, job) && c.Kept()
    ensures !met ==> c.Moved()
    ensures |fs| == |added| && c.x == TakenBack(job, a, sc.(takenBack := fs))
    ensures Restorable(c.session.apart, c.session.scope, backups, limit, Reach(job, a, sc.(takenBack := fs)), c.x)
    ensures met <==> limit != 1 && !Spread(old(c.session.apart), Reach(job, a, sc.(takenBack := fs)))
    ensures NeverBoth(c.trace, old(c.session.from), |c.trace|, old(c.session.apart))
    ensures c.failed == old(c.failed) ==> forall i :: 0 <= i < |fs| ==> fs[i].done
    ensures old(HoldsAdded(c, a, a.outbounds - MapOf(backups).Keys, added)) && c.failed == old(c.failed) ==>
              Holds(c, a, a.outbounds - MapOf(backups).Keys)
  {
    fs := TakeBack(c, ns, added, a, a.outbounds - MapOf(backups).Keys);
    met := LetMeet(c, ns, backups, limit, Reach(job, a, sc.(takenBack := fs)), job);
  }

  /** If a pair is in reach, a session that keeps nothing apart begins. */
  ghost method LetMeet(c: Client, ns: Namespace, backups: seq<Outbound>, limit: nat, reach: set<Tag>, job: Job) returns (met: bool)
    requires WorksOn(c, ns, job) && reach == c.x.outbounds.Keys + TagSet(backups)
    requires forall h :: h in backups ==> c.session.scope.Covers(KindOutbound, h.tag)
    modifies c`session, c`past
    ensures WorksOn(c, ns, job) && c.session.scope == old(c.session.scope)
    ensures Restorable(c.session.apart, c.session.scope, backups, limit, reach, c.x)
    ensures met <==> limit != 1 && !Spread(old(c.session.apart), reach)
    ensures !met ==> c.session == old(c.session) && c.past == old(c.past)
    ensures NeverBoth(c.trace, old(c.session.from), |c.trace|, old(c.session.apart))
  {
    ghost var apart, scope := c.session.apart, c.session.scope;
    met := limit != 1 && !Spread(apart, reach);
    SessionNeverBoth(c, apart);
    if met {
      NothingApart(c.x);
      NothingApart(c.boot);
      c.Begin(scope, {});
    }
    WithinReach(c.session.apart, scope, backups, limit, reach, c.x, job.entries);
  }

  lemma NothingApart(s: Server)
    ensures Apart({}, s)
  {
  }

  lemma WithinReach(apart: set<(Tag, Tag)>, scope: Scope, backups: seq<Outbound>, limit: nat, reach: set<Tag>, s: Server, entries: seq<Outbound>)
    requires Clashless(apart, scope, entries) && (limit == 1 || Spread(apart, reach))
    requires reach == s.outbounds.Keys + TagSet(backups) && forall h :: h in backups ==> scope.Covers(KindOutbound, h.tag)
    ensures Restorable(apart, scope, backups, limit, reach, s)
  {
    BackupsInReach(backups);
  }

  lemma BackupsInReach(backups: seq<Outbound>)
    ensures forall h :: h in backups ==> h.tag in TagSet(backups)
  {
    TagSetOf(backups);
    forall h | h in backups
      ensures h.tag in Tags(backups)
    {
      var i :| 0 <= i < |backups| && backups[i] == h;
      assert Tags(backups)[i] == h.tag;
    }
  }

  lemma BackupsAreNew(m: map<Tag, string>, backups: seq<Outbound>)
    requires Distinct(backups)
    ensures Addable(m - MapOf(backups).Keys, backups)
  {
    KeysOf(backups);
  }

  lemma {:induction false} DistinctSize(hs: seq<Outbound>)
    requires Distinct(hs)
    ensures |MapOf(hs).Keys| == |hs|
  {
    if hs != [] {
      var n := |hs| - 1;
      DistinctSize(hs[..n]);
      KeysOf(hs[..n]);
      assert MapOf(hs).Keys == MapOf(hs[..n]).Keys + {hs[n].tag};
    }
  }

  /** Replaced counts the entries whose tags were removed before. */
  lemma {:induction false} ReplacedCount(backups: seq<Outbound>, added: seq<Outbound>)
    requires Distinct(added)
    ensures Again(backups, added) == |MapOf(backups).Keys * MapOf(added).Keys|
  {
    KeysOf(backups);
    if added == [] {
      assert MapOf(backups).Keys * MapOf(added).Keys == {};
    } else {
      var n := |added| - 1;
      var tag := added[n].tag;
      ReplacedCount(backups, added[..n]);
      KeysOf(added[..n]);
      var rest := MapOf(backups).Keys * MapOf(added[..n]).Keys;
      assert tag !in rest;
      TagsAreKeys(backups);
      assert MapOf(backups).Keys * MapOf(added).Keys == if tag in Tags(backups) then rest + {tag} else rest;
    }
  }
}
